/**
  Canonical repository identifiers: free text in, lower-case "owner/name" out, or a reason for the rejection. Regular
  expressions are written out as the predicates and slices they match.
 */
module RepositoryId {
  import opened Basics

  const MAX_RAW_LENGTH := 512

  datatype Reason = Missing | TooLong | UnknownPlaceholder | LocalPath | Unparseable | InvalidCharset

  datatype Normalized = Id(id: string) | Rejected(reason: Reason)

  // ----- characters

  predicate EndsLine(c: char) {
    c == '\n' || c == '\r' || c == '\U{2028}' || c == '\U{2029}'
  }

  predicate IsLetter(c: char) {
    'a' <= c <= 'z' || 'A' <= c <= 'Z'
  }

  predicate IsDigit(c: char) {
    '0' <= c <= '9'
  }

  /** A character of the classes that the patterns for hosts, owners and names are built from. */
  predicate IsPlain(c: char) {
    IsLetter(c) || IsDigit(c) || c == '_' || c == '.' || c == '-'
  }

  /** Lower case where it can matter: ASCII letters, and the Kelvin sign, whose lower case is an ASCII letter. */
  function LowerChar(c: char): char {
    if 'A' <= c <= 'Z' then (c as int + 32) as char else if c == '\U{212A}' then 'k' else c
  }

  function Lower(s: string): (t: string)
    ensures |t| == |s| && forall i | 0 <= i < |s| :: t[i] == LowerChar(s[i])
  {
    seq(|s|, i requires 0 <= i < |s| => LowerChar(s[i]))
  }

  /** The length of a string as ECMAScript counts it. */
  function Units(s: string): nat {
    if s == [] then 0 else Units(s[..|s| - 1]) + (if s[|s| - 1] as int >= 0x1_0000 then 2 else 1)
  }

  // ----- string operations

  function TrimStart(s: string): string {
    if s != [] && IsSpace(s[0]) then TrimStart(s[1..]) else s
  }

  function TrimEnd(s: string): string {
    if s != [] && IsSpace(s[|s| - 1]) then TrimEnd(s[..|s| - 1]) else s
  }

  function Trim(s: string): string {
    TrimEnd(TrimStart(s))
  }

  function StripSlashes(s: string): string {
    if s != [] && s[|s| - 1] == '/' then StripSlashes(s[..|s| - 1]) else s
  }

  predicate EndsInGit(s: string) {
    |s| >= 4 && Lower(s[|s| - 4..]) == ".git"
  }

  function StripGit(s: string): string {
    if EndsInGit(s) then s[..|s| - 4] else s
  }

  /** The pieces between slashes. */
  function Split(s: string): seq<string> {
    var i := Find(s, '/');
    if i == |s| then [s] else [s[..i]] + Split(s[i + 1..])
  }

  /** The first position of `c`, or the length. */
  function Find(s: string, c: char): (i: nat)
    ensures i <= |s| && (i < |s| ==> s[i] == c) && forall j | 0 <= j < i :: s[j] != c
  {
    if s == [] || s[0] == c then 0 else 1 + Find(s[1..], c)
  }

  /** Trimmed, with the empty ones dropped. */
  function Segments(pieces: seq<string>): seq<string> {
    if pieces == [] then []
    else (if Trim(pieces[0]) == "" then [] else [Trim(pieces[0])]) + Segments(pieces[1..])
  }

  /** How many plain characters a string starts with. */
  function PlainRun(s: string): (n: nat)
    ensures n <= |s| && (forall i | 0 <= i < n :: IsPlain(s[i])) && (n < |s| ==> !IsPlain(s[n]))
  {
    if s == [] || !IsPlain(s[0]) then 0 else 1 + PlainRun(s[1..])
  }

  predicate OneLine(s: string) {
    forall i | 0 <= i < |s| :: !EndsLine(s[i])
  }

  // ----- the normalization

  predicate LooksLikeLocalPath(s: string) {
    || (|s| >= 2 && IsLetter(s[0]) && s[1] == ':')
    || (|s| >= 2 && s[0] == '\\' && s[1] == '\\')
    || (|s| >= 2 && s[0] == '/' && s[1] == '/')
    || (|s| >= 5 && Lower(s[..5]) == "file:")
    || (|s| >= 1 && (s[0] == '.' || s[0] == '~'))
  }

  /** user@host:path, with one slash dropped from the end of a longer path. */
  function SshPath(s: string): Option<string> {
    var n := PlainRun(s);
    if n == 0 || n == |s| || s[n] != '@' then None
    else
      var host := s[n + 1..];
      var m := PlainRun(host);
      if m == 0 || m == |host| || host[m] != ':' then None
      else
        var rest := host[m + 1..];
        var path := if |rest| >= 2 && rest[|rest| - 1] == '/' then rest[..|rest| - 1] else rest;
        if path == "" || !OneLine(path) then None else Some(path)
  }

  /** The length of an http or https scheme with its slashes, or 0. */
  function SchemeLength(s: string): (n: nat)
    ensures n <= |s|
  {
    if |s| >= 8 && Lower(s[..8]) == "https://" then 8
    else if |s| >= 7 && Lower(s[..7]) == "http://" then 7
    else 0
  }

  /** scheme://host/path */
  function HttpPath(s: string): Option<string> {
    var n := SchemeLength(s);
    if n == 0 then None
    else
      var rest := s[n..];
      var i := Find(rest, '/');
      if i == 0 || i >= |rest| - 1 || !OneLine(rest[i + 1..]) then None else Some(rest[i + 1..])
  }

  function Candidate(s: string): string {
    var ssh, http := SshPath(s), HttpPath(s);
    if ssh.Some? then ssh.value
    else if http.Some? then http.value
    else if s != [] && s[0] == '/' && (|s| == 1 || s[1] != '/') then s[1..]
    else s
  }

  /** The last two segments. */
  function ExtractOwnerRepo(s: string): Option<string> {
    var segments := Segments(Split(StripGit(StripSlashes(Candidate(s)))));
    var n := |segments|;
    if Candidate(s) == "" || n < 2 then None else Some(segments[n - 2] + "/" + segments[n - 1])
  }

  predicate IsCanonicalPart(s: string) {
    && s != [] && ('a' <= s[0] <= 'z' || IsDigit(s[0]))
    && forall i | 0 <= i < |s| :: IsPlain(s[i]) && !('A' <= s[i] <= 'Z')
  }

  /** owner/name, both lower case. The pattern has no underscore at the start and no other slash. */
  predicate IsCanonical(s: string) {
    var i := Find(s, '/');
    i < |s| && IsCanonicalPart(s[..i]) && IsCanonicalPart(s[i + 1..])
  }

  function Normalize(raw: Option<string>): Normalized {
    if raw.None? then Rejected(Missing)
    else if Units(raw.value) > MAX_RAW_LENGTH then Rejected(TooLong)
    else
      var trimmed := Trim(raw.value);
      if trimmed == "" || Lower(trimmed) == "unknown/repo" then Rejected(UnknownPlaceholder)
      else if LooksLikeLocalPath(trimmed) then Rejected(LocalPath)
      else
        var found := ExtractOwnerRepo(trimmed);
        if found.None? then Rejected(Unparseable)
        else if !IsCanonical(Lower(found.value)) then Rejected(InvalidCharset)
        else Id(Lower(found.value))
  }

  predicate IsSameRepository(a: Option<string>, b: Option<string>) {
    var x, y := Normalize(a), Normalize(b);
    x.Id? && y.Id? && x.id == y.id
  }

  // ----- paths of plain parts

  predicate AllPlain(s: string) {
    forall i | 0 <= i < |s| :: IsPlain(s[i])
  }

  /** What an owner, a name or a host looks like before lower-casing. */
  predicate IsPart(s: string) {
    s != [] && AllPlain(s) && (IsLetter(s[0]) || IsDigit(s[0]))
  }

  /** A user, or a host written before a path: anything plain, but a text that starts with a dot is a local path. */
  predicate IsWord(s: string) {
    s != [] && AllPlain(s) && s[0] != '.'
  }

  /** Plain characters and slashes only. */
  predicate IsPath(s: string) {
    forall i | 0 <= i < |s| :: IsPlain(s[i]) || s[i] == '/'
  }

  lemma FindSlash(a: string, b: string)
    requires '/' !in a
    ensures Find(a + "/" + b, '/') == |a| && Find(a, '/') == |a|
  {
    var s := a + "/" + b;
    assert s[|a|] == '/';
    assert forall i | 0 <= i < |a| :: s[i] == a[i];
  }

  lemma SplitAt(a: string, b: string)
    requires AllPlain(a)
    ensures Split(a + "/" + b) == [a] + Split(b) && Split(a) == [a]
  {
    FindSlash(a, b);
    var s := a + "/" + b;
    assert s[..|a|] == a && s[|a| + 1..] == b;
  }

  lemma SegmentsOfPart(a: string, rest: seq<string>)
    requires a != [] && AllPlain(a)
    ensures Segments([a] + rest) == [a] + Segments(rest)
  {
  }

  lemma TwoSegments(o: string, n: string)
    requires IsPart(o) && IsPart(n)
    ensures Segments(Split(o + "/" + n)) == [o, n]
  {
    SplitAt(o, n);
    SplitAt(n, "");
    assert Split(n) == [n] + [];
    SegmentsOfPart(n, []);
    SegmentsOfPart(o, Split(n));
  }

  lemma ThreeSegments(h: string, o: string, n: string)
    requires IsWord(h) && IsPart(o) && IsPart(n)
    ensures Segments(Split(h + "/" + (o + "/" + n))) == [h, o, n]
  {
    SplitAt(h, o + "/" + n);
    SegmentsOfPart(h, Split(o + "/" + n));
    TwoSegments(o, n);
  }

  /** A path ends in ".git" exactly when its last part does. */
  lemma GitIsInName(a: string, n: string)
    requires n != []
    ensures EndsInGit(a + "/" + n) <==> EndsInGit(n)
  {
    var s := a + "/" + n;
    if |n| >= 4 {
      assert s[|s| - 4..] == n[|n| - 4..];
    } else if |s| >= 4 {
      var tail := s[|s| - 4..];
      assert tail[3 - |n|] == '/';
      assert Lower(tail)[3 - |n|] == '/';
      assert ".git"[3 - |n|] != '/';
    }
  }

  // ----- lower case

  lemma LowerPart(s: string)
    requires IsPart(s)
    ensures IsCanonicalPart(Lower(s))
  {
  }

  lemma LowerJoin(a: string, b: string)
    ensures Lower(a + "/" + b) == Lower(a) + "/" + Lower(b)
  {
  }

  lemma LowerIsCanonical(o: string, n: string)
    requires IsPart(o) && IsPart(n)
    ensures IsCanonical(Lower(o + "/" + n))
  {
    LowerPart(o);
    LowerPart(n);
    LowerJoin(o, n);
    FindSlash(Lower(o), Lower(n));
    var s := Lower(o) + "/" + Lower(n);
    assert s[..|o|] == Lower(o) && s[|o| + 1..] == Lower(n);
  }

  lemma CanonicalParts(id: string) returns (o: string, n: string)
    requires IsCanonical(id)
    ensures id == o + "/" + n && IsCanonicalPart(o) && IsCanonicalPart(n) && IsPart(o) && IsPart(n) && Lower(id) == id
  {
    var i := Find(id, '/');
    o, n := id[..i], id[i + 1..];
    forall k | 0 <= k < |id|
      ensures LowerChar(id[k]) == id[k]
    {
      assert k < i ==> id[k] == o[k];
      assert k > i ==> id[k] == n[k - i - 1];
    }
  }

  // ----- fixed points

  lemma PathIsNoUrl(s: string)
    requires IsPath(s)
    ensures SshPath(s).None? && HttpPath(s).None?
  {
    if |s| >= 8 {
      assert Lower(s[..8])[5] != ':' && "https://"[5] == ':';
    }
    if |s| >= 7 {
      assert Lower(s[..7])[4] != ':' && "http://"[4] == ':';
    }
  }

  lemma PathIsNotLocal(s: string)
    requires IsPath(s) && s != [] && s[0] != '.' && (s[0] == '/' ==> |s| >= 2 && s[1] != '/')
    ensures !LooksLikeLocalPath(s)
  {
    if |s| >= 5 {
      assert Lower(s[..5])[4] != ':' && "file:"[4] == ':';
    }
  }

  lemma PathIsTrimmed(s: string)
    requires IsPath(s)
    ensures Trim(s) == s
  {
  }

  /** What a bare owner/name is read as: itself, less one ".git". */
  lemma BareReads(o: string, n: string)
    requires IsPart(o) && IsPart(n)
    ensures var s := o + "/" + n;
            IsPath(s) && Candidate(s) == s && StripSlashes(s) == s
  {
    var s := o + "/" + n;
    PathIsNoUrl(s);
  }

  lemma DropGit(o: string, n: string)
    requires IsPart(o) && IsPart(n) && EndsInGit(n)
    ensures |n| > 4 && IsPart(n[..|n| - 4]) && StripGit(o + "/" + n) == o + "/" + n[..|n| - 4]
  {
  }

  /** What normalization extracts from a bare owner/name. */
  lemma BareExtracts(o: string, n: string)
    requires IsPart(o) && IsPart(n)
    ensures ExtractOwnerRepo(o + "/" + n) == Some(o + "/" + (if EndsInGit(n) then n[..|n| - 4] else n))
  {
    BareReads(o, n);
    GitIsInName(o, n);
    if EndsInGit(n) {
      DropGit(o, n);
      TwoSegments(o, n[..|n| - 4]);
    } else {
      TwoSegments(o, n);
    }
  }

  lemma NormalizesTo(s: string, o: string, n: string)
    requires Units(s) <= MAX_RAW_LENGTH && Trim(s) == s && s != "" && !LooksLikeLocalPath(s) && Lower(s) != "unknown/repo"
    requires IsPart(o) && IsPart(n) && ExtractOwnerRepo(s) == Some(o + "/" + n)
    ensures Normalize(Some(s)) == Id(Lower(o + "/" + n))
  {
    LowerIsCanonical(o, n);
  }

  lemma LowerParts(o: string, n: string)
    requires Lower(o + "/" + n) == o + "/" + n
    ensures forall m | m <= n :: Lower(o + "/" + m) == o + "/" + m
  {
    forall m | m <= n
      ensures Lower(o + "/" + m) == o + "/" + m
    {
      forall k | 0 <= k < |o + "/" + m|
        ensures LowerChar((o + "/" + m)[k]) == (o + "/" + m)[k]
      {
        assert (o + "/" + m)[k] == (o + "/" + n)[k];
      }
    }
  }

  /**
    An identifier is a fixed point exactly when it is not the placeholder and does not end in ".git"; one that does loses
    the ending.
   */
  lemma FixedPointExactlyWhen(id: string)
    requires IsCanonical(id) && Units(id) <= MAX_RAW_LENGTH
    ensures Normalize(Some(id)) == Id(id) <==> id != "unknown/repo" && !EndsInGit(id)
    ensures EndsInGit(id) ==> Normalize(Some(id)) == Id(id[..|id| - 4])
  {
    var o, n := CanonicalParts(id);
    BareReads(o, n);
    PathIsTrimmed(id);
    PathIsNotLocal(id);
    GitIsInName(o, n);
    BareExtracts(o, n);
    if EndsInGit(n) {
      WithGit(o, n);
    } else if id != "unknown/repo" {
      NormalizesTo(id, o, n);
    }
  }

  lemma WithGit(o: string, n: string)
    requires IsPart(o) && IsPart(n) && EndsInGit(n)
    requires var id := o + "/" + n; Lower(id) == id && Units(id) <= MAX_RAW_LENGTH && Trim(id) == id && !LooksLikeLocalPath(id)
    ensures var id := o + "/" + n; Normalize(Some(id)) == Id(id[..|id| - 4]) && id != "unknown/repo"
  {
    var id, m := o + "/" + n, n[..|n| - 4];
    DropGit(o, n);
    BareExtracts(o, n);
    GitIsInName(o, n);
    assert Lower(id[|id| - 4..])[0] == '.' == ".git"[0];
    NormalizesTo(id, o, m);
    LowerParts(o, n);
    assert id[..|id| - 4] == o + "/" + m;
  }

  // ----- outputs

  lemma {:induction false} TrimShortens(s: string)
    ensures |Trim(s)| <= |s|
  {
    TrimStartShortens(s);
    TrimEndShortens(TrimStart(s));
  }

  lemma {:induction false} TrimStartShortens(s: string)
    ensures |TrimStart(s)| <= |s|
  {
    if s != [] && IsSpace(s[0]) {
      TrimStartShortens(s[1..]);
    }
  }

  lemma {:induction false} TrimEndShortens(s: string)
    ensures |TrimEnd(s)| <= |s|
  {
    if s != [] && IsSpace(s[|s| - 1]) {
      TrimEndShortens(s[..|s| - 1]);
    }
  }

  /** The length of some segments written one after the other with slashes between them. */
  function Joined(segments: seq<string>): nat {
    if segments == [] then 0 else |segments[0]| + 1 + Joined(segments[1..])
  }

  lemma {:induction false} SplitLength(s: string)
    ensures Joined(Split(s)) == |s| + 1
    decreases |s|
  {
    var i := Find(s, '/');
    if i < |s| {
      SplitLength(s[i + 1..]);
    }
  }

  lemma {:induction false} SegmentsShorten(pieces: seq<string>)
    ensures Joined(Segments(pieces)) <= Joined(pieces)
  {
    if pieces != [] {
      TrimShortens(pieces[0]);
      SegmentsShorten(pieces[1..]);
      var rest := Segments(pieces[1..]);
      assert ([Trim(pieces[0])] + rest)[1..] == rest;
      assert [] + rest == rest;
    }
  }

  lemma {:induction false} LastTwo(segments: seq<string>)
    requires |segments| >= 2
    ensures |segments[|segments| - 2]| + |segments[|segments| - 1]| + 2 <= Joined(segments)
  {
    if |segments| > 2 {
      LastTwo(segments[1..]);
    }
  }

  lemma {:induction false} StripSlashesShortens(s: string)
    ensures |StripSlashes(s)| <= |s|
  {
    if s != [] && s[|s| - 1] == '/' {
      StripSlashesShortens(s[..|s| - 1]);
    }
  }

  lemma {:induction false} LengthIsAtMostUnits(s: string)
    ensures |s| <= Units(s)
  {
    if s != [] {
      LengthIsAtMostUnits(s[..|s| - 1]);
    }
  }

  lemma {:induction false} PlainUnits(s: string)
    requires IsPath(s)
    ensures Units(s) == |s|
  {
    if s != [] {
      PlainUnits(s[..|s| - 1]);
    }
  }

  lemma ExtractShortens(s: string)
    requires ExtractOwnerRepo(s).Some?
    ensures |ExtractOwnerRepo(s).value| <= |s|
  {
    var c := Candidate(s);
    StripSlashesShortens(c);
    var stripped := StripGit(StripSlashes(c));
    SplitLength(stripped);
    SegmentsShorten(Split(stripped));
    LastTwo(Segments(Split(stripped)));
  }

  /** Every identifier produced is canonical and short enough to be normalized again. */
  lemma OutputsAreCanonical(raw: string, id: string)
    requires Normalize(Some(raw)) == Id(id)
    ensures IsCanonical(id) && Units(id) <= MAX_RAW_LENGTH
  {
    assert |id| <= |raw| <= Units(raw) by {
      TrimShortens(raw);
      ExtractShortens(Trim(raw));
      LengthIsAtMostUnits(raw);
    }
    CanonicalUnits(id);
  }

  lemma CanonicalUnits(id: string)
    requires IsCanonical(id)
    ensures Units(id) == |id|
  {
    var o, n := CanonicalParts(id);
    PlainUnits(id);
  }

  /** Normalizing twice is normalizing once, except for the placeholder and for names that still end in ".git". */
  lemma IdempotentExactlyWhen(raw: string, id: string)
    requires Normalize(Some(raw)) == Id(id)
    ensures Normalize(Some(id)) == Id(id) <==> id != "unknown/repo" && !EndsInGit(id)
  {
    OutputsAreCanonical(raw, id);
    FixedPointExactlyWhen(id);
  }

  // ----- what is rejected

  /** A drive letter, a UNC or other doubled slash, a file URI in any case, a dot or a tilde at the start. */
  lemma LocalExactlyWhen(s: string)
    ensures LooksLikeLocalPath(s) <==>
              || (|s| >= 2 && ('a' <= s[0] <= 'z' || 'A' <= s[0] <= 'Z') && s[1] == ':')
              || "\\\\" <= s || "//" <= s || "." <= s || "~" <= s
              || (|s| >= 5 && s[0] in {'f', 'F'} && s[1] in {'i', 'I'} && s[2] in {'l', 'L'} && s[3] in {'e', 'E'} && s[4] == ':')
  {
    if |s| >= 5 {
      assert Lower(s[..5]) == "file:" <==> forall i | 0 <= i < 5 :: LowerChar(s[i]) == "file:"[i];
    }
  }

  /** Which texts are rejected, and why; everything else gets an identifier. */
  lemma RejectedExactlyWhen(raw: string)
    ensures var s := Trim(raw);
            && (Normalize(Some(raw)) == Rejected(TooLong) <==> Units(raw) > 512)
            && (Normalize(Some(raw)) == Rejected(UnknownPlaceholder) <==> Units(raw) <= 512 && (s == "" || Lower(s) == "unknown/repo"))
            && (Normalize(Some(raw)) == Rejected(LocalPath) <==>
                  Units(raw) <= 512 && s != "" && Lower(s) != "unknown/repo" && LooksLikeLocalPath(s))
            && Normalize(Some(raw)) != Rejected(Missing) && Normalize(None) == Rejected(Missing)
  {
  }

  /** A local path is never a repository. */
  lemma LocalPathHasNoId(raw: string)
    requires LooksLikeLocalPath(Trim(raw))
    ensures Normalize(Some(raw)).Rejected?
  {
  }

  // ----- spellings

  datatype Spelling =
    | Bare
    | LeadingSlash
    | Hosted(host: string)
    | Http(secure: bool, host: string)
    | Ssh(user: string, host: string)

  predicate IsSpelling(sp: Spelling) {
    match sp
    case Bare => true
    case LeadingSlash => true
    case Hosted(host) => IsWord(host)
    case Http(_, host) => host != [] && '/' !in host
    case Ssh(user, host) => IsWord(user) && host != [] && AllPlain(host)
  }

  function Prefix(sp: Spelling): string {
    match sp
    case Bare => ""
    case LeadingSlash => "/"
    case Hosted(host) => host + "/"
    case Http(secure, host) => (if secure then "https://" else "http://") + host + "/"
    case Ssh(user, host) => user + "@" + host + ":"
  }

  /** An optional ".git", in any case, and an optional slash. */
  predicate IsSuffix(suffix: string) {
    || suffix == "" || suffix == "/"
    || (|suffix| == 4 && Lower(suffix) == ".git") || (|suffix| == 5 && Lower(suffix[..4]) == ".git" && suffix[4] == '/')
  }

  /** What is left of a candidate once slashes and ".git" are stripped. */
  function Bared(s: string): string {
    StripGit(StripSlashes(s))
  }

  lemma SuffixIsStripped(x: string, suffix: string)
    requires x != [] && x[|x| - 1] != '/' && !EndsInGit(x) && IsSuffix(suffix)
    ensures Bared(x + suffix) == x
  {
    if suffix == "" {
      assert x + suffix == x;
    } else if suffix == "/" {
      assert (x + suffix)[..|x + suffix| - 1] == x;
      assert StripSlashes(x) == x;
    } else if |suffix| == 4 {
      GitIsStripped(x, suffix);
    } else {
      assert (x + suffix)[..|x| + 4] == x + suffix[..4];
      GitIsStripped(x, suffix[..4]);
    }
  }

  lemma GitIsStripped(x: string, git: string)
    requires |git| == 4 && Lower(git) == ".git"
    ensures StripSlashes(x + git) == x + git && StripGit(x + git) == x
  {
  }

  /** The part of a spelling after the prefix. */
  lemma RestIsPath(o: string, n: string, suffix: string)
    requires IsPart(o) && IsPart(n) && IsSuffix(suffix)
    ensures var rest := o + "/" + n + suffix;
            IsPath(rest) && |rest| >= 3 && rest[0] == o[0]
  {
  }

  function Rest(o: string, n: string, suffix: string): string {
    o + "/" + n + suffix
  }

  lemma PathIsStripped(o: string, n: string, suffix: string)
    requires IsPart(o) && IsPart(n) && !EndsInGit(n) && IsSuffix(suffix)
    ensures Segments(Split(Bared(Rest(o, n, suffix)))) == [o, n]
  {
    GitIsInName(o, n);
    SuffixIsStripped(o + "/" + n, suffix);
    TwoSegments(o, n);
  }

  lemma HostedIsStripped(h: string, o: string, n: string, suffix: string)
    requires IsWord(h) && IsPart(o) && IsPart(n) && !EndsInGit(n) && IsSuffix(suffix)
    ensures Segments(Split(Bared(h + "/" + Rest(o, n, suffix)))) == [h, o, n]
  {
    GitIsInName(o, n);
    GitIsInName(h, o + "/" + n);
    var x := h + "/" + (o + "/" + n);
    assert h + "/" + Rest(o, n, suffix) == x + suffix;
    SuffixIsStripped(x, suffix);
    ThreeSegments(h, o, n);
  }

  /** Without one slash at the end. */
  function Unslashed(s: string): string {
    if s != "" && s[|s| - 1] == '/' then s[..|s| - 1] else s
  }

  lemma UnslashedRest(o: string, n: string, suffix: string)
    requires IsPart(o) && IsPart(n) && IsSuffix(suffix)
    ensures IsSuffix(Unslashed(suffix)) && Unslashed(Rest(o, n, suffix)) == Rest(o, n, Unslashed(suffix))
  {
  }

  /** A path is its own candidate, but for one leading slash. */
  lemma PathCandidate(s: string)
    requires IsPath(s) && s != []
    ensures Candidate(s) == if s[0] == '/' && (|s| == 1 || s[1] != '/') then s[1..] else s
  {
    PathIsNoUrl(s);
  }

  /** The candidate is the part after the prefix, for SSH without its last slash, or for a bare host the whole text. */
  lemma SpellingCandidate(sp: Spelling, rest: string)
    requires IsSpelling(sp) && IsPath(rest) && |rest| >= 3 && (IsLetter(rest[0]) || IsDigit(rest[0]))
    ensures Candidate(Prefix(sp) + rest)
         == match sp
            case Hosted(host) => host + "/" + rest
            case Ssh(_, _) => Unslashed(rest)
            case _ => rest
  {
    var text := Prefix(sp) + rest;
    match sp {
      case Bare =>
        assert text == rest;
        PathCandidate(rest);
      case LeadingSlash => SlashedCandidate(rest);
      case Hosted(host) => HostedCandidate(host, rest);
      case Http(secure, host) =>
        assert text == (if secure then "https://" else "http://") + (host + "/" + rest);
        HttpCandidate(secure, text, host, rest);
      case Ssh(user, host) =>
        assert text == user + "@" + (host + ":" + rest);
        SshCandidate(text, user, host + ":" + rest, host, rest);
    }
  }

  lemma SlashedCandidate(rest: string)
    requires IsPath(rest) && rest != [] && rest[0] != '/'
    ensures Candidate("/" + rest) == rest
  {
    assert ("/" + rest)[1..] == rest && ("/" + rest)[1] == rest[0];
    PathCandidate("/" + rest);
  }

  lemma HostedCandidate(host: string, rest: string)
    requires IsWord(host) && IsPath(rest)
    ensures Candidate(host + "/" + rest) == host + "/" + rest
  {
    assert (host + "/" + rest)[0] == host[0];
    PathCandidate(host + "/" + rest);
  }

  lemma DropPrefix(a: string, b: string)
    ensures (a + b)[..|a|] == a && (a + b)[|a|..] == b
  {
  }

  lemma HttpCandidate(secure: bool, text: string, host: string, rest: string)
    requires host != [] && '/' !in host && IsPath(rest) && rest != []
    requires text == (if secure then "https://" else "http://") + (host + "/" + rest)
    ensures Candidate(text) == rest
  {
    SchemeRun(secure, host + "/" + rest);
    DropPrefix(if secure then "https://" else "http://", host + "/" + rest);
    FindSlash(host, rest);
    DropPrefix(host + "/", rest);
    assert HttpPath(text) == Some(rest);
  }

  lemma SchemeIsPlain(secure: bool)
    ensures var scheme := if secure then "https://" else "http://";
            var n := |scheme| - 3;
            Lower(scheme) == scheme && AllPlain(scheme[..n]) && scheme[n] == ':'
  {
    var scheme := if secure then "https://" else "http://";
    assert scheme[0] == 'h' && scheme[1] == 't' && scheme[2] == 't' && scheme[3] == 'p';
    assert if secure then scheme[4] == 's' && scheme[5] == ':' else scheme[4] == ':';
  }

  lemma SchemeRun(secure: bool, rest: string)
    ensures var scheme := if secure then "https://" else "http://";
            SchemeLength(scheme + rest) == |scheme| && SshPath(scheme + rest).None?
  {
    var scheme := if secure then "https://" else "http://";
    var text, n := scheme + rest, |scheme| - 3;
    DropPrefix(scheme, rest);
    SchemeIsPlain(secure);
    if !secure && |text| >= 8 {
      assert text[4] == ':' && Lower(text[..8])[4] == ':' && "https://"[4] == 's';
    }
    assert text[..n] == scheme[..n] && text[n] == ':';
    PlainRunIs(text, n);
  }

  lemma PlainRunIs(s: string, n: nat)
    requires n < |s| && AllPlain(s[..n]) && !IsPlain(s[n])
    ensures PlainRun(s) == n
  {
  }

  lemma SshCandidate(text: string, user: string, tail: string, host: string, rest: string)
    requires IsWord(user) && host != [] && AllPlain(host) && IsPath(rest) && |rest| >= 2
    requires text == user + "@" + tail && tail == host + ":" + rest
    ensures Candidate(text) == Unslashed(rest)
  {
    PartRun(user, '@', tail);
    PartRun(host, ':', rest);
    UnslashedIsOneLine(rest);
    SshReads(text, |user|, tail, |host|, rest);
  }

  lemma SshReads(text: string, n: nat, tail: string, m: nat, rest: string)
    requires PlainRun(text) == n && 0 < n < |text| && text[n] == '@' && text[n + 1..] == tail
    requires PlainRun(tail) == m && 0 < m < |tail| && tail[m] == ':' && tail[m + 1..] == rest
    requires |rest| >= 2 && OneLine(Unslashed(rest))
    ensures SshPath(text) == Some(Unslashed(rest))
  {
  }

  lemma PartRun(part: string, c: char, tail: string)
    requires AllPlain(part) && !IsPlain(c)
    ensures var text := part + [c] + tail;
            PlainRun(text) == |part| && text[|part|] == c && text[|part| + 1..] == tail
  {
    var text := part + [c] + tail;
    assert text[..|part|] == part;
    PlainRunIs(text, |part|);
  }

  lemma UnslashedIsOneLine(s: string)
    requires IsPath(s)
    ensures OneLine(Unslashed(s))
  {
  }

  lemma SshIsNotLocal(user: string, tail: string)
    requires IsWord(user) && |tail| >= 5
    ensures !LooksLikeLocalPath(user + "@" + tail)
  {
    var text := user + "@" + tail;
    assert text[0] == user[0] && IsPlain(user[0]);
    assert text[1] != ':' by {
      assert text[1] == if |user| > 1 then user[1] else '@';
    }
    assert Lower(text[..5]) != "file:" by {
      if |user| >= 5 {
        assert Lower(text[..5])[4] == LowerChar(user[4]) && IsPlain(user[4]);
      } else {
        assert Lower(text[..5])[|user|] == '@' && "file:"[|user|] != '@';
      }
    }
  }

  lemma HttpIsNotLocal(secure: bool, tail: string)
    ensures !LooksLikeLocalPath((if secure then "https://" else "http://") + tail)
  {
  }

  lemma PrefixedPathIsNotLocal(prefix: string, rest: string)
    requires prefix == "" || prefix == "/"
    requires IsPath(rest) && rest != [] && (IsLetter(rest[0]) || IsDigit(rest[0]))
    ensures !LooksLikeLocalPath(prefix + rest)
  {
    var text := prefix + rest;
    assert if prefix == "" then text == rest else text[1] == rest[0];
    PathIsNotLocal(text);
  }

  lemma HostedIsNotLocal(host: string, rest: string)
    requires IsWord(host) && IsPath(rest)
    ensures !LooksLikeLocalPath(host + "/" + rest)
  {
    assert (host + "/" + rest)[0] == host[0];
    PathIsNotLocal(host + "/" + rest);
  }

  lemma SpellingIsNotLocal(sp: Spelling, rest: string)
    requires IsSpelling(sp) && IsPath(rest) && |rest| >= 3 && (IsLetter(rest[0]) || IsDigit(rest[0]))
    ensures !LooksLikeLocalPath(Prefix(sp) + rest)
  {
    match sp {
      case Hosted(host) => HostedIsNotLocal(host, rest);
      case Http(secure, host) =>
        assert Prefix(sp) + rest == (if secure then "https://" else "http://") + (host + "/" + rest);
        HttpIsNotLocal(secure, host + "/" + rest);
      case Ssh(user, host) =>
        assert Prefix(sp) + rest == user + "@" + (host + ":" + rest);
        SshIsNotLocal(user, host + ":" + rest);
      case _ => PrefixedPathIsNotLocal(Prefix(sp), rest);
    }
  }

  lemma SolidIsTrimmed(s: string)
    requires s != "" && !IsSpace(s[0]) && !IsSpace(s[|s| - 1])
    ensures Trim(s) == s
  {
  }

  lemma SpellingIsTrimmed(sp: Spelling, rest: string)
    requires IsSpelling(sp) && IsPath(rest) && rest != ""
    ensures Trim(Prefix(sp) + rest) == Prefix(sp) + rest
  {
    var text := Prefix(sp) + rest;
    assert text[|text| - 1] == rest[|rest| - 1];
    assert !IsSpace(text[0]) by {
      match sp {
        case Bare => assert text[0] == rest[0];
        case LeadingSlash => assert text[0] == '/';
        case Hosted(host) => assert text[0] == host[0];
        case Http(_, _) => assert text[0] == 'h';
        case Ssh(user, _) => assert text[0] == user[0];
      }
    }
    SolidIsTrimmed(text);
  }

  /**
    All spellings of one owner/name, in any case, with or without ".git" and a final slash, are one repository. Only the
    placeholder spelled bare is not identified.
   */
  lemma SpellingsAgree(sp: Spelling, o: string, n: string, suffix: string)
    requires IsSpelling(sp) && IsPart(o) && IsPart(n) && !EndsInGit(n) && IsSuffix(suffix)
    requires Units(Prefix(sp) + Rest(o, n, suffix)) <= MAX_RAW_LENGTH
    requires Lower(Prefix(sp) + Rest(o, n, suffix)) != "unknown/repo"
    ensures Normalize(Some(Prefix(sp) + Rest(o, n, suffix))) == Id(Lower(o + "/" + n))
  {
    var rest := Rest(o, n, suffix);
    RestIsPath(o, n, suffix);
    SpellingIsNotLocal(sp, rest);
    SpellingIsTrimmed(sp, rest);
    SpellingExtracts(sp, o, n, suffix);
    NormalizesTo(Prefix(sp) + rest, o, n);
  }

  lemma SpellingExtracts(sp: Spelling, o: string, n: string, suffix: string)
    requires IsSpelling(sp) && IsPart(o) && IsPart(n) && !EndsInGit(n) && IsSuffix(suffix)
    ensures ExtractOwnerRepo(Prefix(sp) + Rest(o, n, suffix)) == Some(o + "/" + n)
  {
    RestIsPath(o, n, suffix);
    SpellingCandidate(sp, Rest(o, n, suffix));
    match sp {
      case Hosted(host) => HostedIsStripped(host, o, n, suffix);
      case Ssh(_, _) =>
        UnslashedRest(o, n, suffix);
        PathIsStripped(o, n, Unslashed(suffix));
      case _ => PathIsStripped(o, n, suffix);
    }
  }

  /** On identifiable inputs the relation is an equivalence. */
  lemma SameRepositoryIsEquivalence(a: Option<string>, b: Option<string>, c: Option<string>)
    ensures IsSameRepository(a, a) <==> Normalize(a).Id?
    ensures IsSameRepository(a, b) ==> IsSameRepository(b, a)
    ensures IsSameRepository(a, b) && IsSameRepository(b, c) ==> IsSameRepository(a, c)
  {
  }
}
