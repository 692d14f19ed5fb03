/**
  The fixed-window limiter of the web control plane: a bounded table of buckets that is pruned when full. The reference
  limiter below never prunes and never refuses a key for lack of room.
 */
module FixedWindow {
  import opened Basics

  datatype Kind = Api | Auth

  datatype Bucket = Bucket(count: int, windowStart: int)

  /** A call reads the clock once for itself and, when the table is full, once more for pruning. */
  datatype Request = Request(key: string, kind: Kind, now: int, pruneNow: int)

  const MAX_BUCKETS: nat := 10_000

  const WINDOW_MS: int := 60_000

  function Limit(kind: Kind): nat {
    match kind case Api => 120 case Auth => 10
  }

  predicate Expired(b: Bucket, now: int) {
    now - b.windowStart >= WINDOW_MS
  }

  // ----- the reference

  type Book = map<string, Bucket>

  predicate Opens(book: Book, r: Request) {
    r.key !in book || Expired(book[r.key], r.now)
  }

  function BookAfter(book: Book, r: Request): Book {
    if Opens(book, r) then book[r.key := Bucket(1, r.now)]
    else book[r.key := book[r.key].(count := book[r.key].count + 1)]
  }

  predicate BookLimits(book: Book, r: Request) {
    !Opens(book, r) && book[r.key].count + 1 > Limit(r.kind)
  }

  function BookRun(h: seq<Request>): Book {
    if h == [] then map[] else BookAfter(BookRun(h[..|h| - 1]), h[|h| - 1])
  }

  // ----- the bounded table, in insertion order

  datatype Table = Table(order: seq<string>, buckets: map<string, Bucket>)

  ghost predicate Proper(t: Table) {
    Distinct(t.order) && (forall k :: k in t.order <==> k in t.buckets) && |t.order| <= MAX_BUCKETS
  }

  function Set(t: Table, key: string, b: Bucket): Table {
    Table(if key in t.buckets then t.order else t.order + [key], t.buckets[key := b])
  }

  /** The pruning loop from position i on: delete expired buckets until the table is not over its size. */
  function PruneFrom(t: Table, i: nat, now: int): Table
    requires forall k | k in t.order :: k in t.buckets
    requires Distinct(t.order)
    decreases |t.order| - i
  {
    if i >= |t.order| then t
    else
      var key := t.order[i];
      var expired := Expired(t.buckets[key], now);
      var next := if expired then Table(t.order[..i] + t.order[i + 1..], t.buckets - {key}) else t;
      if |next.order| <= MAX_BUCKETS then next else PruneFrom(next, if expired then i else i + 1, now)
  }

  /** Pruning a table that is not over its size looks at the bucket inserted first, and at no other. */
  function Prune(t: Table, now: int): Table {
    if t.order != [] && t.order[0] in t.buckets && Expired(t.buckets[t.order[0]], now) then Table(t.order[1..], t.buckets - {t.order[0]}) else t
  }

  function Trimmed(t: Table, r: Request): Table {
    if |t.order| >= MAX_BUCKETS then Prune(t, r.pruneNow) else t
  }

  predicate NoRoom(t: Table, r: Request) {
    && Opens(t.buckets, r)
    && r.key !in Trimmed(t, r).buckets && |Trimmed(t, r).order| >= MAX_BUCKETS
  }

  /** A bucket that was fetched before pruning removed it is still counted up, but no longer in the table. */
  function TableAfter(t: Table, r: Request): Table {
    var trimmed := Trimmed(t, r);
    if Opens(t.buckets, r) then (if NoRoom(t, r) then trimmed else Set(trimmed, r.key, Bucket(1, r.now)))
    else if r.key in trimmed.buckets then
      Set(trimmed, r.key, Bucket(trimmed.buckets[r.key].count + 1, trimmed.buckets[r.key].windowStart))
    else trimmed
  }

  predicate TableLimits(t: Table, r: Request) {
    NoRoom(t, r) || BookLimits(t.buckets, r)
  }

  lemma PruneLooksAtFirst(t: Table, now: int)
    requires Proper(t)
    ensures PruneFrom(t, 0, now) == Prune(t, now)
  {
  }

  lemma PruneKeepsProper(t: Table, now: int)
    requires Proper(t)
    ensures Proper(Prune(t, now))
  {
  }

  lemma SetKeepsProper(t: Table, key: string, b: Bucket)
    requires Proper(t) && (key in t.buckets || |t.order| < MAX_BUCKETS)
    ensures Proper(Set(t, key, b))
  {
    assert forall k :: k in t.order + [key] <==> k in t.order || k == key;
  }

  /** The table never holds more than MAX_BUCKETS. */
  lemma StaysProper(t: Table, r: Request)
    requires Proper(t)
    ensures Proper(TableAfter(t, r))
  {
    PruneKeepsProper(t, r.pruneNow);
    var trimmed := Trimmed(t, r);
    assert Proper(trimmed);
    if Opens(t.buckets, r) && !NoRoom(t, r) {
      SetKeepsProper(trimmed, r.key, Bucket(1, r.now));
    } else if !Opens(t.buckets, r) && r.key in trimmed.buckets {
      SetKeepsProper(trimmed, r.key, Bucket(trimmed.buckets[r.key].count + 1, trimmed.buckets[r.key].windowStart));
    }
  }

  function TableRun(h: seq<Request>): Table {
    if h == [] then Table([], map[]) else TableAfter(TableRun(h[..|h| - 1]), h[|h| - 1])
  }

  lemma {:induction false} RunIsProper(h: seq<Request>)
    ensures Proper(TableRun(h))
  {
    if h != [] {
      RunIsProper(h[..|h| - 1]);
      StaysProper(TableRun(h[..|h| - 1]), h[|h| - 1]);
    }
  }

  lemma RunStep(h: seq<Request>, r: Request)
    ensures TableRun(h + [r]) == TableAfter(TableRun(h), r)
  {
  }

  /** The history without the requests refused for lack of room. */
  function Kept(h: seq<Request>): seq<Request> {
    if h == [] then []
    else
      var n := |h| - 1;
      Kept(h[..n]) + (if NoRoom(TableRun(h[..n]), h[n]) then [] else [h[n]])
  }

  // ----- agreement

  ghost predicate Monotone(h: seq<Request>) {
    && (forall i | 0 <= i < |h| :: h[i].now <= h[i].pruneNow)
    && (forall i, j | 0 <= i < j < |h| :: h[i].pruneNow <= h[j].now)
  }

  lemma MonotoneStep(h: seq<Request>, r: Request)
    requires Monotone(h) && (h != [] ==> h[|h| - 1].pruneNow <= r.now) && r.now <= r.pruneNow
    ensures Monotone(h + [r])
  {
  }

  /** What the table has forgotten is expired. */
  ghost predicate Agrees(t: Table, book: Book, now: int) {
    && (forall k | k in t.buckets :: k in book && book[k] == t.buckets[k])
    && (forall k | k in book && k !in t.buckets :: Expired(book[k], now))
  }

  /** Table and book agree on whether a request opens a window, and on the bucket when it does not. */
  lemma SameBucket(t: Table, book: Book, r: Request, before: int)
    requires Agrees(t, book, before) && before <= r.now
    ensures Opens(t.buckets, r) <==> Opens(book, r)
    ensures !Opens(book, r) ==> t.buckets[r.key] == book[r.key]
  {
  }

  lemma StepAgrees(t: Table, book: Book, r: Request, before: int)
    requires Agrees(t, book, before) && before <= r.now <= r.pruneNow
    ensures Agrees(TableAfter(t, r), if NoRoom(t, r) then book else BookAfter(book, r), r.pruneNow)
  {
  }

  lemma BookRunStep(h: seq<Request>, r: Request)
    ensures BookRun(h + [r]) == BookAfter(BookRun(h), r)
  {
  }

  lemma KeptStep(h: seq<Request>)
    requires h != []
    ensures var n := |h| - 1;
            && TableRun(h) == TableAfter(TableRun(h[..n]), h[n])
            && (NoRoom(TableRun(h[..n]), h[n]) ==> Kept(h) == Kept(h[..n]))
            && (!NoRoom(TableRun(h[..n]), h[n]) ==> BookRun(Kept(h)) == BookAfter(BookRun(Kept(h[..n])), h[n]))
  {
    var rest, r := h[..|h| - 1], h[|h| - 1];
    if !NoRoom(TableRun(rest), r) {
      BookRunStep(Kept(rest), r);
    }
  }

  lemma {:induction false} RunAgrees(h: seq<Request>)
    requires Monotone(h) && h != []
    ensures Agrees(TableRun(h), BookRun(Kept(h)), h[|h| - 1].pruneNow)
  {
    var n := |h| - 1;
    var t, book := TableRun(h[..n]), BookRun(Kept(h[..n]));
    if n > 0 {
      RunAgrees(h[..n]);
    } else {
      assert h[..n] == [];
    }
    StepAgrees(t, book, h[n], if n > 0 then h[n - 1].pruneNow else h[n].now);
    KeptStep(h);
  }

  /**
    Every answer is the reference limiter's answer on the same history minus the requests refused for lack of room; and
    a request refused for lack of room opens a window in both.
   */
  lemma SameAnswers(h: seq<Request>, r: Request)
    requires Monotone(h + [r])
    ensures var t, book := TableRun(h), BookRun(Kept(h));
            && (!NoRoom(t, r) ==> (TableLimits(t, r) <==> BookLimits(book, r)))
            && (NoRoom(t, r) ==> TableLimits(t, r) && Opens(book, r))
            && |t.order| == |t.buckets| <= MAX_BUCKETS
  {
    var t := TableRun(h);
    assert (h + [r])[|h|] == r;
    if h != [] {
      assert forall i | 0 <= i < |h| :: (h + [r])[i] == h[i];
      RunAgrees(h);
    }
    SameBucket(t, BookRun(Kept(h)), r, if h == [] then r.now else h[|h| - 1].pruneNow);
    RunIsProper(h);
    SameSize(t.order, t.buckets);
  }

  lemma {:induction false} SameSize(order: seq<string>, buckets: map<string, Bucket>)
    requires Distinct(order) && forall k :: k in order <==> k in buckets
    ensures |order| == |buckets|
  {
    if order == [] {
      assert buckets == map[];
    } else {
      var n := |order| - 1;
      var smaller := buckets - {order[n]};
      forall k
        ensures k in order[..n] <==> k in smaller
      {
        assert k in order <==> k in order[..n] || k == order[n];
      }
      SameSize(order[..n], smaller);
      assert buckets.Keys == smaller.Keys + {order[n]};
      assert |buckets.Keys| == |smaller.Keys| + 1;
    }
  }

  // ----- what the reference refuses

  /** The request that opened the current window of `key`: the last one that found no window open. */
  function OpenedBy(h: seq<Request>, key: string): (o: Option<nat>)
    ensures o.Some? ==> o.value < |h| && h[o.value].key == key
  {
    if h == [] then None
    else
      var n: nat := |h| - 1;
      if h[n].key == key && Opens(BookRun(h[..n]), h[n]) then Some(n) else OpenedBy(h[..n], key)
  }

  /** The requests for `key` from position `from` on. */
  function RequestsFor(h: seq<Request>, key: string, from: nat): nat {
    if h == [] then 0
    else
      var n: nat := |h| - 1;
      RequestsFor(h[..n], key, from) + (if n >= from && h[n].key == key then 1 else 0)
  }

  lemma {:induction false} NoneFrom(h: seq<Request>, key: string, from: nat)
    requires from >= |h|
    ensures RequestsFor(h, key, from) == 0
  {
    if h != [] {
      NoneFrom(h[..|h| - 1], key, from);
    }
  }

  /** A bucket counts the requests since its window opened, the opening one included, whether they were admitted or not. */
  lemma {:induction false} BucketCounts(h: seq<Request>, key: string)
    ensures key in BookRun(h) <==> OpenedBy(h, key).Some?
    ensures OpenedBy(h, key).Some? ==>
              var o := OpenedBy(h, key).value;
              BookRun(h)[key] == Bucket(RequestsFor(h, key, o), h[o].now)
  {
    if h != [] {
      var n := |h| - 1;
      BucketCounts(h[..n], key);
      NoneFrom(h[..n], key, n);
    }
  }

  /**
    The reference refuses a request exactly when the current window of its key opened less than 60 seconds ago and has
    already seen 120 requests, or 10 of the authentication kind.
   */
  lemma RefusesExactlyWhen(h: seq<Request>, r: Request)
    ensures BookLimits(BookRun(h), r) <==>
              OpenedBy(h, r.key).Some? &&
              var o := OpenedBy(h, r.key).value;
              h[o].now > r.now - 60_000 && RequestsFor(h, r.key, o) >= if r.kind == Auth then 10 else 120
  {
    BucketCounts(h, r.key);
  }

  // ----- how many requests of one key are admitted

  function Counts(r: Request, key: string, s: int, t: int, limited: bool): nat {
    if r.key == key && s <= r.now <= t && !limited then 1 else 0
  }

  /** The requests of `key` that the reference admits at clock readings in [s, t]. */
  function BookAdmitted(h: seq<Request>, key: string, s: int, t: int): nat {
    if h == [] then 0
    else
      var n := |h| - 1;
      BookAdmitted(h[..n], key, s, t) + Counts(h[n], key, s, t, BookLimits(BookRun(h[..n]), h[n]))
  }

  function Admitted(h: seq<Request>, key: string, s: int, t: int): nat {
    if h == [] then 0
    else
      var n := |h| - 1;
      Admitted(h[..n], key, s, t) + Counts(h[n], key, s, t, TableLimits(TableRun(h[..n]), h[n]))
  }

  ghost predicate OneKind(h: seq<Request>, key: string, kind: Kind) {
    forall i | 0 <= i < |h| && h[i].key == key :: h[i].kind == kind
  }

  /** At most one window's worth of admissions before the current window, and the current window's own. */
  ghost predicate WindowCount(book: Book, key: string, limit: int, s: int, admitted: int) {
    if key !in book then admitted == 0
    else
      var own := Min(book[key].count, limit);
      && 1 <= book[key].count && admitted <= own + (if book[key].windowStart <= s then 0 else limit)
      && (admitted > 0 ==> s - book[key].windowStart < WINDOW_MS)
  }

  lemma WindowStep(book: Book, r: Request, key: string, kind: Kind, s: int, admitted: int)
    requires WindowCount(book, key, Limit(kind), s, admitted)
    requires r.key == key ==> r.kind == kind
    requires r.now <= s + WINDOW_MS && (r.now < s ==> admitted == 0)
    ensures WindowCount(BookAfter(book, r), key, Limit(kind), s, admitted + Counts(r, key, s, s + WINDOW_MS, BookLimits(book, r)))
  {
  }

  lemma {:induction false} AdmittedByWindows(h: seq<Request>, key: string, kind: Kind, s: int)
    requires Monotone(h) && OneKind(h, key, kind) && forall i | 0 <= i < |h| :: h[i].now <= s + WINDOW_MS
    ensures WindowCount(BookRun(h), key, Limit(kind), s, BookAdmitted(h, key, s, s + WINDOW_MS))
    ensures h != [] && h[|h| - 1].now < s ==> BookAdmitted(h, key, s, s + WINDOW_MS) == 0
  {
    if h != [] {
      var n := |h| - 1;
      AdmittedByWindows(h[..n], key, kind, s);
      assert n > 0 ==> h[..n][n - 1] == h[n - 1];
      WindowStep(BookRun(h[..n]), h[n], key, kind, s, BookAdmitted(h[..n], key, s, s + WINDOW_MS));
    }
  }

  lemma {:induction false} BookAdmitsAtMostTwice(h: seq<Request>, key: string, kind: Kind, s: int)
    requires Monotone(h) && OneKind(h, key, kind)
    ensures BookAdmitted(h, key, s, s + WINDOW_MS) <= 2 * Limit(kind)
  {
    if h != [] {
      if h[|h| - 1].now > s + WINDOW_MS {
        BookAdmitsAtMostTwice(h[..|h| - 1], key, kind, s);
      } else {
        AdmittedByWindows(h, key, kind, s);
      }
    }
  }

  lemma {:induction false} KeptIsOrdered(h: seq<Request>)
    requires Monotone(h)
    ensures Monotone(Kept(h)) && (Kept(h) != [] ==> h != [] && Kept(h)[|Kept(h)| - 1].pruneNow <= h[|h| - 1].pruneNow)
  {
    if h != [] {
      var n := |h| - 1;
      KeptIsOrdered(h[..n]);
      assert n > 0 ==> h[..n][n - 1] == h[n - 1];
      if NoRoom(TableRun(h[..n]), h[n]) {
        assert Kept(h) == Kept(h[..n]);
      } else {
        MonotoneStep(Kept(h[..n]), h[n]);
        assert Kept(h) == Kept(h[..n]) + [h[n]];
      }
    }
  }

  lemma {:induction false} KeptOneKind(h: seq<Request>, key: string, kind: Kind)
    requires OneKind(h, key, kind)
    ensures OneKind(Kept(h), key, kind)
  {
    if h != [] {
      KeptOneKind(h[..|h| - 1], key, kind);
    }
  }

  lemma {:induction false} AdmittedByBoth(h: seq<Request>, key: string, s: int, t: int)
    requires Monotone(h)
    ensures Admitted(h, key, s, t) == BookAdmitted(Kept(h), key, s, t)
  {
    if h != [] {
      var rest, r := h[..|h| - 1], h[|h| - 1];
      assert rest + [r] == h;
      AdmittedByBoth(rest, key, s, t);
      SameAnswers(rest, r);
      AdmittedByBothStep(rest, r, key, s, t);
    }
  }

  lemma AdmittedByBothStep(h: seq<Request>, r: Request, key: string, s: int, t: int)
    requires var table := TableRun(h);
             if NoRoom(table, r) then TableLimits(table, r) else TableLimits(table, r) <==> BookLimits(BookRun(Kept(h)), r)
    requires Admitted(h, key, s, t) == BookAdmitted(Kept(h), key, s, t)
    ensures Admitted(h + [r], key, s, t) == BookAdmitted(Kept(h + [r]), key, s, t)
  {
    AdmittedStep(h, r, key, s, t);
    if !NoRoom(TableRun(h), r) {
      BookAdmittedStep(Kept(h), r, key, s, t);
    }
  }

  lemma AdmittedStep(h: seq<Request>, r: Request, key: string, s: int, t: int)
    ensures Admitted(h + [r], key, s, t) == Admitted(h, key, s, t) + Counts(r, key, s, t, TableLimits(TableRun(h), r))
    ensures Kept(h + [r]) == if NoRoom(TableRun(h), r) then Kept(h) else Kept(h) + [r]
  {
  }

  lemma BookAdmittedStep(h: seq<Request>, r: Request, key: string, s: int, t: int)
    ensures BookAdmitted(h + [r], key, s, t) == BookAdmitted(h, key, s, t) + Counts(r, key, s, t, BookLimits(BookRun(h), r))
  {
  }

  /** No key that is always used with one kind is admitted more than 2 * limit times in any interval of one window's length, both ends included. */
  lemma AdmitsAtMostTwice(h: seq<Request>, key: string, kind: Kind, s: int)
    requires Monotone(h) && OneKind(h, key, kind)
    ensures Admitted(h, key, s, s + WINDOW_MS) <= 2 * Limit(kind)
    ensures Admitted(h, key, s, s + 60_000) <= if kind == Auth then 20 else 240
  {
    AdmittedByBoth(h, key, s, s + WINDOW_MS);
    KeptIsOrdered(h);
    KeptOneKind(h, key, kind);
    BookAdmitsAtMostTwice(Kept(h), key, kind, s);
  }

  // ----- the module's state and its two operations

  class Limiter {
    var order: seq<string>
    var buckets: map<string, Bucket>
    ghost var history: seq<Request>

    ghost function Value(): Table
      reads this
    {
      Table(order, buckets)
    }

    ghost predicate Valid()
      reads this
    {
      Value() == TableRun(history)
    }

    constructor ()
      ensures Valid() && history == []
    {
      order, buckets, history := [], map[], [];
    }

    /** Walks the buckets in insertion order, deleting the expired ones, until the table is not over its size. */
    method PruneExpired(now: int)
      requires Distinct(order) && forall k | k in order :: k in buckets
      modifies this`order, this`buckets
      ensures Value() == PruneFrom(old(Value()), 0, now)
      ensures Proper(old(Value())) ==> Value() == Prune(old(Value()), now)
    {
      if Proper(Value()) {
        PruneLooksAtFirst(Value(), now);
      }
      var i := 0;
      while i < |order|
        invariant 0 <= i && Distinct(order) && forall k | k in order :: k in buckets
        invariant PruneFrom(Value(), i, now) == PruneFrom(old(Value()), 0, now)
        decreases |order| - i
      {
        var key := order[i];
        if now - buckets[key].windowStart >= WINDOW_MS {
          order, buckets := order[..i] + order[i + 1..], buckets - {key};
        } else {
          i := i + 1;
        }
        if |order| <= MAX_BUCKETS {
          break;
        }
      }
    }

    method IsRateLimited(r: Request) returns (limited: bool)
      requires Valid()
      modifies this
      ensures Valid() && history == old(history) + [r]
      ensures limited <==> TableLimits(old(Value()), r)
    {
      RunStep(history, r);
      RunIsProper(history);
      ghost var before := Value();
      var bucket := if r.key in buckets then Some(buckets[r.key]) else None;
      if |order| >= MAX_BUCKETS {
        PruneExpired(r.pruneNow);
      }
      limited := Answer(bucket, r, before);
      history := history + [r];
    }

    /** What follows the pruning; `bucket` was fetched before it. */
    method Answer(bucket: Option<Bucket>, r: Request, ghost before: Table) returns (limited: bool)
      requires Value() == Trimmed(before, r)
      requires bucket == if r.key in before.buckets then Some(before.buckets[r.key]) else None
      modifies this`order, this`buckets
      ensures Value() == TableAfter(before, r)
      ensures limited <==> TableLimits(before, r)
    {
      if bucket.None? || r.now - bucket.value.windowStart >= WINDOW_MS {
        if r.key !in buckets && |order| >= MAX_BUCKETS {
          return true;
        }
        Put(r.key, Bucket(1, r.now));
        return false;
      }
      var count := bucket.value.count + 1;
      if r.key in buckets {
        Put(r.key, Bucket(count, bucket.value.windowStart));
      }
      limited := count > Limit(r.kind);
    }

    method Put(key: string, b: Bucket)
      modifies this`order, this`buckets
      ensures Value() == Set(old(Value()), key, b)
    {
      if key !in buckets {
        order := order + [key];
      }
      buckets := buckets[key := b];
    }
  }

  // ----- when a key is refused for lack of room

  /** Exactly when the table is full, the key is not in it, and the bucket inserted first has not expired. */
  lemma NoRoomExactlyWhen(t: Table, r: Request)
    requires Proper(t)
    ensures NoRoom(t, r) <==> r.key !in t.buckets && |t.order| == MAX_BUCKETS && !Expired(t.buckets[t.order[0]], r.pruneNow)
  {
  }

  function Name(i: nat): string {
    seq(i, _ => 'x')
  }

  function Fresh(i: nat): Request {
    Request(Name(i), Auth, i, i)
  }

  /** Requests for `n` different keys, one a millisecond. */
  function Fill(n: nat): seq<Request> {
    if n == 0 then [] else Fill(n - 1) + [Fresh(n - 1)]
  }

  /** Buckets 0 to n-1, in order. */
  ghost predicate Filled(t: Table, n: nat) {
    |t.order| == n && forall i: nat | i < n :: t.order[i] == Name(i) && Name(i) in t.buckets && t.buckets[Name(i)] == Bucket(1, i)
  }

  lemma FillStep(t: Table, n: nat)
    requires Proper(t) && Filled(t, n) && n < MAX_BUCKETS
    ensures Filled(TableAfter(t, Fresh(n)), n + 1)
  {
  }

  lemma {:induction false} FillRun(n: nat)
    requires n <= MAX_BUCKETS
    ensures |Fill(n)| == n && Filled(TableRun(Fill(n)), n)
    ensures Monotone(Fill(n)) && (n > 0 ==> Fill(n)[n - 1] == Fresh(n - 1))
  {
    if n > 0 {
      FillRun(n - 1);
      RunStep(Fill(n - 1), Fresh(n - 1));
      MonotoneStep(Fill(n - 1), Fresh(n - 1));
      RunIsProper(Fill(n - 1));
      FillStep(TableRun(Fill(n - 1)), n - 1);
    }
  }

  /** The first bucket is renewed in place; one more key then fills the table. */
  lemma RenewedFirst(t: Table, n: nat)
    requires Proper(t) && Filled(t, n) && n == MAX_BUCKETS - 1
    ensures var renewed := TableAfter(t, Request(Name(0), Auth, WINDOW_MS, WINDOW_MS));
            && renewed == Table(t.order, t.buckets[Name(0) := Bucket(1, WINDOW_MS)])
            && TableAfter(renewed, Request(Name(n), Auth, WINDOW_MS, WINDOW_MS))
               == Table(t.order + [Name(n)], renewed.buckets[Name(n) := Bucket(1, WINDOW_MS)])
  {
  }

  /** A full table whose buckets have expired, all but the first and the last, still refuses a new key. */
  lemma FullOfExpired() returns (h: seq<Request>, r: Request)
    ensures Monotone(h + [r]) && NoRoom(TableRun(h), r)
    ensures var t := TableRun(h);
            && |t.order| == MAX_BUCKETS
            && forall i | 1 <= i < MAX_BUCKETS - 1 :: t.order[i] in t.buckets && Expired(t.buckets[t.order[i]], r.now)
  {
    var n := MAX_BUCKETS - 1;
    FillRun(n);
    var t := TableRun(Fill(n));
    RunIsProper(Fill(n));
    RenewedFirst(t, n);
    var at := WINDOW_MS;
    var renew, another := Request(Name(0), Auth, at, at), Request(Name(n), Auth, at, at);
    RunStep(Fill(n), renew);
    RunStep(Fill(n) + [renew], another);
    MonotoneStep(Fill(n), renew);
    MonotoneStep(Fill(n) + [renew], another);
    h := Fill(n) + [renew] + [another];
    r := Request(Name(MAX_BUCKETS), Auth, at + n, at + n);
    MonotoneStep(h, r);
    RunIsProper(h);
    RefusedWhenFull(t, TableRun(h), n, r);
  }

  lemma RefusedWhenFull(t: Table, full: Table, n: nat, r: Request)
    requires Proper(t) && Filled(t, n) && n == MAX_BUCKETS - 1 && Proper(full)
    requires full == Table(t.order + [Name(n)], t.buckets[Name(0) := Bucket(1, WINDOW_MS)][Name(n) := Bucket(1, WINDOW_MS)])
    requires r == Request(Name(MAX_BUCKETS), Auth, WINDOW_MS + n, WINDOW_MS + n)
    ensures NoRoom(full, r)
    ensures forall i | 1 <= i < n :: Expired(full.buckets[full.order[i]], r.now)
  {
  }
}
