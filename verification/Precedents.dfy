/**
  Precedent memory: classification, the trust order, and the single greedy pass that fills three nested quotas. The pass
  is shown to be optimal, prefix by prefix.
 */
module Precedents {
  import opened Basics

  datatype Class =
    | HumanEditedSuccess
    | HumanApprovedSuccess
    | AutomatedAccepted
    | OutcomeUnknown
    | HumanRejected
    | AutomatedFailure

  datatype Polarity = PositiveOnly | NegativeOnly | Advisory

  function Rank(c: Class): nat {
    match c
    case HumanEditedSuccess => 0
    case HumanApprovedSuccess => 1
    case AutomatedAccepted => 2
    case OutcomeUnknown => 3
    case HumanRejected => 4
    case AutomatedFailure => 5
  }

  function PolarityOf(c: Class): Polarity {
    match c
    case HumanEditedSuccess => PositiveOnly
    case HumanApprovedSuccess => PositiveOnly
    case AutomatedAccepted => Advisory
    case OutcomeUnknown => Advisory
    case HumanRejected => NegativeOnly
    case AutomatedFailure => NegativeOnly
  }

  /** Evidence is positive only with a success and a human's approval, and negative only with a failure or rejection. */
  function Classify(outcome: Option<string>, humanAction: Option<string>): (c: Class)
    ensures PolarityOf(c).PositiveOnly? <==>
              && outcome in {Some("SUCCESS"), Some("PARTIAL_SUCCESS")}
              && humanAction in {Some("APPROVED_AFTER_EDIT"), Some("APPROVED_UNCHANGED")}
    ensures PolarityOf(c).NegativeOnly? <==> outcome in {Some("FAILED"), Some("REJECTED")}
    ensures c == HumanEditedSuccess <==>
              outcome in {Some("SUCCESS"), Some("PARTIAL_SUCCESS")} && humanAction == Some("APPROVED_AFTER_EDIT")
    ensures c == HumanApprovedSuccess <==>
              outcome in {Some("SUCCESS"), Some("PARTIAL_SUCCESS")} && humanAction == Some("APPROVED_UNCHANGED")
    ensures c == AutomatedFailure <==> outcome == Some("FAILED")
    ensures c == HumanRejected <==> outcome == Some("REJECTED")
    ensures c == AutomatedAccepted <==>
              || outcome == Some("EXECUTED_ACCEPTED")
              || (outcome in {Some("SUCCESS"), Some("PARTIAL_SUCCESS")}
                  && humanAction !in {Some("APPROVED_AFTER_EDIT"), Some("APPROVED_UNCHANGED")})
  {
    var success := outcome == Some("SUCCESS") || outcome == Some("PARTIAL_SUCCESS");
    if success && humanAction == Some("APPROVED_AFTER_EDIT") then HumanEditedSuccess
    else if success && humanAction == Some("APPROVED_UNCHANGED") then HumanApprovedSuccess
    else if success then AutomatedAccepted
    else if outcome == Some("EXECUTED_ACCEPTED") then AutomatedAccepted
    else if outcome == Some("FAILED") then AutomatedFailure
    else if outcome == Some("REJECTED") then HumanRejected
    else OutcomeUnknown
  }

  // ----- the trust order

  /** `id` stands for the position of the identifier in the collation order. */
  datatype Row = Row(class_: Class, observedAt: Option<int>, id: int, content: string)

  function Time(r: Row): int {
    if r.observedAt.Some? then r.observedAt.value else 0
  }

  /** Class rank ascending, then most recent first, then identifier descending. */
  predicate Before(a: Row, b: Row) {
    if Rank(a.class_) != Rank(b.class_) then Rank(a.class_) < Rank(b.class_)
    else if Time(a) != Time(b) then Time(a) > Time(b)
    else a.id > b.id
  }

  /** `a` is at least as trusted as `b`. */
  predicate AtLeast(a: Row, b: Row) {
    !Before(b, a)
  }

  /** From the most trusted class to the least. */
  const BY_TRUST: seq<Class> :=
    [HumanEditedSuccess, HumanApprovedSuccess, AutomatedAccepted, OutcomeUnknown, HumanRejected, AutomatedFailure]

  /** The trust order, class by class; within a class the later observation first, then the larger identifier. */
  lemma TrustExactly(a: Row, b: Row)
    ensures AtLeast(a, b) <==> exists i, j ::
              && 0 <= i <= j < 6 && BY_TRUST[i] == a.class_ && BY_TRUST[j] == b.class_
              && (i == j ==>
                    var s := match a.observedAt case Some(time) => time case None => 0;
                    var t := match b.observedAt case Some(time) => time case None => 0;
                    s > t || (s == t && a.id >= b.id))
  {
    var i := Rank(a.class_);
    var j := Rank(b.class_);
    assert BY_TRUST[i] == a.class_ && BY_TRUST[j] == b.class_;
    assert forall k | 0 <= k < 6 :: Rank(BY_TRUST[k]) == k;
  }

  ghost predicate Sorted(s: seq<Row>) {
    forall i, j | 0 <= i < j < |s| :: AtLeast(s[i], s[j])
  }

  /** Insertion after every row that is at least as trusted, which makes the sort stable. */
  function Insert(s: seq<Row>, r: Row): (t: seq<Row>)
    ensures |t| == |s| + 1
  {
    if s == [] then [r]
    else
      var n := |s| - 1;
      if AtLeast(s[n], r) then s + [r] else Insert(s[..n], r) + [s[n]]
  }

  function OrderByTrust(rows: seq<Row>): seq<Row> {
    if rows == [] then [] else Insert(OrderByTrust(rows[..|rows| - 1]), rows[|rows| - 1])
  }

  lemma AtLeastIsTransitive(a: Row, b: Row, c: Row)
    requires AtLeast(a, b) && AtLeast(b, c)
    ensures AtLeast(a, c)
  {
  }

  lemma SortedSnoc(s: seq<Row>, r: Row)
    requires Sorted(s) && (s != [] ==> AtLeast(s[|s| - 1], r))
    ensures Sorted(s + [r])
  {
  }

  lemma Last(s: seq<Row>)
    requires s != []
    ensures multiset(s) == multiset(s[..|s| - 1]) + multiset{s[|s| - 1]}
  {
    assert s == s[..|s| - 1] + [s[|s| - 1]];
  }

  lemma {:induction false} InsertPermutes(s: seq<Row>, r: Row)
    ensures multiset(Insert(s, r)) == multiset(s) + multiset{r}
  {
    if s != [] {
      Last(s);
      InsertPermutes(s[..|s| - 1], r);
    }
  }

  lemma {:induction false} InsertSorts(s: seq<Row>, r: Row)
    requires Sorted(s)
    ensures Sorted(Insert(s, r)) && (Insert(s, r)[|s|] == r || (s != [] && Insert(s, r)[|s|] == s[|s| - 1]))
  {
    if s != [] {
      var n := |s| - 1;
      if AtLeast(s[n], r) {
        SortedSnoc(s, r);
      } else {
        InsertSorts(s[..n], r);
        SortedSnoc(Insert(s[..n], r), s[n]);
      }
    }
  }

  lemma {:induction false} OrderPermutes(rows: seq<Row>)
    ensures multiset(OrderByTrust(rows)) == multiset(rows)
  {
    if rows != [] {
      Last(rows);
      OrderPermutes(rows[..|rows| - 1]);
      InsertPermutes(OrderByTrust(rows[..|rows| - 1]), rows[|rows| - 1]);
    }
  }

  lemma {:induction false} OrderSorts(rows: seq<Row>)
    ensures Sorted(OrderByTrust(rows))
  {
    if rows != [] {
      OrderSorts(rows[..|rows| - 1]);
      InsertSorts(OrderByTrust(rows[..|rows| - 1]), rows[|rows| - 1]);
    }
  }

  ghost predicate DistinctIds(s: seq<Row>) {
    forall i, j | 0 <= i < j < |s| :: s[i].id != s[j].id
  }

  lemma LastIsLeast(s: seq<Row>, r: Row)
    requires Sorted(s) && r in multiset(s)
    ensures AtLeast(r, s[|s| - 1])
  {
  }

  ghost predicate IdsIdentify(m: multiset<Row>) {
    forall a, b | a in m && b in m && a.id == b.id :: a == b
  }

  lemma SameLast(s: seq<Row>, t: seq<Row>, m: multiset<Row>)
    requires Sorted(s) && Sorted(t) && s != [] && t != [] && multiset(s) == multiset(t) <= m && IdsIdentify(m)
    ensures s[|s| - 1] == t[|t| - 1] && multiset(s[..|s| - 1]) == multiset(t[..|t| - 1]) <= m
  {
    Last(s);
    Last(t);
    SameLeast(s, t, m, s[|s| - 1], t[|t| - 1]);
  }

  lemma SameLeast(s: seq<Row>, t: seq<Row>, m: multiset<Row>, a: Row, b: Row)
    requires Sorted(s) && Sorted(t) && s != [] && t != [] && a == s[|s| - 1] && b == t[|t| - 1]
    requires multiset(s) == multiset(t) <= m && IdsIdentify(m)
    ensures a == b
  {
    assert a in multiset(t) && b in multiset(s);
    LastIsLeast(s, b);
    LastIsLeast(t, a);
    assert a.id == b.id && a in m && b in m;
  }

  lemma SortedFront(s: seq<Row>)
    requires Sorted(s) && s != []
    ensures Sorted(s[..|s| - 1]) && s == s[..|s| - 1] + [s[|s| - 1]]
  {
  }

  /** Distinct identifiers leave only one sorted arrangement. */
  lemma {:induction false} SortedIsUnique(s: seq<Row>, t: seq<Row>, m: multiset<Row>)
    requires Sorted(s) && Sorted(t) && multiset(s) == multiset(t) <= m && IdsIdentify(m)
    ensures s == t
    decreases |s|
  {
    assert |multiset(s)| == |s| && |multiset(t)| == |t|;
    if s != [] {
      SameLast(s, t, m);
      SortedFront(s);
      SortedFront(t);
      SortedIsUnique(s[..|s| - 1], t[..|t| - 1], m);
    }
  }

  lemma DistinctIdsIdentify(s: seq<Row>)
    requires DistinctIds(s)
    ensures IdsIdentify(multiset(s))
  {
  }

  /** With distinct identifiers the order of the input does not matter. */
  lemma OrderIsInputIndependent(a: seq<Row>, b: seq<Row>)
    requires multiset(a) == multiset(b) && DistinctIds(a)
    ensures OrderByTrust(a) == OrderByTrust(b)
  {
    OrderSorts(a);
    OrderSorts(b);
    OrderPermutes(a);
    OrderPermutes(b);
    DistinctIdsIdentify(a);
    SortedIsUnique(OrderByTrust(a), OrderByTrust(b), multiset(a));
  }

  // ----- the quotas

  datatype Quotas = Quotas(maxSuccess: int, maxHumanReviewed: int, maxFailures: int)

  /** Kinds of row the quotas tell apart: the first two share maxSuccess. */
  datatype Group = Reviewed | Unreviewed | Negative

  function GroupOf(r: Row): Group {
    if PolarityOf(r.class_).NegativeOnly? then Negative
    else if r.class_.HumanEditedSuccess? || r.class_.HumanApprovedSuccess? then Reviewed
    else Unreviewed
  }

  datatype Tally = Tally(reviewed: nat, unreviewed: nat, negative: nat)

  function Plus(t: Tally, g: Group): Tally {
    match g
    case Reviewed => t.(reviewed := t.reviewed + 1)
    case Unreviewed => t.(unreviewed := t.unreviewed + 1)
    case Negative => t.(negative := t.negative + 1)
  }

  function Count(s: seq<Row>, g: Group): nat {
    if s == [] then 0 else Count(s[..|s| - 1], g) + (if GroupOf(s[|s| - 1]) == g then 1 else 0)
  }

  function TallyOf(s: seq<Row>): Tally {
    Tally(Count(s, Reviewed), Count(s, Unreviewed), Count(s, Negative))
  }

  /** A quota below zero admits nothing, like zero. */
  predicate Fits(t: Tally, q: Quotas) {
    && t.reviewed + t.unreviewed <= Max(0, q.maxSuccess)
    && t.reviewed <= Max(0, q.maxHumanReviewed)
    && t.negative <= Max(0, q.maxFailures)
  }

  predicate Feasible(s: seq<Row>, q: Quotas) {
    Fits(TallyOf(s), q)
  }

  function OfClass(s: seq<Row>, c: Class): nat {
    if s == [] then 0 else OfClass(s[..|s| - 1], c) + (if s[|s| - 1].class_ == c then 1 else 0)
  }

  lemma {:induction false} GroupsByClass(s: seq<Row>)
    ensures TallyOf(s) == Tally(OfClass(s, HumanEditedSuccess) + OfClass(s, HumanApprovedSuccess),
                                OfClass(s, AutomatedAccepted) + OfClass(s, OutcomeUnknown),
                                OfClass(s, HumanRejected) + OfClass(s, AutomatedFailure))
  {
    if s != [] {
      GroupsByClass(s[..|s| - 1]);
    }
  }

  /** What the quotas allow, class by class. */
  lemma FeasibleExactly(s: seq<Row>, q: Quotas)
    ensures Feasible(s, q) <==>
              var reviewed := OfClass(s, HumanEditedSuccess) + OfClass(s, HumanApprovedSuccess);
              && reviewed <= Max(0, q.maxHumanReviewed)
              && reviewed + OfClass(s, AutomatedAccepted) + OfClass(s, OutcomeUnknown) <= Max(0, q.maxSuccess)
              && OfClass(s, HumanRejected) + OfClass(s, AutomatedFailure) <= Max(0, q.maxFailures)
  {
    GroupsByClass(s);
  }

  predicate Takes(t: Tally, g: Group, q: Quotas) {
    match g
    case Negative => t.negative < q.maxFailures
    case Reviewed => t.reviewed + t.unreviewed < q.maxSuccess && t.reviewed < q.maxHumanReviewed
    case Unreviewed => t.reviewed + t.unreviewed < q.maxSuccess
  }

  /** The greedy pass over rows that are already in trust order. */
  function Select(s: seq<Row>, q: Quotas): seq<Row> {
    if s == [] then []
    else
      var out := Select(s[..|s| - 1], q);
      if Takes(TallyOf(out), GroupOf(s[|s| - 1]), q) then out + [s[|s| - 1]] else out
  }

  /** `out` is at least as long as `t`, and at every position at least as trusted. */
  ghost predicate Dominates(out: seq<Row>, t: seq<Row>) {
    |t| <= |out| && forall i | 0 <= i < |t| :: AtLeast(out[i], t[i])
  }

  /** A legal selection, in trust order, that dominates every other legal selection listed in trust order. */
  ghost predicate IsBest(out: seq<Row>, rows: seq<Row>, q: Quotas) {
    && Feasible(out, q) && Sorted(out) && multiset(out) <= multiset(rows)
    && forall t | multiset(t) <= multiset(rows) && Feasible(t, q) :: Dominates(out, OrderByTrust(t))
  }

  method SelectPrecedentsWithinBounds(rows: seq<Row>, q: Quotas) returns (out: seq<Row>)
    ensures out == Select(OrderByTrust(rows), q) && IsBest(out, rows, q)
  {
    var successUsed, humanReviewedUsed, failuresUsed := 0, 0, 0;
    out := [];
    var sorted := OrderByTrust(rows);
    for i := 0 to |sorted|
      invariant out == Select(sorted[..i], q)
      invariant var t := TallyOf(out);
                successUsed == t.reviewed + t.unreviewed && humanReviewedUsed == t.reviewed && failuresUsed == t.negative
    {
      var row := sorted[i];
      assert sorted[..i + 1] == sorted[..i] + [row];
      SelectSnoc(sorted[..i], row, q);
      TallySnoc(out, row);
      var isHumanReviewedSuccess := row.class_.HumanEditedSuccess? || row.class_.HumanApprovedSuccess?;
      if PolarityOf(row.class_).NegativeOnly? {
        if failuresUsed >= q.maxFailures {
          continue;
        }
        failuresUsed := failuresUsed + 1;
        out := out + [row];
        continue;
      }
      if successUsed >= q.maxSuccess {
        continue;
      }
      if isHumanReviewedSuccess && humanReviewedUsed >= q.maxHumanReviewed {
        continue;
      }
      successUsed := successUsed + 1;
      if isHumanReviewedSuccess {
        humanReviewedUsed := humanReviewedUsed + 1;
      }
      out := out + [row];
    }
    assert sorted[..|sorted|] == sorted;
    SelectionIsBest(rows, q);
  }

  // ----- the selection is legal

  lemma TallySnoc(s: seq<Row>, r: Row)
    ensures TallyOf(s + [r]) == Plus(TallyOf(s), GroupOf(r))
  {
    assert (s + [r])[..|s|] == s;
  }

  lemma TakeFits(t: Tally, g: Group, q: Quotas)
    requires Fits(t, q) && Takes(t, g, q)
    ensures Fits(Plus(t, g), q)
  {
  }

  lemma {:induction false} SelectFeasible(s: seq<Row>, q: Quotas)
    ensures Feasible(Select(s, q), q)
  {
    if s != [] {
      var out, r := Select(s[..|s| - 1], q), s[|s| - 1];
      SelectFeasible(s[..|s| - 1], q);
      if Takes(TallyOf(out), GroupOf(r), q) {
        TallySnoc(out, r);
        TakeFits(TallyOf(out), GroupOf(r), q);
      }
    }
  }

  lemma {:induction false} SelectSorted(s: seq<Row>, q: Quotas)
    requires Sorted(s)
    ensures Sorted(Select(s, q)) && forall i | 0 <= i < |Select(s, q)| :: AtLeast(Select(s, q)[i], s[|s| - 1])
  {
    if s != [] {
      var n := |s| - 1;
      var out := Select(s[..n], q);
      SelectSorted(s[..n], q);
      forall i | 0 <= i < |out|
        ensures AtLeast(out[i], s[n])
      {
        AtLeastIsTransitive(out[i], s[n - 1], s[n]);
      }
    }
  }

  lemma {:induction false} SelectIsPart(s: seq<Row>, q: Quotas)
    ensures multiset(Select(s, q)) <= multiset(s)
  {
    if s != [] {
      SelectIsPart(s[..|s| - 1], q);
      Last(s);
    }
  }

  lemma SelectionIsLegal(rows: seq<Row>, q: Quotas)
    ensures var out := Select(OrderByTrust(rows), q);
            Feasible(out, q) && Sorted(out) && multiset(out) <= multiset(rows)
  {
    OrderSorts(rows);
    OrderPermutes(rows);
    SelectFeasible(OrderByTrust(rows), q);
    SelectSorted(OrderByTrust(rows), q);
    SelectIsPart(OrderByTrust(rows), q);
  }

  // ----- and optimal

  function Size(t: Tally): nat {
    t.reviewed + t.unreviewed + t.negative
  }

  /** The most that fits out of rows with tally `t`, preferring reviewed successes among the positives. */
  function Best(t: Tally, q: Quotas): Tally {
    var success := Max(0, q.maxSuccess);
    var reviewed := Min(Max(0, q.maxHumanReviewed), t.reviewed);
    Tally(Min(success, reviewed), Min(success, reviewed + t.unreviewed) - Min(success, reviewed), Min(Max(0, q.maxFailures), t.negative))
  }

  predicate Within(t: Tally, u: Tally) {
    t.reviewed <= u.reviewed && t.unreviewed <= u.unreviewed && t.negative <= u.negative
  }

  lemma BestIsMost(t: Tally, u: Tally, q: Quotas)
    requires Within(t, u) && Fits(t, q)
    ensures Size(t) <= Size(Best(u, q))
  {
  }

  /** Taking greedily keeps the best tally, as long as no reviewed success comes after an unreviewed positive. */
  lemma TakeKeepsBest(t: Tally, g: Group, q: Quotas)
    requires g.Reviewed? ==> t.unreviewed == 0
    ensures Best(Plus(t, g), q) == if Takes(Best(t, q), g, q) then Plus(Best(t, q), g) else Best(t, q)
  {
  }

  lemma {:induction false} SizeIsLength(s: seq<Row>)
    ensures Size(TallyOf(s)) == |s|
  {
    if s != [] {
      SizeIsLength(s[..|s| - 1]);
    }
  }

  lemma {:induction false} NoneUnreviewed(s: seq<Row>)
    requires forall i | 0 <= i < |s| :: !GroupOf(s[i]).Unreviewed?
    ensures TallyOf(s).unreviewed == 0
  {
    if s != [] {
      NoneUnreviewed(s[..|s| - 1]);
    }
  }

  lemma SelectSnoc(s: seq<Row>, r: Row, q: Quotas)
    ensures var out := Select(s, q);
            Select(s + [r], q) == if Takes(TallyOf(out), GroupOf(r), q) then out + [r] else out
  {
  }

  lemma SelectBestStep(s: seq<Row>, r: Row, q: Quotas)
    requires TallyOf(Select(s, q)) == Best(TallyOf(s), q)
    requires GroupOf(r).Reviewed? ==> TallyOf(s).unreviewed == 0
    ensures TallyOf(Select(s + [r], q)) == Best(TallyOf(s + [r]), q)
  {
    SelectSnoc(s, r, q);
    TallySnoc(s, r);
    TallySnoc(Select(s, q), r);
    TakeKeepsBest(TallyOf(s), GroupOf(r), q);
  }

  /** In trust order, reviewed successes come before the other positives, so they never find maxSuccess used up by those. */
  lemma {:induction false} SelectTakesBest(s: seq<Row>, q: Quotas)
    requires Sorted(s)
    ensures TallyOf(Select(s, q)) == Best(TallyOf(s), q)
  {
    if s != [] {
      var n := |s| - 1;
      SelectTakesBest(s[..n], q);
      if GroupOf(s[n]).Reviewed? {
        ReviewedComeFirst(s);
      }
      SelectBestStep(s[..n], s[n], q);
      assert s == s[..n] + [s[n]];
    }
  }

  lemma ReviewedComeFirst(s: seq<Row>)
    requires Sorted(s) && s != [] && GroupOf(s[|s| - 1]).Reviewed?
    ensures TallyOf(s[..|s| - 1]).unreviewed == 0
  {
    NoneUnreviewed(s[..|s| - 1]);
  }

  /** The rows of `s` that are at least as trusted as `x`. */
  function UpTo(s: seq<Row>, x: Row): seq<Row> {
    if s == [] then [] else UpTo(s[..|s| - 1], x) + (if AtLeast(s[|s| - 1], x) then [s[|s| - 1]] else [])
  }

  /** In a sorted sequence they are a prefix. */
  lemma {:induction false} UpToIsPrefix(s: seq<Row>, x: Row) returns (n: nat)
    requires Sorted(s)
    ensures n <= |s| && UpTo(s, x) == s[..n] && (forall i | 0 <= i < n :: AtLeast(s[i], x)) && (n < |s| ==> !AtLeast(s[n], x))
  {
    if s == [] {
      n := 0;
    } else {
      var last := |s| - 1;
      n := UpToIsPrefix(s[..last], x);
      if AtLeast(s[last], x) {
        assert n == last;
        n := |s|;
        assert s[..last] + [s[last]] == s;
      }
    }
  }

  lemma {:induction false} UpToMultiset(s: seq<Row>, x: Row, r: Row)
    ensures multiset(UpTo(s, x))[r] == if AtLeast(r, x) then multiset(s)[r] else 0
  {
    if s != [] {
      var n := |s| - 1;
      assert s == s[..n] + [s[n]];
      UpToMultiset(s[..n], x, r);
    }
  }

  /** A part of a multiset has no more rows of any group. */
  lemma {:induction false} PartCount(t: seq<Row>, s: seq<Row>, g: Group)
    requires multiset(t) <= multiset(s)
    ensures Count(t, g) <= Count(s, g)
    decreases |t|
  {
    if t != [] {
      var n := |t| - 1;
      Last(t);
      assert t[n] in multiset(s);
      var rest := Without(s, t[n], g);
      PartCount(t[..n], rest, g);
    }
  }

  lemma PartTally(t: seq<Row>, s: seq<Row>)
    requires multiset(t) <= multiset(s)
    ensures Within(TallyOf(t), TallyOf(s))
  {
    PartCount(t, s, Reviewed);
    PartCount(t, s, Unreviewed);
    PartCount(t, s, Negative);
  }

  lemma Without(s: seq<Row>, r: Row, g: Group) returns (rest: seq<Row>)
    requires r in s
    ensures multiset(rest) == multiset(s) - multiset{r}
    ensures Count(s, g) == Count(rest, g) + (if GroupOf(r) == g then 1 else 0)
  {
    var i :| 0 <= i < |s| && s[i] == r;
    var before, after := s[..i], s[i + 1..];
    rest := before + after;
    assert s == before + [r] + after;
    CountBetween(before, r, after, g);
  }

  lemma CountBetween(before: seq<Row>, r: Row, after: seq<Row>, g: Group)
    ensures Count(before + [r] + after, g) == Count(before + after, g) + (if GroupOf(r) == g then 1 else 0)
  {
    assert (before + [r])[..|before|] == before;
    CountConcat(before, after, g);
    CountConcat(before + [r], after, g);
  }

  lemma {:induction false} CountConcat(a: seq<Row>, b: seq<Row>, g: Group)
    ensures Count(a + b, g) == Count(a, g) + Count(b, g)
  {
    if b == [] {
      assert a + b == a;
    } else {
      CountConcat(a, b[..|b| - 1], g);
      assert (a + b)[..|a + b| - 1] == a + b[..|b| - 1];
    }
  }

  /** No feasible part of some rows is larger than what the greedy pass takes from them, sorted. */
  lemma FeasibleIsAtMost(t: seq<Row>, s: seq<Row>, q: Quotas)
    requires multiset(t) <= multiset(s) && Feasible(t, q) && Sorted(s)
    ensures |t| <= |Select(s, q)|
  {
    SizeIsLength(t);
    PartTally(t, s);
    BestIsMost(TallyOf(t), TallyOf(s), q);
    SelectTakesBest(s, q);
    SizeIsLength(Select(s, q));
  }

  lemma {:induction false} SelectPrefix(s: seq<Row>, n: nat, q: Quotas)
    requires n <= |s|
    ensures Select(s[..n], q) <= Select(s, q)
    decreases |s|
  {
    if n < |s| {
      SelectPrefix(s[..|s| - 1], n, q);
      assert s[..|s| - 1][..n] == s[..n];
    } else {
      assert s[..n] == s;
    }
  }

  /**
    Any selection that respects the quotas, listed in trust order, is no longer than the greedy one, and its i-th row is
    no more trusted than the greedy one's i-th row.
   */
  lemma SelectionIsOptimal(rows: seq<Row>, t: seq<Row>, q: Quotas)
    requires multiset(t) <= multiset(rows) && Feasible(t, q)
    ensures Dominates(Select(OrderByTrust(rows), q), OrderByTrust(t))
  {
    var s, u := OrderByTrust(rows), OrderByTrust(t);
    OrderSorts(rows);
    OrderSorts(t);
    OrderPermutes(rows);
    OrderPermutes(t);
    SameCounts(u, t, q);
    FeasibleIsAtMost(u, s, q);
    forall i | 0 <= i < |u|
      ensures AtLeast(Select(s, q)[i], u[i])
    {
      PositionIsOptimal(s, u, q, i);
    }
  }

  lemma SameCounts(u: seq<Row>, t: seq<Row>, q: Quotas)
    requires multiset(u) == multiset(t) && Feasible(t, q)
    ensures Feasible(u, q)
  {
    PartTally(u, t);
  }

  lemma PositionIsOptimal(s: seq<Row>, u: seq<Row>, q: Quotas, i: nat)
    requires Sorted(s) && Sorted(u) && multiset(u) <= multiset(s) && Feasible(u, q) && i < |u|
    ensures i < |Select(s, q)| && AtLeast(Select(s, q)[i], u[i])
  {
    var n := EnoughInPrefix(s, u, q, i);
    SelectPrefix(s, n, q);
    SelectMembers(s[..n], q, i);
  }

  /** The rows at least as trusted as u[i] already let the greedy pass take more than i. */
  lemma EnoughInPrefix(s: seq<Row>, u: seq<Row>, q: Quotas, i: nat) returns (n: nat)
    requires Sorted(s) && Sorted(u) && multiset(u) <= multiset(s) && Feasible(u, q) && i < |u|
    ensures n <= |s| && i < |Select(s[..n], q)| && forall k | 0 <= k < n :: AtLeast(s[k], u[i])
  {
    n := UpToIsPrefix(s, u[i]);
    var m := UpToIsPrefix(u, u[i]);
    assert m > i;
    PrefixIsPart(s, u, u[i]);
    SameOrFewer(u, m, q);
    FeasibleIsAtMost(u[..m], s[..n], q);
  }

  lemma {:induction false} SelectMembers(s: seq<Row>, q: Quotas, i: nat)
    requires i < |Select(s, q)|
    ensures Select(s, q)[i] in s
  {
    if i < |Select(s[..|s| - 1], q)| {
      SelectMembers(s[..|s| - 1], q, i);
    }
  }

  lemma PrefixIsPart(s: seq<Row>, u: seq<Row>, x: Row)
    requires multiset(u) <= multiset(s)
    ensures multiset(UpTo(u, x)) <= multiset(UpTo(s, x))
  {
    forall r
      ensures multiset(UpTo(u, x))[r] <= multiset(UpTo(s, x))[r]
    {
      UpToMultiset(s, x, r);
      UpToMultiset(u, x, r);
    }
  }

  lemma SameOrFewer(u: seq<Row>, m: nat, q: Quotas)
    requires m <= |u| && Feasible(u, q)
    ensures Feasible(u[..m], q)
  {
    assert u == u[..m] + u[m..];
    PartTally(u[..m], u);
  }

  lemma SelectionIsBest(rows: seq<Row>, q: Quotas)
    ensures IsBest(Select(OrderByTrust(rows), q), rows, q)
  {
    SelectionIsLegal(rows, q);
    forall t | multiset(t) <= multiset(rows) && Feasible(t, q)
      ensures Dominates(Select(OrderByTrust(rows), q), OrderByTrust(t))
    {
      SelectionIsOptimal(rows, t, q);
    }
  }

  /** With distinct identifiers the selection does not depend on the order of the input. */
  lemma SelectionIsInputIndependent(a: seq<Row>, b: seq<Row>, q: Quotas)
    requires multiset(a) == multiset(b) && DistinctIds(a)
    ensures Select(OrderByTrust(a), q) == Select(OrderByTrust(b), q)
  {
    OrderIsInputIndependent(a, b);
  }
}
