/**
  Semantic memory recall: the canonical-row filter, the ranking, and the greedy selection that trades relevance against
  similarity under per-type caps. Scores are reals; what the vector index returns is arbitrary.
 */
module MemoryRecall {
  import opened Basics

  datatype Memory = Memory(
    id: string, tenantId: string, projectId: string, repositoryId: string, memoryType: string, title: string, status: string,
    validFrom: int, validUntil: Option<int>, expiresAt: Option<int>, supersededBy: Option<string>)

  datatype Hit = Hit(memoryId: string, score: real)

  datatype Request = Request(tenantId: string, projectId: string, repositoryId: string)

  datatype Item = Item(memory: Memory, relevance: real)

  // ----- the filter on canonical rows

  predicate InScope(m: Memory, r: Request) {
    m.tenantId == r.tenantId && m.projectId == r.projectId && m.repositoryId == r.repositoryId
  }

  predicate Current(m: Memory, now: int) {
    && m.status == "active"
    && m.validFrom <= now
    && (m.validUntil.Some? ==> now < m.validUntil.value)
    && (m.expiresAt.Some? ==> now < m.expiresAt.value)
    && (m.supersededBy.Some? ==> m.supersededBy.value == "")
  }

  /** What surrounds one recall: the answer and the clock reading of the i-th lookup, and the scoring function. */
  datatype World = World(find: (nat, string) -> Option<Memory>, clock: nat -> int, score: (Hit, Memory) -> real)

  /** Hit i survives: it names a row, and the row itself is in scope, current and scored above the threshold. */
  predicate Survives(w: World, r: Request, hits: seq<Hit>, threshold: real, i: nat)
    requires i < |hits|
  {
    && hits[i].memoryId != ""
    && var row := w.find(i, hits[i].memoryId);
       row.Some? && InScope(row.value, r) && Current(row.value, w.clock(i)) && w.score(hits[i], row.value) >= threshold
  }

  function ItemOf(w: World, hits: seq<Hit>, i: nat): Item
    requires i < |hits| && w.find(i, hits[i].memoryId).Some?
  {
    var row := w.find(i, hits[i].memoryId).value;
    Item(row, w.score(hits[i], row))
  }

  function Candidates(w: World, r: Request, hits: seq<Hit>, threshold: real, n: nat): seq<Item>
    requires n <= |hits|
  {
    if n == 0 then []
    else
      Candidates(w, r, hits, threshold, n - 1)
      + (if Survives(w, r, hits, threshold, n - 1) then [ItemOf(w, hits, n - 1)] else [])
  }

  method LoadCandidates(w: World, r: Request, hits: seq<Hit>, threshold: real) returns (items: seq<Item>)
    ensures items == Candidates(w, r, hits, threshold, |hits|)
  {
    items := [];
    for i := 0 to |hits|
      invariant items == Candidates(w, r, hits, threshold, i)
    {
      var memoryId := hits[i].memoryId;
      if memoryId == "" {
        continue;
      }
      var found := w.find(i, memoryId);
      if found.None? {
        continue;
      }
      var memory := found.value;
      if memory.tenantId != r.tenantId || memory.projectId != r.projectId || memory.repositoryId != r.repositoryId {
        continue;
      }
      if memory.status != "active" {
        continue;
      }
      var now := w.clock(i);
      if memory.validFrom > now || (memory.validUntil.Some? && memory.validUntil.value <= now)
         || (memory.expiresAt.Some? && memory.expiresAt.value <= now) {
        continue;
      }
      if memory.supersededBy.Some? && memory.supersededBy.value != "" {
        continue;
      }
      var relevance := w.score(hits[i], memory);
      if relevance >= threshold {
        items := items + [Item(memory, relevance)];
      }
    }
  }

  /** Where a candidate comes from. */
  lemma {:induction false} CandidateSurvived(w: World, r: Request, hits: seq<Hit>, threshold: real, n: nat, x: Item) returns (i: nat)
    requires n <= |hits| && x in Candidates(w, r, hits, threshold, n)
    ensures i < n && Survives(w, r, hits, threshold, i) && x == ItemOf(w, hits, i)
  {
    if x in Candidates(w, r, hits, threshold, n - 1) {
      i := CandidateSurvived(w, r, hits, threshold, n - 1, x);
    } else {
      i := n - 1;
    }
  }

  /** And nothing that may be recalled is dropped: every such hit is a candidate. */
  lemma {:induction false} HitBecomesCandidate(w: World, r: Request, hits: seq<Hit>, threshold: real, n: nat, i: nat)
    requires i < n <= |hits| && hits[i].memoryId != "" && w.find(i, hits[i].memoryId).Some?
    requires var row, now := w.find(i, hits[i].memoryId).value, w.clock(i);
             && row.tenantId == r.tenantId && row.projectId == r.projectId && row.repositoryId == r.repositoryId
             && row.status == "active" && row.validFrom <= now
             && (row.validUntil.Some? ==> now < row.validUntil.value) && (row.expiresAt.Some? ==> now < row.expiresAt.value)
             && (row.supersededBy == None || row.supersededBy == Some(""))
             && w.score(hits[i], row) >= threshold
    ensures ItemOf(w, hits, i) in Candidates(w, r, hits, threshold, n)
  {
    if i < n - 1 {
      HitBecomesCandidate(w, r, hits, threshold, n - 1, i);
    }
  }

  // ----- the ranking

  function Insert(s: seq<Item>, x: Item): (t: seq<Item>)
    ensures |t| == |s| + 1
  {
    if s == [] then [x]
    else if s[|s| - 1].relevance >= x.relevance then s + [x]
    else Insert(s[..|s| - 1], x) + [s[|s| - 1]]
  }

  /** Most relevant first; equal scores keep their order. */
  function Ranked(items: seq<Item>): seq<Item> {
    if items == [] then [] else Insert(Ranked(items[..|items| - 1]), items[|items| - 1])
  }

  lemma {:induction false} InsertMembers(s: seq<Item>, x: Item, y: Item)
    ensures y in Insert(s, x) <==> y in s || y == x
  {
    if s != [] && s[|s| - 1].relevance < x.relevance {
      InsertMembers(s[..|s| - 1], x, y);
      assert s == s[..|s| - 1] + [s[|s| - 1]];
    }
  }

  lemma {:induction false} RankedMembers(items: seq<Item>, y: Item)
    ensures y in Ranked(items) <==> y in items
  {
    if items != [] {
      RankedMembers(items[..|items| - 1], y);
      InsertMembers(Ranked(items[..|items| - 1]), items[|items| - 1], y);
      assert items == items[..|items| - 1] + [items[|items| - 1]];
    }
  }

  lemma {:induction false} InsertDescends(s: seq<Item>, x: Item)
    requires Descends(s)
    ensures Descends(Insert(s, x))
    ensures var last := Insert(s, x)[|Insert(s, x)| - 1]; last == x || (s != [] && last == s[|s| - 1])
  {
    if s != [] && s[|s| - 1].relevance < x.relevance {
      InsertDescends(s[..|s| - 1], x);
    }
  }

  ghost predicate Descends(s: seq<Item>) {
    forall i | 0 < i < |s| :: s[i - 1].relevance >= s[i].relevance
  }

  lemma {:induction false} RankedDescends(items: seq<Item>)
    ensures Descends(Ranked(items))
  {
    if items != [] {
      RankedDescends(items[..|items| - 1]);
      InsertDescends(Ranked(items[..|items| - 1]), items[|items| - 1]);
    }
  }

  /** The items with one score, in order. */
  function WithScore(s: seq<Item>, score: real): seq<Item> {
    if s == [] then []
    else WithScore(s[..|s| - 1], score) + (if s[|s| - 1].relevance == score then [s[|s| - 1]] else [])
  }

  lemma WithScoreSnoc(s: seq<Item>, x: Item, score: real)
    ensures WithScore(s + [x], score) == WithScore(s, score) + if x.relevance == score then [x] else []
  {
    assert (s + [x])[..|s|] == s;
  }

  lemma {:induction false} InsertIsStable(s: seq<Item>, x: Item, score: real)
    ensures WithScore(Insert(s, x), score) == WithScore(s, score) + if x.relevance == score then [x] else []
  {
    if s == [] || s[|s| - 1].relevance >= x.relevance {
      WithScoreSnoc(s, x, score);
      assert s == [] ==> s + [x] == [x];
    } else {
      var front, last := s[..|s| - 1], s[|s| - 1];
      InsertIsStable(front, x, score);
      WithScoreSnoc(Insert(front, x), last, score);
    }
  }

  /** The ranking loses and invents nothing, and leaves items with equal scores in their order. */
  lemma {:induction false} RankedIsStable(items: seq<Item>, score: real)
    ensures WithScore(Ranked(items), score) == WithScore(items, score)
  {
    if items != [] {
      RankedIsStable(items[..|items| - 1], score);
      InsertIsStable(Ranked(items[..|items| - 1]), items[|items| - 1], score);
    }
  }

  // ----- the diverse selection, as positions in the ranking

  datatype Caps = Caps(topK: int, perType: map<string, int>, lambda: real)

  function Cap(c: Caps, memoryType: string): int {
    if memoryType in c.perType then c.perType[memoryType] else c.topK
  }

  predicate Fits(s: seq<Item>, picks: seq<nat>) {
    forall i | 0 <= i < |picks| :: picks[i] < |s|
  }

  function Count(s: seq<Item>, picks: seq<nat>, memoryType: string): nat
    requires Fits(s, picks)
  {
    if picks == [] then 0
    else Count(s, picks[..|picks| - 1], memoryType) + (if s[picks[|picks| - 1]].memory.memoryType == memoryType then 1 else 0)
  }

  /** 1 when an item with the same repository, type and title is already selected, else 0. */
  function Similarity(x: Item, selected: seq<Item>): real {
    if exists y :: y in selected && Alike(x, y) then 1.0 else 0.0
  }

  predicate Alike(x: Item, y: Item) {
    y.memory.repositoryId == x.memory.repositoryId && y.memory.memoryType == x.memory.memoryType && y.memory.title == x.memory.title
  }

  function Chosen(s: seq<Item>, picks: seq<nat>): (items: seq<Item>)
    requires Fits(s, picks)
    ensures |items| == |picks| && forall i | 0 <= i < |picks| :: items[i] == s[picks[i]]
  {
    seq(|picks|, i requires 0 <= i < |picks| => s[picks[i]])
  }

  function Mmr(c: Caps, s: seq<Item>, picks: seq<nat>, i: nat): real
    requires i < |s| && Fits(s, picks)
  {
    s[i].relevance - c.lambda * Similarity(s[i], Chosen(s, picks))
  }

  predicate HasRoom(c: Caps, s: seq<Item>, picks: seq<nat>, i: nat)
    requires i < |s| && Fits(s, picks)
  {
    i !in picks && Count(s, picks, s[i].memory.memoryType) < Cap(c, s[i].memory.memoryType)
  }

  predicate Better(c: Caps, s: seq<Item>, picks: seq<nat>, i: nat, j: nat)
    requires i < |s| && j < |s| && Fits(s, picks)
  {
    Mmr(c, s, picks, i) > Mmr(c, s, picks, j) || (Mmr(c, s, picks, i) == Mmr(c, s, picks, j) && i <= j)
  }

  /** `i` is the first best of the positions that are left and have room. */
  ghost predicate LocallyBest(c: Caps, s: seq<Item>, picks: seq<nat>, i: nat)
    requires i < |s| && Fits(s, picks)
  {
    HasRoom(c, s, picks, i) && forall j: nat | j < |s| && HasRoom(c, s, picks, j) :: Better(c, s, picks, i, j)
  }

  ghost predicate Picks(s: seq<Item>, picks: seq<nat>) {
    Distinct(picks) && Fits(s, picks)
  }

  /** Every pick was locally best when it was made. */
  ghost predicate Greedy(c: Caps, s: seq<Item>, picks: seq<nat>)
    requires Picks(s, picks)
  {
    forall k | 0 <= k < |picks| :: Fits(s, picks[..k]) && LocallyBest(c, s, picks[..k], picks[k])
  }

  /** Greedy, and nothing more can be picked. */
  ghost predicate Diverse(c: Caps, s: seq<Item>, picks: seq<nat>) {
    && Picks(s, picks) && Greedy(c, s, picks)
    && |picks| <= Max(0, c.topK)
    && (|picks| < c.topK ==> forall i: nat | i < |s| :: !HasRoom(c, s, picks, i))
  }

  /** Some diverse picks select exactly these items; DiverseIsUnique says that there is only one such selection. */
  ghost predicate IsSelection(c: Caps, s: seq<Item>, selected: seq<Item>) {
    exists picks :: Diverse(c, s, picks) && selected == Chosen(s, picks)
  }

  method MaxSimilarityToSelected(x: Item, selected: seq<Item>) returns (maxSim: real)
    ensures maxSim == Similarity(x, selected)
    ensures maxSim == 0.0 || maxSim == 1.0
    ensures maxSim == 1.0 <==>
              exists y :: && y in selected && y.memory.repositoryId == x.memory.repositoryId
                          && y.memory.memoryType == x.memory.memoryType && y.memory.title == x.memory.title
  {
    maxSim := 0.0;
    for i := 0 to |selected|
      invariant maxSim == Similarity(x, selected[..i])
    {
      assert selected[..i + 1] == selected[..i] + [selected[i]];
      var s := selected[i];
      if s.memory.repositoryId == x.memory.repositoryId && s.memory.memoryType == x.memory.memoryType {
        if s.memory.title == x.memory.title {
          assert Alike(x, s) && s in selected[..i + 1];
          maxSim := 1.0;
        }
      }
    }
    assert selected[..|selected|] == selected;
  }

  // ----- the method

  predicate Increasing(left: seq<nat>) {
    forall i, j | 0 <= i < j < |left| :: left[i] < left[j]
  }

  /** The pool holds, in ranking order, the items at the positions not picked yet. */
  ghost predicate Pool(s: seq<Item>, picks: seq<nat>, pool: seq<Item>, left: seq<nat>) {
    && Increasing(left) && |pool| == |left|
    && (forall i | 0 <= i < |left| :: left[i] < |s| && pool[i] == s[left[i]])
    && (forall p: nat | p < |s| :: p in left <==> p !in picks)
  }

  ghost predicate Tallies(s: seq<Item>, picks: seq<nat>, typeCounts: map<string, int>)
    requires Fits(s, picks)
  {
    forall t :: Count(s, picks, t) == if t in typeCounts then typeCounts[t] else 0
  }

  ghost predicate Working(c: Caps, s: seq<Item>, picks: seq<nat>, pool: seq<Item>, left: seq<nat>, typeCounts: map<string, int>) {
    && Picks(s, picks) && Greedy(c, s, picks)
    && Pool(s, picks, pool, left) && Tallies(s, picks, typeCounts)
  }

  method FindBest(c: Caps, s: seq<Item>, pool: seq<Item>, selected: seq<Item>, typeCounts: map<string, int>,
      ghost picks: seq<nat>, ghost left: seq<nat>)
    returns (bestIdx: int)
    requires Fits(s, picks) && selected == Chosen(s, picks)
    requires Pool(s, picks, pool, left) && Tallies(s, picks, typeCounts)
    ensures -1 <= bestIdx < |pool|
    ensures bestIdx == -1 ==> forall p: nat | p < |s| :: !HasRoom(c, s, picks, p)
    ensures bestIdx >= 0 ==> LocallyBest(c, s, picks, left[bestIdx])
  {
    bestIdx := -1;
    var bestScore := 0.0;
    for i := 0 to |pool|
      invariant -1 <= bestIdx < i
      invariant bestIdx == -1 ==> forall k | 0 <= k < i :: !HasRoom(c, s, picks, left[k])
      invariant bestIdx >= 0 ==> HasRoom(c, s, picks, left[bestIdx]) && bestScore == Mmr(c, s, picks, left[bestIdx])
      invariant bestIdx >= 0 ==> forall k | 0 <= k < i && HasRoom(c, s, picks, left[k]) :: Better(c, s, picks, left[bestIdx], left[k])
    {
      var entry := pool[i];
      assert left[i] in left;
      var memoryType := entry.memory.memoryType;
      var cap := if memoryType in c.perType then c.perType[memoryType] else c.topK;
      if (if memoryType in typeCounts then typeCounts[memoryType] else 0) >= cap {
        continue;
      }
      var maxSim := MaxSimilarityToSelected(entry, selected);
      var mmr := entry.relevance - c.lambda * maxSim;
      if bestIdx == -1 || mmr > bestScore {
        bestScore, bestIdx := mmr, i;
      }
    }
    forall p: nat | p < |s| && HasRoom(c, s, picks, p)
      ensures bestIdx >= 0 && Better(c, s, picks, left[bestIdx], p)
    {
      var k :| 0 <= k < |left| && left[k] == p;
    }
  }

  /** Moves one item from the pool to the selection. */
  method Take(c: Caps, s: seq<Item>, pool: seq<Item>, selected: seq<Item>, typeCounts: map<string, int>, bestIdx: nat,
      ghost picks: seq<nat>, ghost left: seq<nat>)
    returns (selected': seq<Item>, pool': seq<Item>, typeCounts': map<string, int>, ghost picks': seq<nat>, ghost left': seq<nat>)
    requires Working(c, s, picks, pool, left, typeCounts) && selected == Chosen(s, picks)
    requires bestIdx < |left| && LocallyBest(c, s, picks, left[bestIdx])
    ensures Working(c, s, picks', pool', left', typeCounts') && selected' == Chosen(s, picks')
    ensures |picks'| == |picks| + 1 && |pool'| == |pool| - 1
  {
    PickOne(c, s, picks, pool, left, bestIdx, typeCounts);
    var chosen := pool[bestIdx];
    pool' := pool[..bestIdx] + pool[bestIdx + 1..];
    selected' := selected + [chosen];
    var t := chosen.memory.memoryType;
    typeCounts' := typeCounts[t := (if t in typeCounts then typeCounts[t] else 0) + 1];
    picks' := picks + [left[bestIdx]];
    left' := left[..bestIdx] + left[bestIdx + 1..];
  }

  method SelectDiverse(c: Caps, s: seq<Item>) returns (selected: seq<Item>)
    ensures IsSelection(c, s, selected)
  {
    selected := [];
    ghost var picks: seq<nat> := [];
    var typeCounts: map<string, int> := map[];
    var pool := s;
    ghost var left := Start(c, s);
    while |selected| < c.topK && |pool| > 0
      invariant Working(c, s, picks, pool, left, typeCounts)
      invariant selected == Chosen(s, picks) && |picks| <= Max(0, c.topK)
      decreases |pool|
    {
      var bestIdx := FindBest(c, s, pool, selected, typeCounts, picks, left);
      if bestIdx == -1 {
        NoneFits(c, s, picks);
        return;
      }
      selected, pool, typeCounts, picks, left := Take(c, s, pool, selected, typeCounts, bestIdx, picks, left);
    }
    Finished(c, s, picks, pool, left, typeCounts);
  }

  lemma Finished(c: Caps, s: seq<Item>, picks: seq<nat>, pool: seq<Item>, left: seq<nat>, typeCounts: map<string, int>)
    requires Working(c, s, picks, pool, left, typeCounts) && |picks| <= Max(0, c.topK)
    requires |picks| >= c.topK || pool == []
    ensures IsSelection(c, s, Chosen(s, picks))
  {
    if pool == [] {
      Exhausted(c, s, picks, pool, left, typeCounts);
    }
    assert Diverse(c, s, picks);
  }

  lemma NoneFits(c: Caps, s: seq<Item>, picks: seq<nat>)
    requires Picks(s, picks) && Greedy(c, s, picks) && |picks| <= Max(0, c.topK)
    requires forall i: nat | i < |s| :: !HasRoom(c, s, picks, i)
    ensures IsSelection(c, s, Chosen(s, picks))
  {
    assert Diverse(c, s, picks);
  }

  lemma Start(c: Caps, s: seq<Item>) returns (left: seq<nat>)
    ensures Working(c, s, [], s, left, map[])
  {
    left := seq(|s|, i => i);
    forall p: nat | p < |s|
      ensures p in left
    {
      assert left[p] == p;
    }
  }

  lemma Exhausted(c: Caps, s: seq<Item>, picks: seq<nat>, pool: seq<Item>, left: seq<nat>, typeCounts: map<string, int>)
    requires Working(c, s, picks, pool, left, typeCounts) && pool == []
    ensures forall i: nat | i < |s| :: !HasRoom(c, s, picks, i)
  {
  }

  /** One more pick keeps the loop's invariant. */
  lemma PickOne(c: Caps, s: seq<Item>, picks: seq<nat>, pool: seq<Item>, left: seq<nat>, b: nat, typeCounts: map<string, int>)
    requires Working(c, s, picks, pool, left, typeCounts)
    requires b < |left| && LocallyBest(c, s, picks, left[b])
    ensures var t := pool[b].memory.memoryType;
            Working(c, s, picks + [left[b]], pool[..b] + pool[b + 1..], left[..b] + left[b + 1..],
                    typeCounts[t := (if t in typeCounts then typeCounts[t] else 0) + 1])
    ensures Chosen(s, picks + [left[b]]) == Chosen(s, picks) + [pool[b]]
  {
    PickGreedy(c, s, picks, left[b]);
    PickPool(s, picks, pool, left, b);
    assert (picks + [left[b]])[..|picks|] == picks;
  }

  lemma PickGreedy(c: Caps, s: seq<Item>, picks: seq<nat>, p: nat)
    requires Picks(s, picks) && Greedy(c, s, picks) && p < |s| && LocallyBest(c, s, picks, p)
    ensures Picks(s, picks + [p]) && Greedy(c, s, picks + [p])
  {
    var more := picks + [p];
    forall k | 0 <= k < |more|
      ensures Fits(s, more[..k]) && LocallyBest(c, s, more[..k], more[k])
    {
      assert more[..k] == picks[..k];
      assert k == |picks| ==> more[..k] == picks;
    }
  }

  lemma PickPool(s: seq<Item>, picks: seq<nat>, pool: seq<Item>, left: seq<nat>, b: nat)
    requires Pool(s, picks, pool, left) && b < |left|
    ensures Pool(s, picks + [left[b]], pool[..b] + pool[b + 1..], left[..b] + left[b + 1..])
  {
  }

  // ----- what the specification implies

  /** The specification leaves no choice. */
  lemma DiverseIsUnique(c: Caps, s: seq<Item>, picks: seq<nat>, others: seq<nat>)
    requires Diverse(c, s, picks) && Diverse(c, s, others)
    ensures picks == others
  {
    SamePrefix(c, s, picks, others, Min(|picks|, |others|));
    if |picks| <= |others| {
      NoLonger(c, s, picks, others);
    } else {
      NoLonger(c, s, others, picks);
    }
  }

  lemma {:induction false} SamePrefix(c: Caps, s: seq<Item>, picks: seq<nat>, others: seq<nat>, n: nat)
    requires Diverse(c, s, picks) && Diverse(c, s, others) && n <= |picks| && n <= |others|
    ensures picks[..n] == others[..n]
  {
    if n > 0 {
      SamePrefix(c, s, picks, others, n - 1);
      SameChoice(c, s, picks[..n - 1], picks[n - 1], others[n - 1]);
      assert picks[..n] == picks[..n - 1] + [picks[n - 1]] && others[..n] == others[..n - 1] + [others[n - 1]];
    }
  }

  lemma SameChoice(c: Caps, s: seq<Item>, picks: seq<nat>, i: nat, j: nat)
    requires i < |s| && j < |s| && Fits(s, picks) && LocallyBest(c, s, picks, i) && LocallyBest(c, s, picks, j)
    ensures i == j
  {
  }

  lemma NoLonger(c: Caps, s: seq<Item>, picks: seq<nat>, others: seq<nat>)
    requires Diverse(c, s, picks) && Diverse(c, s, others)
    requires |picks| <= |others| && picks[..|picks|] == others[..|picks|]
    ensures picks == others
  {
    assert picks[..|picks|] == picks;
    if |picks| < |others| {
      RoomWasLeft(c, s, picks, others);
    }
  }

  lemma RoomWasLeft(c: Caps, s: seq<Item>, picks: seq<nat>, others: seq<nat>)
    requires Picks(s, others) && Greedy(c, s, others) && Fits(s, picks)
    requires |picks| < |others| && picks == others[..|picks|]
    ensures exists i: nat :: i < |s| && HasRoom(c, s, picks, i)
  {
  }

  lemma {:induction false} CapsAreRespected(c: Caps, s: seq<Item>, picks: seq<nat>, t: string)
    requires Picks(s, picks) && Greedy(c, s, picks)
    ensures Count(s, picks, t) <= Max(0, if t in c.perType then c.perType[t] else c.topK)
  {
    if picks != [] {
      var n := |picks| - 1;
      assert forall k | 0 <= k < n :: picks[..n][..k] == picks[..k];
      CapsAreRespected(c, s, picks[..n], t);
      assert LocallyBest(c, s, picks[..n], picks[n]);
    }
  }

  /** Whether position `j` is the double of one of these picks: same repository, type and title. */
  ghost predicate Doubles(s: seq<Item>, picks: seq<nat>, j: nat)
    requires j < |s| && Fits(s, picks)
  {
    exists i ::
      && 0 <= i < |picks|
      && s[picks[i]].memory.repositoryId == s[j].memory.repositoryId && s[picks[i]].memory.memoryType == s[j].memory.memoryType
      && s[picks[i]].memory.title == s[j].memory.title
  }

  lemma DoublesLoseLambda(c: Caps, s: seq<Item>, picks: seq<nat>, j: nat)
    requires j < |s| && Fits(s, picks)
    ensures Mmr(c, s, picks, j) == s[j].relevance - if Doubles(s, picks, j) then c.lambda else 0.0
  {
    if Doubles(s, picks, j) {
      var i :| 0 <= i < |picks| && Alike(s[j], s[picks[i]]);
      assert Chosen(s, picks)[i] in Chosen(s, picks);
    }
  }

  /**
    Pick by pick: nothing that still had room scored higher, doubles of earlier picks having lost lambda, and nothing that
    scored the same ranked before it.
   */
  lemma PickIsBest(c: Caps, s: seq<Item>, picks: seq<nat>, k: nat, j: nat)
    requires Picks(s, picks) && Greedy(c, s, picks) && k < |picks| && j < |s|
    requires j !in picks[..k] && Count(s, picks[..k], s[j].memory.memoryType)
               < if s[j].memory.memoryType in c.perType then c.perType[s[j].memory.memoryType] else c.topK
    ensures var earlier, p := picks[..k], picks[k];
            var mine := s[p].relevance - if Doubles(s, earlier, p) then c.lambda else 0.0;
            var theirs := s[j].relevance - if Doubles(s, earlier, j) then c.lambda else 0.0;
            mine > theirs || (mine == theirs && p <= j)
  {
    assert LocallyBest(c, s, picks[..k], picks[k]) && HasRoom(c, s, picks[..k], j);
    DoublesLoseLambda(c, s, picks[..k], picks[k]);
    DoublesLoseLambda(c, s, picks[..k], j);
  }

  /** The positions of one type. */
  function Positions(s: seq<Item>, t: string): set<nat> {
    set p: nat | p < |s| && s[p].memory.memoryType == t
  }

  lemma {:induction false} CountIsSize(s: seq<Item>, picks: seq<nat>, t: string)
    requires Picks(s, picks)
    ensures Count(s, picks, t) == |set p: nat | p in picks && p in Positions(s, t)|
  {
    if picks != [] {
      var front, p := picks[..|picks| - 1], picks[|picks| - 1];
      CountIsSize(s, front, t);
      assert picks == front + [p] && p !in front;
      SetGrows(front, p, Positions(s, t));
    }
  }

  lemma SetGrows(front: seq<nat>, p: nat, among: set<nat>)
    requires p !in front
    ensures |set q: nat | q in front + [p] && q in among| == |set q: nat | q in front && q in among| + (if p in among then 1 else 0)
  {
    var before := set q: nat | q in front && q in among;
    assert (set q: nat | q in front + [p] && q in among) == before + (if p in among then {p} else {});
  }

  lemma SmallerSet(a: set<nat>, b: set<nat>)
    requires a <= b
    ensures |a| <= |b|
  {
    assert |b| == |a| + |b - a| by {
      assert b == a + (b - a);
    }
  }

  /** What one type contributes when the selection is not cut off by topK. */
  function Share(c: Caps, s: seq<Item>, t: string): nat {
    Min(Max(0, Cap(c, t)), |Positions(s, t)|)
  }

  lemma TypeGetsItsShare(c: Caps, s: seq<Item>, picks: seq<nat>, t: string)
    requires Diverse(c, s, picks)
    ensures Count(s, picks, t) <= Share(c, s, t)
    ensures |picks| < c.topK ==> Count(s, picks, t) == Share(c, s, t)
  {
    CapsAreRespected(c, s, picks, t);
    CountIsSize(s, picks, t);
    var mine := set p: nat | p in picks && p in Positions(s, t);
    SmallerSet(mine, Positions(s, t));
    if |picks| < c.topK && Count(s, picks, t) < Cap(c, t) {
      forall p | p in Positions(s, t)
        ensures p in mine
      {
        assert !HasRoom(c, s, picks, p);
      }
      assert mine == Positions(s, t);
    }
  }

  function Shares(c: Caps, s: seq<Item>, types: seq<string>): nat {
    if types == [] then 0 else Shares(c, s, types[..|types| - 1]) + Share(c, s, types[|types| - 1])
  }

  function Counts(s: seq<Item>, picks: seq<nat>, types: seq<string>): nat
    requires Fits(s, picks)
  {
    if types == [] then 0 else Counts(s, picks, types[..|types| - 1]) + Count(s, picks, types[|types| - 1])
  }

  lemma {:induction false} CountsCompare(c: Caps, s: seq<Item>, picks: seq<nat>, types: seq<string>)
    requires Diverse(c, s, picks)
    ensures Counts(s, picks, types) <= Shares(c, s, types)
    ensures |picks| < c.topK ==> Counts(s, picks, types) == Shares(c, s, types)
  {
    if types != [] {
      CountsCompare(c, s, picks, types[..|types| - 1]);
      TypeGetsItsShare(c, s, picks, types[|types| - 1]);
    }
  }

  lemma {:induction false} OneMoreCount(s: seq<Item>, picks: seq<nat>, types: seq<string>)
    requires Fits(s, picks) && picks != [] && Distinct(types)
    ensures Counts(s, picks, types) == Counts(s, picks[..|picks| - 1], types)
              + (if s[picks[|picks| - 1]].memory.memoryType in types then 1 else 0)
  {
    if types != [] {
      var front, t := types[..|types| - 1], types[|types| - 1];
      OneMoreCount(s, picks, front);
      assert types == front + [t] && t !in front;
    }
  }

  lemma {:induction false} EveryPickIsCounted(s: seq<Item>, picks: seq<nat>, types: seq<string>)
    requires Fits(s, picks) && Distinct(types) && forall i | 0 <= i < |s| :: s[i].memory.memoryType in types
    ensures Counts(s, picks, types) == |picks|
  {
    if picks != [] {
      OneMoreCount(s, picks, types);
      EveryPickIsCounted(s, picks[..|picks| - 1], types);
    } else {
      NothingCounted(s, types);
    }
  }

  lemma {:induction false} NothingCounted(s: seq<Item>, types: seq<string>)
    ensures Counts(s, [], types) == 0
  {
    if types != [] {
      NothingCounted(s, types[..|types| - 1]);
    }
  }

  /** The selection has exactly min(topK, sum over the types of min(cap, count)) items, whatever the scores are. */
  lemma ExactSize(c: Caps, s: seq<Item>, picks: seq<nat>, types: seq<string>)
    requires Diverse(c, s, picks)
    requires Distinct(types) && forall i | 0 <= i < |s| :: s[i].memory.memoryType in types
    ensures |picks| == Min(Max(0, c.topK), Shares(c, s, types))
  {
    EveryPickIsCounted(s, picks, types);
    CountsCompare(c, s, picks, types);
  }

  /**
    Whatever the index returns: every recalled item is the row its hit was looked up as, in the requested scope, current
    at the clock reading of that lookup, and scored at or above the threshold.
   */
  lemma RecallIsSound(w: World, r: Request, hits: seq<Hit>, threshold: real, c: Caps, picks: seq<nat>, k: nat) returns (i: nat)
    requires var s := Ranked(Candidates(w, r, hits, threshold, |hits|)); Diverse(c, s, picks)
    requires k < |picks|
    ensures var s := Ranked(Candidates(w, r, hits, threshold, |hits|));
            && i < |hits| && Survives(w, r, hits, threshold, i) && Fits(s, picks) && Chosen(s, picks)[k] == ItemOf(w, hits, i)
    ensures var row, now := w.find(i, hits[i].memoryId).value, w.clock(i);
            && row.tenantId == r.tenantId && row.projectId == r.projectId && row.repositoryId == r.repositoryId
            && row.status == "active" && row.validFrom <= now
            && (row.validUntil.Some? ==> now < row.validUntil.value) && (row.expiresAt.Some? ==> now < row.expiresAt.value)
            && (row.supersededBy == None || row.supersededBy == Some(""))
            && w.score(hits[i], row) >= threshold
  {
    var candidates := Candidates(w, r, hits, threshold, |hits|);
    var x := Ranked(candidates)[picks[k]];
    RankedMembers(candidates, x);
    i := CandidateSurvived(w, r, hits, threshold, |hits|, x);
  }

  /** Filter, ranking and selection, one after the other. */
  method Recall(w: World, r: Request, hits: seq<Hit>, threshold: real, c: Caps) returns (selected: seq<Item>)
    ensures IsSelection(c, Ranked(Candidates(w, r, hits, threshold, |hits|)), selected)
    ensures forall x | x in selected :: InScope(x.memory, r) && x.memory.status == "active" && x.relevance >= threshold
  {
    var items := LoadCandidates(w, r, hits, threshold);
    selected := SelectDiverse(c, Ranked(items));
    ghost var picks :| Diverse(c, Ranked(items), picks) && selected == Chosen(Ranked(items), picks);
    forall x | x in selected
      ensures InScope(x.memory, r) && x.memory.status == "active" && x.relevance >= threshold
    {
      var k: nat :| k < |selected| && selected[k] == x;
      var i := RecallIsSound(w, r, hits, threshold, c, picks, k);
    }
  }
}
