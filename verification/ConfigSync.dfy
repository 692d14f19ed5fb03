/**
  Runtime configuration: the settings transactions of the web application on one side, and on the other a worker whose
  passes read the revision, then the settings, apply them, reload, and remember the revision. Commits fall anywhere
  between the two reads.
 */
module ConfigSync {
  import opened Basics

  type Revision = string

  type Settings = map<string, string>

  /** What one transaction leaves behind: the admin settings, and the revision written with them. */
  datatype Version = Version(revision: Revision, rows: Settings)

  /** The revision a worker starts from, which also stands for a missing revision row. */
  const ZERO: Revision := "0"

  /** How far a pass has come, and what it carries. */
  datatype Phase =
    | Idle
    | GotRevision(revision: Revision)
    | GotSettings(revision: Revision, rows: Settings)
    | Applied(revision: Revision, rows: Settings)
    | Reloaded(revision: Revision, rows: Settings)

  /** `overrides` is what configuration is parsed from, `live` what the pipeline was last reloaded with. */
  datatype Worker = Worker(current: Revision, overrides: Settings, live: Settings, phases: seq<Phase>)

  datatype State = State(version: nat, worker: Worker)

  /** A read, the parsing and the reload may fail; a failed reload may have taken effect. */
  datatype Move = ReadRevision(ok: bool) | ReadSettings(ok: bool) | SetOverrides(parses: bool) | Reload(ok: bool, effect: bool) | Remember

  datatype Step = Commit | Pass(p: nat, move: Move)

  function To(w: Worker, p: nat, phase: Phase): Worker
    requires p < |w.phases|
  {
    w.(phases := w.phases[p := phase])
  }

  /** One move of pass `p`, with the store at version `v`. */
  function PassStep(v: Version, w: Worker, p: nat, move: Move): Worker
    requires p < |w.phases|
  {
    match (w.phases[p], move)
    case (Idle, ReadRevision(ok)) => if ok && v.revision != w.current then To(w, p, GotRevision(v.revision)) else w
    case (GotRevision(r), ReadSettings(ok)) => if ok then To(w, p, GotSettings(r, v.rows)) else To(w, p, Idle)
    case (GotSettings(r, rows), SetOverrides(parses)) => To(w, p, if parses then Applied(r, rows) else Idle).(overrides := rows)
    case (Applied(r, rows), Reload(ok, effect)) =>
      var next := To(w, p, if ok then Reloaded(r, rows) else Idle);
      if ok || effect then next.(live := rows) else next
    case (Reloaded(r, _), Remember) => To(w, p, Idle).(current := r)
    case _ => w
  }

  /** What the outside world does to one pass: the two reads, the parse, the reload, and the closing heartbeat. */
  datatype Weather = Weather(revisionOk: bool, settingsOk: bool, parses: bool, reloadOk: bool, reloadEffect: bool, heartbeatOk: bool)

  /** A whole pass of a worker that runs only one. */
  function SyncPass(w: Worker, v: Version, x: Weather): Worker
    requires |w.phases| == 1
  {
    var read := PassStep(v, w, 0, ReadRevision(x.revisionOk));
    var fetched := PassStep(v, read, 0, ReadSettings(x.settingsOk));
    var parsed := PassStep(v, fetched, 0, SetOverrides(x.parses));
    PassStep(v, PassStep(v, parsed, 0, Reload(x.reloadOk, x.reloadEffect)), 0, Remember)
  }

  lemma SyncPassStops(w: Worker, v: Version, x: Weather)
    requires w.phases == [Idle]
    ensures var applied := x.revisionOk && v.revision != w.current && x.settingsOk;
            var reloaded := applied && x.parses;
            SyncPass(w, v, x) == Worker(if reloaded && x.reloadOk then v.revision else w.current,
                                        if applied then v.rows else w.overrides,
                                        if reloaded && (x.reloadOk || x.reloadEffect) then v.rows else w.live, [Idle])
  {
  }

  class RuntimeConfigSynchronizer {
    var currentRevision: Revision
    var overrides: Settings
    var live: Settings

    ghost function Value(): Worker
      reads this
    {
      Worker(currentRevision, overrides, live, [Idle])
    }

    constructor (boot: Settings)
      ensures Value() == Worker(ZERO, boot, boot, [Idle])
    {
      currentRevision, overrides, live := ZERO, boot, boot;
    }

    /** `revisionRow` is the answer of the first read, `rows` that of the second. */
    method SyncOnce(revisionRow: Option<Revision>, rows: Settings, x: Weather) returns (reloaded: bool)
      modifies this
      ensures Value() == SyncPass(old(Value()), Version(if revisionRow.Some? then revisionRow.value else ZERO, rows), x)
      ensures reloaded <==> currentRevision != old(currentRevision) && x.heartbeatOk
      ensures
        var desired := if revisionRow.Some? then revisionRow.value else "0";
        var applied := x.revisionOk && desired != old(currentRevision) && x.settingsOk;
        && overrides == (if applied then rows else old(overrides))
        && live == (if applied && x.parses && (x.reloadOk || x.reloadEffect) then rows else old(live))
        && currentRevision == if applied && x.parses && x.reloadOk then desired else old(currentRevision)
    {
      SyncPassStops(Value(), Version(if revisionRow.Some? then revisionRow.value else ZERO, rows), x);
      if !x.revisionOk {
        return false;
      }
      var desiredRevision := if revisionRow.Some? then revisionRow.value else ZERO;
      if desiredRevision == currentRevision {
        return false;
      }
      if !x.settingsOk {
        return false;
      }
      overrides := rows;
      if !x.parses {
        return false;
      }
      if x.reloadEffect || x.reloadOk {
        live := overrides;
      }
      if !x.reloadOk {
        return false;
      }
      currentRevision := desiredRevision;
      reloaded := x.heartbeatOk;
    }
  }

  /** Whether a pass other than `p` is under way. */
  predicate Busy(phases: seq<Phase>, p: nat) {
    exists q :: 0 <= q < |phases| && q != p && !phases[q].Idle?
  }

  /** A run follows a given history of transactions; passes overlap only if `overlap` says so. */
  function Apply(history: seq<Version>, overlap: bool, s: State, step: Step): State
    requires s.version < |history|
  {
    match step
    case Commit => if s.version + 1 < |history| then s.(version := s.version + 1) else s
    case Pass(p, move) =>
      if p >= |s.worker.phases| || (!overlap && Busy(s.worker.phases, p)) then s
      else s.(worker := PassStep(history[s.version], s.worker, p, move))
  }

  /** At boot the worker loads the settings, or fails to and keeps none. */
  function Boot(loaded: bool, rows: Settings): Settings {
    if loaded then rows else map[]
  }

  function Init(history: seq<Version>, loaded: bool, passes: nat): State
    requires history != []
  {
    var boot := Boot(loaded, history[0].rows);
    State(0, Worker(ZERO, boot, boot, seq(passes, _ => Idle)))
  }

  function After(history: seq<Version>, overlap: bool, loaded: bool, passes: nat, steps: seq<Step>): (s: State)
    requires history != []
    ensures s.version < |history| && |s.worker.phases| == passes
  {
    if steps == [] then Init(history, loaded, passes)
    else
      var before := After(history, overlap, loaded, passes, steps[..|steps| - 1]);
      Apply(history, overlap, before, steps[|steps| - 1])
  }

  ghost predicate Resting(w: Worker) {
    forall p | 0 <= p < |w.phases| :: w.phases[p].Idle?
  }

  /** With no pass under way, a worker that has the stored revision has the stored settings. */
  ghost predicate Synced(history: seq<Version>, s: State)
    requires s.version < |history|
  {
    var w, stored := s.worker, history[s.version];
    Resting(w) && w.current == stored.revision ==> w.overrides == w.live == stored.rows
  }

  // ----- the condition on the history

  /** A revision that comes back has had the same settings all the while: in particular, revisions that never repeat. */
  ghost predicate RevisionsIdentify(history: seq<Version>) {
    forall i, j, k | 0 <= i <= j <= k < |history| && history[i].revision == history[k].revision && history[i].revision != ZERO ::
      history[j].rows == history[k].rows
  }

  /** Transactions write clock readings, never the initial revision. */
  ghost predicate CommitsAreNotZero(history: seq<Version>) {
    forall i | 0 < i < |history| :: history[i].revision != ZERO
  }

  ghost predicate BootMatches(history: seq<Version>, loaded: bool)
    requires history != []
  {
    history[0].revision == ZERO ==> Boot(loaded, history[0].rows) == history[0].rows
  }

  // ----- the condition suffices

  /** The first version with revision `r`. */
  function First(history: seq<Version>, r: Revision): nat {
    if history == [] || history[0].revision == r then 0 else 1 + First(history[1..], r)
  }

  lemma {:induction false} FirstIsLeast(history: seq<Version>, r: Revision, i: nat)
    requires i < |history| && history[i].revision == r
    ensures First(history, r) <= i && history[First(history, r)].revision == r
    decreases i
  {
    if history[0].revision != r {
      FirstIsLeast(history[1..], r, i - 1);
    }
  }

  /** `rows` were the stored settings at some point from version `i` to now. */
  ghost predicate Since(history: seq<Version>, i: nat, s: State, rows: Settings)
    requires s.version < |history|
  {
    exists j: nat :: i <= j <= s.version && history[j].rows == rows
  }

  /** Where the worker's revision first appeared. */
  function From(history: seq<Version>, w: Worker): nat {
    if w.current == ZERO then 0 else First(history, w.current)
  }

  /** What the worker holds goes back no further than the first version with its revision. */
  ghost predicate Current(history: seq<Version>, s: State)
    requires s.version < |history|
  {
    var w := s.worker;
    && From(history, w) <= s.version
    && (w.current == ZERO && s.version == 0 && history[0].revision == ZERO ==> w.overrides == w.live == history[0].rows)
    && (w.current != ZERO ==> history[From(history, w)].revision == w.current
                              && Since(history, From(history, w), s, w.overrides) && Since(history, From(history, w), s, w.live))
  }

  /** Revision `r` was stored at version `i`, not before the worker's own revision. */
  ghost predicate ReadAt(history: seq<Version>, s: State, r: Revision, i: nat)
    requires s.version < |history|
  {
    From(history, s.worker) <= i <= s.version && history[i].revision == r && r != ZERO
  }

  ghost predicate PassOk(history: seq<Version>, s: State, phase: Phase)
    requires s.version < |history|
  {
    match phase
    case Idle => true
    case GotRevision(r) => exists i :: ReadAt(history, s, r, i)
    case GotSettings(r, rows) => exists i :: ReadAt(history, s, r, i) && Since(history, i, s, rows)
    case Applied(r, rows) => (exists i :: ReadAt(history, s, r, i) && Since(history, i, s, rows)) && s.worker.overrides == rows
    case Reloaded(r, rows) =>
      (exists i :: ReadAt(history, s, r, i) && Since(history, i, s, rows)) && s.worker.overrides == s.worker.live == rows
  }

  ghost predicate OnePass(phases: seq<Phase>) {
    forall p, q | 0 <= p < q < |phases| :: phases[p].Idle? || phases[q].Idle?
  }

  ghost predicate Inv(history: seq<Version>, s: State)
    requires s.version < |history|
  {
    && Current(history, s) && OnePass(s.worker.phases)
    && (forall p | 0 <= p < |s.worker.phases| :: PassOk(history, s, s.worker.phases[p]))
  }

  lemma SinceLater(history: seq<Version>, i: nat, s: State, s': State, rows: Settings)
    requires s.version <= s'.version < |history| && Since(history, i, s, rows)
    ensures Since(history, i, s', rows)
  {
  }

  lemma CommitKeepsInv(history: seq<Version>, s: State)
    requires s.version + 1 < |history| && CommitsAreNotZero(history) && Inv(history, s)
    ensures Inv(history, s.(version := s.version + 1))
  {
    var s' := s.(version := s.version + 1);
    if s.worker.current != ZERO {
      SinceLater(history, From(history, s.worker), s, s', s.worker.overrides);
      SinceLater(history, From(history, s.worker), s, s', s.worker.live);
    }
    forall p | 0 <= p < |s.worker.phases|
      ensures PassOk(history, s', s.worker.phases[p])
    {
      PassOkLater(history, s, s', s.worker.phases[p]);
    }
  }

  lemma PassOkLater(history: seq<Version>, s: State, s': State, phase: Phase)
    requires s.version <= s'.version < |history| && s'.worker == s.worker && PassOk(history, s, phase)
    ensures PassOk(history, s', phase)
  {
    if phase.GotRevision? {
      var i: nat :| ReadAt(history, s, phase.revision, i);
      assert ReadAt(history, s', phase.revision, i);
    } else if !phase.Idle? {
      var i: nat :| ReadAt(history, s, phase.revision, i) && Since(history, i, s, phase.rows);
      assert ReadAt(history, s', phase.revision, i);
      SinceLater(history, i, s, s', phase.rows);
    }
  }

  /** A move that leaves the worker's revision, overrides and live settings alone. */
  lemma QuietMove(history: seq<Version>, s: State, p: nat, phase: Phase)
    requires s.version < |history| && Inv(history, s) && p < |s.worker.phases| && !Busy(s.worker.phases, p)
    requires PassOk(history, s, phase)
    ensures Inv(history, s.(worker := To(s.worker, p, phase)))
  {
    var s' := s.(worker := To(s.worker, p, phase));
    forall q | 0 <= q < |s'.worker.phases|
      ensures PassOk(history, s', s'.worker.phases[q])
    {
      if q == p {
        SamePass(history, s, s', phase);
      }
    }
  }

  lemma SamePass(history: seq<Version>, s: State, s': State, phase: Phase)
    requires s'.version == s.version < |history| && s'.worker == s.worker.(phases := s'.worker.phases) && PassOk(history, s, phase)
    ensures PassOk(history, s', phase)
  {
    if phase.GotRevision? {
      var i: nat :| ReadAt(history, s, phase.revision, i);
      assert ReadAt(history, s', phase.revision, i);
    } else if !phase.Idle? {
      var i: nat :| ReadAt(history, s, phase.revision, i) && Since(history, i, s, phase.rows);
      assert ReadAt(history, s', phase.revision, i) && Since(history, i, s', phase.rows);
    }
  }

  /** What a pass carries is no older than what the worker has. */
  lemma FetchedIsCurrent(history: seq<Version>, s: State, r: Revision, rows: Settings)
    requires s.version < |history| && exists i :: ReadAt(history, s, r, i) && Since(history, i, s, rows)
    ensures Since(history, From(history, s.worker), s, rows)
    ensures !(s.version == 0 && history[0].revision == ZERO)
  {
  }

  lemma ReadKeepsInv(history: seq<Version>, s: State, p: nat)
    requires s.version < |history| && CommitsAreNotZero(history) && Inv(history, s) && p < |s.worker.phases|
    requires !Busy(s.worker.phases, p) && history[s.version].revision != s.worker.current
    ensures Inv(history, s.(worker := To(s.worker, p, GotRevision(history[s.version].revision))))
  {
    assert ReadAt(history, s, history[s.version].revision, s.version);
    QuietMove(history, s, p, GotRevision(history[s.version].revision));
  }

  lemma FetchKeepsInv(history: seq<Version>, s: State, p: nat, r: Revision)
    requires s.version < |history| && Inv(history, s) && p < |s.worker.phases|
    requires !Busy(s.worker.phases, p) && s.worker.phases[p] == GotRevision(r)
    ensures Inv(history, s.(worker := To(s.worker, p, GotSettings(r, history[s.version].rows))))
  {
    assert PassOk(history, s, GotRevision(r));
    var i: nat :| ReadAt(history, s, r, i);
    assert Since(history, i, s, history[s.version].rows);
    QuietMove(history, s, p, GotSettings(r, history[s.version].rows));
  }

  /** Taking over the settings a pass carries, into the overrides and perhaps into the live configuration. */
  lemma TakeKeepsInv(history: seq<Version>, s: State, p: nat, r: Revision, rows: Settings, live: Settings, phase: Phase)
    requires s.version < |history| && Inv(history, s) && p < |s.worker.phases| && !Busy(s.worker.phases, p)
    requires exists i :: ReadAt(history, s, r, i) && Since(history, i, s, rows)
    requires live == rows || live == s.worker.live
    requires phase == Idle || phase == Applied(r, rows) || (phase == Reloaded(r, rows) && live == rows)
    ensures Inv(history, s.(worker := To(s.worker, p, phase).(overrides := rows, live := live)))
  {
    FetchedIsCurrent(history, s, r, rows);
    var s' := s.(worker := To(s.worker, p, phase).(overrides := rows, live := live));
    assert forall i :: ReadAt(history, s, r, i) ==> ReadAt(history, s', r, i);
    assert forall i: nat, x :: Since(history, i, s, x) ==> Since(history, i, s', x);
    assert PassOk(history, s', phase);
    forall q | 0 <= q < |s'.worker.phases|
      ensures PassOk(history, s', s'.worker.phases[q])
    {
    }
  }

  lemma RememberKeepsInv(history: seq<Version>, s: State, p: nat, r: Revision, rows: Settings)
    requires s.version < |history| && Inv(history, s) && p < |s.worker.phases|
    requires !Busy(s.worker.phases, p) && s.worker.phases[p] == Reloaded(r, rows)
    ensures Inv(history, s.(worker := To(s.worker, p, Idle).(current := r)))
  {
    assert PassOk(history, s, Reloaded(r, rows));
    var i: nat :| ReadAt(history, s, r, i) && Since(history, i, s, rows);
    var j: nat :| i <= j <= s.version && history[j].rows == rows;
    FirstIsLeast(history, r, i);
    var s' := s.(worker := To(s.worker, p, Idle).(current := r));
    assert First(history, r) <= j <= s'.version && history[j].rows == rows;
    assert Since(history, First(history, r), s', rows);
  }

  lemma StepKeepsInv(history: seq<Version>, s: State, step: Step)
    requires s.version < |history| && CommitsAreNotZero(history) && Inv(history, s)
    ensures Inv(history, Apply(history, false, s, step))
  {
    var w := s.worker;
    match step
    case Commit =>
      if s.version + 1 < |history| {
        CommitKeepsInv(history, s);
      }
    case Pass(p, move) =>
      if p < |w.phases| && !Busy(w.phases, p) {
        assert PassOk(history, s, w.phases[p]);
        match (w.phases[p], move)
        case (Idle, ReadRevision(ok)) =>
          if ok && history[s.version].revision != w.current {
            ReadKeepsInv(history, s, p);
          }
        case (GotRevision(r), ReadSettings(ok)) =>
          if ok {
            FetchKeepsInv(history, s, p, r);
          } else {
            QuietMove(history, s, p, Idle);
          }
        case (GotSettings(r, rows), SetOverrides(parses)) =>
          TakeKeepsInv(history, s, p, r, rows, w.live, if parses then Applied(r, rows) else Idle);
        case (Applied(r, rows), Reload(ok, effect)) =>
          TakeKeepsInv(history, s, p, r, rows, if ok || effect then rows else w.live, if ok then Reloaded(r, rows) else Idle);
        case (Reloaded(r, rows), Remember) => RememberKeepsInv(history, s, p, r, rows);
        case _ =>
      }
  }

  lemma {:induction false} RunKeepsInv(history: seq<Version>, loaded: bool, passes: nat, steps: seq<Step>)
    requires history != [] && CommitsAreNotZero(history) && BootMatches(history, loaded)
    ensures Inv(history, After(history, false, loaded, passes, steps))
  {
    if steps != [] {
      var front := steps[..|steps| - 1];
      RunKeepsInv(history, loaded, passes, front);
      StepKeepsInv(history, After(history, false, loaded, passes, front), steps[|steps| - 1]);
    }
  }

  /** In every run without overlapping passes, whatever fails, a resting worker with the stored revision is in sync. */
  lemma SyncHolds(history: seq<Version>, loaded: bool, passes: nat, steps: seq<Step>)
    requires history != [] && CommitsAreNotZero(history) && BootMatches(history, loaded) && RevisionsIdentify(history)
    ensures Synced(history, After(history, false, loaded, passes, steps))
  {
    RunKeepsInv(history, loaded, passes, steps);
    var s := After(history, false, loaded, passes, steps);
    if s.worker.current == history[s.version].revision && s.worker.current != ZERO {
      var i := From(history, s.worker);
      var j: nat :| i <= j <= s.version && history[j].rows == s.worker.overrides;
      var l: nat :| i <= l <= s.version && history[l].rows == s.worker.live;
    }
  }

  // ----- and is necessary

  lemma {:induction false} Commits(history: seq<Version>, overlap: bool, loaded: bool, passes: nat, steps: seq<Step>, n: nat)
    returns (more: seq<Step>)
    requires history != [] && After(history, overlap, loaded, passes, steps).version + n < |history|
    ensures var s := After(history, overlap, loaded, passes, steps);
            After(history, overlap, loaded, passes, more) == s.(version := s.version + n)
  {
    if n == 0 {
      more := steps;
    } else {
      var fewer := Commits(history, overlap, loaded, passes, steps, n - 1);
      more := fewer + [Commit];
      assert more[..|fewer|] == fewer;
    }
  }

  lemma Then(history: seq<Version>, overlap: bool, loaded: bool, passes: nat, steps: seq<Step>, step: Step)
    requires history != []
    ensures After(history, overlap, loaded, passes, steps + [step])
         == Apply(history, overlap, After(history, overlap, loaded, passes, steps), step)
  {
  }

  /** The pass's moves after the first read, when nothing fails. */
  function Finished(history: seq<Version>, s: State): State
    requires s.version < |history|
  {
    var fetched := Apply(history, false, s, Pass(0, ReadSettings(true)));
    var parsed := Apply(history, false, fetched, Pass(0, SetOverrides(true)));
    var reloaded := Apply(history, false, parsed, Pass(0, Reload(true, true)));
    Apply(history, false, reloaded, Pass(0, Remember))
  }

  lemma FinishedIsSynced(history: seq<Version>, s: State, r: Revision)
    requires s.version < |history| && |s.worker.phases| > 0 && s.worker.phases[0] == GotRevision(r) && !Busy(s.worker.phases, 0)
    ensures var rows := history[s.version].rows;
            Finished(history, s) == s.(worker := Worker(r, rows, rows, s.worker.phases[0 := Idle]))
    ensures Resting(Finished(history, s).worker)
  {
    var w, rows := s.worker, history[s.version].rows;
    var fetched := Apply(history, false, s, Pass(0, ReadSettings(true)));
    assert fetched == s.(worker := To(w, 0, GotSettings(r, rows)));
    var parsed := Apply(history, false, fetched, Pass(0, SetOverrides(true)));
    assert parsed.worker == To(w, 0, Applied(r, rows)).(overrides := rows);
    var reloaded := Apply(history, false, parsed, Pass(0, Reload(true, true)));
    assert reloaded.worker == To(w, 0, Reloaded(r, rows)).(overrides := rows, live := rows);
  }

  /** A pass in which nothing fails, after its first read. */
  const FINISH: seq<Step> := [Pass(0, ReadSettings(true)), Pass(0, SetOverrides(true)), Pass(0, Reload(true, true)), Pass(0, Remember)]

  lemma FinishRuns(history: seq<Version>, loaded: bool, passes: nat, steps: seq<Step>)
    requires history != []
    ensures After(history, false, loaded, passes, steps + FINISH) == Finished(history, After(history, false, loaded, passes, steps))
  {
    var one, two := steps + [FINISH[0]], steps + [FINISH[0]] + [FINISH[1]];
    var three := two + [FINISH[2]];
    Then(history, false, loaded, passes, steps, FINISH[0]);
    Then(history, false, loaded, passes, one, FINISH[1]);
    Then(history, false, loaded, passes, two, FINISH[2]);
    Then(history, false, loaded, passes, three, FINISH[3]);
    assert steps + FINISH == three + [FINISH[3]];
  }

  /** A pass that reads its revision at version i, with the store now at version j. */
  lemma Halfway(history: seq<Version>, loaded: bool, passes: nat, i: nat, j: nat) returns (steps: seq<Step>)
    requires history != [] && passes > 0 && i <= j < |history| && history[i].revision != ZERO
    ensures var s := After(history, false, loaded, passes, steps);
            && s.version == j && |s.worker.phases| == passes
            && s.worker.phases[0] == GotRevision(history[i].revision) && !Busy(s.worker.phases, 0)
  {
    var start := Commits(history, false, loaded, passes, [], i);
    var read := start + [Pass(0, ReadRevision(true))];
    Then(history, false, loaded, passes, start, Pass(0, ReadRevision(true)));
    steps := Commits(history, false, loaded, passes, read, j - i);
  }

  /** A pass that reads its revision at version i and its settings at version j, with the store now at version k. */
  lemma Straddle(history: seq<Version>, loaded: bool, passes: nat, i: nat, j: nat, k: nat) returns (steps: seq<Step>)
    requires history != [] && passes > 0 && i <= j <= k < |history| && history[i].revision != ZERO
    ensures var s := After(history, false, loaded, passes, steps);
            && s.version == k && Resting(s.worker)
            && s.worker.current == history[i].revision && s.worker.overrides == s.worker.live == history[j].rows
  {
    var late := Halfway(history, loaded, passes, i, j);
    FinishedIsSynced(history, After(history, false, loaded, passes, late), history[i].revision);
    FinishRuns(history, loaded, passes, late);
    steps := Commits(history, false, loaded, passes, late + FINISH, k - j);
  }

  ghost predicate AlwaysSynced(history: seq<Version>, loaded: bool, passes: nat)
    requires history != []
  {
    forall steps :: Synced(history, After(history, false, loaded, passes, steps))
  }

  /**
    Without overlapping passes, a resting worker with the stored revision is in sync in every run exactly when every
    revision that comes back has had the same settings all the while, and the boot did not miss unversioned settings.
   */
  lemma SyncHoldsExactlyWhen(history: seq<Version>, loaded: bool, passes: nat)
    requires history != [] && CommitsAreNotZero(history) && passes > 0
    ensures AlwaysSynced(history, loaded, passes) <==> RevisionsIdentify(history) && BootMatches(history, loaded)
  {
    if RevisionsIdentify(history) && BootMatches(history, loaded) {
      forall steps
        ensures Synced(history, After(history, false, loaded, passes, steps))
      {
        SyncHolds(history, loaded, passes, steps);
      }
    }
    if AlwaysSynced(history, loaded, passes) {
      assert Synced(history, After(history, false, loaded, passes, []));
      forall i, j, k | 0 <= i <= j <= k < |history| && history[i].revision == history[k].revision && history[i].revision != ZERO
        ensures history[j].rows == history[k].rows
      {
        var steps := Straddle(history, loaded, passes, i, j, k);
        assert Synced(history, After(history, false, loaded, passes, steps));
      }
    }
  }

  // ----- once transactions stop, one pass without failure is enough

  ghost predicate InSync(history: seq<Version>, s: State)
    requires s.version < |history|
  {
    var w, stored := s.worker, history[s.version];
    Resting(w) && w.current == stored.revision && w.overrides == w.live == stored.rows
  }

  ghost predicate OthersRest(w: Worker, p: nat) {
    p < |w.phases| && forall q | 0 <= q < |w.phases| && q != p :: w.phases[q].Idle?
  }

  /** Pass `p` alone is under way, and carries what is stored now. */
  ghost predicate Underway(history: seq<Version>, s: State, p: nat)
    requires s.version < |history|
  {
    var w, stored := s.worker, history[s.version];
    OthersRest(w, p) &&
    match w.phases[p]
    case Idle => false
    case GotRevision(r) => r == stored.revision
    case GotSettings(r, rows) => r == stored.revision && rows == stored.rows
    case Applied(r, rows) => r == stored.revision && w.overrides == rows == stored.rows
    case Reloaded(r, rows) => r == stored.revision && w.overrides == w.live == rows == stored.rows
  }

  ghost predicate Advancing(history: seq<Version>, s: State)
    requires s.version < |history|
  {
    InSync(history, s) || exists p :: Underway(history, s, p)
  }

  /** A move of a pass, and not one that fails. */
  predicate Smooth(step: Step) {
    step.Pass? &&
    match step.move
    case ReadRevision(ok) => ok
    case ReadSettings(ok) => ok
    case SetOverrides(parses) => parses
    case Reload(ok, _) => ok
    case Remember => true
  }

  lemma SmoothAdvances(history: seq<Version>, s: State, step: Step)
    requires s.version < |history| && Smooth(step) && Advancing(history, s)
    ensures var s' := Apply(history, false, s, step); s'.version == s.version && Advancing(history, s')
  {
    var s' := Apply(history, false, s, step);
    if InSync(history, s) {
      assert s' == s;
    } else {
      var p :| Underway(history, s, p);
      if step.p == p {
        assert InSync(history, s') || Underway(history, s', p);
      } else {
        assert s' == s;
      }
    }
  }

  lemma ReadAdvances(history: seq<Version>, s: State, q: nat)
    requires s.version < |history| && Synced(history, s) && Resting(s.worker) && q < |s.worker.phases|
    ensures var s' := Apply(history, false, s, Pass(q, ReadRevision(true))); s'.version == s.version && Advancing(history, s')
  {
    var s' := Apply(history, false, s, Pass(q, ReadRevision(true)));
    if s.worker.current != history[s.version].revision {
      assert Underway(history, s', q);
    }
  }

  predicate IsRead(step: Step, passes: nat) {
    step.Pass? && step.p < passes && step.move == ReadRevision(true)
  }

  lemma RestingIgnores(history: seq<Version>, s: State, step: Step, passes: nat)
    requires s.version < |history| && Resting(s.worker) && |s.worker.phases| == passes && Smooth(step) && !IsRead(step, passes)
    ensures Apply(history, false, s, step) == s
  {
  }

  predicate HasRead(steps: seq<Step>, passes: nat) {
    exists i | 0 <= i < |steps| :: IsRead(steps[i], passes)
  }

  lemma LastRead(steps: seq<Step>, passes: nat)
    requires steps != []
    ensures HasRead(steps, passes) ==> HasRead(steps[..|steps| - 1], passes) || IsRead(steps[|steps| - 1], passes)
  {
    if HasRead(steps, passes) {
      var i :| 0 <= i < |steps| && IsRead(steps[i], passes);
      if i < |steps| - 1 {
        assert IsRead(steps[..|steps| - 1][i], passes);
      }
    }
  }

  /** From the resting state `s` on: nothing has moved, or the worker advances; the latter for sure after a read. */
  ghost predicate Onward(history: seq<Version>, s: State, t: State, read: bool) {
    && t.version == s.version < |history|
    && (t == s || Advancing(history, t))
    && (read ==> Advancing(history, t))
  }

  lemma StaysOnward(history: seq<Version>, s: State, t: State, read: bool, step: Step, passes: nat)
    requires Onward(history, s, t, read) && Resting(s.worker) && Synced(history, s) && |s.worker.phases| == passes
    requires Smooth(step)
    ensures Onward(history, s, Apply(history, false, t, step), read || IsRead(step, passes))
  {
    if Advancing(history, t) {
      SmoothAdvances(history, t, step);
    } else if IsRead(step, passes) {
      ReadAdvances(history, s, step.p);
    } else {
      RestingIgnores(history, s, step, passes);
    }
  }

  lemma {:induction false} TailIsOnward(history: seq<Version>, loaded: bool, passes: nat, steps: seq<Step>, tail: seq<Step>)
    requires history != [] && CommitsAreNotZero(history) && BootMatches(history, loaded) && RevisionsIdentify(history)
    requires Resting(After(history, false, loaded, passes, steps).worker) && forall i | 0 <= i < |tail| :: Smooth(tail[i])
    ensures Onward(history, After(history, false, loaded, passes, steps), After(history, false, loaded, passes, steps + tail),
                   HasRead(tail, passes))
    decreases |tail|
  {
    var s := After(history, false, loaded, passes, steps);
    if tail == [] {
      assert steps + tail == steps;
    } else {
      var front, last := tail[..|tail| - 1], tail[|tail| - 1];
      TailIsOnward(history, loaded, passes, steps, front);
      SyncHolds(history, loaded, passes, steps);
      LastRead(tail, passes);
      StaysOnward(history, s, After(history, false, loaded, passes, steps + front), HasRead(front, passes), last, passes);
      assert steps + tail == (steps + front) + [last];
      Then(history, false, loaded, passes, steps + front, last);
    }
  }

  /**
    Once transactions stop: whatever the passes do without a failure from a resting state on, when one of them has read
    the revision and all are done, the stored revision and the stored settings are applied and live.
   */
  lemma OnePassSyncs(history: seq<Version>, loaded: bool, passes: nat, steps: seq<Step>, tail: seq<Step>)
    requires history != [] && CommitsAreNotZero(history) && BootMatches(history, loaded) && RevisionsIdentify(history)
    requires Resting(After(history, false, loaded, passes, steps).worker)
    requires forall i | 0 <= i < |tail| :: Smooth(tail[i])
    requires HasRead(tail, passes)
    requires Resting(After(history, false, loaded, passes, steps + tail).worker)
    ensures After(history, false, loaded, passes, steps + tail).version == After(history, false, loaded, passes, steps).version
    ensures InSync(history, After(history, false, loaded, passes, steps + tail))
  {
    TailIsOnward(history, loaded, passes, steps, tail);
  }

  /** One pass in which nothing fails gets there from any resting state. */
  lemma OnePassCompletes(history: seq<Version>, loaded: bool, passes: nat, steps: seq<Step>)
    requires history != [] && CommitsAreNotZero(history) && BootMatches(history, loaded) && RevisionsIdentify(history)
    requires passes > 0 && Resting(After(history, false, loaded, passes, steps).worker)
    ensures InSync(history, After(history, false, loaded, passes, steps + [Pass(0, ReadRevision(true))] + FINISH))
  {
    var s := After(history, false, loaded, passes, steps);
    var read := steps + [Pass(0, ReadRevision(true))];
    Then(history, false, loaded, passes, steps, Pass(0, ReadRevision(true)));
    FinishRuns(history, loaded, passes, read);
    SyncHolds(history, loaded, passes, steps);
    if s.worker.current == history[s.version].revision {
      RestingFinishes(history, s);
    } else {
      FinishedIsSynced(history, After(history, false, loaded, passes, read), history[s.version].revision);
    }
  }

  lemma RestingFinishes(history: seq<Version>, s: State)
    requires s.version < |history| && Resting(s.worker)
    ensures Finished(history, s) == s
  {
  }

  /** And as long as no transaction commits, the worker stays there, whatever fails. */
  lemma {:induction false} InSyncStays(history: seq<Version>, loaded: bool, passes: nat, steps: seq<Step>, tail: seq<Step>)
    requires history != [] && InSync(history, After(history, false, loaded, passes, steps))
    requires forall i | 0 <= i < |tail| :: tail[i].Pass?
    ensures After(history, false, loaded, passes, steps + tail) == After(history, false, loaded, passes, steps)
    decreases |tail|
  {
    if tail == [] {
      assert steps + tail == steps;
    } else {
      var front := tail[..|tail| - 1];
      InSyncStays(history, loaded, passes, steps, front);
      assert steps + tail == (steps + front) + [tail[|tail| - 1]];
      Then(history, false, loaded, passes, steps + front, tail[|tail| - 1]);
    }
  }

  // ----- overlapping passes

  /** From the first versioned settings on, the settings never change. */
  ghost predicate SettingsFixed(history: seq<Version>) {
    forall i, j, k | 0 <= i <= j <= k < |history| && history[i].revision != ZERO && history[k].revision != ZERO ::
      history[j].rows == history[k].rows
  }

  /** Settings stored since the first versioned ones, up to version `v`. */
  ghost predicate Versioned(history: seq<Version>, v: nat, rows: Settings)
    requires v < |history|
  {
    exists i: nat, j: nat :: i <= j <= v && history[i].revision != ZERO && history[j].rows == rows
  }

  ghost predicate PhaseVersioned(history: seq<Version>, v: nat, w: Worker, phase: Phase)
    requires v < |history|
  {
    match phase
    case Idle => true
    case GotRevision(r) => r != ZERO && Versioned(history, v, history[v].rows)
    case GotSettings(r, rows) => r != ZERO && Versioned(history, v, rows)
    case Applied(r, rows) => r != ZERO && Versioned(history, v, rows) && Versioned(history, v, w.overrides)
    case Reloaded(r, _) => r != ZERO && Versioned(history, v, w.overrides) && Versioned(history, v, w.live)
  }

  ghost predicate AllVersioned(history: seq<Version>, v: nat, w: Worker)
    requires v < |history|
  {
    && (forall p | 0 <= p < |w.phases| :: PhaseVersioned(history, v, w, w.phases[p]))
    && (w.current != ZERO ==> Versioned(history, v, w.overrides) && Versioned(history, v, w.live))
    && (v == 0 && history[0].revision == ZERO ==> Resting(w) && w.current == ZERO && w.overrides == w.live == history[0].rows)
  }

  lemma CommitKeepsVersioned(history: seq<Version>, v: nat, w: Worker)
    requires v + 1 < |history| && CommitsAreNotZero(history) && AllVersioned(history, v, w)
    ensures AllVersioned(history, v + 1, w)
  {
    assert Versioned(history, v + 1, history[v + 1].rows) by {
      assert history[v + 1].revision != ZERO;
    }
    forall rows | Versioned(history, v, rows)
      ensures Versioned(history, v + 1, rows)
    {
      var i: nat, j: nat :| i <= j <= v && history[i].revision != ZERO && history[j].rows == rows;
    }
    forall p | 0 <= p < |w.phases|
      ensures PhaseVersioned(history, v + 1, w, w.phases[p])
    {
      assert PhaseVersioned(history, v, w, w.phases[p]);
    }
  }

  /** New overrides and live settings that are versioned make no pass worse. */
  lemma OthersStayVersioned(history: seq<Version>, v: nat, w: Worker, w': Worker, phase: Phase)
    requires v < |history| && PhaseVersioned(history, v, w, phase)
    requires w'.overrides == w.overrides || Versioned(history, v, w'.overrides)
    requires w'.live == w.live || Versioned(history, v, w'.live)
    ensures PhaseVersioned(history, v, w', phase)
  {
  }

  lemma MoverStaysVersioned(history: seq<Version>, v: nat, w: Worker, p: nat, move: Move)
    requires v < |history| && CommitsAreNotZero(history) && p < |w.phases| && AllVersioned(history, v, w)
    ensures var w' := PassStep(history[v], w, p, move);
            && |w'.phases| == |w.phases| && (forall q | 0 <= q < |w.phases| && q != p :: w'.phases[q] == w.phases[q])
            && PhaseVersioned(history, v, w', w'.phases[p])
            && (w'.overrides == w.overrides || Versioned(history, v, w'.overrides))
            && (w'.live == w.live || Versioned(history, v, w'.live))
            && (w'.current != ZERO ==> Versioned(history, v, w'.overrides) && Versioned(history, v, w'.live))
  {
    assert PhaseVersioned(history, v, w, w.phases[p]);
    assert history[v].revision != ZERO ==> Versioned(history, v, history[v].rows);
  }

  lemma MoveKeepsVersioned(history: seq<Version>, v: nat, w: Worker, p: nat, move: Move)
    requires v < |history| && CommitsAreNotZero(history) && p < |w.phases| && AllVersioned(history, v, w)
    ensures AllVersioned(history, v, PassStep(history[v], w, p, move))
  {
    var w' := PassStep(history[v], w, p, move);
    MoverStaysVersioned(history, v, w, p, move);
    forall q | 0 <= q < |w'.phases|
      ensures PhaseVersioned(history, v, w', w'.phases[q])
    {
      if q != p {
        OthersStayVersioned(history, v, w, w', w.phases[q]);
      }
    }
  }

  lemma {:induction false} RunKeepsVersioned(history: seq<Version>, loaded: bool, passes: nat, steps: seq<Step>)
    requires history != [] && CommitsAreNotZero(history) && BootMatches(history, loaded)
    ensures var s := After(history, true, loaded, passes, steps); AllVersioned(history, s.version, s.worker)
  {
    if steps != [] {
      var front, last := steps[..|steps| - 1], steps[|steps| - 1];
      RunKeepsVersioned(history, loaded, passes, front);
      var s := After(history, true, loaded, passes, front);
      match last
      case Commit =>
        if s.version + 1 < |history| {
          CommitKeepsVersioned(history, s.version, s.worker);
        }
      case Pass(p, move) =>
        if p < |s.worker.phases| {
          MoveKeepsVersioned(history, s.version, s.worker, p, move);
        }
    }
  }

  lemma OverlapSyncs(history: seq<Version>, loaded: bool, passes: nat, steps: seq<Step>)
    requires history != [] && CommitsAreNotZero(history) && BootMatches(history, loaded) && SettingsFixed(history)
    ensures Synced(history, After(history, true, loaded, passes, steps))
  {
    RunKeepsVersioned(history, loaded, passes, steps);
  }

  function Two(history: seq<Version>, s: State, first: Step, second: Step): State
    requires s.version < |history|
  {
    Apply(history, true, Apply(history, true, s, first), second)
  }

  lemma ThenTwo(history: seq<Version>, loaded: bool, passes: nat, steps: seq<Step>, first: Step, second: Step) returns (more: seq<Step>)
    requires history != []
    ensures After(history, true, loaded, passes, more) == Two(history, After(history, true, loaded, passes, steps), first, second)
  {
    Then(history, true, loaded, passes, steps, first);
    Then(history, true, loaded, passes, steps + [first], second);
    more := steps + [first] + [second];
  }

  /** Pass 0 carries revision r and settings `rows`; pass 1 reads what is stored now and goes as far as its reload. */
  lemma QuickPass(history: seq<Version>, s: State, r: Revision, rows: Settings)
    requires s.version < |history| && |s.worker.phases| >= 2 && OthersRest(s.worker, 0)
    requires s.worker.phases[0] == GotSettings(r, rows) && s.worker.current != history[s.version].revision
    ensures var v := history[s.version];
            var read := Two(history, s, Pass(1, ReadRevision(true)), Pass(1, ReadSettings(true)));
            Two(history, read, Pass(1, SetOverrides(true)), Pass(1, Reload(true, true)))
            == s.(worker := To(s.worker, 1, Reloaded(v.revision, v.rows)).(overrides := v.rows, live := v.rows))
  {
    var v, w := history[s.version], s.worker;
    var read := Two(history, s, Pass(1, ReadRevision(true)), Pass(1, ReadSettings(true)));
    assert read == s.(worker := To(w, 1, GotSettings(v.revision, v.rows)));
  }

  /** Then pass 0 applies its older settings and remembers, and pass 1 remembers last. */
  lemma SlowPass(history: seq<Version>, s: State, r: Revision, rows: Settings, quick: Phase)
    requires s.version < |history| && |s.worker.phases| >= 2 && quick.Reloaded? && s.worker.phases[1] == quick
    requires s.worker.phases[0] == GotSettings(r, rows) && forall q | 2 <= q < |s.worker.phases| :: s.worker.phases[q].Idle?
    ensures var applied := Two(history, s, Pass(0, SetOverrides(true)), Pass(0, Reload(true, true)));
            var last := Two(history, applied, Pass(0, Remember), Pass(1, Remember));
            && last.version == s.version && Resting(last.worker)
            && last.worker.current == quick.revision && last.worker.overrides == last.worker.live == rows
  {
    var applied := Two(history, s, Pass(0, SetOverrides(true)), Pass(0, Reload(true, true)));
    assert applied == s.(worker := To(s.worker, 0, Reloaded(r, rows)).(overrides := rows, live := rows));
  }

  /** Pass 0 has read its revision at version i and its settings at version j, and the store is at version k. */
  lemma SlowReads(history: seq<Version>, loaded: bool, passes: nat, i: nat, j: nat, k: nat) returns (steps: seq<Step>)
    requires history != [] && passes > 0 && i <= j <= k < |history| && history[i].revision != ZERO
    ensures var s := After(history, true, loaded, passes, steps);
            && s.version == k && s.worker.current == ZERO && OthersRest(s.worker, 0)
            && s.worker.phases[0] == GotSettings(history[i].revision, history[j].rows)
  {
    var start := Commits(history, true, loaded, passes, [], i);
    Then(history, true, loaded, passes, start, Pass(0, ReadRevision(true)));
    var late := Commits(history, true, loaded, passes, start + [Pass(0, ReadRevision(true))], j - i);
    Then(history, true, loaded, passes, late, Pass(0, ReadSettings(true)));
    steps := Commits(history, true, loaded, passes, late + [Pass(0, ReadSettings(true))], k - j);
  }

  /** A slow pass that reads at versions i and j overtakes a quick one at version k. */
  lemma Overtake(history: seq<Version>, loaded: bool, passes: nat, i: nat, j: nat, k: nat) returns (steps: seq<Step>)
    requires history != [] && passes >= 2 && i <= j <= k < |history|
    requires history[i].revision != ZERO && history[k].revision != ZERO
    ensures var s := After(history, true, loaded, passes, steps);
            && s.version == k && Resting(s.worker)
            && s.worker.current == history[k].revision && s.worker.overrides == s.worker.live == history[j].rows
  {
    steps := SlowReads(history, loaded, passes, i, j, k);
    QuickPass(history, After(history, true, loaded, passes, steps), history[i].revision, history[j].rows);
    steps := ThenTwo(history, loaded, passes, steps, Pass(1, ReadRevision(true)), Pass(1, ReadSettings(true)));
    steps := ThenTwo(history, loaded, passes, steps, Pass(1, SetOverrides(true)), Pass(1, Reload(true, true)));
    SlowPass(history, After(history, true, loaded, passes, steps), history[i].revision, history[j].rows,
             Reloaded(history[k].revision, history[k].rows));
    steps := ThenTwo(history, loaded, passes, steps, Pass(0, SetOverrides(true)), Pass(0, Reload(true, true)));
    steps := ThenTwo(history, loaded, passes, steps, Pass(0, Remember), Pass(1, Remember));
  }

  ghost predicate AlwaysSyncedOverlapping(history: seq<Version>, loaded: bool, passes: nat)
    requires history != []
  {
    forall steps :: Synced(history, After(history, true, loaded, passes, steps))
  }

  /**
    With two or more passes that may overlap, a resting worker with the stored revision is in sync in every run exactly
    when the settings never change once they are versioned: fresh revisions do not help.
   */
  lemma OverlapSyncsExactlyWhen(history: seq<Version>, loaded: bool, passes: nat)
    requires history != [] && CommitsAreNotZero(history) && passes >= 2
    ensures AlwaysSyncedOverlapping(history, loaded, passes) <==> SettingsFixed(history) && BootMatches(history, loaded)
  {
    if SettingsFixed(history) && BootMatches(history, loaded) {
      forall steps
        ensures Synced(history, After(history, true, loaded, passes, steps))
      {
        OverlapSyncs(history, loaded, passes, steps);
      }
    }
    if AlwaysSyncedOverlapping(history, loaded, passes) {
      assert Synced(history, After(history, true, loaded, passes, []));
      forall i, j, k | 0 <= i <= j <= k < |history| && history[i].revision != ZERO && history[k].revision != ZERO
        ensures history[j].rows == history[k].rows
      {
        var steps := Overtake(history, loaded, passes, i, j, k);
        assert Synced(history, After(history, true, loaded, passes, steps));
      }
    }
  }
}
