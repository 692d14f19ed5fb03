/**
  The correction loop of one session: the durable ledger with its unique fingerprints, each process's in-memory cache,
  and the tasks that read, check, send, record and count. Tasks interleave, sends and writes may fail, and a process
  may crash at any point.
 */
module CorrectionLedger {
  import opened Basics
  import opened Counting

  /** A fingerprint stands for the digest of the normalized instruction. */
  type Fingerprint = nat

  datatype Refusal = BudgetExhausted | AlreadySent

  /** The ceiling is checked before the duplicate. */
  function CanSubmitCorrection(correctionCount: int, maxCorrections: int, prior: set<Fingerprint>, fp: Fingerprint): (r: Option<Refusal>)
    ensures r.None? <==> correctionCount < maxCorrections && fp !in prior
    ensures r == Some(BudgetExhausted) <==> correctionCount >= maxCorrections
  {
    if correctionCount >= maxCorrections then Some(BudgetExhausted)
    else if fp in prior then Some(AlreadySent)
    else None
  }

  // ----- the table

  datatype Row = Row(sessionId: string, fingerprint: Fingerprint)

  class CorrectionRepository {
    var rows: seq<Row>

    ghost predicate Valid()
      reads this
    {
      Distinct(rows)
    }

    constructor ()
      ensures Valid() && rows == []
    {
      rows := [];
    }

    method Record(sessionId: string, fp: Fingerprint) returns (inserted: bool)
      requires Valid()
      modifies this
      ensures Valid()
      ensures inserted <==> Row(sessionId, fp) !in old(rows)
      ensures rows == if inserted then old(rows) + [Row(sessionId, fp)] else old(rows)
    {
      inserted := Row(sessionId, fp) !in rows;
      if inserted {
        rows := rows + [Row(sessionId, fp)];
      }
    }

    method FingerprintsForSession(sessionId: string) returns (fps: set<Fingerprint>)
      ensures forall fp: Fingerprint :: fp in fps <==> Row(sessionId, fp) in rows
    {
      fps := {};
      for i := 0 to |rows|
        invariant forall fp: Fingerprint :: fp in fps <==> Row(sessionId, fp) in rows[..i]
      {
        assert rows[..i + 1] == rows[..i] + [rows[i]];
        if rows[i].sessionId == sessionId {
          fps := fps + {rows[i].fingerprint};
        }
      }
      assert rows[..|rows|] == rows;
    }
  }

  // ----- tasks of one session

  /** `slots` tasks may hold the session at once: 1 when its lock is exclusive. */
  datatype Config = Config(maxCorrections: int, slots: nat)

  datatype Task =
    | Idle
    | Loaded(fp: Fingerprint, durable: set<Fingerprint>)
    | Cleared(fp: Fingerprint)
    | Sent(fp: Fingerprint)
    | Recorded(fp: Fingerprint)

  /**
    `sends` lists the corrections that reached Jules; `lost` counts those that will never be recorded, `repeats` those
    whose fingerprint the ledger already held, `counter` what the pipeline adds to the budget's correction counter, and
    `missed` the recorded corrections that will never be counted.
   */
  datatype State = State(
    ledger: seq<Fingerprint>, caches: seq<set<Fingerprint>>, tasks: seq<(nat, Task)>,
    sends: seq<Fingerprint>, lost: int, repeats: nat, counter: nat, missed: int)

  datatype Step =
    | Load(t: nat, fp: Fingerprint)
    | Check(t: nat)
    | Send(t: nat, delivered: bool, ok: bool)
    | Record(t: nat, ok: bool)
    | Count(t: nat, ok: bool)
    | Crash(process: nat)

  function Busy(task: (nat, Task)): nat {
    if task.1.Idle? then 0 else 1
  }

  /** Has reached Jules and not yet the ledger. */
  function InFlight(task: (nat, Task)): nat {
    if task.1.Sent? then 1 else 0
  }

  /** Has reached the ledger and not yet the counter. */
  function Uncounted(task: (nat, Task)): nat {
    if task.1.Recorded? then 1 else 0
  }

  function Elements(s: seq<Fingerprint>): set<Fingerprint> {
    set x | x in s
  }

  function Put(s: State, t: nat, task: Task): State
    requires t < |s.tasks|
  {
    s.(tasks := s.tasks[t := (s.tasks[t].0, task)])
  }

  function Stop(task: (nat, Task), process: nat): (nat, Task) {
    if task.0 == process then (process, Idle) else task
  }

  /** One step; a step that is not enabled changes nothing. */
  function Apply(c: Config, s: State, step: Step): State {
    match step
    case Crash(process) =>
      if process >= |s.caches| then s
      else
        var tasks := seq(|s.tasks|, i requires 0 <= i < |s.tasks| => Stop(s.tasks[i], process));
        s.(tasks := tasks, caches := s.caches[process := {}], lost := s.lost + Sum(s.tasks, InFlight) - Sum(tasks, InFlight),
           missed := s.missed + Sum(s.tasks, Uncounted) - Sum(tasks, Uncounted))
    case _ =>
      if step.t >= |s.tasks| || s.tasks[step.t].0 >= |s.caches| then s
      else TaskStep(c, s, step, s.tasks[step.t].0, s.tasks[step.t].1)
  }

  function TaskStep(c: Config, s: State, step: Step, process: nat, task: Task): State
    requires !step.Crash? && step.t < |s.tasks| && s.tasks[step.t] == (process, task) && process < |s.caches|
  {
    match step
    case Load(t, fp) =>
      if !task.Idle? || Sum(s.tasks, Busy) >= c.slots then s else Put(s, t, Loaded(fp, Elements(s.ledger)))
    case Check(t) =>
      if !task.Loaded? then s
      else
        var prior := task.durable + s.caches[process];
        Put(s, t, if CanSubmitCorrection(|prior|, c.maxCorrections, prior, task.fp).None? then Cleared(task.fp) else Idle)
    case Send(t, delivered, ok) =>
      if !task.Cleared? || (ok && !delivered) then s
      else
        Put(s, t, if ok then Sent(task.fp) else Idle)
           .(sends := if delivered then s.sends + [task.fp] else s.sends, lost := if delivered && !ok then s.lost + 1 else s.lost)
    case Record(t, ok) =>
      if !task.Sent? then s
      else if !ok then Put(s, t, Idle).(lost := s.lost + 1)
      else if task.fp in s.ledger then Put(s, t, Recorded(task.fp)).(repeats := s.repeats + 1)
      else Put(s, t, Recorded(task.fp)).(ledger := s.ledger + [task.fp])
    case Count(t, ok) =>
      if !task.Recorded? then s
      else if !ok then Put(s, t, Idle).(missed := s.missed + 1)
      else Put(s, t, Idle).(counter := s.counter + 1, caches := s.caches[process := s.caches[process] + {task.fp}])
  }

  /** A task's check, exactly: it looks at the ledger as loaded together with its process's cache, and at nothing else. */
  lemma CheckExactly(c: Config, s: State, t: nat)
    requires t < |s.tasks| && s.tasks[t].0 < |s.caches| && s.tasks[t].1.Loaded?
    ensures var task, cache := s.tasks[t].1, s.caches[s.tasks[t].0];
            var allowed := |task.durable + cache| < c.maxCorrections && task.fp !in task.durable && task.fp !in cache;
            Apply(c, s, Check(t)) == s.(tasks := s.tasks[t := (s.tasks[t].0, if allowed then Cleared(task.fp) else Idle)])
  {
  }

  /** And what a recorded correction adds once it is counted: one to the counter, and itself to its process's cache. */
  lemma CountExactly(c: Config, s: State, t: nat)
    requires t < |s.tasks| && s.tasks[t].0 < |s.caches| && s.tasks[t].1.Recorded?
    ensures var s' := Apply(c, s, Count(t, true));
            && s'.counter == s.counter + 1 && s'.ledger == s.ledger && s'.tasks[t].1.Idle?
            && s'.caches == s.caches[s.tasks[t].0 := s.caches[s.tasks[t].0] + {s.tasks[t].1.fp}]
  {
  }

  /** Tasks and the processes they belong to are fixed at the start; every cache starts empty. */
  function Init(processes: nat, owners: seq<nat>): State {
    State([], seq(processes, _ => {}), seq(|owners|, i requires 0 <= i < |owners| => (owners[i], Idle)), [], 0, 0, 0, 0)
  }

  function After(c: Config, processes: nat, owners: seq<nat>, steps: seq<Step>): State {
    if steps == [] then Init(processes, owners)
    else Apply(c, After(c, processes, owners, steps[..|steps| - 1]), steps[|steps| - 1])
  }

  ghost predicate Reachable(c: Config, s: State) {
    exists processes, owners, steps :: s == After(c, processes, owners, steps)
  }

  // ----- counting over the tasks

  /** A task that may still add to the ledger: loaded below the ceiling, cleared, or sent. */
  function Promising(c: Config): ((nat, Task)) -> nat {
    (task: (nat, Task)) => match task.1
      case Loaded(_, durable) => if |durable| < c.maxCorrections then 1 else 0
      case Cleared(_) => 1
      case Sent(_) => 1
      case _ => 0
  }

  lemma {:induction false} ElementsOfDistinct(s: seq<Fingerprint>)
    requires Distinct(s)
    ensures |Elements(s)| == |s|
  {
    if s != [] {
      var front, x := s[..|s| - 1], s[|s| - 1];
      ElementsOfDistinct(front);
      assert s == front + [x] && x !in front;
      assert Elements(s) == Elements(front) + {x};
    }
  }

  // ----- what every run keeps, with any number of slots

  /** Every cache, and everything a task has loaded, is in the ledger. */
  ghost predicate Reflects(s: State) {
    && Distinct(s.ledger)
    && (forall p | 0 <= p < |s.caches| :: s.caches[p] <= Elements(s.ledger))
    && (forall i | 0 <= i < |s.tasks| && s.tasks[i].1.Loaded? :: s.tasks[i].1.durable <= Elements(s.ledger))
    && (forall i | 0 <= i < |s.tasks| && s.tasks[i].1.Recorded? :: s.tasks[i].1.fp in s.ledger)
  }

  ghost predicate Bounded(c: Config, s: State) {
    && Sum(s.tasks, Busy) <= c.slots
    && |s.ledger| + Sum(s.tasks, Promising(c)) <= if c.maxCorrections <= 0 then 0 else c.maxCorrections - 1 + c.slots
  }

  ghost predicate Conserved(s: State) {
    && s.lost >= 0 && s.missed >= 0
    && |s.sends| == |s.ledger| + Sum(s.tasks, InFlight) + s.lost + s.repeats
    && s.counter + Sum(s.tasks, Uncounted) + s.missed == |s.ledger| + s.repeats
  }

  lemma TaskStepReflects(c: Config, s: State, step: Step, process: nat, task: Task)
    requires !step.Crash? && step.t < |s.tasks| && s.tasks[step.t] == (process, task) && process < |s.caches|
    requires Reflects(s)
    ensures Reflects(TaskStep(c, s, step, process, task))
  {
    var s' := TaskStep(c, s, step, process, task);
    assert Elements(s.ledger) <= Elements(s'.ledger);
  }

  lemma StepReflects(c: Config, s: State, step: Step)
    requires Reflects(s)
    ensures Reflects(Apply(c, s, step))
  {
    if !step.Crash? && step.t < |s.tasks| && s.tasks[step.t].0 < |s.caches| {
      TaskStepReflects(c, s, step, s.tasks[step.t].0, s.tasks[step.t].1);
    }
  }

  lemma CheckedWasPromising(c: Config, durable: set<Fingerprint>, cache: set<Fingerprint>)
    requires |durable + cache| < c.maxCorrections
    ensures |durable| < c.maxCorrections
  {
    assert durable + cache == durable + (cache - durable);
  }

  lemma LoadBounded(c: Config, s: State, t: nat, fp: Fingerprint)
    requires t < |s.tasks| && s.tasks[t].1.Idle? && Sum(s.tasks, Busy) < c.slots
    requires Reflects(s) && Bounded(c, s)
    ensures Bounded(c, Put(s, t, Loaded(fp, Elements(s.ledger))))
  {
    var s' := Put(s, t, Loaded(fp, Elements(s.ledger)));
    SumUpdate(s.tasks, t, s'.tasks[t], Busy);
    SumUpdate(s.tasks, t, s'.tasks[t], Promising(c));
    SumAtMost(s'.tasks, s'.tasks, Promising(c), Busy);
    ElementsOfDistinct(s.ledger);
  }

  lemma TaskStepBounded(c: Config, s: State, step: Step, process: nat, task: Task)
    requires !step.Crash? && step.t < |s.tasks| && s.tasks[step.t] == (process, task) && process < |s.caches|
    requires Bounded(c, s) && !step.Load?
    ensures Bounded(c, TaskStep(c, s, step, process, task))
  {
    var s' := TaskStep(c, s, step, process, task);
    SumUpdate(s.tasks, step.t, s'.tasks[step.t], Busy);
    SumUpdate(s.tasks, step.t, s'.tasks[step.t], Promising(c));
    if step.Check? && task.Loaded? && |task.durable + s.caches[process]| < c.maxCorrections {
      CheckedWasPromising(c, task.durable, s.caches[process]);
    }
  }

  lemma StepBounded(c: Config, s: State, step: Step)
    requires Reflects(s) && Bounded(c, s)
    ensures Bounded(c, Apply(c, s, step))
  {
    if step.Crash? {
      SumAtMost(Apply(c, s, step).tasks, s.tasks, Busy, Busy);
      SumAtMost(Apply(c, s, step).tasks, s.tasks, Promising(c), Promising(c));
    } else if step.t < |s.tasks| && s.tasks[step.t].0 < |s.caches| {
      if step.Load? {
        if s.tasks[step.t].1.Idle? && Sum(s.tasks, Busy) < c.slots {
          LoadBounded(c, s, step.t, step.fp);
        }
      } else {
        TaskStepBounded(c, s, step, s.tasks[step.t].0, s.tasks[step.t].1);
      }
    }
  }

  lemma TaskStepConserves(c: Config, s: State, step: Step, process: nat, task: Task)
    requires !step.Crash? && step.t < |s.tasks| && s.tasks[step.t] == (process, task) && process < |s.caches|
    requires Conserved(s)
    ensures Conserved(TaskStep(c, s, step, process, task))
  {
    var s' := TaskStep(c, s, step, process, task);
    SumUpdate(s.tasks, step.t, s'.tasks[step.t], InFlight);
    SumUpdate(s.tasks, step.t, s'.tasks[step.t], Uncounted);
  }

  lemma StepConserves(c: Config, s: State, step: Step)
    requires Conserved(s)
    ensures Conserved(Apply(c, s, step))
  {
    if step.Crash? {
      SumAtMost(Apply(c, s, step).tasks, s.tasks, Uncounted, Uncounted);
      SumAtMost(Apply(c, s, step).tasks, s.tasks, InFlight, InFlight);
    } else if step.t < |s.tasks| && s.tasks[step.t].0 < |s.caches| {
      TaskStepConserves(c, s, step, s.tasks[step.t].0, s.tasks[step.t].1);
    }
  }

  lemma {:induction false} RunInvariant(c: Config, processes: nat, owners: seq<nat>, steps: seq<Step>)
    ensures var s := After(c, processes, owners, steps); Reflects(s) && Bounded(c, s) && Conserved(s)
  {
    if steps == [] {
      var tasks := Init(processes, owners).tasks;
      SumZero(tasks, Busy);
      SumZero(tasks, Promising(c));
      SumZero(tasks, InFlight);
      SumZero(tasks, Uncounted);
    } else {
      var front, step := steps[..|steps| - 1], steps[|steps| - 1];
      var before := After(c, processes, owners, front);
      RunInvariant(c, processes, owners, front);
      StepReflects(c, before, step);
      StepBounded(c, before, step);
      StepConserves(c, before, step);
    }
  }

  lemma ReachableInvariant(c: Config, s: State)
    requires Reachable(c, s)
    ensures Reflects(s) && Bounded(c, s) && Conserved(s)
  {
    var processes, owners, steps :| s == After(c, processes, owners, steps);
    RunInvariant(c, processes, owners, steps);
  }

  /** Fingerprints stay pairwise distinct, and every cache stays inside the ledger, however many tasks run at once. */
  lemma LedgerIsDistinct(c: Config, s: State)
    requires Reachable(c, s)
    ensures Distinct(s.ledger) && forall p | 0 <= p < |s.caches| :: s.caches[p] <= Elements(s.ledger)
  {
    ReachableInvariant(c, s);
  }

  /** With an exclusive lock the ledger never holds more than maxCorrections; W tasks at once may add W - 1 more. */
  lemma LedgerIsBounded(c: Config, s: State)
    requires Reachable(c, s) && c.slots >= 1
    ensures |s.ledger| <= Max(0, c.maxCorrections) + c.slots - 1
  {
    ReachableInvariant(c, s);
  }

  // ----- with an exclusive lock

  ghost predicate Exact(s: State) {
    && (forall i | 0 <= i < |s.tasks| && s.tasks[i].1.Loaded? :: s.tasks[i].1.durable == Elements(s.ledger))
    && (forall i | 0 <= i < |s.tasks| && (s.tasks[i].1.Cleared? || s.tasks[i].1.Sent?) :: s.tasks[i].1.fp !in s.ledger)
    && s.repeats == 0
  }

  ghost predicate OthersIdle(s: State, t: nat) {
    forall j | 0 <= j < |s.tasks| && j != t :: s.tasks[j].1.Idle?
  }

  lemma OnlyOneBusy(s: State, t: nat)
    requires Sum(s.tasks, Busy) <= 1 && t < |s.tasks| && !s.tasks[t].1.Idle?
    ensures OthersIdle(s, t)
  {
    forall j | 0 <= j < |s.tasks| && j != t
      ensures s.tasks[j].1.Idle?
    {
      if j < t {
        SumHasParts(s.tasks, j, t, Busy);
      } else {
        SumHasParts(s.tasks, t, j, Busy);
      }
    }
  }

  lemma LoadExact(s: State, t: nat, fp: Fingerprint)
    requires Exact(s) && t < |s.tasks|
    ensures Exact(Put(s, t, Loaded(fp, Elements(s.ledger))))
  {
  }

  lemma TaskStepExact(c: Config, s: State, step: Step, process: nat, task: Task)
    requires !step.Crash? && step.t < |s.tasks| && s.tasks[step.t] == (process, task) && process < |s.caches|
    requires Exact(s) && OthersIdle(s, step.t) && !task.Idle?
    ensures Exact(TaskStep(c, s, step, process, task))
  {
  }

  lemma StepExact(c: Config, s: State, step: Step)
    requires c.slots <= 1 && Bounded(c, s) && Exact(s)
    ensures Exact(Apply(c, s, step))
  {
    if !step.Crash? && step.t < |s.tasks| && s.tasks[step.t].0 < |s.caches| {
      if s.tasks[step.t].1.Idle? {
        if step.Load? {
          LoadExact(s, step.t, step.fp);
        }
      } else {
        OnlyOneBusy(s, step.t);
        TaskStepExact(c, s, step, s.tasks[step.t].0, s.tasks[step.t].1);
      }
    }
  }

  lemma {:induction false} RunExact(c: Config, processes: nat, owners: seq<nat>, steps: seq<Step>)
    requires c.slots <= 1
    ensures Exact(After(c, processes, owners, steps))
  {
    if steps != [] {
      var front := steps[..|steps| - 1];
      RunInvariant(c, processes, owners, front);
      RunExact(c, processes, owners, front);
      StepExact(c, After(c, processes, owners, front), steps[|steps| - 1]);
    }
  }

  /**
    The union of the durable set and the cache that a task is about to check equals the ledger, across crashes and
    whichever processes held the session before: the check refuses exactly a full ledger or a fingerprint already in it.
   */
  lemma CheckSeesLedger(c: Config, s: State, t: nat)
    requires Reachable(c, s) && c.slots <= 1
    requires t < |s.tasks| && s.tasks[t].0 < |s.caches| && s.tasks[t].1.Loaded?
    ensures var prior := s.tasks[t].1.durable + s.caches[s.tasks[t].0];
            && prior == Elements(s.ledger) && |prior| == |s.ledger|
            && (CanSubmitCorrection(|prior|, c.maxCorrections, prior, s.tasks[t].1.fp).None?
                <==> |s.ledger| < c.maxCorrections && s.tasks[t].1.fp !in s.ledger)
  {
    var processes, owners, steps :| s == After(c, processes, owners, steps);
    RunInvariant(c, processes, owners, steps);
    RunExact(c, processes, owners, steps);
    ElementsOfDistinct(s.ledger);
  }

  /** What has reached Jules, in order, as long as no send was lost: the ledger, then the correction still to be recorded. */
  ghost predicate SendsAreLedger(s: State) {
    s.lost == 0 ==>
      && (forall t | 0 <= t < |s.tasks| && s.tasks[t].1.Sent? :: s.sends == s.ledger + [s.tasks[t].1.fp])
      && (Sum(s.tasks, InFlight) == 0 ==> s.sends == s.ledger)
  }

  /** Steps before the send: nothing has reached Jules that the ledger lacks, or nothing changes about it. */
  lemma EarlyStep(c: Config, s: State, step: Step, process: nat, task: Task)
    requires !step.Crash? && step.t < |s.tasks| && s.tasks[step.t] == (process, task) && process < |s.caches|
    requires !step.Send? && !step.Record? && !task.Sent? && SendsAreLedger(s)
    ensures SendsAreLedger(TaskStep(c, s, step, process, task))
  {
    SumUpdate(s.tasks, step.t, TaskStep(c, s, step, process, task).tasks[step.t], InFlight);
  }

  lemma SendingStep(c: Config, s: State, step: Step, process: nat, task: Task)
    requires !step.Crash? && step.t < |s.tasks| && s.tasks[step.t] == (process, task) && process < |s.caches|
    requires s.lost >= 0 && Exact(s) && (task.Idle? || OthersIdle(s, step.t)) && SendsAreLedger(s)
    ensures SendsAreLedger(TaskStep(c, s, step, process, task))
  {
    if !step.Send? && !step.Record? && !task.Sent? {
      EarlyStep(c, s, step, process, task);
      return;
    }
    var s' := TaskStep(c, s, step, process, task);
    SumUpdate(s.tasks, step.t, s'.tasks[step.t], InFlight);
    if !task.Idle? && !task.Sent? {
      SumZero(s.tasks, InFlight);
    }
    if step.Record? && task.Sent? {
      SumZero(s'.tasks, InFlight);
    }
    if s'.tasks[step.t].1.Sent? {
      SumHasPart(s'.tasks, step.t, InFlight);
    }
  }

  lemma StepSends(c: Config, s: State, step: Step)
    requires c.slots <= 1 && Bounded(c, s) && Conserved(s) && Exact(s) && SendsAreLedger(s)
    ensures SendsAreLedger(Apply(c, s, step))
  {
    if step.Crash? {
      SumAtMost(Apply(c, s, step).tasks, s.tasks, InFlight, InFlight);
    } else if step.t < |s.tasks| && s.tasks[step.t].0 < |s.caches| {
      if !s.tasks[step.t].1.Idle? {
        OnlyOneBusy(s, step.t);
      }
      SendingStep(c, s, step, s.tasks[step.t].0, s.tasks[step.t].1);
    }
  }

  lemma {:induction false} RunSends(c: Config, processes: nat, owners: seq<nat>, steps: seq<Step>)
    requires c.slots <= 1
    ensures SendsAreLedger(After(c, processes, owners, steps))
  {
    if steps != [] {
      var front := steps[..|steps| - 1];
      RunInvariant(c, processes, owners, front);
      RunExact(c, processes, owners, front);
      RunSends(c, processes, owners, front);
      StepSends(c, After(c, processes, owners, front), steps[|steps| - 1]);
    }
  }

  /**
    With an exclusive lock no correction reaches Jules twice unless a send went unrecorded: absent such a loss, the sends
    are pairwise distinct, and there are at most maxCorrections of them.
   */
  lemma SendsAreDistinct(c: Config, s: State)
    requires Reachable(c, s) && c.slots == 1
    ensures s.lost == 0 ==> Distinct(s.sends) && |s.sends| <= Max(0, c.maxCorrections)
    ensures |s.sends| <= Max(0, c.maxCorrections) + s.lost
    ensures s.counter == |s.ledger| - s.missed - Sum(s.tasks, Uncounted)
    ensures s.missed == 0 && (forall t | 0 <= t < |s.tasks| :: s.tasks[t].1.Idle?) ==> s.counter == |s.ledger|
  {
    var processes, owners, steps :| s == After(c, processes, owners, steps);
    RunInvariant(c, processes, owners, steps);
    RunExact(c, processes, owners, steps);
    RunSends(c, processes, owners, steps);
    SumAtMost(s.tasks, s.tasks, InFlight, Promising(c));
    if forall t | 0 <= t < |s.tasks| :: s.tasks[t].1.Idle? {
      SumZero(s.tasks, Uncounted);
    }
    if s.lost == 0 && Sum(s.tasks, InFlight) != 0 {
      var t := SomeInFlight(s.tasks);
      assert s.sends == s.ledger + [s.tasks[t].1.fp];
    }
  }

  lemma {:induction false} SomeInFlight(tasks: seq<(nat, Task)>) returns (t: nat)
    requires Sum(tasks, InFlight) > 0
    ensures t < |tasks| && tasks[t].1.Sent?
  {
    if tasks[|tasks| - 1].1.Sent? {
      t := |tasks| - 1;
    } else {
      t := SomeInFlight(tasks[..|tasks| - 1]);
    }
  }

  // ----- without one

  /** W tasks on one process. */
  function Owners(w: nat): seq<nat> {
    seq(w, _ => 0)
  }

  ghost predicate Reached(c: Config, s: State) {
    exists steps :: s == After(c, 1, Owners(c.slots), steps)
  }

  lemma ReachOne(c: Config, s: State, step: Step)
    requires Reached(c, s)
    ensures Reached(c, Apply(c, s, step))
  {
    var steps :| s == After(c, 1, Owners(c.slots), steps);
    assert (steps + [step])[..|steps|] == steps;
    assert After(c, 1, Owners(c.slots), steps + [step]) == Apply(c, s, step);
  }

  /** A task whose loaded set lets it through sends and records its correction, and comes to rest uncounted. */
  function Submitted(s: State, t: nat): State
    requires t < |s.tasks| && s.tasks[t].1.Loaded?
  {
    var fp := s.tasks[t].1.fp;
    s.(tasks := s.tasks[t := (s.tasks[t].0, Idle)], ledger := s.ledger + [fp], sends := s.sends + [fp], missed := s.missed + 1)
  }

  lemma Submit(c: Config, s: State, t: nat)
    requires Reached(c, s) && s.caches == [{}]
    requires t < |s.tasks| && s.tasks[t].0 == 0 && s.tasks[t].1.Loaded?
    requires |s.tasks[t].1.durable| < c.maxCorrections && s.tasks[t].1.fp !in s.tasks[t].1.durable && s.tasks[t].1.fp !in s.ledger
    ensures Reached(c, Submitted(s, t))
  {
    var fp, durable := s.tasks[t].1.fp, s.tasks[t].1.durable;
    assert durable + s.caches[0] == durable;
    var checked := Put(s, t, Cleared(fp));
    assert Apply(c, s, Check(t)) == checked;
    ReachOne(c, s, Check(t));
    Deliver(c, checked, t);
    assert checked.tasks[t := (0, Idle)] == s.tasks[t := (0, Idle)];
  }

  lemma Deliver(c: Config, s: State, t: nat)
    requires Reached(c, s) && |s.caches| == 1
    requires t < |s.tasks| && s.tasks[t].0 == 0 && s.tasks[t].1.Cleared? && s.tasks[t].1.fp !in s.ledger
    ensures var fp := s.tasks[t].1.fp;
            Reached(c, s.(tasks := s.tasks[t := (0, Idle)], ledger := s.ledger + [fp], sends := s.sends + [fp], missed := s.missed + 1))
  {
    var fp := s.tasks[t].1.fp;
    var sent := Put(s, t, Sent(fp)).(sends := s.sends + [fp]);
    assert Apply(c, s, Send(t, true, true)) == sent;
    ReachOne(c, s, Send(t, true, true));
    var recorded := Put(s, t, Recorded(fp)).(sends := s.sends + [fp], ledger := s.ledger + [fp]);
    assert sent.tasks[t := (0, Recorded(fp))] == s.tasks[t := (0, Recorded(fp))];
    assert Apply(c, sent, Record(t, true)) == recorded;
    ReachOne(c, sent, Record(t, true));
    ReachOne(c, recorded, Count(t, false));
    assert recorded.tasks[t := (0, Idle)] == s.tasks[t := (0, Idle)];
  }

  function Upto(n: nat): (s: seq<Fingerprint>)
    ensures |s| == n && forall i | 0 <= i < n :: s[i] == i
  {
    seq(n, i => i)
  }

  /** Tasks `from` to `to` of `w` have loaded `durable`, each with a fingerprint of its own; the others are idle. */
  function Holding(w: nat, base: nat, durable: set<Fingerprint>, from: nat, to: nat): (tasks: seq<(nat, Task)>)
    ensures |tasks| == w
    ensures forall i | 0 <= i < w :: tasks[i] == (0, if from <= i < to then Loaded(base + i, durable) else Idle)
  {
    seq(w, i => (0, if from <= i < to then Loaded(base + i, durable) else Idle))
  }

  lemma HoldOne(w: nat, base: nat, durable: set<Fingerprint>, k: nat)
    requires k < w
    ensures Holding(w, base, durable, 0, k)[k := (0, Loaded(base + k, durable))] == Holding(w, base, durable, 0, k + 1)
  {
  }

  lemma DropOne(w: nat, base: nat, durable: set<Fingerprint>, k: nat, to: nat)
    requires k < w
    ensures Holding(w, base, durable, k, to)[k := (0, Idle)] == Holding(w, base, durable, k + 1, to)
  {
  }

  lemma NoneHolds(w: nat, base: nat, durable: set<Fingerprint>, base': nat, durable': set<Fingerprint>, k: nat)
    ensures Holding(w, base, durable, k, k) == Holding(w, base', durable', 0, 0)
  {
  }

  /** A ledger of `n` rows, while tasks `from` to `to` hold what they loaded when it had `base`. */
  function Scene(w: nat, n: nat, base: nat, from: nat, to: nat): State {
    State(Upto(n), [{}], Holding(w, base, Elements(Upto(base)), from, to), Upto(n), 0, 0, 0, n)
  }

  lemma Starts(c: Config)
    ensures Reached(c, Scene(c.slots, 0, 0, 0, 0))
  {
    assert Init(1, Owners(c.slots)).tasks == Holding(c.slots, 0, Elements(Upto(0)), 0, 0);
    assert After(c, 1, Owners(c.slots), []) == Scene(c.slots, 0, 0, 0, 0);
  }

  lemma IdleLeavesRoom(tasks: seq<(nat, Task)>, t: nat)
    requires t < |tasks| && tasks[t].1.Idle?
    ensures Sum(tasks, Busy) < |tasks|
  {
    SumUpdate(tasks, t, (0, Cleared(0)), Busy);
    SumIsLength(tasks[t := (0, Cleared(0))]);
  }

  lemma {:induction false} SumIsLength(tasks: seq<(nat, Task)>)
    ensures Sum(tasks, Busy) <= |tasks|
  {
    if tasks != [] {
      SumIsLength(tasks[..|tasks| - 1]);
    }
  }

  lemma Enter(c: Config, s: State, t: nat, fp: Fingerprint)
    requires Reached(c, s) && |s.caches| == 1 && |s.tasks| == c.slots && t < c.slots && s.tasks[t] == (0, Idle)
    ensures Reached(c, Put(s, t, Loaded(fp, Elements(s.ledger))))
  {
    IdleLeavesRoom(s.tasks, t);
    ReachOne(c, s, Load(t, fp));
  }

  lemma LoadedScene(w: nat, base: nat, k: nat)
    requires k < w
    ensures Put(Scene(w, base, base, 0, k), k, Loaded(base + k, Elements(Upto(base)))) == Scene(w, base, base, 0, k + 1)
  {
    HoldOne(w, base, Elements(Upto(base)), k);
  }

  lemma LoadNext(c: Config, base: nat, k: nat)
    requires k < c.slots && Reached(c, Scene(c.slots, base, base, 0, k))
    ensures Reached(c, Scene(c.slots, base, base, 0, k + 1))
  {
    Enter(c, Scene(c.slots, base, base, 0, k), k, base + k);
    LoadedScene(c.slots, base, k);
  }

  lemma OneMore(n: nat)
    ensures Upto(n) + [n] == Upto(n + 1)
  {
  }

  lemma SubmittedScene(w: nat, base: nat, k: nat, to: nat)
    requires k < to <= w
    ensures Submitted(Scene(w, base + k, base, k, to), k) == Scene(w, base + k + 1, base, k + 1, to)
  {
    DropOne(w, base, Elements(Upto(base)), k, to);
    OneMore(base + k);
  }

  lemma SubmitNext(c: Config, base: nat, k: nat, to: nat)
    requires k < to <= c.slots && base < c.maxCorrections && Reached(c, Scene(c.slots, base + k, base, k, to))
    ensures Reached(c, Scene(c.slots, base + k + 1, base, k + 1, to))
  {
    var s := Scene(c.slots, base + k, base, k, to);
    assert |Elements(Upto(base))| == base by {
      ElementsOfDistinct(Upto(base));
    }
    assert s.tasks[k] == (0, Loaded(base + k, Elements(Upto(base))));
    assert base + k !in s.ledger && base + k !in Upto(base);
    Submit(c, s, k);
    SubmittedScene(c.slots, base, k, to);
  }

  /** One correction from start to end by the first task. */
  lemma FillOne(c: Config, n: nat)
    requires c.slots > 0 && n < c.maxCorrections && Reached(c, Scene(c.slots, n, n, 0, 0))
    ensures Reached(c, Scene(c.slots, n + 1, n + 1, 0, 0))
  {
    LoadNext(c, n, 0);
    SubmitNext(c, n, 0, 1);
    NoneHolds(c.slots, n, Elements(Upto(n)), n + 1, Elements(Upto(n + 1)), 1);
  }

  lemma {:induction false} Fill(c: Config, n: nat)
    requires c.slots > 0 && n <= c.maxCorrections
    ensures Reached(c, Scene(c.slots, n, n, 0, 0))
  {
    if n == 0 {
      Starts(c);
    } else {
      Fill(c, n - 1);
      FillOne(c, n - 1);
    }
  }

  lemma {:induction false} LoadAll(c: Config, base: nat, k: nat)
    requires k <= c.slots && Reached(c, Scene(c.slots, base, base, 0, 0))
    ensures Reached(c, Scene(c.slots, base, base, 0, k))
  {
    if k > 0 {
      LoadAll(c, base, k - 1);
      LoadNext(c, base, k - 1);
    }
  }

  lemma {:induction false} SubmitAll(c: Config, base: nat, k: nat)
    requires k <= c.slots && base < c.maxCorrections && Reached(c, Scene(c.slots, base, base, 0, c.slots))
    ensures Reached(c, Scene(c.slots, base + k, base, k, c.slots))
  {
    if k > 0 {
      SubmitAll(c, base, k - 1);
      SubmitNext(c, base, k - 1, c.slots);
    }
  }

  /** W tasks at once do add W - 1 more, whatever the ceiling: each loads the ledger one short of it. */
  lemma OvershootIsAttained(c: Config)
    requires c.maxCorrections >= 1 && c.slots >= 1
    ensures exists s :: Reachable(c, s) && |s.ledger| == |s.sends| == c.maxCorrections + c.slots - 1
  {
    var base: nat := c.maxCorrections - 1;
    Fill(c, base);
    LoadAll(c, base, c.slots);
    SubmitAll(c, base, c.slots);
    assert Reachable(c, Scene(c.slots, base + c.slots, base, c.slots, c.slots));
  }

  /** The ceiling holds in every run exactly when one task at most holds the session, or nothing may be sent at all. */
  lemma CeilingHoldsExactlyWhenExclusive(c: Config)
    ensures (forall s | Reachable(c, s) :: |s.ledger| <= Max(0, c.maxCorrections)) <==> c.slots <= 1 || c.maxCorrections <= 0
  {
    if c.slots <= 1 || c.maxCorrections <= 0 {
      forall s | Reachable(c, s)
        ensures |s.ledger| <= Max(0, c.maxCorrections)
      {
        ReachableInvariant(c, s);
      }
    } else {
      OvershootIsAttained(c);
    }
  }
}
