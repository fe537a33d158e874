/**
  Code-mode host scheduler: the call budget, the call ledger, the queue of
  asynchronous calls, the promise-job executor and the drive loop. A script is
  an arbitrary `World`: whatever its callbacks do, the properties hold.
*/
module HostScheduler {
  import opened Basics

  /** A host result, reduced to what the ledger keeps of it. */
  datatype Value = Value(ok: bool, bytes: nat)

  datatype Call = Call(name: string, args: nat)

  datatype CallRecord = CallRecord(index: nat, name: string, ok: bool, bytes: nat)

  /**
    `host` is the indexed binding: every index is used once, so it can be any
    behaviour at all. `panics` says which calls panic on a worker thread.
  */
  datatype Config = Config(
    maxCalls: nat, maxParallel: nat, maxJobs: nat, host: (nat, Call) -> Value, panics: (nat, Call) -> bool)

  const PANICKED := Value(false, 1)
  const MISSING := Value(false, 2)

  function Record(index: nat, c: Call, v: Value): CallRecord
  {
    CallRecord(index, c.name, v.ok, v.bytes)
  }

  /******* The ledger as a state machine *******/

  /** Which kind of call a ledger entry came from. */
  datatype Origin = Sync(call: Call) | Async(call: Call)

  datatype Host = Host(
    callsMade: nat, executed: seq<CallRecord>, pending: seq<Call>,
    fetches: nat, origins: seq<Origin>, issued: seq<Call>)

  const FRESH_HOST := Host(0, [], [], 0, [], [])

  /** One native call of the script, or one batch of the flush loop. `late` is the deadline check. */
  datatype Step =
    | CallSync(call: Call, late: bool)
    | CallAsync(call: Call, late: bool)
    | FetchResult(available: bool, cursor: bool, late: bool)
    | Batch

  predicate Reserves(cfg: Config, h: Host, late: bool)
  {
    h.callsMade < cfg.maxCalls && !late
  }

  function BatchOf(cfg: Config, pending: seq<Call>): seq<Call>
  {
    pending[..if |pending| < cfg.maxParallel then |pending| else cfg.maxParallel]
  }

  /** A call's result in a batch of `n`: workers are joined, and their panics caught, only from two calls on. */
  function ResultIn(cfg: Config, n: nat, index: nat, c: Call): Value
  {
    if n >= 2 && cfg.panics(index, c) then PANICKED else cfg.host(index, c)
  }

  function Records(cfg: Config, start: nat, batch: seq<Call>): seq<CallRecord>
  {
    seq(|batch|, i requires 0 <= i < |batch| => Record(start + i, batch[i], ResultIn(cfg, |batch|, start + i, batch[i])))
  }

  function AsAsync(batch: seq<Call>): seq<Origin>
  {
    seq(|batch|, i requires 0 <= i < |batch| => Async(batch[i]))
  }

  function Next(cfg: Config, h: Host, s: Step): Host
  {
    match s
    case CallSync(c, late) =>
      if !Reserves(cfg, h, late) then h
      else
        var i := |h.executed|;
        h.(callsMade := h.callsMade + 1,
           executed := h.executed + [Record(i, c, cfg.host(i, c))],
           origins := h.origins + [Sync(c)])
    case CallAsync(c, late) =>
      if !Reserves(cfg, h, late) then h
      else h.(callsMade := h.callsMade + 1, pending := h.pending + [c], issued := h.issued + [c])
    case FetchResult(available, cursor, late) =>
      if !available || !Reserves(cfg, h, late) || !cursor then h
      else h.(callsMade := h.callsMade + 1, fetches := h.fetches + 1)
    case Batch =>
      var batch := BatchOf(cfg, h.pending);
      h.(executed := h.executed + Records(cfg, |h.executed|, batch),
         origins := h.origins + AsAsync(batch),
         pending := h.pending[|batch|..])
  }

  function Run(cfg: Config, steps: seq<Step>): Host
  {
    if steps == [] then FRESH_HOST else Next(cfg, Run(cfg, steps[..|steps| - 1]), steps[|steps| - 1])
  }

  function Asyncs(origins: seq<Origin>): seq<Call>
  {
    if origins == [] then []
    else
      var last := origins[|origins| - 1];
      Asyncs(origins[..|origins| - 1]) + if last.Async? then [last.call] else []
  }

  /** The record of the call made with this index: what the host answered, or that its worker panicked. */
  predicate Truthful(cfg: Config, i: nat, r: CallRecord, o: Origin)
  {
    || r == Record(i, o.call, cfg.host(i, o.call))
    || (o.Async? && cfg.panics(i, o.call) && r == Record(i, o.call, PANICKED))
  }

  /** What the ledger promises at every step boundary. */
  ghost predicate LedgerOk(cfg: Config, h: Host)
  {
    && h.callsMade == |h.executed| + |h.pending| + h.fetches <= cfg.maxCalls
    && |h.origins| == |h.executed|
    // Dense indexes, and the host was given the index its record carries.
    && (forall i :: 0 <= i < |h.executed| ==> Truthful(cfg, i, h.executed[i], h.origins[i]))
    // Asynchronous calls run in the order they were issued; none is lost.
    && Asyncs(h.origins) + h.pending == h.issued
  }

  lemma {:induction false} AsyncsAppend(origins: seq<Origin>, batch: seq<Call>)
    ensures Asyncs(origins + AsAsync(batch)) == Asyncs(origins) + batch
  {
    if batch == [] {
      assert origins + AsAsync(batch) == origins;
    } else {
      var n := |batch| - 1;
      var all := origins + AsAsync(batch);
      assert all[..|all| - 1] == origins + AsAsync(batch[..n]);
      AsyncsAppend(origins, batch[..n]);
      assert batch == batch[..n] + [batch[n]];
    }
  }

  lemma SyncKeepsAsyncs(origins: seq<Origin>, c: Call)
    ensures Asyncs(origins + [Sync(c)]) == Asyncs(origins)
  {
    assert (origins + [Sync(c)])[..|origins|] == origins;
  }

  lemma SyncKeepsLedger(cfg: Config, h: Host, c: Call, late: bool)
    requires LedgerOk(cfg, h)
    ensures LedgerOk(cfg, Next(cfg, h, CallSync(c, late)))
  {
    SyncKeepsAsyncs(h.origins, c);
  }

  lemma BatchTruthful(cfg: Config, executed: seq<CallRecord>, origins: seq<Origin>, batch: seq<Call>, i: nat)
    requires |executed| == |origins| && i < |executed| + |batch|
    requires forall j :: 0 <= j < |executed| ==> Truthful(cfg, j, executed[j], origins[j])
    ensures Truthful(cfg, i, (executed + Records(cfg, |executed|, batch))[i], (origins + AsAsync(batch))[i])
  {
  }

  lemma BatchKeepsLedger(cfg: Config, h: Host)
    requires LedgerOk(cfg, h)
    ensures LedgerOk(cfg, Next(cfg, h, Batch))
  {
    var batch, h' := BatchOf(cfg, h.pending), Next(cfg, h, Batch);
    assert Asyncs(h'.origins) + h'.pending == h'.issued by {
      AsyncsAppend(h.origins, batch);
      assert h.pending == batch + h'.pending;
      assert Asyncs(h.origins) + batch + h'.pending == Asyncs(h.origins) + (batch + h'.pending);
    }
    forall i | 0 <= i < |h'.executed| ensures Truthful(cfg, i, h'.executed[i], h'.origins[i]) {
      BatchTruthful(cfg, h.executed, h.origins, batch, i);
    }
  }

  lemma StepKeepsLedger(cfg: Config, h: Host, s: Step)
    requires LedgerOk(cfg, h)
    ensures LedgerOk(cfg, Next(cfg, h, s))
  {
    match s
    case CallSync(c, late) => SyncKeepsLedger(cfg, h, c, late);
    case CallAsync(c, _) => assert Asyncs(h.origins) + (h.pending + [c]) == Asyncs(h.origins) + h.pending + [c];
    case FetchResult(_, _, _) =>
    case Batch => BatchKeepsLedger(cfg, h);
  }

  /** The ledger holds after every sequence of sync calls, async calls, fetches and batches. */
  lemma {:induction false} LedgerHolds(cfg: Config, steps: seq<Step>)
    ensures LedgerOk(cfg, Run(cfg, steps))
  {
    if steps != [] {
      LedgerHolds(cfg, steps[..|steps| - 1]);
      StepKeepsLedger(cfg, Run(cfg, steps[..|steps| - 1]), steps[|steps| - 1]);
    }
  }

  /** Calls still possible plus calls still queued; the flush loop runs down this number. */
  function Fuel(cfg: Config, h: Host): int
  {
    |h.pending| + cfg.maxCalls - h.callsMade
  }

  lemma StepFuel(cfg: Config, h: Host, s: Step)
    requires cfg.maxParallel >= 1
    ensures Fuel(cfg, Next(cfg, h, s)) <= Fuel(cfg, h)
    ensures s.Batch? && h.pending != [] ==> Fuel(cfg, Next(cfg, h, s)) < Fuel(cfg, h)
    ensures Next(cfg, h, s).callsMade >= h.callsMade
    ensures Next(cfg, h, s).callsMade - h.callsMade >= |Next(cfg, h, s).pending| - |h.pending|
  {
  }

  /******* Parallel host calls *******/

  /**
    `run_calls_parallel` for two or more items: `work(i)` is `None` when worker
    `i` panicked. Joining in spawn order makes the first empty slot the
    panicked worker's own, so no result is misplaced or missing.
  */
  method JoinWorkers(work: seq<Option<Value>>) returns (r: seq<Value>)
    ensures |r| == |work|
    ensures forall i :: 0 <= i < |work| ==> r[i] == (if work[i].Some? then work[i].value else PANICKED)
  {
    var slots := new Option<Value>[|work|](_ => None);
    var j := 0;
    while j < |work|
      invariant 0 <= j <= |work|
      invariant forall i :: 0 <= i < j ==> slots[i] == Some(if work[i].Some? then work[i].value else PANICKED)
      invariant forall i :: j <= i < |work| ==> slots[i].None?
    {
      match work[j] {
        case Some(v) => slots[j] := Some(v);
        case None =>
          var k := 0;
          while k < slots.Length && slots[k].Some?
            invariant 0 <= k <= j
          {
            k := k + 1;
          }
          if k < slots.Length {
            slots[k] := Some(PANICKED);
          }
      }
      j := j + 1;
    }
    r := [];
    var i := 0;
    while i < slots.Length
      invariant 0 <= i <= slots.Length == |work|
      invariant |r| == i
      invariant forall n :: 0 <= n < |work| ==> slots[n] == Some(if work[n].Some? then work[n].value else PANICKED)
      invariant forall n :: 0 <= n < i ==> r[n] == slots[n].value
    {
      r := r + [if slots[i].Some? then slots[i].value else MISSING];
      i := i + 1;
    }
  }

  /** `run_calls_parallel`: no thread for one item, a joined scope for more. */
  method RunCalls(cfg: Config, start: nat, batch: seq<Call>) returns (r: seq<Value>)
    ensures |r| == |batch|
    ensures forall i :: 0 <= i < |batch| ==> r[i] == ResultIn(cfg, |batch|, start + i, batch[i])
  {
    if batch == [] {
      r := [];
    } else if |batch| == 1 {
      r := [cfg.host(start, batch[0])];
    } else {
      r := JoinWorkers(seq(|batch|, i requires 0 <= i < |batch| =>
        if cfg.panics(start + i, batch[i]) then None else Some(cfg.host(start + i, batch[i]))));
    }
  }

  /******* The running script *******/

  datatype Job = PromiseJob | GenericJob | UnsupportedJob

  /** How one iteration of the job loop ends. */
  datatype JobEnd = JobDone | NoJob | JobFails

  datatype Promise = Pending | Fulfilled | Rejected

  /** What the n-th callback, clock reading or look at the script's promise meets. */
  datatype Turn = Turn(steps: seq<Step>, jobs: seq<Job>, throws: bool, late: bool, promise: Promise)

  datatype Outcome = Settled | Threw | Hung | DriveBudgetExceeded

  /** The native calls among the steps: a script cannot run a batch. */
  function Natives(steps: seq<Step>): seq<Step>
  {
    if steps == [] then []
    else Natives(steps[..|steps| - 1]) + if steps[|steps| - 1].Batch? then [] else [steps[|steps| - 1]]
  }

  lemma NativesSnoc(steps: seq<Step>, s: Step)
    ensures Natives(steps + [s]) == if s.Batch? then Natives(steps) else Natives(steps) + [s]
  {
    assert (steps + [s])[..|steps|] == steps;
  }

  lemma NativesNext(steps: seq<Step>, i: nat)
    requires i < |steps|
    ensures Natives(steps[..i + 1]) == if steps[i].Batch? then Natives(steps[..i]) else Natives(steps[..i]) + [steps[i]]
  {
    assert steps[..i + 1] == steps[..i] + [steps[i]];
    NativesSnoc(steps[..i], steps[i]);
  }

  /** The calls issued between two traces. */
  function Since(cfg: Config, before: seq<Step>, after: seq<Step>): seq<Call>
  {
    var n := |Run(cfg, before).issued|;
    if n <= |Run(cfg, after).issued| then Run(cfg, after).issued[n..] else []
  }

  /** What a host queues in one native call is what it issues. */
  lemma NativeQueues(cfg: Config, h: Host, s: Step)
    requires !s.Batch?
    ensures var h' := Next(cfg, h, s); exists more :: h'.issued == h.issued + more && h'.pending == h.pending + more
  {
    var h' := Next(cfg, h, s);
    if s.CallAsync? && h' != h {
      assert h'.issued == h.issued + [s.call] && h'.pending == h.pending + [s.call];
    } else {
      assert h'.issued == h.issued + [] && h'.pending == h.pending + [];
    }
  }

  /** The same for a trace that one more native call ends. */
  lemma NativeSnoc(cfg: Config, t: seq<Step>, s: Step) returns (more: seq<Call>)
    requires !s.Batch?
    ensures Run(cfg, t + [s]).issued == Run(cfg, t).issued + more && Run(cfg, t + [s]).pending == Run(cfg, t).pending + more
  {
    assert (t + [s])[..|t|] == t;
    NativeQueues(cfg, Run(cfg, t), s);
    more :| Run(cfg, t + [s]).issued == Run(cfg, t).issued + more && Run(cfg, t + [s]).pending == Run(cfg, t).pending + more;
  }

  lemma Regroup(a: seq<Call>, b: seq<Call>, c: seq<Call>)
    ensures a + b + c == a + (b + c)
  {
  }

  /** Native calls only add to the queue: what is queued afterwards and was not before was issued by them. */
  lemma {:induction false} NativesQueue(cfg: Config, trace: seq<Step>, steps: seq<Step>) returns (more: seq<Call>)
    ensures var h, h' := Run(cfg, trace), Run(cfg, trace + Natives(steps));
            h'.issued == h.issued + more && h'.pending == h.pending + more
    ensures Since(cfg, trace, trace + Natives(steps)) == more
  {
    var h := Run(cfg, trace);
    if steps == [] {
      assert trace + Natives(steps) == trace;
      more := [];
      return;
    }
    var init, last := steps[..|steps| - 1], steps[|steps| - 1];
    var first := NativesQueue(cfg, trace, init);
    if last.Batch? {
      assert Natives(steps) == Natives(init);
      more := first;
    } else {
      var t := trace + Natives(init);
      assert trace + Natives(steps) == t + [last];
      var extra := NativeSnoc(cfg, t, last);
      more := first + extra;
      Regroup(h.issued, first, extra);
      Regroup(h.pending, first, extra);
    }
  }

  function CountJobs(jobs: seq<Job>, kind: Job): nat
  {
    if jobs == [] then 0 else CountJobs(jobs[..|jobs| - 1], kind) + if jobs[|jobs| - 1] == kind then 1 else 0
  }

  lemma CountSnoc(jobs: seq<Job>, j: nat, kind: Job)
    requires j < |jobs|
    ensures CountJobs(jobs[..j + 1], kind) == CountJobs(jobs[..j], kind) + if jobs[j] == kind then 1 else 0
  {
    assert jobs[..j + 1][..j] == jobs[..j];
  }

  /** The jobs that the callbacks of the first `n` jobs leave, when the first job's clock is read at turn `from`. */
  function LeftByJobs(world: nat -> Turn, from: nat, n: nat): nat
  {
    if n == 0 then 0
    else
      var jobs := world(from + 2 * n - 1).jobs;
      LeftByJobs(world, from, n - 1) + CountJobs(jobs, PromiseJob) + CountJobs(jobs, GenericJob)
  }

  /** After `n` jobs, of those queued at first and those they left, `queued` are still to run. */
  predicate JobsLeft(world: nat -> Turn, from: nat, first: nat, n: nat, queued: nat)
  {
    queued + n == first + LeftByJobs(world, from, n)
  }

  predicate AllJobsRan(world: nat -> Turn, from: nat, first: nat, n: nat)
  {
    JobsLeft(world, from, first, n, 0)
  }

  lemma JobRan(world: nat -> Turn, from: nat, first: nat, n: nat, queued: nat, queued': nat)
    requires JobsLeft(world, from, first, n, queued)
    requires var jobs := world(from + 2 * n + 1).jobs; queued' + 1 == queued + CountJobs(jobs, PromiseJob) + CountJobs(jobs, GenericJob)
    ensures JobsLeft(world, from, first, n + 1, queued')
  {
    assert from + 2 * (n + 1) - 1 == from + 2 * n + 1;
  }

  function Batches(steps: seq<Step>): nat
  {
    if steps == [] then 0 else Batches(steps[..|steps| - 1]) + if steps[|steps| - 1].Batch? then 1 else 0
  }

  /** The batches of a run and the asynchronous calls that ran in them: one clock reading for each, one promise for each. */
  function Work(cfg: Config, steps: seq<Step>): int
  {
    Batches(steps) + |Run(cfg, steps).issued| - |Run(cfg, steps).pending|
  }

  lemma {:induction false} NativesNoBatch(trace: seq<Step>, steps: seq<Step>)
    ensures Batches(trace + Natives(steps)) == Batches(trace)
  {
    if steps == [] {
      assert trace + Natives(steps) == trace;
    } else {
      var init, last := steps[..|steps| - 1], steps[|steps| - 1];
      NativesNoBatch(trace, init);
      if last.Batch? {
        assert Natives(steps) == Natives(init);
      } else {
        var t := trace + Natives(init);
        assert trace + Natives(steps) == t + [last] && (t + [last])[..|t|] == t;
      }
    }
  }

  lemma NativesNoWork(cfg: Config, trace: seq<Step>, steps: seq<Step>)
    ensures Work(cfg, trace + Natives(steps)) == Work(cfg, trace)
  {
    NativesNoBatch(trace, steps);
    var more := NativesQueue(cfg, trace, steps);
  }

  lemma BatchWork(cfg: Config, trace: seq<Step>)
    ensures Work(cfg, trace + [Batch]) == Work(cfg, trace) + 1 + |BatchOf(cfg, Run(cfg, trace).pending)|
  {
    assert (trace + [Batch])[..|trace|] == trace;
  }

  const MAX_DRIVE_ITERS: nat := 1_000_000

  lemma TraceGrows(first: seq<Step>, natives: seq<Step>, s: Step, before: seq<Step>)
    requires before == first + natives
    ensures before + [s] == first + (natives + [s])
  {
  }

  class ScriptHost {
    const cfg: Config
    const world: nat -> Turn

    var cursor: nat
    var callsMade: nat
    var executed: seq<CallRecord>
    var pending: seq<Call>
    var promiseJobs: nat
    var genericJobs: nat
    var rejected: bool
    var jobsRun: nat
    ghost var trace: seq<Step>

    /** Everything the script has done so far is a step sequence of the ledger machine. */
    ghost predicate Valid()
      reads this
    {
      && cfg.maxParallel >= 1 && cfg.maxJobs >= 1
      && jobsRun <= cfg.maxJobs
      && var h := Run(cfg, trace);
         h.callsMade == callsMade && h.executed == executed && h.pending == pending
    }

    /** `max_parallel.max(1)` and `max_jobs.max(1)`. */
    constructor (
      maxCalls: nat, maxParallel: nat, maxJobs: nat, host: (nat, Call) -> Value, panics: (nat, Call) -> bool, world: nat -> Turn)
      ensures Valid() && trace == [] && callsMade == 0 && jobsRun == 0 && cursor == 0 && Idle()
      ensures cfg == Config(maxCalls, Max(maxParallel, 1), Max(maxJobs, 1), host, panics) && this.world == world
    {
      cfg := Config(maxCalls, Max(maxParallel, 1), Max(maxJobs, 1), host, panics);
      this.world := world;
      cursor, callsMade, executed, pending := 0, 0, [], [];
      promiseJobs, genericJobs, rejected, jobsRun := 0, 0, false, 0;
      trace := [];
    }

    /** Nothing queued and nothing refused, with job budget left. */
    predicate Idle()
      reads this
    {
      pending == [] && promiseJobs == genericJobs == 0 && !rejected && jobsRun < cfg.maxJobs
    }

    ghost function FuelNow(): int
      reads this
    {
      |pending| + cfg.maxCalls - callsMade
    }

    /** Why a flush or a run of jobs ends the script: a refused job, a spent job budget, a late clock or a throw. */
    predicate Stopped()
      reads this
    {
      || rejected || jobsRun == cfg.maxJobs
      || (cursor > 0 && (world(cursor - 1).late || world(cursor - 1).throws))
    }

    /** The script's promise was still pending when it was looked at. */
    predicate Hangs()
      reads this
    {
      cursor > 0 && world(cursor - 1).promise.Pending?
    }

    /** The script's promise was rejected, and the reason has been printed. */
    predicate Rejects()
      reads this
    {
      cursor > 1 && world(cursor - 2).promise.Rejected?
    }

    ghost method Took(s: Step, h: Host)
      requires h == Run(cfg, trace)
      modifies this`trace
      ensures trace == old(trace) + [s] && Run(cfg, trace) == Next(cfg, h, s)
    {
      trace := trace + [s];
      assert trace[..|trace| - 1] == old(trace);
    }

    /** `toolport.call`: the ledger entry is pushed after the binding returns. */
    method SyncNative(c: Call, late: bool)
      requires Valid()
      modifies this`callsMade, this`executed, this`trace
      ensures Valid() && trace == old(trace) + [CallSync(c, late)]
      ensures if old(callsMade) < cfg.maxCalls && !late
              then callsMade == old(callsMade) + 1
                   && executed == old(executed) + [Record(|old(executed)|, c, cfg.host(|old(executed)|, c))]
              else callsMade == old(callsMade) && executed == old(executed)
    {
      ghost var h := Run(cfg, trace);
      if callsMade < cfg.maxCalls && !late {
        callsMade := callsMade + 1;
        var index := |executed|;
        var result := cfg.host(index, c);
        executed := executed + [Record(|executed|, c, result)];
      }
      Took(CallSync(c, late), h);
    }

    /** `toolport.callAsync`: the call is only queued. */
    method AsyncNative(c: Call, late: bool)
      requires Valid()
      modifies this`callsMade, this`pending, this`trace
      ensures Valid() && trace == old(trace) + [CallAsync(c, late)]
      ensures if old(callsMade) < cfg.maxCalls && !late
              then callsMade == old(callsMade) + 1 && pending == old(pending) + [c]
              else callsMade == old(callsMade) && pending == old(pending)
    {
      ghost var h := Run(cfg, trace);
      if callsMade < cfg.maxCalls && !late {
        callsMade := callsMade + 1;
        pending := pending + [c];
      }
      Took(CallAsync(c, late), h);
    }

    /** `toolport.fetchResult`: availability, then the budget, then the cursor. */
    method FetchNative(available: bool, cursor: bool, late: bool)
      requires Valid()
      modifies this`callsMade, this`trace
      ensures Valid() && trace == old(trace) + [FetchResult(available, cursor, late)]
      ensures callsMade == old(callsMade) + if available && cursor && !late && old(callsMade) < cfg.maxCalls then 1 else 0
    {
      ghost var h := Run(cfg, trace);
      if available && callsMade < cfg.maxCalls && !late && cursor {
        callsMade := callsMade + 1;
      }
      Took(FetchResult(available, cursor, late), h);
    }

    /** One native call of a callback. */
    method RunNative(s: Step)
      requires Valid() && !s.Batch?
      modifies this`callsMade, this`executed, this`pending, this`trace
      ensures Valid() && trace == old(trace) + [s]
      ensures FuelNow() <= old(FuelNow()) && callsMade >= old(callsMade)
      ensures callsMade - old(callsMade) >= |pending| - |old(pending)|
    {
      match s {
        case CallSync(c, late) => SyncNative(c, late);
        case CallAsync(c, late) => AsyncNative(c, late);
        case FetchResult(available, cursor, late) => FetchNative(available, cursor, late);
      }
    }

    /** The native calls of one callback. */
    method RunNatives(steps: seq<Step>)
      requires Valid()
      modifies this`callsMade, this`executed, this`pending, this`trace
      ensures Valid() && trace == old(trace) + Natives(steps)
      ensures FuelNow() <= old(FuelNow()) && callsMade >= old(callsMade)
      ensures callsMade - old(callsMade) >= |pending| - |old(pending)|
    {
      assert trace + [] == trace;
      var i := 0;
      while i < |steps|
        invariant 0 <= i <= |steps|
        invariant Valid() && trace == old(trace) + Natives(steps[..i])
        invariant callsMade >= old(callsMade) && callsMade - old(callsMade) >= |pending| - |old(pending)|
      {
        NativesNext(steps, i);
        if !steps[i].Batch? {
          ghost var before := trace;
          RunNative(steps[i]);
          TraceGrows(old(trace), Natives(steps[..i]), steps[i], before);
        }
        i := i + 1;
      }
      assert steps[..|steps|] == steps;
    }

    /** A callback of the script: any native calls, then any jobs it enqueues. */
    method Callback() returns (threw: bool)
      requires Valid()
      modifies this
      ensures Valid() && trace == old(trace) + Natives(world(old(cursor)).steps) && jobsRun == old(jobsRun)
      ensures cursor == old(cursor) + 1 && threw == world(old(cursor)).throws
      ensures promiseJobs == old(promiseJobs) + CountJobs(world(old(cursor)).jobs, PromiseJob)
      ensures genericJobs == old(genericJobs) + CountJobs(world(old(cursor)).jobs, GenericJob)
      ensures FuelNow() <= old(FuelNow())
      ensures callsMade - old(callsMade) >= |pending| - |old(pending)|
      ensures callsMade >= old(callsMade)
    {
      var turn := world(cursor);
      cursor := cursor + 1;
      RunNatives(turn.steps);
      EnqueueJobs(turn.jobs);
      threw := turn.throws;
    }

    /** `enqueue_job` for each job a callback leaves. */
    method EnqueueJobs(jobs: seq<Job>)
      modifies this`promiseJobs, this`genericJobs, this`rejected
      ensures promiseJobs == old(promiseJobs) + CountJobs(jobs, PromiseJob)
      ensures genericJobs == old(genericJobs) + CountJobs(jobs, GenericJob)
      ensures rejected <==> old(rejected) || UnsupportedJob in jobs
    {
      var j := 0;
      while j < |jobs|
        invariant 0 <= j <= |jobs|
        invariant promiseJobs == old(promiseJobs) + CountJobs(jobs[..j], PromiseJob)
        invariant genericJobs == old(genericJobs) + CountJobs(jobs[..j], GenericJob)
        invariant rejected <==> old(rejected) || UnsupportedJob in jobs[..j]
      {
        CountSnoc(jobs, j, PromiseJob);
        CountSnoc(jobs, j, GenericJob);
        match jobs[j] {
          case PromiseJob => promiseJobs := promiseJobs + 1;
          case GenericJob => genericJobs := genericJobs + 1;
          case UnsupportedJob => rejected := true;
        }
        j := j + 1;
      }
      assert jobs[..|jobs|] == jobs;
    }

    /** Append the records of a batch, in order. */
    method PushRecords(batch: seq<Call>, results: seq<Value>)
      requires |results| == |batch|
      requires forall i :: 0 <= i < |batch| ==> results[i] == ResultIn(cfg, |batch|, |executed| + i, batch[i])
      modifies this`executed
      ensures executed == old(executed) + Records(cfg, |old(executed)|, batch)
    {
      ghost var start := |executed|;
      var i := 0;
      while i < |batch|
        invariant 0 <= i <= |batch|
        invariant executed == old(executed) + Records(cfg, start, batch)[..i]
      {
        executed := executed + [Record(|executed|, batch[i], results[i])];
        i := i + 1;
      }
      assert Records(cfg, start, batch)[..i] == Records(cfg, start, batch);
    }

    /** Drain one batch and record it before any promise is resolved. */
    method RunBatch() returns (n: nat)
      requires Valid() && pending != []
      modifies this`executed, this`pending, this`trace
      ensures Valid() && trace == old(trace) + [Batch]
      ensures 1 <= n == Min(|old(pending)|, cfg.maxParallel) && pending == old(pending)[n..]
      ensures executed == old(executed) + Records(cfg, |old(executed)|, old(pending)[..n])
      ensures Work(cfg, trace) == Work(cfg, old(trace)) + 1 + n
      ensures FuelNow() < old(FuelNow())
    {
      ghost var h := Run(cfg, trace);
      var take := Min(|pending|, cfg.maxParallel);
      var batch := pending[..take];
      pending := pending[take..];
      var start := |executed|;
      var results := RunCalls(cfg, start, batch);
      PushRecords(batch, results);
      assert batch == BatchOf(cfg, h.pending);
      n := take;
      BatchWork(cfg, trace);
      Took(Batch, h);
    }

    /** Resolve the promises of a batch of `n`, in order, until a callback throws. */
    method ResolveAll(n: nat) returns (threw: bool)
      requires Valid()
      modifies this
      ensures Valid() && old(trace) <= trace && jobsRun == old(jobsRun)
      ensures if threw then Stopped() else cursor == old(cursor) + n
      ensures Work(cfg, trace) == Work(cfg, old(trace))
      ensures FuelNow() <= old(FuelNow()) && callsMade >= old(callsMade)
    {
      threw := false;
      var i := 0;
      while i < n
        invariant 0 <= i <= n && cursor == old(cursor) + i
        invariant Work(cfg, trace) == Work(cfg, old(trace))
        invariant Valid() && old(trace) <= trace && jobsRun == old(jobsRun)
        invariant FuelNow() <= old(FuelNow()) && callsMade >= old(callsMade)
      {
        NativesNoWork(cfg, trace, world(cursor).steps);
        threw := Callback();
        if threw {
          return;
        }
        i := i + 1;
      }
    }

    /**
      `flush_pending_host_calls`: on success nothing is left queued, and the
      promise of every call that ran has been resolved in a callback of its own.
    */
    method Flush() returns (ok: bool)
      requires Valid()
      modifies this
      ensures Valid() && old(trace) <= trace && jobsRun == old(jobsRun)
      ensures if ok then pending == [] else Stopped()
      ensures ok ==> cursor == old(cursor) + Max(1, Work(cfg, trace) - Work(cfg, old(trace)))
      ensures FuelNow() <= old(FuelNow()) && callsMade >= old(callsMade)
      ensures old(Idle()) && !world(old(cursor)).late ==> ok && Idle() && trace == old(trace) && cursor == old(cursor) + 1
    {
      while true
        invariant old(Idle()) ==> Idle() && trace == old(trace) && cursor == old(cursor)
        invariant Valid() && old(trace) <= trace && jobsRun == old(jobsRun)
        invariant FuelNow() <= old(FuelNow()) && callsMade >= old(callsMade)
        invariant cursor == old(cursor) + Work(cfg, trace) - Work(cfg, old(trace))
        invariant cursor == old(cursor) || (cursor > old(cursor) && pending != [])
        decreases FuelNow()
      {
        WithinBudget();
        var late := world(cursor).late;
        cursor := cursor + 1;
        if late {
          return false;
        }
        if pending == [] {
          return true;
        }
        var n := RunBatch();
        var threw := ResolveAll(n);
        if threw {
          return false;
        }
        if pending == [] {
          return true;
        }
      }
    }

    method ClearJobs()
      modifies this`promiseJobs, this`genericJobs
      ensures promiseJobs == genericJobs == 0
    {
      promiseJobs, genericJobs := 0, 0;
    }

    /** Take the next job, a promise job if there is one, and run it. */
    method RunJob() returns (threw: bool)
      requires Valid() && promiseJobs + genericJobs > 0 && jobsRun < cfg.maxJobs
      modifies this
      ensures Valid() && old(trace) <= trace && jobsRun == old(jobsRun) + 1
      ensures cursor == old(cursor) + 1 && threw == world(old(cursor)).throws
      ensures promiseJobs + genericJobs + 1
              == old(promiseJobs) + old(genericJobs)
                 + CountJobs(world(old(cursor)).jobs, PromiseJob) + CountJobs(world(old(cursor)).jobs, GenericJob)
      ensures old(promiseJobs) > 0 ==> genericJobs == old(genericJobs) + CountJobs(world(old(cursor)).jobs, GenericJob)
      ensures callsMade >= old(callsMade) && callsMade - old(callsMade) >= |pending| - |old(pending)|
    {
      if promiseJobs > 0 {
        promiseJobs := promiseJobs - 1;
      } else {
        genericJobs := genericJobs - 1;
      }
      jobsRun := jobsRun + 1;
      threw := Callback();
    }

    /** One iteration of the loop in `run_jobs`: the clock and the budget are looked at before the queues. */
    method JobTurn() returns (r: JobEnd)
      requires Valid()
      modifies this
      ensures Valid() && old(trace) <= trace && old(jobsRun) <= jobsRun
      ensures r.JobFails? ==> Stopped()
      ensures r.NoJob? <==> !world(old(cursor)).late && old(jobsRun) < cfg.maxJobs && old(promiseJobs) == old(genericJobs) == 0
      ensures r.NoJob? ==>
                && cursor == old(cursor) + 1 && trace == old(trace) && jobsRun == old(jobsRun) && rejected == old(rejected)
                && pending == old(pending) && promiseJobs == genericJobs == 0
      ensures r.JobDone? ==>
                && jobsRun == old(jobsRun) + 1 && cursor == old(cursor) + 2
                && promiseJobs + genericJobs + 1
                   == old(promiseJobs) + old(genericJobs)
                      + CountJobs(world(old(cursor) + 1).jobs, PromiseJob) + CountJobs(world(old(cursor) + 1).jobs, GenericJob)
      ensures callsMade >= old(callsMade) && callsMade - old(callsMade) >= |pending| - |old(pending)|
    {
      var late := world(cursor).late;
      cursor := cursor + 1;
      if late || jobsRun >= cfg.maxJobs {
        return JobFails;
      }
      if promiseJobs == 0 && genericJobs == 0 {
        return NoJob;
      }
      var threw := RunJob();
      r := if threw then JobFails else JobDone;
    }

    /** The loop of `run_jobs`: until nothing is queued, the clock is late, the budget is spent or a job throws. */
    method JobLoop() returns (ok: bool)
      requires Valid()
      modifies this
      ensures Valid() && old(trace) <= trace && old(jobsRun) <= jobsRun
      ensures !ok ==> Stopped()
      ensures ok ==> promiseJobs == genericJobs == 0 && jobsRun < cfg.maxJobs
      ensures ok ==> AllJobsRan(world, old(cursor), old(promiseJobs) + old(genericJobs), jobsRun - old(jobsRun))
      ensures ok ==> cursor == old(cursor) + 2 * (jobsRun - old(jobsRun)) + 1
      ensures callsMade >= old(callsMade) && callsMade - old(callsMade) >= |pending| - |old(pending)|
      ensures old(Idle()) && !world(old(cursor)).late ==> ok && Idle() && trace == old(trace) && cursor == old(cursor) + 1
    {
      ghost var n: nat := 0;
      ghost var first, start, turns := promiseJobs + genericJobs, cursor, world;
      while true
        invariant Valid() && old(trace) <= trace
        invariant turns == world && start == old(cursor)
        invariant jobsRun == old(jobsRun) + n && cursor == old(cursor) + 2 * n
        invariant JobsLeft(turns, start, first, n, promiseJobs + genericJobs)
        invariant callsMade >= old(callsMade) && callsMade - old(callsMade) >= |pending| - |old(pending)|
        invariant old(Idle()) && !world(old(cursor)).late ==> Idle() && trace == old(trace) && n == 0
        decreases cfg.maxJobs - jobsRun
      {
        ghost var queued := promiseJobs + genericJobs;
        var r := JobTurn();
        if !r.JobDone? {
          assert r.NoJob? ==> AllJobsRan(turns, start, first, n);
          return r.NoJob?;
        }
        assert JobsLeft(turns, start, first, n + 1, promiseJobs + genericJobs) by {
          JobRan(turns, start, first, n, queued, promiseJobs + genericJobs);
        }
        n := n + 1;
      }
    }

    /**
      `run_jobs`: at most `maxJobs` jobs over the whole script and empty queues
      on every exit; on success every job that was queued, or left by another
      job, has run once.
    */
    method RunJobs() returns (ok: bool)
      requires Valid()
      modifies this
      ensures Valid() && old(trace) <= trace
      ensures old(jobsRun) <= jobsRun <= cfg.maxJobs
      ensures promiseJobs == genericJobs == 0
      ensures if ok then !rejected && jobsRun < cfg.maxJobs else Stopped()
      ensures ok ==> AllJobsRan(world, old(cursor), old(promiseJobs) + old(genericJobs), jobsRun - old(jobsRun))
      ensures ok ==> cursor == old(cursor) + 2 * (jobsRun - old(jobsRun)) + 1
      ensures FuelNow() <= old(FuelNow())
      ensures callsMade - old(callsMade) >= |pending| - |old(pending)|
      ensures callsMade >= old(callsMade)
      ensures old(Idle()) && !world(old(cursor)).late ==> ok && Idle() && trace == old(trace) && cursor == old(cursor) + 1
    {
      ok := !rejected;
      if ok {
        ok := JobLoop();
      }
      if !ok || rejected {
        ClearJobs();
        ok := false;
      }
    }

    /** One iteration of the drive loop up to the look at the queue: host calls, then promise jobs. */
    method Round() returns (ok: bool)
      requires Valid()
      modifies this
      ensures Valid() && old(trace) <= trace && callsMade >= old(callsMade)
      ensures ok && pending != [] ==> callsMade > old(callsMade)
      ensures !ok ==> Stopped()
      ensures old(Idle()) && !world(old(cursor)).late && !world(old(cursor) + 1).late ==>
                ok && Idle() && trace == old(trace) && cursor == old(cursor) + 2
    {
      ok := Flush();
      if ok {
        ok := RunJobs();
      }
    }

    /**
      `drive_to_completion`: every repeated iteration is paid for by a call, so
      the loop ends within `maxCalls + 1` iterations and its own cap is never
      the reason it ends. `quiet` is the trace when nothing was queued any more
      and the promise was looked at; the serializer that then turns the result
      into JSON is script code too, and its calls are counted but never run.
    */
    method Drive() returns (r: Outcome, iterations: nat, ghost quiet: seq<Step>)
      requires Valid()
      modifies this
      ensures Valid() && old(trace) <= trace
      ensures iterations <= cfg.maxCalls + 1
      ensures cfg.maxCalls < MAX_DRIVE_ITERS ==> r != DriveBudgetExceeded
      ensures LedgerOk(cfg, Run(cfg, trace))
      ensures (r.Hung? ==> Hangs()) && (r.Threw? ==> Stopped() || Rejects())
      ensures r.Settled? ==> quiet <= trace && Run(cfg, quiet).pending == [] && pending == Since(cfg, quiet, trace)
      ensures old(WillSettle()) ==> r.Settled? && trace == old(trace) + Natives(world(old(cursor) + 3).steps)
    {
      r, iterations := Rounds();
      quiet := trace;
      if r.Settled? {
        r := Finish();
      }
      LedgerHolds(cfg, trace);
    }

    lemma WithinBudget()
      requires Valid()
      ensures callsMade <= cfg.maxCalls
    {
      LedgerHolds(cfg, trace);
    }

    /** The loop of `drive_to_completion` up to the look at the promise. */
    method Rounds() returns (r: Outcome, iterations: nat)
      requires Valid()
      modifies this
      ensures Valid() && old(trace) <= trace && iterations <= cfg.maxCalls + 1 && !r.Hung?
      ensures r.Threw? ==> Stopped()
      ensures r.Settled? ==> pending == []
      ensures cfg.maxCalls < MAX_DRIVE_ITERS ==> r != DriveBudgetExceeded
      ensures old(WillSettle()) ==> r.Settled? && trace == old(trace) && cursor == old(cursor) + 2
    {
      iterations := 0;
      WithinBudget();
      while iterations < MAX_DRIVE_ITERS
        invariant Valid() && old(trace) <= trace
        invariant iterations <= callsMade <= cfg.maxCalls
        invariant iterations == 0 ==> trace == old(trace) && cursor == old(cursor) && Idle() == old(Idle())
        invariant old(WillSettle()) ==> iterations == 0
        decreases MAX_DRIVE_ITERS - iterations
      {
        iterations := iterations + 1;
        var ok := Round();
        WithinBudget();
        if !ok {
          return Threw, iterations;
        }
        if pending == [] {
          return Settled, iterations;
        }
      }
      r := DriveBudgetExceeded;
    }

    /** A script with nothing left to do but hand over its result. */
    predicate WillSettle()
      reads this
    {
      && Idle() && !world(cursor).late && !world(cursor + 1).late
      && world(cursor + 2).promise.Fulfilled? && !world(cursor + 3).throws
    }

    /**
      The end of `drive_to_completion`: a pending promise is an error, a
      rejection is printed and a result serialized by the script's own code.
      What is queued afterwards is exactly what that code queued.
    */
    method Finish() returns (r: Outcome)
      requires Valid() && pending == []
      modifies this
      ensures Valid() && !r.DriveBudgetExceeded? && old(trace) <= trace
      ensures world(old(cursor)).promise.Pending? ==> r == Hung && trace == old(trace)
      ensures !world(old(cursor)).promise.Pending? ==> trace == old(trace) + Natives(world(old(cursor) + 1).steps)
      ensures r.Settled? <==> world(old(cursor)).promise.Fulfilled? && !world(old(cursor) + 1).throws
      ensures r.Hung? <==> world(old(cursor)).promise.Pending?
      ensures (r.Hung? ==> Hangs()) && (r.Threw? ==> Stopped() || Rejects())
      ensures pending == Since(cfg, old(trace), trace)
    {
      var promise := world(cursor).promise;
      cursor := cursor + 1;
      if promise.Pending? {
        return Hung;
      }
      ghost var more := NativesQueue(cfg, trace, world(cursor).steps);
      var threw := Callback();
      return if threw || promise.Rejected? then Threw else Settled;
    }
  }

  lemma OneAsync(cfg: Config, c: Call)
    requires cfg.maxCalls >= 1
    ensures var s := CallAsync(c, false);
            Natives([s]) == [s] && Run(cfg, [s]) == FRESH_HOST.(callsMade := 1, pending := [c], issued := [c])
  {
    var s := CallAsync(c, false);
    assert [s][..0] == [];
    assert Run(cfg, [s]) == Next(cfg, FRESH_HOST, s);
  }

  /** A script whose result has a `toJSON` that calls a tool: it settles with that call counted, queued and never run. */
  method QueueLeftBehind(host: (nat, Call) -> Value, panics: (nat, Call) -> bool, maxCalls: nat, c: Call)
    returns (s: ScriptHost, r: Outcome)
    requires maxCalls >= 1
    ensures r.Settled? && s.pending == [c] && s.callsMade == 1 && s.executed == []
  {
    var world := (n: nat) => Turn(if n == 3 then [CallAsync(c, false)] else [], [], false, false, Fulfilled);
    s := new ScriptHost(maxCalls, 1, 1, host, panics, world);
    OneAsync(s.cfg, c);
    ghost var none := s.trace;
    var n;
    ghost var quiet;
    r, n, quiet := s.Drive();
    assert none + [CallAsync(c, false)] == [CallAsync(c, false)];
  }
}
