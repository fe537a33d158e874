/**
  What a script's calls cost, told from the calls themselves: which of its
  steps are accepted, and that the host's counters and ledger are exactly
  those steps.
*/
module CallBudget {
  import opened Basics
  import opened HostScheduler

  /** The script asks, in time, for something that costs a call. */
  predicate Wants(s: Step)
  {
    match s
    case CallSync(_, late) => !late
    case CallAsync(_, late) => !late
    case FetchResult(available, cursor, late) => available && cursor && !late
    case Batch => false
  }

  function Wanting(steps: seq<Step>): seq<Step>
  {
    if steps == [] then []
    else Wanting(steps[..|steps| - 1]) + if Wants(steps[|steps| - 1]) then [steps[|steps| - 1]] else []
  }

  /** First come, first served: as many of them as the budget allows. */
  function Accepted(cfg: Config, steps: seq<Step>): seq<Step>
  {
    Wanting(steps)[..Min(cfg.maxCalls, |Wanting(steps)|)]
  }

  function SyncCalls(steps: seq<Step>): seq<Call>
  {
    if steps == [] then []
    else
      var last := steps[|steps| - 1];
      SyncCalls(steps[..|steps| - 1]) + if last.CallSync? then [last.call] else []
  }

  function AsyncCalls(steps: seq<Step>): seq<Call>
  {
    if steps == [] then []
    else
      var last := steps[|steps| - 1];
      AsyncCalls(steps[..|steps| - 1]) + if last.CallAsync? then [last.call] else []
  }

  function FetchCount(steps: seq<Step>): nat
  {
    if steps == [] then 0
    else FetchCount(steps[..|steps| - 1]) + if steps[|steps| - 1].FetchResult? then 1 else 0
  }

  /** The calls of the ledger entries that came from the synchronous binding. */
  function Syncs(origins: seq<Origin>): seq<Call>
  {
    if origins == [] then []
    else
      var last := origins[|origins| - 1];
      Syncs(origins[..|origins| - 1]) + if last.Sync? then [last.call] else []
  }

  lemma {:induction false} BatchKeepsSyncs(origins: seq<Origin>, batch: seq<Call>)
    ensures Syncs(origins + AsAsync(batch)) == Syncs(origins)
  {
    if batch == [] {
      assert origins + AsAsync(batch) == origins;
    } else {
      var all := origins + AsAsync(batch);
      assert all[..|all| - 1] == origins + AsAsync(batch[..|batch| - 1]);
      BatchKeepsSyncs(origins, batch[..|batch| - 1]);
    }
  }

  /** The next step is accepted if and only if it wants a call and fewer than the budget were accepted before it. */
  lemma AcceptedSnoc(cfg: Config, steps: seq<Step>, s: Step)
    ensures Accepted(cfg, steps + [s]) ==
              Accepted(cfg, steps) + if Wants(s) && |Accepted(cfg, steps)| < cfg.maxCalls then [s] else []
  {
    assert (steps + [s])[..|steps|] == steps;
    var w := Wanting(steps);
    if Wants(s) {
      assert Wanting(steps + [s]) == w + [s];
      if |w| < cfg.maxCalls {
        assert (w + [s])[..|w| + 1] == w + [s] && w[..|w|] == w;
      } else {
        assert (w + [s])[..cfg.maxCalls] == w[..cfg.maxCalls];
      }
    } else {
      assert Wanting(steps + [s]) == w;
    }
  }

  /** Each counter of the host, told from the accepted steps alone. */
  ghost predicate Tells(h: Host, accepted: seq<Step>)
  {
    && h.callsMade == |accepted|
    && h.fetches == FetchCount(accepted)
    && h.issued == AsyncCalls(accepted)
    && Syncs(h.origins) == SyncCalls(accepted)
  }

  lemma StepTells(cfg: Config, h: Host, accepted: seq<Step>, s: Step)
    requires Tells(h, accepted)
    ensures Tells(Next(cfg, h, s), accepted + if Wants(s) && |accepted| < cfg.maxCalls then [s] else [])
  {
    assert (accepted + [s])[..|accepted|] == accepted && accepted + [] == accepted;
    match s
    case CallSync(c, _) => assert (h.origins + [Sync(c)])[..|h.origins|] == h.origins;
    case CallAsync(_, _) =>
    case FetchResult(_, _, _) =>
    case Batch => BatchKeepsSyncs(h.origins, BatchOf(cfg, h.pending));
  }

  /**
    What every run costs: the calls made are the smaller of the budget and the
    number of steps that ask for one in time; and the fetches, the synchronous
    calls and the issued asynchronous calls are the accepted steps of each
    kind, in the order the script made them.
  */
  lemma {:induction false} RunIsAccepted(cfg: Config, steps: seq<Step>)
    ensures Tells(Run(cfg, steps), Accepted(cfg, steps))
    ensures Run(cfg, steps).callsMade == Min(cfg.maxCalls, |Wanting(steps)|)
  {
    if steps != [] {
      var init, last := steps[..|steps| - 1], steps[|steps| - 1];
      RunIsAccepted(cfg, init);
      StepTells(cfg, Run(cfg, init), Accepted(cfg, init), last);
      assert steps == init + [last];
      AcceptedSnoc(cfg, init, last);
    }
  }

  /** The record of the i-th call of a batch: the host's answer, or a panic that only a batch of two or more survives. */
  lemma BatchRecords(cfg: Config, start: nat, batch: seq<Call>, i: nat)
    requires i < |batch|
    ensures Records(cfg, start, batch)[i] ==
              if |batch| >= 2 && cfg.panics(start + i, batch[i])
              then CallRecord(start + i, batch[i].name, false, PANICKED.bytes)
              else CallRecord(start + i, batch[i].name, cfg.host(start + i, batch[i]).ok, cfg.host(start + i, batch[i]).bytes)
  {
  }

  /** Once nothing is queued, the ledger holds one record for every accepted call, the asynchronous ones in the order the script made them. */
  lemma QuietLedgerIsAccepted(cfg: Config, steps: seq<Step>)
    requires Run(cfg, steps).pending == []
    ensures var h, a := Run(cfg, steps), Accepted(cfg, steps);
            && |h.executed| == |h.origins| == |SyncCalls(a)| + |AsyncCalls(a)| == |a| - FetchCount(a)
            && Asyncs(h.origins) == AsyncCalls(a) && Syncs(h.origins) == SyncCalls(a)
  {
    var h, a := Run(cfg, steps), Accepted(cfg, steps);
    RunIsAccepted(cfg, steps);
    assert h.callsMade == |h.executed| + h.fetches && |h.origins| == |h.executed| && Asyncs(h.origins) == h.issued by {
      LedgerHolds(cfg, steps);
      assert Asyncs(h.origins) + [] == Asyncs(h.origins);
    }
    assert Batch !in a by {
      WantingIsNative(steps);
    }
    KindsAdd(a);
  }

  lemma {:induction false} WantingIsNative(steps: seq<Step>)
    ensures Batch !in Wanting(steps)
  {
    if steps != [] {
      WantingIsNative(steps[..|steps| - 1]);
    }
  }

  lemma {:induction false} KindsAdd(steps: seq<Step>)
    requires Batch !in steps
    ensures |SyncCalls(steps)| + |AsyncCalls(steps)| + FetchCount(steps) == |steps|
  {
    if steps != [] {
      KindsAdd(steps[..|steps| - 1]);
      assert steps[|steps| - 1] in steps;
    }
  }
}
