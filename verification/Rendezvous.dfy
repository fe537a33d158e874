/**
  Host-daemon rendezvous: any number of adapters call `ensure` on one data
  directory while daemons start, publish, exit and die and sweeps remove dead
  descriptors. Every file read, probe attempt, lock, clear, spawn and publish
  is a separate event, so a run is any interleaving of them.
*/
module Rendezvous {
  import opened Basics

  /******* Descriptors and probes *******/

  /** `claims` is `claims_compat` for the one compatibility domain modelled. */
  datatype Descriptor = Descriptor(token: nat, endpoint: nat, pid: nat, claims: bool)

  datatype PointerFile = Absent | Corrupt | Holds(descriptor: Descriptor)

  function ReadDescriptor(f: PointerFile): Option<Descriptor>
  {
    if f.Holds? then Some(f.descriptor) else None
  }

  function ReadClaiming(f: PointerFile): Option<Descriptor>
  {
    if f.Holds? && f.descriptor.claims then Some(f.descriptor) else None
  }

  /** One authenticated identity request, as `identity_probe_with_deadlines` classifies it. */
  datatype Attempt = Matches(pid: nat) | Mismatches | Answered | Unreachable | NoReply

  datatype Probe = Live(descriptor: Descriptor) | Gone | Silent(descriptor: Descriptor)

  /** What `probe_with_budget` concludes; `None` while it still owes an attempt. */
  function Verdict(d: Descriptor, attempts: seq<Attempt>): Option<Probe>
  {
    if attempts == [] then None
    else
      match attempts[0]
      case Matches(pid) => Some(Live(d.(pid := pid)))
      case Mismatches => Some(Gone)
      case Answered => Some(Gone)
      case NoReply => Some(Silent(d))
      case Unreachable =>
        if |attempts| == 1 then None
        else
          match attempts[1]
          case Matches(pid) => Some(Live(d.(pid := pid)))
          case NoReply => Some(Silent(d))
          case _ => Some(Gone)
  }

  /** Negative evidence: an answer that is no compatible identity, or two refusals. */
  predicate ProvesGone(attempts: seq<Attempt>)
  {
    && 1 <= |attempts| <= 2
    && (forall a <- attempts :: a.Mismatches? || a.Answered? || a.Unreachable?)
    && attempts != [Unreachable]
    && (|attempts| == 2 ==> attempts[0] == Unreachable)
  }

  /** An attempt is made only while the earlier ones leave the verdict open. */
  predicate Minimal(d: Descriptor, attempts: seq<Attempt>)
  {
    attempts != [] && Verdict(d, attempts[..|attempts| - 1]).None?
  }

  /** No attempt list with a silence in it, and no single refusal, yields `Gone`. */
  lemma GoneIffProven(d: Descriptor, attempts: seq<Attempt>)
    requires Minimal(d, attempts)
    ensures Verdict(d, attempts) == Some(Gone) <==> ProvesGone(attempts)
  {
    var before := attempts[..|attempts| - 1];
    assert Verdict(d, before).None? ==> before == [] || before[0] == attempts[0] == Unreachable;
    if before != [] {
      assert |before| == 1;
      assert attempts == [attempts[0], attempts[1]];
    } else {
      assert attempts == [attempts[0]];
    }
  }

  /******* Contenders, daemons, sweepers *******/

  /** Where in `ensure_known_inner` a probe is taken. */
  datatype Site = FirstLook | AfterChange | UnderElection | AfterSilence | Readiness

  datatype Outcome = Ok(descriptor: Descriptor) | Unresponsive(descriptor: Descriptor) | Failed

  datatype Pc =
    | Observe
    | Look(site: Site)
    | Attempting(site: Site, descriptor: Descriptor, attempts: seq<Attempt>)
    | WaitElection
    | Compare
    | Clear
    | Spawn
    | Done(outcome: Outcome)

  /** What the probe taken under the current election lock has shown so far. */
  datatype Evidence = NoEvidence | NoPointer | Attempts(of: Descriptor, attempts: seq<Attempt>)

  datatype Contender = Contender(pc: Pc, round: nat, observed: Option<Descriptor>, evidence: Evidence, spawns: nat)

  datatype Phase = Starting | Serving | Exiting | Dead

  /** `withdrawn`: the idle watchdog has taken the pointer away and not decided yet. */
  datatype Daemon = Daemon(descriptor: Descriptor, phase: Phase, withdrawn: bool)

  datatype Sweeper = Idle | Seen(descriptor: Descriptor) | SawDead(descriptor: Descriptor)

  datatype System = System(
    file: PointerFile,
    election: Option<nat>,
    contenders: map<nat, Contender>,
    daemons: map<nat, Daemon>,
    sweepers: map<nat, Sweeper>,
    spawned: seq<nat>)

  predicate HoldsElection(pc: Pc)
  {
    match pc
    case Compare => true
    case Clear => true
    case Spawn => true
    case Look(site) => site.UnderElection? || site.Readiness?
    case Attempting(site, _, _) => site.UnderElection? || site.Readiness?
    case _ => false
  }

  predicate ProvenStale(e: Evidence)
  {
    e.NoPointer? || (e.Attempts? && ProvesGone(e.attempts))
  }

  predicate Serves(s: System, token: nat)
  {
    token in s.daemons && s.daemons[token].phase.Serving?
  }

  /** The process has published and lives; its watchdog thread runs. */
  predicate Advertised(s: System, token: nat)
  {
    token in s.daemons && (s.daemons[token].phase.Serving? || s.daemons[token].phase.Exiting?)
  }

  /** Only the process holding the token can pass the authenticated handshake. */
  predicate MayReply(s: System, d: Descriptor, a: Attempt)
  {
    a.Matches? ==> Serves(s, d.token) && a.pid == s.daemons[d.token].descriptor.pid
  }

  /******* Events *******/

  datatype Event =
    | Join(c: nat)
    | ReadBefore(c: nat)
    | ReadPointer(c: nat)
    | Try(c: nat, a: Attempt, patient: bool)
    | TakeElection(c: nat)
    | CompareUnderLock(c: nat)
    | ClearPointer(c: nat, locked: bool)
    | SpawnDaemon(c: nat, descriptor: Descriptor)
    | Abandon(c: nat)
    | Publish(t: nat)
    | StopServing(t: nat)
    | Withdraw(t: nat, locked: bool)
    | Readvertise(t: nat, locked: bool)
    | ExitClear(t: nat, locked: bool)
    | ExitClearAny(t: nat, locked: bool)
    | Die(t: nat)
    | SweepRead(w: nat)
    | SweepSeesDead(w: nat)
    | SweepRemove(w: nat)
    | SweepSkip(w: nat)

  predicate At(s: System, c: nat)
  {
    c in s.contenders
  }

  predicate Enabled(s: System, e: Event)
  {
    match e
    case Join(c) => c !in s.contenders
    case ReadBefore(c) => At(s, c) && s.contenders[c].pc.Observe?
    case ReadPointer(c) => At(s, c) && s.contenders[c].pc.Look?
    case Try(c, a, _) =>
      At(s, c) && s.contenders[c].pc.Attempting? && MayReply(s, s.contenders[c].pc.descriptor, a)
    case TakeElection(c) => At(s, c) && s.contenders[c].pc.WaitElection? && s.election.None?
    case CompareUnderLock(c) => At(s, c) && s.contenders[c].pc.Compare?
    case ClearPointer(c, _) => At(s, c) && s.contenders[c].pc.Clear?
    case SpawnDaemon(c, d) => At(s, c) && s.contenders[c].pc.Spawn? && d.token !in s.daemons && d.claims
    case Abandon(c) => At(s, c) && !s.contenders[c].pc.Done?
    case Publish(t) => t in s.daemons && s.daemons[t].phase.Starting?
    case StopServing(t) => Serves(s, t)
    case Withdraw(t, _) => Advertised(s, t) && !s.daemons[t].withdrawn
    case Readvertise(t, _) => Advertised(s, t) && s.daemons[t].withdrawn
    case ExitClear(t, _) => t in s.daemons && s.daemons[t].phase.Exiting?
    case ExitClearAny(t, _) => t in s.daemons && s.daemons[t].phase.Exiting?
    case Die(t) => t in s.daemons && !s.daemons[t].phase.Dead?
    case SweepRead(w) => (w in s.sweepers ==> s.sweepers[w].Idle?) && s.file.Holds?
    case SweepSeesDead(w) =>
      && w in s.sweepers && s.sweepers[w].Seen?
      // `process_exists` is false only when no live process has the pid.
      && forall t <- s.daemons :: s.daemons[t].descriptor.pid == s.sweepers[w].descriptor.pid ==> s.daemons[t].phase.Dead?
    case SweepRemove(w) => w in s.sweepers && s.sweepers[w].SawDead?
    case SweepSkip(w) => w in s.sweepers
  }

  /** Continue contender `c` as `k`; the election guard drops when its scope is left. */
  function Move(s: System, c: nat, k: Contender): System
  {
    s.(contenders := s.contenders[c := k],
       election := if s.election == Some(c) && !HoldsElection(k.pc) then None else s.election)
  }

  function NextRound(k: Contender): Contender
  {
    if k.round == 0 then k.(pc := Observe, round := 1) else k.(pc := Done(Failed))
  }

  function AfterProbe(k: Contender, site: Site, p: Probe, patient: bool): Contender
  {
    match p
    case Live(d) => k.(pc := Done(Ok(d)))
    case Silent(d) => (
      match site
      case UnderElection => k.(pc := Look(AfterSilence))
      case Readiness => k.(pc := Look(Readiness))
      case _ => k.(pc := if patient then Look(site) else Done(Unresponsive(d))))
    case Gone => (
      match site
      case FirstLook => k.(pc := WaitElection)
      case UnderElection => k.(pc := Clear)
      case Readiness => k.(pc := Look(Readiness))
      case _ => NextRound(k))
  }

  function Note(k: Contender, site: Site, e: Evidence): Contender
  {
    if site.UnderElection? then k.(evidence := e) else k
  }

  function StepRead(s: System, k: Contender): Contender
    requires k.pc.Look?
  {
    var site := k.pc.site;
    match ReadClaiming(s.file)
    case None => AfterProbe(Note(k, site, NoPointer), site, Gone, false)
    case Some(d) => k.(pc := Attempting(site, d, []))
  }

  function StepTry(k: Contender, a: Attempt, patient: bool): Contender
    requires k.pc.Attempting?
  {
    var attempts := k.pc.attempts + [a];
    match Verdict(k.pc.descriptor, attempts)
    case None => k.(pc := Attempting(k.pc.site, k.pc.descriptor, attempts))
    case Some(p) => AfterProbe(Note(k, k.pc.site, Attempts(k.pc.descriptor, attempts)), k.pc.site, p, patient)
  }

  function StepCompare(s: System, k: Contender): Contender
  {
    var current := ReadClaiming(s.file);
    k.(pc := Look(if current.Some? && current != k.observed then AfterChange else UnderElection))
  }

  function SetPhase(s: System, t: nat, p: Phase): System
    requires t in s.daemons
  {
    s.(daemons := s.daemons[t := s.daemons[t].(phase := p)])
  }

  function SetWithdrawn(s: System, t: nat, w: bool): System
    requires t in s.daemons
  {
    s.(daemons := s.daemons[t := s.daemons[t].(withdrawn := w)])
  }

  function Apply(s: System, e: Event): System
    requires Enabled(s, e)
  {
    match e
    case Join(c) => s.(contenders := s.contenders[c := Contender(Observe, 0, None, NoEvidence, 0)])
    case ReadBefore(c) =>
      Move(s, c, s.contenders[c].(pc := Look(FirstLook), observed := ReadClaiming(s.file)))
    case ReadPointer(c) => Move(s, c, StepRead(s, s.contenders[c]))
    case Try(c, a, patient) => Move(s, c, StepTry(s.contenders[c], a, patient))
    case TakeElection(c) =>
      s.(contenders := s.contenders[c := s.contenders[c].(pc := Compare, evidence := NoEvidence)],
         election := Some(c))
    case CompareUnderLock(c) => Move(s, c, StepCompare(s, s.contenders[c]))
    case ClearPointer(c, locked) =>
      Move(s, c, s.contenders[c].(pc := Spawn)).(file := if locked then Absent else s.file)
    case SpawnDaemon(c, d) =>
      var k := s.contenders[c].(pc := Look(Readiness), spawns := s.contenders[c].spawns + 1);
      Move(s, c, k).(daemons := s.daemons[d.token := Daemon(d, Starting, false)], spawned := s.spawned + [d.token])
    case Abandon(c) => Move(s, c, s.contenders[c].(pc := Done(Failed)))
    case Publish(t) => SetPhase(s, t, Serving).(file := Holds(s.daemons[t].descriptor))
    case StopServing(t) => SetPhase(s, t, Exiting)
    // The idle watchdog and the exit of the shipped daemon clear without comparing.
    case Withdraw(t, locked) => SetWithdrawn(s, t, true).(file := if locked then Absent else s.file)
    case Readvertise(t, locked) =>
      SetWithdrawn(s, t, false).(file := if locked then Holds(s.daemons[t].descriptor) else s.file)
    case ExitClear(t, locked) =>
      SetPhase(s, t, Dead).(file := if locked && OwnPointer(s, t) then Absent else s.file)
    case ExitClearAny(t, locked) => SetPhase(s, t, Dead).(file := if locked then Absent else s.file)
    case Die(t) => SetPhase(s, t, Dead)
    case SweepRead(w) => s.(sweepers := s.sweepers[w := Seen(s.file.descriptor)])
    case SweepSeesDead(w) => s.(sweepers := s.sweepers[w := SawDead(s.sweepers[w].descriptor)])
    case SweepRemove(w) =>
      s.(sweepers := s.sweepers[w := Idle],
         file := if ReadDescriptor(s.file) == Some(s.sweepers[w].descriptor) then Absent else s.file)
    case SweepSkip(w) => s.(sweepers := s.sweepers[w := Idle])
  }

  /** The exit path compares the token and the endpoint, not the whole descriptor. */
  predicate OwnPointer(s: System, t: nat)
    requires t in s.daemons
  {
    && s.file.Holds?
    && s.file.descriptor.token == s.daemons[t].descriptor.token
    && s.file.descriptor.endpoint == s.daemons[t].descriptor.endpoint
  }

  /******* Runs *******/

  /** The pointer is absent, corrupt, or left by a daemon that is gone; nobody has started. */
  predicate Initial(s: System)
  {
    && s.election.None? && s.contenders == map[] && s.sweepers == map[] && s.spawned == []
    && (forall t <- s.daemons :: s.daemons[t].descriptor.token == t && s.daemons[t].phase.Dead?)
    && (s.file.Holds? ==> Known(s, s.file.descriptor))
  }

  predicate Playable(s: System, es: seq<Event>)
    decreases |es|, 0
  {
    es == [] || (Playable(s, es[..|es| - 1]) && Enabled(Play(s, es[..|es| - 1]), es[|es| - 1]))
  }

  function Play(s: System, es: seq<Event>): System
    requires Playable(s, es)
    decreases |es|, 1
  {
    if es == [] then s else Apply(Play(s, es[..|es| - 1]), es[|es| - 1])
  }

  predicate Known(s: System, d: Descriptor)
  {
    d.token in s.daemons && s.daemons[d.token].descriptor == d
  }

  /******* What every step keeps *******/

  predicate ContenderOk(s: System, c: nat, k: Contender)
  {
    && (HoldsElection(k.pc) <==> s.election == Some(c))
    && k.round < 2
    && k.spawns <= 1
    && (k.spawns == 1 ==>
          k.pc.Done? || (k.pc.Look? && k.pc.site.Readiness?) || (k.pc.Attempting? && k.pc.site.Readiness?))
    && (k.pc.Attempting? ==> Known(s, k.pc.descriptor) && (k.pc.attempts == [] || k.pc.attempts == [Unreachable]))
    && (k.pc.Clear? || k.pc.Spawn? ==> ProvenStale(k.evidence))
    && (k.pc.Done? && k.pc.outcome.Ok? ==> Known(s, k.pc.outcome.descriptor))
  }

  predicate SweeperOk(s: System, w: Sweeper)
  {
    match w
    case Idle => true
    case Seen(d) => Known(s, d)
    case SawDead(d) => Known(s, d) && s.daemons[d.token].phase.Dead?
  }

  /** A pointer names a daemon that has published it. */
  predicate FileOk(s: System)
  {
    s.file.Holds? ==> Known(s, s.file.descriptor) && !s.daemons[s.file.descriptor.token].phase.Starting?
  }

  predicate DaemonOk(t: nat, d: Daemon)
  {
    d.descriptor.token == t && (!d.phase.Dead? ==> d.descriptor.claims)
  }

  ghost predicate Inv(s: System)
  {
    && FileOk(s)
    && (forall t <- s.daemons :: DaemonOk(t, s.daemons[t]))
    && (s.election.Some? ==> s.election.value in s.contenders)
    && (forall c <- s.contenders :: ContenderOk(s, c, s.contenders[c]))
    && (forall w <- s.sweepers :: SweeperOk(s, s.sweepers[w]))
  }

  lemma VerdictCases(d: Descriptor, attempts: seq<Attempt>, a: Attempt)
    requires attempts == [] || attempts == [Unreachable]
    ensures Verdict(d, attempts + [a]).None? ==> attempts == [] && a == Unreachable
    ensures Verdict(d, attempts + [a]) == Some(Gone) ==> ProvesGone(attempts + [a])
    ensures a.NoReply? ==> Verdict(d, attempts + [a]) == Some(Silent(d))
    ensures a.Matches? ==> Verdict(d, attempts + [a]) == Some(Live(d.(pid := a.pid)))
    ensures Verdict(d, attempts + [a]).Some? && Verdict(d, attempts + [a]).value.Live? ==> a.Matches?
  {
    var all := attempts + [a];
    assert all[..|all| - 1] == attempts;
    GoneIffProven(d, all);
    assert attempts == [] ==> all == [a];
    assert attempts != [] ==> all == [Unreachable, a];
  }

  /** Moving one contender keeps the invariant when its own clause holds afterwards. */
  lemma MoveKeepsInv(s: System, c: nat, k: Contender)
    requires Inv(s) && c in s.contenders
    requires HoldsElection(k.pc) ==> HoldsElection(s.contenders[c].pc)
    requires ContenderOk(Move(s, c, k), c, k)
    ensures Inv(Move(s, c, k))
  {
    var s' := Move(s, c, k);
    assert ContenderOk(s, c, s.contenders[c]);
    forall o <- s'.contenders ensures ContenderOk(s', o, s'.contenders[o]) {
      if o != c {
        assert ContenderOk(s, o, s.contenders[o]);
      }
    }
    forall w <- s'.sweepers ensures SweeperOk(s', s'.sweepers[w]) {
      assert SweeperOk(s, s.sweepers[w]);
    }
  }

  /** Daemons may be added, and their phases may change, but nothing comes back to life. */
  predicate Grows(s: System, s': System)
  {
    forall t <- s.daemons ::
      && t in s'.daemons && s'.daemons[t].descriptor == s.daemons[t].descriptor
      && (s.daemons[t].phase.Dead? ==> s'.daemons[t].phase.Dead?)
  }

  lemma GrowthKeepsInv(s: System, s': System)
    requires Inv(s) && Grows(s, s')
    requires s'.contenders == s.contenders && s'.election == s.election && s'.sweepers == s.sweepers
    requires forall t <- s'.daemons :: DaemonOk(t, s'.daemons[t])
    requires FileOk(s')
    ensures Inv(s')
  {
    forall c <- s'.contenders ensures ContenderOk(s', c, s'.contenders[c]) {
      assert ContenderOk(s, c, s.contenders[c]);
    }
    forall w <- s'.sweepers ensures SweeperOk(s', s'.sweepers[w]) {
      assert SweeperOk(s, s.sweepers[w]);
    }
  }

  lemma SweepKeepsInv(s: System, w: nat, sw: Sweeper, file: PointerFile)
    requires Inv(s) && SweeperOk(s, sw) && (file == s.file || file == Absent)
    ensures Inv(s.(sweepers := s.sweepers[w := sw], file := file))
  {
    var s' := s.(sweepers := s.sweepers[w := sw], file := file);
    forall c <- s'.contenders ensures ContenderOk(s', c, s'.contenders[c]) {
      assert ContenderOk(s, c, s.contenders[c]);
    }
    forall v <- s'.sweepers ensures SweeperOk(s', s'.sweepers[v]) {
      if v != w {
        assert SweeperOk(s, s.sweepers[v]);
      }
    }
  }

  lemma TryKeepsOk(s: System, c: nat, e: Event)
    requires Inv(s) && Enabled(s, e) && e.Try? && e.c == c
    ensures var k' := StepTry(s.contenders[c], e.a, e.patient);
            && ContenderOk(Move(s, c, k'), c, k') && (HoldsElection(k'.pc) ==> HoldsElection(s.contenders[c].pc))
  {
    var k := s.contenders[c];
    assert ContenderOk(s, c, k);
    VerdictCases(k.pc.descriptor, k.pc.attempts, e.a);
    match Verdict(k.pc.descriptor, k.pc.attempts + [e.a])
    case None =>
    case Some(Live(d)) => assert d == k.pc.descriptor;
    case Some(Gone) =>
    case Some(Silent(_)) =>
  }

  lemma ProbeKeepsInv(s: System, c: nat, e: Event)
    requires Inv(s) && Enabled(s, e)
    requires e == ReadPointer(c) || (e.Try? && e.c == c)
    ensures Inv(Apply(s, e))
  {
    var k := s.contenders[c];
    assert ContenderOk(s, c, k);
    if e.Try? {
      TryKeepsOk(s, c, e);
      MoveKeepsInv(s, c, StepTry(k, e.a, e.patient));
    } else {
      MoveKeepsInv(s, c, StepRead(s, k));
    }
  }

  lemma ElectionKeepsInv(s: System, c: nat)
    requires Inv(s) && (Enabled(s, Join(c)) || Enabled(s, TakeElection(c)))
    ensures Enabled(s, Join(c)) ==> Inv(Apply(s, Join(c)))
    ensures Enabled(s, TakeElection(c)) ==> Inv(Apply(s, TakeElection(c)))
  {
    var s' := if Enabled(s, Join(c)) then Apply(s, Join(c)) else Apply(s, TakeElection(c));
    forall o <- s'.contenders ensures ContenderOk(s', o, s'.contenders[o]) {
      if o in s.contenders {
        assert ContenderOk(s, o, s.contenders[o]);
      }
    }
    forall w <- s'.sweepers ensures SweeperOk(s', s'.sweepers[w]) {
      assert SweeperOk(s, s.sweepers[w]);
    }
  }

  lemma WinnerKeepsInv(s: System, c: nat, e: Event)
    requires Inv(s) && Enabled(s, e)
    requires (e.ClearPointer? || e.SpawnDaemon?) && e.c == c
    ensures Inv(Apply(s, e))
  {
    assert ContenderOk(s, c, s.contenders[c]);
    if e.ClearPointer? {
      var m := Move(s, c, s.contenders[c].(pc := Spawn));
      MoveKeepsInv(s, c, s.contenders[c].(pc := Spawn));
      GrowthKeepsInv(m, Apply(s, e));
    } else {
      var k := s.contenders[c].(pc := Look(Readiness), spawns := s.contenders[c].spawns + 1);
      MoveKeepsInv(s, c, k);
      GrowthKeepsInv(Move(s, c, k), Apply(s, e));
    }
  }

  /** `e` is a step of contender `c`. */
  predicate StepOf(e: Event, c: nat)
  {
    (e.Join? || e.ReadBefore? || e.ReadPointer? || e.Try? || e.TakeElection? || e.CompareUnderLock? || e.ClearPointer?
     || e.SpawnDaemon? || e.Abandon?) && e.c == c
  }

  lemma ContenderKeepsInv(s: System, c: nat, e: Event)
    requires Inv(s) && Enabled(s, e) && StepOf(e, c)
    ensures Inv(Apply(s, e))
  {
    assert c in s.contenders ==> ContenderOk(s, c, s.contenders[c]);
    match e
    case Join(_) => ElectionKeepsInv(s, c);
    case TakeElection(_) => ElectionKeepsInv(s, c);
    case ReadBefore(_) =>
      MoveKeepsInv(s, c, s.contenders[c].(pc := Look(FirstLook), observed := ReadClaiming(s.file)));
    case ReadPointer(_) => ProbeKeepsInv(s, c, e);
    case Try(_, _, _) => ProbeKeepsInv(s, c, e);
    case CompareUnderLock(_) => MoveKeepsInv(s, c, StepCompare(s, s.contenders[c]));
    case ClearPointer(_, _) => WinnerKeepsInv(s, c, e);
    case SpawnDaemon(_, _) => WinnerKeepsInv(s, c, e);
    case Abandon(_) => MoveKeepsInv(s, c, s.contenders[c].(pc := Done(Failed)));
  }

  predicate DaemonStep(e: Event)
  {
    e.Publish? || e.StopServing? || e.Withdraw? || e.Readvertise? || e.ExitClear? || e.ExitClearAny? || e.Die?
  }

  /** A daemon whose phase moves on, or whose watchdog acts, with the pointer kept, removed or its own. */
  lemma ReplaceDaemon(s: System, t: nat, d: Daemon, f: PointerFile)
    requires Inv(s) && t in s.daemons && d.descriptor == s.daemons[t].descriptor
    requires (s.daemons[t].phase.Dead? ==> d.phase.Dead?) && (d.phase.Starting? ==> s.daemons[t].phase.Starting?)
    requires f == s.file || f == Absent || (f == Holds(d.descriptor) && !d.phase.Starting?)
    ensures var s' := s.(daemons := s.daemons[t := d], file := f);
            Grows(s, s') && (forall u <- s'.daemons :: DaemonOk(u, s'.daemons[u])) && FileOk(s')
  {
    assert DaemonOk(t, s.daemons[t]);
  }

  lemma DaemonStepGrows(s: System, e: Event)
    requires Inv(s) && Enabled(s, e) && DaemonStep(e)
    ensures var s' := Apply(s, e);
            && Grows(s, s') && (forall t <- s'.daemons :: DaemonOk(t, s'.daemons[t])) && FileOk(s')
            && s'.contenders == s.contenders && s'.election == s.election && s'.sweepers == s.sweepers
  {
    ReplaceDaemon(s, e.t, Apply(s, e).daemons[e.t], Apply(s, e).file);
  }

  lemma DaemonKeepsInv(s: System, e: Event)
    requires Inv(s) && Enabled(s, e) && DaemonStep(e)
    ensures Inv(Apply(s, e))
  {
    DaemonStepGrows(s, e);
    GrowthKeepsInv(s, Apply(s, e));
  }

  lemma SweeperKeepsInv(s: System, e: Event)
    requires Inv(s) && Enabled(s, e) && (e.SweepRead? || e.SweepSeesDead? || e.SweepRemove? || e.SweepSkip?)
    ensures Inv(Apply(s, e))
  {
    match e
    case SweepRead(w) => SweepKeepsInv(s, w, Seen(s.file.descriptor), s.file);
    case SweepSeesDead(w) =>
      assert SweeperOk(s, s.sweepers[w]);
      SweepKeepsInv(s, w, SawDead(s.sweepers[w].descriptor), s.file);
    case SweepRemove(w) => SweepKeepsInv(s, w, Idle, Apply(s, e).file);
    case SweepSkip(w) => SweepKeepsInv(s, w, Idle, s.file);
  }

  lemma StepKeepsInv(s: System, e: Event)
    requires Inv(s) && Enabled(s, e)
    ensures Inv(Apply(s, e))
  {
    if DaemonStep(e) {
      DaemonKeepsInv(s, e);
    } else if e.SweepRead? || e.SweepSeesDead? || e.SweepRemove? || e.SweepSkip? {
      SweeperKeepsInv(s, e);
    } else {
      ContenderKeepsInv(s, e.c, e);
    }
  }

  lemma {:induction false} RunKeepsInv(s: System, es: seq<Event>)
    requires Initial(s) && Playable(s, es)
    ensures Inv(Play(s, es))
  {
    if es != [] {
      RunKeepsInv(s, es[..|es| - 1]);
      StepKeepsInv(Play(s, es[..|es| - 1]), es[|es| - 1]);
    }
  }

  /******* Silence is never evidence *******/

  /** Event `e` of contender `c`, taken under the election lock, shows the pointer stale. */
  predicate ShowsGone(s: System, e: Event, c: nat)
  {
    && c in s.contenders && s.election == Some(c)
    && (|| (e == ReadPointer(c) && s.contenders[c].pc == Look(UnderElection) && ReadClaiming(s.file).None?)
        || (e.Try? && e.c == c && s.contenders[c].pc.Attempting? && s.contenders[c].pc.site.UnderElection?
            && ProvesGone(s.contenders[c].pc.attempts + [e.a])))
  }

  /** `c` has held the election lock since before event `j`. */
  ghost predicate HeldSince(s: System, es: seq<Event>, c: nat, j: nat)
    requires Playable(s, es)
  {
    forall i :: j <= i <= |es| ==> HeldAt(s, es[..i], c)
  }

  ghost predicate HeldAt(s: System, es: seq<Event>, c: nat)
  {
    Playable(s, es) && Play(s, es).election == Some(c)
  }

  lemma HeldLasts(s: System, es: seq<Event>, c: nat, j: nat)
    requires es != [] && Playable(s, es) && HeldAt(s, es, c) && j < |es| && HeldSince(s, es[..|es| - 1], c, j)
    ensures HeldSince(s, es, c, j)
  {
    forall i | j <= i <= |es| ensures HeldAt(s, es[..i], c) {
      if i == |es| {
        assert es[..i] == es;
      } else {
        assert es[..|es| - 1][..i] == es[..i];
      }
    }
  }

  /** Some event `j` of the run showed the pointer gone, and `c` has held the election ever since. */
  ghost predicate GoneShownUnderLock(s: System, es: seq<Event>, c: nat, j: nat)
    requires Playable(s, es)
  {
    && j < |es|
    && Playable(s, es[..j]) && ShowsGone(Play(s, es[..j]), es[j], c)
    && HeldSince(s, es, c, j)
  }

  predicate Winning(s: System, c: nat)
  {
    c in s.contenders && (s.contenders[c].pc.Clear? || s.contenders[c].pc.Spawn?)
  }

  lemma OthersStay(s: System, e: Event, c: nat)
    requires Enabled(s, e) && !StepOf(e, c) && c in Apply(s, e).contenders
    ensures c in s.contenders && Apply(s, e).contenders[c] == s.contenders[c]
  {
  }

  lemma TryNeedsProof(s: System, e: Event)
    requires Inv(s) && Enabled(s, e) && e.Try? && Winning(Apply(s, e), e.c)
    ensures ShowsGone(s, e, e.c)
  {
    var k := s.contenders[e.c];
    assert ContenderOk(s, e.c, k);
    VerdictCases(k.pc.descriptor, k.pc.attempts, e.a);
  }

  lemma WinningNeedsProof(s: System, e: Event, c: nat)
    requires Inv(s) && Enabled(s, e) && Winning(Apply(s, e), c)
    ensures Winning(s, c) || ShowsGone(s, e, c)
    ensures s.election == Some(c)
  {
    if !StepOf(e, c) {
      OthersStay(s, e, c);
    } else if e.Try? {
      TryNeedsProof(s, e);
    }
    assert c in s.contenders ==> ContenderOk(s, c, s.contenders[c]);
  }

  lemma WinnerHolds(s: System, es: seq<Event>, c: nat)
    requires Initial(s) && Playable(s, es) && Winning(Play(s, es), c)
    ensures Play(s, es).election == Some(c)
  {
    RunKeepsInv(s, es);
    assert ContenderOk(Play(s, es), c, Play(s, es).contenders[c]);
  }

  lemma PrefixRuns(es: seq<Event>, n: nat)
    requires n <= |es|
    ensures forall m :: 0 <= m <= n ==> es[..n][..m] == es[..m]
  {
  }

  lemma ProofLasts(s: System, es: seq<Event>, c: nat, j: nat)
    requires es != [] && Playable(s, es) && Play(s, es).election == Some(c)
    requires GoneShownUnderLock(s, es[..|es| - 1], c, j)
    ensures GoneShownUnderLock(s, es, c, j)
  {
    assert es[..|es| - 1][..j] == es[..j] && es[..|es| - 1][j] == es[j];
    HeldLasts(s, es, c, j);
  }

  lemma {:induction false} WinnerHasProof(s: System, es: seq<Event>, c: nat) returns (j: nat)
    requires Initial(s) && Playable(s, es) && Winning(Play(s, es), c)
    ensures GoneShownUnderLock(s, es, c, j)
  {
    var n := |es| - 1;
    assert es != [];
    RunKeepsInv(s, es[..n]);
    WinningNeedsProof(Play(s, es[..n]), es[n], c);
    WinnerHolds(s, es, c);
    if Winning(Play(s, es[..n]), c) {
      j := WinnerHasProof(s, es[..n], c);
      ProofLasts(s, es, c, j);
    } else {
      j := n;
      assert es[..|es|] == es;
    }
  }

  /** A call clears the pointer or spawns only as election holder, after a probe under that lock. */
  lemma SilenceIsNeverEvidence(s: System, es: seq<Event>, e: Event)
    requires Initial(s) && Playable(s, es) && Enabled(Play(s, es), e)
    requires e.ClearPointer? || e.SpawnDaemon?
    ensures Play(s, es).election == Some(e.c)
    ensures exists j :: GoneShownUnderLock(s, es, e.c, j)
    ensures Play(s, es).contenders[e.c].spawns == 0
  {
    RunKeepsInv(s, es);
    assert ContenderOk(Play(s, es), e.c, Play(s, es).contenders[e.c]);
    var j := WinnerHasProof(s, es, e.c);
  }

  /** Every call spawns at most once and runs at most two rounds. */
  lemma CallsAreBounded(s: System, es: seq<Event>, c: nat)
    requires Initial(s) && Playable(s, es) && c in Play(s, es).contenders
    ensures Play(s, es).contenders[c].spawns <= 1 && Play(s, es).contenders[c].round < 2
  {
    RunKeepsInv(s, es);
    assert ContenderOk(Play(s, es), c, Play(s, es).contenders[c]);
  }

  /******* How a call ends *******/

  /** Event `e` completes a look of `c`, at any site, that proves the pointer gone. */
  predicate SeesGone(s: System, e: Event, c: nat)
  {
    && c in s.contenders
    && (|| (e == ReadPointer(c) && s.contenders[c].pc.Look? && ReadClaiming(s.file).None?)
        || (e.Try? && e.c == c && s.contenders[c].pc.Attempting? && ProvesGone(s.contenders[c].pc.attempts + [e.a])))
  }

  /** The only step that ends the call of `c` with outcome `o`. */
  predicate EndsWith(s: System, e: Event, c: nat, o: Outcome)
  {
    && c in s.contenders
    && var pc := s.contenders[c].pc;
       match o
       case Ok(d) =>
         e.Try? && e.c == c && pc.Attempting? && e.a.Matches? && d == pc.descriptor.(pid := e.a.pid)
       case Unresponsive(d) =>
         e == Try(c, NoReply, false) && pc.Attempting? && pc.descriptor == d && !HoldsElection(pc)
       case Failed =>
         || e == Abandon(c)
         || (SeesGone(s, e, c) && s.contenders[c].round == 1 && (pc.site.AfterChange? || pc.site.AfterSilence?))
  }

  /** The next stage of `c` after a look that proves the pointer gone. */
  predicate AfterGone(site: Site, round: nat, pc: Pc)
  {
    match site
    case FirstLook => pc == WaitElection
    case UnderElection => pc == Clear
    case Readiness => pc == Look(Readiness)
    case _ => pc == if round == 0 then Observe else Done(Failed)
  }

  /** Contender `k` after attempt `a`, which completes or continues its look. */
  predicate AfterTry(k: Contender, a: Attempt, patient: bool, pc: Pc)
    requires k.pc.Attempting?
  {
    match a
    case Matches(pid) => pc == Done(Ok(k.pc.descriptor.(pid := pid)))
    case NoReply => (
      match k.pc.site
      case UnderElection => pc == Look(AfterSilence)
      case Readiness => pc == Look(Readiness)
      case _ => pc == if patient then Look(k.pc.site) else Done(Unresponsive(k.pc.descriptor)))
    case _ =>
      if ProvesGone(k.pc.attempts + [a]) then AfterGone(k.pc.site, k.round, pc)
      else pc == Attempting(k.pc.site, k.pc.descriptor, [Unreachable])
  }

  lemma TryMoves(k: Contender, a: Attempt, patient: bool)
    requires k.pc.Attempting? && (k.pc.attempts == [] || k.pc.attempts == [Unreachable])
    ensures AfterTry(k, a, patient, StepTry(k, a, patient).pc)
    ensures ProvesGone(k.pc.attempts + [a]) ==> !a.Matches? && !a.NoReply?
  {
    var all := k.pc.attempts + [a];
    assert all[..|all| - 1] == k.pc.attempts && a in all;
    VerdictCases(k.pc.descriptor, k.pc.attempts, a);
    GoneIffProven(k.pc.descriptor, all);
  }

  lemma TryOutcome(s: System, e: Event)
    requires Inv(s) && Enabled(s, e) && e.Try?
    ensures AfterTry(s.contenders[e.c], e.a, e.patient, Apply(s, e).contenders[e.c].pc)
    ensures SeesGone(s, e, e.c) ==> !e.a.Matches? && !e.a.NoReply?
  {
    assert ContenderOk(s, e.c, s.contenders[e.c]);
    TryMoves(s.contenders[e.c], e.a, e.patient);
  }

  lemma TryEndsIff(s: System, e: Event, o: Outcome)
    requires Inv(s) && Enabled(s, e) && e.Try?
    ensures Apply(s, e).contenders[e.c].pc == Done(o) <==> EndsWith(s, e, e.c, o)
  {
    TryOutcome(s, e);
    assert ContenderOk(s, e.c, s.contenders[e.c]);
  }

  lemma ReadEndsIff(s: System, e: Event, o: Outcome)
    requires Inv(s) && Enabled(s, e) && e.ReadPointer?
    ensures Apply(s, e).contenders[e.c].pc == Done(o) <==> EndsWith(s, e, e.c, o)
  {
    assert ContenderOk(s, e.c, s.contenders[e.c]);
  }

  lemma RestEndsIff(s: System, e: Event, c: nat, o: Outcome)
    requires Enabled(s, e) && StepOf(e, c) && !e.Try? && !e.ReadPointer? && c in s.contenders && !s.contenders[c].pc.Done?
    ensures Apply(s, e).contenders[c].pc == Done(o) <==> EndsWith(s, e, c, o)
  {
  }

  lemma StepEndsIff(s: System, e: Event, c: nat, o: Outcome)
    requires Inv(s) && Enabled(s, e) && c in s.contenders && !s.contenders[c].pc.Done?
    ensures c in Apply(s, e).contenders
    ensures Apply(s, e).contenders[c].pc == Done(o) <==> EndsWith(s, e, c, o)
  {
    NobodyLeaves(s, e, c);
    if !StepOf(e, c) {
      OthersStay(s, e, c);
    } else if e.Try? {
      TryEndsIff(s, e, o);
    } else if e.ReadPointer? {
      ReadEndsIff(s, e, o);
    } else {
      RestEndsIff(s, e, c, o);
    }
  }

  lemma NobodyLeaves(s: System, e: Event, c: nat)
    requires Enabled(s, e) && c in s.contenders
    ensures c in Apply(s, e).contenders
  {
  }

  /**
    A call ends `Ok` exactly when the descriptor it probes answers with a
    compatible identity, wherever it looks; it ends `Unresponsive` exactly on
    an impatient silence while it holds no lock; and it fails exactly when it
    is given up or a second round finds the changed pointer gone.
  */
  lemma CallEndsIff(s: System, es: seq<Event>, e: Event, c: nat, o: Outcome)
    requires Initial(s) && Playable(s, es) && Enabled(Play(s, es), e)
    requires c in Play(s, es).contenders && !Play(s, es).contenders[c].pc.Done?
    ensures c in Apply(Play(s, es), e).contenders
    ensures Apply(Play(s, es), e).contenders[c].pc == Done(o) <==> EndsWith(Play(s, es), e, c, o)
  {
    RunKeepsInv(s, es);
    StepEndsIff(Play(s, es), e, c, o);
  }

  /** Every finished call of a run was ended by such a step, and `Ok` names a daemon that served at that moment. */
  lemma {:induction false} HowCallsEnd(s: System, es: seq<Event>, c: nat) returns (j: nat)
    requires Initial(s) && Playable(s, es) && c in Play(s, es).contenders && Play(s, es).contenders[c].pc.Done?
    ensures j < |es| && Playable(s, es[..j])
    ensures EndsWith(Play(s, es[..j]), es[j], c, Play(s, es).contenders[c].pc.outcome)
    ensures Play(s, es).contenders[c].pc.outcome.Ok? ==>
              Serves(Play(s, es[..j]), Play(s, es).contenders[c].pc.outcome.descriptor.token)
  {
    var n := |es| - 1;
    assert es != [];
    var v := Play(s, es[..n]);
    if c in v.contenders && v.contenders[c].pc.Done? {
      DoneStays(v, es[n], c);
      j := HowCallsEnd(s, es[..n], c);
      assert es[..n][..j] == es[..j] && es[..n][j] == es[j];
    } else {
      j := n;
      CallEndsIff(s, es[..n], es[n], c, Play(s, es).contenders[c].pc.outcome);
    }
  }

  lemma DoneStays(s: System, e: Event, c: nat)
    requires Enabled(s, e) && c in s.contenders && s.contenders[c].pc.Done?
    ensures c in Apply(s, e).contenders && Apply(s, e).contenders[c] == s.contenders[c]
  {
  }

  /**
    What the other looks lead to. Silence under the election lock gives the
    lock back before the call is patient; a pointer that changed while the
    call waited for the lock is probed without it; a proof of absence leads
    to the election, and under the lock to the clear.
  */
  lemma LooksLeadOn(s: System, es: seq<Event>, e: Event)
    requires Initial(s) && Playable(s, es) && Enabled(Play(s, es), e)
    requires e.ReadPointer? || e.Try? || e.CompareUnderLock?
    ensures var v, v' := Play(s, es), Apply(Play(s, es), e);
            var k, k' := v.contenders[e.c], v'.contenders[e.c];
            && (SeesGone(v, e, e.c) ==> AfterGone(k.pc.site, k.round, k'.pc))
            && (e.ReadPointer? && v.file.Holds? && v.file.descriptor.claims ==>
                  k'.pc == Attempting(k.pc.site, v.file.descriptor, []))
            && (e.Try? && e.a.NoReply? && v.election == Some(e.c) ==>
                  if k.pc.site.UnderElection? then k'.pc == Look(AfterSilence) && v'.election.None?
                  else k'.pc == Look(Readiness) && v'.election == Some(e.c))
            && (e.Try? && e.a.NoReply? && e.patient && v.election != Some(e.c) ==> k'.pc == Look(k.pc.site))
            && (e.CompareUnderLock? ==>
                  if v.file.Holds? && v.file.descriptor.claims && k.observed != Some(v.file.descriptor)
                  then k'.pc == Look(AfterChange) && v'.election.None?
                  else k'.pc == Look(UnderElection) && v'.election == Some(e.c))
  {
    RunKeepsInv(s, es);
    var v := Play(s, es);
    assert ContenderOk(v, e.c, v.contenders[e.c]);
    if e.Try? {
      TryOutcome(v, e);
    }
  }

  /** `c` has looked before waiting for the lock, and has not probed under it yet. */
  predicate HasObserved(pc: Pc)
  {
    match pc
    case Look(site) => site.FirstLook?
    case Attempting(site, _, _) => site.FirstLook?
    case WaitElection => true
    case Compare => true
    case _ => false
  }

  /** Event `j` is the latest look of `c` before the lock, and `observed` is what it found. */
  ghost predicate ObservedAt(s: System, es: seq<Event>, c: nat, j: nat)
    requires Playable(s, es)
  {
    && j < |es| && es[j] == ReadBefore(c) && Playable(s, es[..j]) && c in Play(s, es).contenders
    && Play(s, es).contenders[c].observed == ReadClaiming(Play(s, es[..j]).file)
    && forall n :: j < n < |es| ==> es[n] != ReadBefore(c)
  }

  lemma ObserveStep(s: System, e: Event, c: nat)
    requires Enabled(s, e) && c in Apply(s, e).contenders && HasObserved(Apply(s, e).contenders[c].pc) && e != ReadBefore(c)
    ensures c in s.contenders && HasObserved(s.contenders[c].pc) && Apply(s, e).contenders[c].observed == s.contenders[c].observed
  {
    if !StepOf(e, c) {
      OthersStay(s, e, c);
    } else {
      match e
      case Try(_, _, _) =>
      case ReadPointer(_) =>
      case TakeElection(_) =>
      case _ =>
    }
  }

  lemma {:induction false} ObservedHappened(s: System, es: seq<Event>, c: nat) returns (j: nat)
    requires Playable(s, es) && Initial(s) && c in Play(s, es).contenders && HasObserved(Play(s, es).contenders[c].pc)
    ensures ObservedAt(s, es, c, j)
  {
    var n := |es| - 1;
    assert es != [];
    if es[n] == ReadBefore(c) {
      j := n;
    } else {
      ObserveStep(Play(s, es[..n]), es[n], c);
      j := ObservedHappened(s, es[..n], c);
      assert es[..n][..j] == es[..j] && forall m :: j <= m < n ==> es[..n][m] == es[m];
    }
  }

  /**
    Under the lock the call leaves it again exactly if a pointer of this
    domain is there now that was not there when the call last looked, before
    it waited.
  */
  lemma LeavesLockIffChanged(s: System, es: seq<Event>, c: nat) returns (j: nat)
    requires Initial(s) && Playable(s, es) && Enabled(Play(s, es), CompareUnderLock(c))
    ensures j < |es| && es[j] == ReadBefore(c) && Playable(s, es[..j]) && forall n :: j < n < |es| ==> es[n] != ReadBefore(c)
    ensures var now, before := Play(s, es).file, Play(s, es[..j]).file;
            var v := Apply(Play(s, es), CompareUnderLock(c));
            if now.Holds? && now.descriptor.claims && now != before
            then v.contenders[c].pc == Look(AfterChange) && v.election.None?
            else v.contenders[c].pc == Look(UnderElection) && v.election == Some(c)
  {
    j := ObservedHappened(s, es, c);
    LooksLeadOn(s, es, CompareUnderLock(c));
  }

  /******* Compare-and-clear *******/

  /** An exiting daemon that gets the lock removes its own pointer and no other, whatever was published meanwhile. */
  lemma ExitRemovesOnlyItsOwn(s: System, es: seq<Event>, e: Event)
    requires Initial(s) && Playable(s, es) && Enabled(Play(s, es), e) && e.ExitClear?
    ensures var own := Holds(Play(s, es).daemons[e.t].descriptor);
            Apply(Play(s, es), e).file == if e.locked && Play(s, es).file == own then Absent else Play(s, es).file
  {
    RunKeepsInv(s, es);
  }

  /** A sweep removes the pointer it read if it is still there, so only one whose daemon is dead, even when its pid is in use again. */
  lemma SweepRemovesOnlyTheDead(s: System, es: seq<Event>, e: Event)
    requires Initial(s) && Playable(s, es) && Enabled(Play(s, es), e) && e.SweepRemove?
    ensures var seen := Play(s, es).sweepers[e.w].descriptor;
            Apply(Play(s, es), e).file == if Play(s, es).file == Holds(seen) then Absent else Play(s, es).file
    ensures Apply(Play(s, es), e).file != Play(s, es).file ==>
              && Known(Play(s, es), Play(s, es).file.descriptor)
              && Play(s, es).daemons[Play(s, es).file.descriptor.token].phase.Dead?
  {
    RunKeepsInv(s, es);
    assert SweeperOk(Play(s, es), Play(s, es).sweepers[e.w]);
  }

  /******* What the clears that do not compare can hit *******/

  predicate Publishes(e: Event, t: nat)
  {
    e == Publish(t) || e == Readvertise(t, true)
  }

  /** Event `i` published the pointer that is there at the end, and it has been there ever since. */
  ghost predicate Origin(s: System, es: seq<Event>, i: nat)
    requires Playable(s, es)
  {
    && i < |es| && Play(s, es).file.Holds? && Publishes(es[i], Play(s, es).file.descriptor.token)
    && SameSince(s, es, i + 1)
  }

  /** The pointer file has not changed since before event `j`. */
  ghost predicate SameSince(s: System, es: seq<Event>, j: nat)
    requires Playable(s, es)
  {
    forall n :: j <= n <= |es| ==> FileAt(s, es[..n], Play(s, es).file)
  }

  ghost predicate FileAt(s: System, es: seq<Event>, f: PointerFile)
  {
    Playable(s, es) && Play(s, es).file == f
  }

  lemma PublishedPointer(s: System, e: Event)
    requires Inv(s) && Enabled(s, e) && Apply(s, e).file.Holds?
    ensures Publishes(e, Apply(s, e).file.descriptor.token) || Apply(s, e).file == s.file
    ensures forall t :: Publishes(e, t) ==> t == Apply(s, e).file.descriptor.token
  {
    if DaemonStep(e) {
      DaemonPublishes(s, e);
    } else {
      OthersPublishNothing(s, e);
    }
  }

  lemma DaemonPublishes(s: System, e: Event)
    requires Inv(s) && Enabled(s, e) && DaemonStep(e) && Apply(s, e).file.Holds?
    ensures if Publishes(e, e.t) then Apply(s, e).file.descriptor.token == e.t else Apply(s, e).file == s.file
  {
    assert DaemonOk(e.t, s.daemons[e.t]);
  }

  lemma OthersPublishNothing(s: System, e: Event)
    requires Enabled(s, e) && !DaemonStep(e) && Apply(s, e).file.Holds?
    ensures Apply(s, e).file == s.file
  {
  }

  lemma SameLasts(s: System, es: seq<Event>, j: nat)
    requires es != [] && Playable(s, es) && SameSince(s, es[..|es| - 1], j)
    requires Play(s, es).file == Play(s, es[..|es| - 1]).file
    ensures SameSince(s, es, j)
  {
    forall n | j <= n <= |es| ensures FileAt(s, es[..n], Play(s, es).file) {
      if n == |es| {
        assert es[..n] == es;
      } else {
        assert es[..|es| - 1][..n] == es[..n];
      }
    }
  }

  lemma OriginLasts(s: System, es: seq<Event>, i: nat)
    requires es != [] && Playable(s, es) && Origin(s, es[..|es| - 1], i)
    requires Play(s, es).file == Play(s, es[..|es| - 1]).file
    ensures Origin(s, es, i)
  {
    assert es[..|es| - 1][i] == es[i];
    SameLasts(s, es, i + 1);
  }

  /** A pointer that is there now was there at `j`, or was published since. */
  lemma {:induction false} PointerSince(s: System, es: seq<Event>, j: nat)
    requires Initial(s) && Playable(s, es) && j <= |es| && Play(s, es).file.Holds?
    ensures SameSince(s, es, j) || exists i :: j <= i && Origin(s, es, i)
  {
    assert es[..|es|] == es;
    if j < |es| {
      var n := |es| - 1;
      RunKeepsInv(s, es[..n]);
      PublishedPointer(Play(s, es[..n]), es[n]);
      if Publishes(es[n], Play(s, es).file.descriptor.token) {
        assert Origin(s, es, n);
      } else {
        PointerSince(s, es[..n], j);
        if SameSince(s, es[..n], j) {
          SameLasts(s, es, j);
        } else {
          var i :| j <= i && Origin(s, es[..n], i);
          OriginLasts(s, es, i);
        }
      }
    }
  }

  /** The pointer is there and is not `t`'s: a clear by `t` that does not compare would remove another's. */
  predicate HoldsAnother(s: System, t: nat)
  {
    s.file.Holds? && s.file.descriptor.token != t
  }

  /** Event `i` published another daemon's pointer; `t` has not published since, and nothing has cleared since. */
  ghost predicate Superseded(s: System, es: seq<Event>, t: nat, i: nat)
    requires Playable(s, es)
  {
    && i < |es| && (exists u :: u != t && Publishes(es[i], u))
    && forall n :: i < n <= |es| ==>
         Playable(s, es[..n]) && Play(s, es[..n]).file.Holds? && (n < |es| ==> !Publishes(es[n], t))
  }

  lemma AdvertisedHasPublished(s: System, es: seq<Event>, t: nat) returns (i: nat)
    requires Initial(s) && Playable(s, es) && Advertised(Play(s, es), t)
    ensures i < |es| && es[i] == Publish(t)
  {
    var n := |es| - 1;
    assert es != [];
    if es[n] == Publish(t) {
      i := n;
    } else {
      AdvertisedStep(Play(s, es[..n]), es[n], t);
      i := AdvertisedHasPublished(s, es[..n], t);
    }
  }

  lemma AdvertisedStep(s: System, e: Event, t: nat)
    requires Enabled(s, e) && Advertised(Apply(s, e), t) && e != Publish(t)
    ensures Advertised(s, t)
  {
  }

  lemma {:induction false} SupersededStays(s: System, es: seq<Event>, t: nat, i: nat)
    requires Initial(s) && Playable(s, es) && Superseded(s, es, t, i)
    ensures HoldsAnother(Play(s, es), t)
  {
    var n := |es| - 1;
    assert es[..|es|] == es;
    RunKeepsInv(s, es[..n]);
    PublishedPointer(Play(s, es[..n]), es[n]);
    if i < n {
      PrefixRuns(es, n);
      assert Superseded(s, es[..n], t, i);
      SupersededStays(s, es[..n], t, i);
    }
  }

  /**
    Exactly when the shipped daemon's unconditional clear, on its exit or by
    its idle watchdog, removes another daemon's pointer: another one published
    after its own last publish, and nothing has cleared that since.
  */
  lemma ClearHitsAnotherIff(s: System, es: seq<Event>, t: nat)
    requires Initial(s) && Playable(s, es) && Advertised(Play(s, es), t)
    ensures HoldsAnother(Play(s, es), t) <==> exists i :: Superseded(s, es, t, i)
  {
    if HoldsAnother(Play(s, es), t) {
      var p := AdvertisedHasPublished(s, es, t);
      PointerSince(s, es, 0);
      PublishShows(s, es, p, t);
      assert !SameSince(s, es, 0);
      var i: nat :| Origin(s, es, i);
      forall n: nat | i < n <= |es|
        ensures Playable(s, es[..n]) && Play(s, es[..n]).file.Holds? && (n < |es| ==> !Publishes(es[n], t))
      {
        if n < |es| && Publishes(es[n], t) {
          PublishShows(s, es, n, t);
        }
      }
      assert Superseded(s, es, t, i);
    }
    if i: nat :| Superseded(s, es, t, i) {
      SupersededStays(s, es, t, i);
    }
  }

  lemma PrefixPlays(s: System, es: seq<Event>, n: nat)
    requires Playable(s, es) && n <= |es|
    ensures Playable(s, es[..n])
    decreases |es| - n
  {
    if n == |es| {
      assert es[..n] == es;
    } else {
      PrefixPlays(s, es, n + 1);
      assert es[..n + 1][..n] == es[..n];
    }
  }

  lemma PublishShows(s: System, es: seq<Event>, n: nat, t: nat)
    requires Initial(s) && Playable(s, es) && n < |es| && Publishes(es[n], t)
    ensures Playable(s, es[..n + 1]) && Play(s, es[..n + 1]).file.Holds? && Play(s, es[..n + 1]).file.descriptor.token == t
  {
    PrefixPlays(s, es, n + 1);
    PrefixPlays(s, es, n);
    assert es[..n + 1][..n] == es[..n] && es[..n + 1][n] == es[n];
    RunKeepsInv(s, es[..n]);
    var v := Play(s, es[..n]);
    assert DaemonOk(t, v.daemons[t]);
  }

  /******* What the election winner's clear can hit *******/

  /** What the probe under the election lock was about: the pointer it read, or none. */
  function ReadOf(k: Contender): Option<Descriptor>
  {
    if k.pc.Attempting? then Some(k.pc.descriptor)
    else if k.evidence.Attempts? then Some(k.evidence.of) else None
  }

  predicate UnderLock(s: System, c: nat)
  {
    && c in s.contenders
    && (|| (s.contenders[c].pc.Attempting? && s.contenders[c].pc.site.UnderElection?)
        || s.contenders[c].pc.Clear? || s.contenders[c].pc.Spawn?)
  }

  /** Event `j` is `c`'s read of the pointer under the election lock, and `c` has held the lock ever since. */
  ghost predicate ReadAt(s: System, es: seq<Event>, c: nat, d: Option<Descriptor>, j: nat)
    requires Playable(s, es)
  {
    && j < |es| && es[j] == ReadPointer(c)
    && Playable(s, es[..j]) && ReadClaiming(Play(s, es[..j]).file) == d
    && HeldSince(s, es, c, j)
  }

  lemma UnderLockStep(s: System, e: Event, c: nat)
    requires Inv(s) && Enabled(s, e) && UnderLock(Apply(s, e), c)
    ensures c in s.contenders && s.election == Some(c)
    ensures (UnderLock(s, c) && ReadOf(s.contenders[c]) == ReadOf(Apply(s, e).contenders[c]))
            || (e == ReadPointer(c) && ReadClaiming(s.file) == ReadOf(Apply(s, e).contenders[c]))
  {
    if !StepOf(e, c) {
      OthersStay(s, e, c);
    } else if e.Try? {
      TryUnderLock(s, e);
    }
    assert c in s.contenders ==> ContenderOk(s, c, s.contenders[c]);
  }

  lemma TryUnderLock(s: System, e: Event)
    requires Inv(s) && Enabled(s, e) && e.Try? && UnderLock(Apply(s, e), e.c)
    ensures UnderLock(s, e.c) && ReadOf(s.contenders[e.c]) == ReadOf(Apply(s, e).contenders[e.c])
  {
    assert ContenderOk(s, e.c, s.contenders[e.c]);
  }

  lemma ReadLasts(s: System, es: seq<Event>, c: nat, d: Option<Descriptor>, j: nat)
    requires es != [] && Playable(s, es) && Play(s, es).election == Some(c) && ReadAt(s, es[..|es| - 1], c, d, j)
    ensures ReadAt(s, es, c, d, j)
  {
    assert es[..|es| - 1][..j] == es[..j] && es[..|es| - 1][j] == es[j];
    HeldLasts(s, es, c, j);
  }

  lemma UnderLockHolds(s: System, es: seq<Event>, c: nat)
    requires Initial(s) && Playable(s, es) && UnderLock(Play(s, es), c)
    ensures Play(s, es).election == Some(c)
  {
    RunKeepsInv(s, es);
    assert ContenderOk(Play(s, es), c, Play(s, es).contenders[c]);
  }

  lemma {:induction false} ReadHappened(s: System, es: seq<Event>, c: nat) returns (j: nat)
    requires Initial(s) && Playable(s, es) && UnderLock(Play(s, es), c)
    ensures ReadAt(s, es, c, ReadOf(Play(s, es).contenders[c]), j)
  {
    var n := |es| - 1;
    assert es != [] && es[..|es|] == es;
    RunKeepsInv(s, es[..n]);
    UnderLockStep(Play(s, es[..n]), es[n], c);
    UnderLockHolds(s, es, c);
    if UnderLock(Play(s, es[..n]), c) && ReadOf(Play(s, es[..n]).contenders[c]) == ReadOf(Play(s, es).contenders[c]) {
      j := ReadHappened(s, es[..n], c);
      ReadLasts(s, es, c, ReadOf(Play(s, es).contenders[c]), j);
    } else {
      j := n;
    }
  }

  /**
    The winner's clear, for every run: what it removes is the pointer the
    winner read under its lock and proved gone, or one that claims nothing
    here, or one published after that read.
  */
  lemma ClearHits(s: System, es: seq<Event>, c: nat) returns (j: nat)
    requires Initial(s) && Playable(s, es) && Enabled(Play(s, es), ClearPointer(c, true))
    ensures ReadAt(s, es, c, ReadOf(Play(s, es).contenders[c]), j)
    ensures ReadOf(Play(s, es).contenders[c]).Some? ==> ProvesGone(Play(s, es).contenders[c].evidence.attempts)
    ensures ReadClaiming(Play(s, es).file).Some? ==>
              || ReadClaiming(Play(s, es).file) == ReadOf(Play(s, es).contenders[c])
              || exists i :: j < i && Origin(s, es, i)
  {
    j := ReadHappened(s, es, c);
    RunKeepsInv(s, es);
    assert ContenderOk(Play(s, es), c, Play(s, es).contenders[c]);
    if ReadClaiming(Play(s, es).file).Some? {
      PointerSince(s, es, j);
      if SameSince(s, es, j) {
        assert Play(s, es[..j]).file == Play(s, es).file;
      }
    }
  }

  /** A clear now would take away the pointer of a daemon that serves. */
  predicate Loses(s: System)
  {
    s.file.Holds? && Serves(s, s.file.descriptor.token)
  }

  /** The pointer there is the one that was read at `j` and declared gone, and its daemon has served all along. */
  ghost predicate FalseGone(s: System, es: seq<Event>, c: nat, j: nat)
    requires Playable(s, es) && c in Play(s, es).contenders
  {
    var v := Play(s, es);
    && v.file.Holds? && ReadOf(v.contenders[c]) == Some(v.file.descriptor)
    && v.contenders[c].evidence.Attempts? && ProvesGone(v.contenders[c].evidence.attempts)
    && forall n :: j <= n <= |es| ==> Playable(s, es[..n]) && Serves(Play(s, es[..n]), v.file.descriptor.token)
  }

  /** The pointer there was published after event `j`, and its daemon serves. */
  ghost predicate LatePublish(s: System, es: seq<Event>, j: nat)
    requires Playable(s, es)
  {
    exists i :: j < i && Origin(s, es, i) && Serves(Play(s, es), es[i].t)
  }

  lemma ServedBefore(s: System, e: Event, t: nat)
    requires Inv(s) && Enabled(s, e) && Serves(Apply(s, e), t) && t in s.daemons && !s.daemons[t].phase.Starting?
    ensures Serves(s, t)
  {
    if !DaemonStep(e) {
      OthersKeepDaemons(s, e, t);
    }
  }

  lemma OthersKeepDaemons(s: System, e: Event, t: nat)
    requires Enabled(s, e) && !DaemonStep(e) && t in s.daemons
    ensures t in Apply(s, e).daemons && Apply(s, e).daemons[t] == s.daemons[t]
  {
  }

  lemma {:induction false} ServedSince(s: System, es: seq<Event>, t: nat, j: nat)
    requires Initial(s) && Playable(s, es) && j <= |es| && Serves(Play(s, es), t)
    requires Playable(s, es[..j]) && t in Play(s, es[..j]).daemons && !Play(s, es[..j]).daemons[t].phase.Starting?
    ensures forall n :: j <= n <= |es| ==> Playable(s, es[..n]) && Serves(Play(s, es[..n]), t)
  {
    assert es[..|es|] == es;
    if j < |es| {
      var n := |es| - 1;
      PrefixRuns(es, n);
      RunKeepsInv(s, es[..n]);
      assert es[..n][..j] == es[..j];
      StartedStays(s, es[..n], t, j);
      ServedBefore(Play(s, es[..n]), es[n], t);
      ServedSince(s, es[..n], t, j);
    }
  }

  lemma {:induction false} StartedStays(s: System, es: seq<Event>, t: nat, j: nat)
    requires Playable(s, es) && j <= |es|
    requires Playable(s, es[..j]) && t in Play(s, es[..j]).daemons && !Play(s, es[..j]).daemons[t].phase.Starting?
    ensures t in Play(s, es).daemons && !Play(s, es).daemons[t].phase.Starting?
  {
    if j == |es| {
      assert es[..j] == es;
    } else {
      var n := |es| - 1;
      assert es[..n][..j] == es[..j];
      StartedStays(s, es[..n], t, j);
      StartedStep(Play(s, es[..n]), es[n], t);
    }
  }

  lemma StartedStep(s: System, e: Event, t: nat)
    requires Enabled(s, e) && t in s.daemons && !s.daemons[t].phase.Starting?
    ensures t in Apply(s, e).daemons && !Apply(s, e).daemons[t].phase.Starting?
  {
  }

  /**
    Exactly when the winner's clear loses a serving daemon: the daemon
    published after the winner's read, or the probe declared a daemon gone
    that was serving all the while.
  */
  lemma ClearLosesIff(s: System, es: seq<Event>, c: nat) returns (j: nat)
    requires Initial(s) && Playable(s, es) && Enabled(Play(s, es), ClearPointer(c, true))
    ensures ReadAt(s, es, c, ReadOf(Play(s, es).contenders[c]), j)
    ensures Loses(Play(s, es)) <==> LatePublish(s, es, j) || FalseGone(s, es, c, j)
  {
    j := ClearHits(s, es, c);
    var v := Play(s, es);
    RunKeepsInv(s, es);
    assert es[..|es|] == es;
    if Loses(v) && !LatePublish(s, es, j) {
      assert DaemonOk(v.file.descriptor.token, v.daemons[v.file.descriptor.token]);
      PointerSince(s, es, j);
      assert SameSince(s, es, j) by {
        if i: nat :| j <= i && Origin(s, es, i) {
          assert i == j;
        }
      }
      RunKeepsInv(s, es[..j]);
      ServedSince(s, es, v.file.descriptor.token, j);
    }
  }

  /******* Single election *******/

  predicate AtReadiness(pc: Pc)
  {
    (pc.Look? || pc.Attempting?) && pc.site.Readiness?
  }

  /**
    The environment the single-election claim is made for: a spawned daemon
    answers before its spawner stops waiting, no daemon exits, dies or takes
    its pointer away, and a serving daemon is probed only as live or silent.
  */
  predicate Calm(s: System, e: Event)
    requires Enabled(s, e)
  {
    match e
    case Abandon(c) => !AtReadiness(s.contenders[c].pc)
    case StopServing(_) => false
    case Withdraw(_, _) => false
    case Readvertise(_, _) => false
    case Die(_) => false
    case Try(c, a, _) => Serves(s, s.contenders[c].pc.descriptor.token) ==> a.Matches? || a.NoReply?
    case _ => true
  }

  predicate CalmRun(s: System, es: seq<Event>)
    requires Playable(s, es)
  {
    es == [] || (CalmRun(s, es[..|es| - 1]) && Calm(Play(s, es[..|es| - 1]), es[|es| - 1]))
  }

  /** A run that is calm but for idle daemons taking their pointer away. */
  predicate MildRun(s: System, es: seq<Event>)
    requires Playable(s, es)
  {
    es == [] || (MildRun(s, es[..|es| - 1]) && (es[|es| - 1].Withdraw? || Calm(Play(s, es[..|es| - 1]), es[|es| - 1])))
  }

  /** Nothing can destroy the elected daemon `d` or elect another. */
  predicate Settled(s: System, d: nat, k: Contender)
    requires d in s.daemons
  {
    && !k.pc.Clear? && !k.pc.Spawn?
    && (k.pc.Attempting? && k.pc.site.UnderElection? ==>
          k.pc.descriptor == s.daemons[d].descriptor && k.pc.attempts == [])
    && (HoldsElection(k.pc) && !AtReadiness(k.pc) ==> Serves(s, d))
  }

  predicate Elected(s: System, d: nat)
  {
    && d in s.daemons && s.daemons[d].descriptor.claims
    && (s.daemons[d].phase.Starting? || s.daemons[d].phase.Serving?)
    && (Serves(s, d) ==> s.file == Holds(s.daemons[d].descriptor))
    && (!Serves(s, d) ==> s.election.Some? && s.election.value in s.contenders
                          && AtReadiness(s.contenders[s.election.value].pc))
    && forall c <- s.contenders :: Settled(s, d, s.contenders[c])
  }

  ghost predicate OneElection(s: System)
  {
    && |s.spawned| <= 1
    && (forall t <- s.daemons :: t in s.spawned || s.daemons[t].phase.Dead?)
    && (s.spawned != [] ==> Elected(s, s.spawned[0]))
    && (forall c <- s.contenders :: s.contenders[c].pc.Done? && s.contenders[c].pc.outcome.Ok? ==>
          && s.contenders[c].pc.outcome.descriptor.token in s.spawned
          && Serves(s, s.contenders[c].pc.outcome.descriptor.token))
  }

  /** What an attempt makes of the contender that took it. */
  lemma TrySettles(s: System, e: Event, d: nat, k': Contender)
    requires Inv(s) && Enabled(s, e) && Calm(s, e) && e.Try? && Elected(s, d)
    requires k' == StepTry(s.contenders[e.c], e.a, e.patient)
    ensures Settled(Apply(s, e), d, k')
  {
    var k := s.contenders[e.c];
    assert ContenderOk(s, e.c, k) && Settled(s, d, k);
    VerdictCases(k.pc.descriptor, k.pc.attempts, e.a);
  }

  lemma CalmTryKeepsElection(s: System, e: Event)
    requires Inv(s) && OneElection(s) && Enabled(s, e) && Calm(s, e) && e.Try?
    ensures OneElection(Apply(s, e))
  {
    var k, k', s' := s.contenders[e.c], StepTry(s.contenders[e.c], e.a, e.patient), Apply(s, e);
    assert ContenderOk(s, e.c, k);
    VerdictCases(k.pc.descriptor, k.pc.attempts, e.a);
    assert k'.pc.Done? && k'.pc.outcome.Ok? ==> e.a.Matches? && k'.pc.outcome.descriptor.token == k.pc.descriptor.token;
    assert s'.contenders == s.contenders[e.c := k'] && s'.daemons == s.daemons && s'.file == s.file;
    if s.spawned != [] {
      var d := s.spawned[0];
      TrySettles(s, e, d, k');
      forall c <- s'.contenders ensures Settled(s', d, s'.contenders[c]) {
        if c != e.c {
          assert Settled(s, d, s.contenders[c]);
        }
      }
      assert Elected(s', d);
    }
  }

  lemma CalmReadKeepsElection(s: System, e: Event)
    requires Inv(s) && OneElection(s) && Enabled(s, e) && (e.ReadPointer? || e.CompareUnderLock? || e.ReadBefore?)
    ensures OneElection(Apply(s, e))
  {
    var k, s' := s.contenders[e.c], Apply(s, e);
    assert ContenderOk(s, e.c, k);
    if s.spawned != [] {
      var d := s.spawned[0];
      assert Elected(s, d) && Settled(s, d, k);
      ReadSettles(s, e, d);
      forall c <- s'.contenders ensures Settled(s', d, s'.contenders[c]) {
        if c != e.c {
          assert Settled(s, d, s.contenders[c]);
        }
      }
      assert Elected(s', d);
    }
  }

  lemma ReadSettles(s: System, e: Event, d: nat)
    requires Inv(s) && Enabled(s, e) && (e.ReadPointer? || e.CompareUnderLock? || e.ReadBefore?) && Elected(s, d)
    ensures Settled(Apply(s, e), d, Apply(s, e).contenders[e.c])
  {
    var k := s.contenders[e.c];
    assert ContenderOk(s, e.c, k) && Settled(s, d, k);
    match e
    case ReadPointer(_) =>
    case CompareUnderLock(_) =>
    case ReadBefore(_) =>
  }

  lemma CalmSpawnKeepsElection(s: System, e: Event)
    requires Inv(s) && OneElection(s) && Enabled(s, e) && (e.SpawnDaemon? || e.ClearPointer?)
    ensures OneElection(Apply(s, e)) && s.spawned == []
  {
    var s' := Apply(s, e);
    assert s.spawned == [];
    if e.SpawnDaemon? {
      var d := e.descriptor.token;
      assert s'.spawned == [d];
      forall c <- s'.contenders ensures Settled(s', d, s'.contenders[c]) {
        assert ContenderOk(s, c, s.contenders[c]) && ContenderOk(s, e.c, s.contenders[e.c]);
      }
    }
  }

  lemma CalmSweepKeepsElection(s: System, e: Event)
    requires Inv(s) && OneElection(s) && Enabled(s, e)
    requires e.SweepRead? || e.SweepSeesDead? || e.SweepRemove? || e.SweepSkip?
    ensures OneElection(Apply(s, e))
  {
    var s' := Apply(s, e);
    if s.spawned != [] {
      var d := s.spawned[0];
      assert s.spawned == [d] && Elected(s, d);
      if e.SweepRemove? {
        assert SweeperOk(s, s.sweepers[e.w]);
      }
      forall c <- s'.contenders ensures Settled(s', d, s'.contenders[c]) {
        assert Settled(s, d, s.contenders[c]);
      }
      assert Elected(s', d);
    }
  }

  lemma CalmDaemonKeepsElection(s: System, e: Event)
    requires Inv(s) && OneElection(s) && Enabled(s, e) && (e.Publish? || e.ExitClear? || e.ExitClearAny?)
    ensures OneElection(Apply(s, e))
  {
    var s' := Apply(s, e);
    if s.spawned != [] {
      var d := s.spawned[0];
      assert s.spawned == [d] && Elected(s, d);
      forall c <- s'.contenders ensures Settled(s', d, s'.contenders[c]) {
        assert Settled(s, d, s.contenders[c]);
      }
      assert Elected(s', d);
    }
  }

  lemma CalmRestKeepsElection(s: System, e: Event)
    requires Inv(s) && OneElection(s) && Enabled(s, e) && Calm(s, e) && (e.Join? || e.TakeElection? || e.Abandon?)
    ensures OneElection(Apply(s, e))
  {
    var s' := Apply(s, e);
    if s.spawned != [] {
      var d := s.spawned[0];
      assert s.spawned == [d] && Elected(s, d);
      if !e.Join? {
        assert ContenderOk(s, e.c, s.contenders[e.c]) && Settled(s, d, s.contenders[e.c]);
      }
      forall c <- s'.contenders ensures Settled(s', d, s'.contenders[c]) {
        if c in s.contenders {
          assert Settled(s, d, s.contenders[c]);
        }
      }
      assert Elected(s', d);
    }
  }

  lemma {:induction false} CalmRunElectsOnce(s: System, es: seq<Event>)
    requires Initial(s) && Playable(s, es) && CalmRun(s, es)
    ensures OneElection(Play(s, es))
  {
    if es != [] {
      var before, e := es[..|es| - 1], es[|es| - 1];
      CalmRunElectsOnce(s, before);
      RunKeepsInv(s, before);
      if e.Try? {
        CalmTryKeepsElection(Play(s, before), e);
      } else if e.ReadPointer? || e.CompareUnderLock? || e.ReadBefore? {
        CalmReadKeepsElection(Play(s, before), e);
      } else if e.SpawnDaemon? || e.ClearPointer? {
        CalmSpawnKeepsElection(Play(s, before), e);
      } else if e.SweepRead? || e.SweepSeesDead? || e.SweepRemove? || e.SweepSkip? {
        CalmSweepKeepsElection(Play(s, before), e);
      } else if e.Publish? || e.ExitClear? || e.ExitClearAny? {
        CalmDaemonKeepsElection(Play(s, before), e);
      } else {
        CalmRestKeepsElection(Play(s, before), e);
      }
    }
  }

  predicate Reports(s: System, c: nat, d: Descriptor)
  {
    c in s.contenders && s.contenders[c].pc == Done(Ok(d))
  }

  lemma ReportNamesElected(s: System, c: nat, d: Descriptor)
    requires Inv(s) && OneElection(s) && Reports(s, c, d)
    ensures s.spawned == [d.token] && Serves(s, d.token) && d == s.daemons[d.token].descriptor
  {
    assert ContenderOk(s, c, s.contenders[c]);
    assert s.spawned == [d.token];
  }

  /** At most one spawn in the whole run, and every `Ok` carries the descriptor of that one serving daemon. */
  lemma SingleElection(s: System, es: seq<Event>)
    requires Initial(s) && Playable(s, es) && CalmRun(s, es)
    ensures |Play(s, es).spawned| <= 1
    ensures forall c, d :: Reports(Play(s, es), c, d) ==>
              && Play(s, es).spawned == [d.token]
              && Serves(Play(s, es), d.token)
              && d == Play(s, es).daemons[d.token].descriptor
    ensures forall c, d, c', d' :: Reports(Play(s, es), c, d) && Reports(Play(s, es), c', d') ==> d == d'
  {
    CalmRunElectsOnce(s, es);
    RunKeepsInv(s, es);
    forall c, d | Reports(Play(s, es), c, d)
      ensures Play(s, es).spawned == [d.token] && Serves(Play(s, es), d.token)
      ensures d == Play(s, es).daemons[d.token].descriptor
    {
      ReportNamesElected(Play(s, es), c, d);
    }
  }

  /** In a calm run the winner's unconditional clear never hits the pointer of a daemon that is not dead. */
  lemma CalmClearHitsOnlyTheDead(s: System, es: seq<Event>, e: Event)
    requires Initial(s) && Playable(s, es) && CalmRun(s, es) && Enabled(Play(s, es), e) && e.ClearPointer?
    ensures forall t <- Play(s, es).daemons :: Play(s, es).daemons[t].phase.Dead?
  {
    CalmRunElectsOnce(s, es);
    RunKeepsInv(s, es);
    CalmSpawnKeepsElection(Play(s, es), e);
  }

  /******* Without the readiness assumption *******/

  lemma Snoc(s: System, es: seq<Event>, e: Event)
    requires Playable(s, es) && Enabled(Play(s, es), e)
    ensures Playable(s, es + [e]) && Play(s, es + [e]) == Apply(Play(s, es), e)
    ensures MildRun(s, es) && (e.Withdraw? || Calm(Play(s, es), e)) ==> MildRun(s, es + [e])
  {
    assert (es + [e])[..|es + [e]| - 1] == es;
  }

  /** `s` with contender `c` as given, and the election lock as given. */
  function WithContender(s: System, c: nat, k: Contender, election: Option<nat>): System
  {
    s.(contenders := s.contenders[c := k], election := election)
  }

  function Fresh(pc: Pc, e: Evidence): Contender
  {
    Contender(pc, 0, None, e, 0)
  }

  /** One step of a contender that meets no pointer. */
  lemma LonelyStep(v: System, c: nat, pc: Pc, held: Option<nat>, e: Event)
    requires v.file.Absent? && (held.None? || held == Some(c))
    requires (e == ReadBefore(c) && pc.Observe? && held.None?) || (e == ReadPointer(c) && pc == Look(FirstLook) && held.None?)
             || (e == TakeElection(c) && pc.WaitElection? && held.None?)
             || (e == CompareUnderLock(c) && pc.Compare? && held.Some?) || (e == ReadPointer(c) && pc == Look(UnderElection) && held.Some?)
    ensures var w := WithContender(v, c, Fresh(pc, NoEvidence), held);
            && Enabled(w, e)
            && Apply(w, e) == WithContender(v, c,
                 (if pc.Observe? then Fresh(Look(FirstLook), NoEvidence)
                  else if pc == Look(FirstLook) then Fresh(WaitElection, NoEvidence)
                  else if pc.WaitElection? then Fresh(Compare, NoEvidence)
                  else if pc.Compare? then Fresh(Look(UnderElection), NoEvidence)
                  else Fresh(Clear, NoPointer)),
                 if pc.WaitElection? then Some(c) else held)
  {
    var w := WithContender(v, c, Fresh(pc, NoEvidence), held);
    var k' := Apply(w, e).contenders[c];
    assert w.contenders[c := k'] == v.contenders[c := k'];
  }

  lemma LonelyPlay(s: System, es: seq<Event>, v: System, c: nat, pc: Pc, held: Option<nat>, e: Event)
    requires Playable(s, es) && Play(s, es) == WithContender(v, c, Fresh(pc, NoEvidence), held)
    requires Enabled(Play(s, es), e)
    ensures Playable(s, es + [e]) && Play(s, es + [e]) == Apply(WithContender(v, c, Fresh(pc, NoEvidence), held), e)
    ensures MildRun(s, es) && Calm(Play(s, es), e) ==> MildRun(s, es + [e])
  {
    Snoc(s, es, e);
  }

  /** With no pointer and a free election lock, a fresh contender can get as far as its clear. */
  lemma ReachClear(s: System, es: seq<Event>, c: nat) returns (es': seq<Event>)
    requires Playable(s, es)
    requires Play(s, es).file.Absent? && Play(s, es).election.None? && c !in Play(s, es).contenders
    ensures Playable(s, es')
    ensures Play(s, es') == WithContender(Play(s, es), c, Fresh(Clear, NoPointer), Some(c))
    ensures MildRun(s, es) ==> MildRun(s, es')
  {
    var v := Play(s, es);
    Snoc(s, es, Join(c));
    LonelyStep(v, c, Observe, None, ReadBefore(c));
    LonelyPlay(s, es + [Join(c)], v, c, Observe, None, ReadBefore(c));
    var e1 := es + [Join(c)] + [ReadBefore(c)];
    LonelyStep(v, c, Look(FirstLook), None, ReadPointer(c));
    LonelyPlay(s, e1, v, c, Look(FirstLook), None, ReadPointer(c));
    var e2 := e1 + [ReadPointer(c)];
    LonelyStep(v, c, WaitElection, None, TakeElection(c));
    LonelyPlay(s, e2, v, c, WaitElection, None, TakeElection(c));
    var e3 := e2 + [TakeElection(c)];
    LonelyStep(v, c, Compare, Some(c), CompareUnderLock(c));
    LonelyPlay(s, e3, v, c, Compare, Some(c), CompareUnderLock(c));
    var e4 := e3 + [CompareUnderLock(c)];
    LonelyStep(v, c, Look(UnderElection), Some(c), ReadPointer(c));
    LonelyPlay(s, e4, v, c, Look(UnderElection), Some(c), ReadPointer(c));
    es' := e4 + [ReadPointer(c)];
  }

  lemma ClearAndSpawn(s: System, es: seq<Event>, c: nat, d: Descriptor) returns (es': seq<Event>)
    requires Playable(s, es) && Winning(Play(s, es), c) && Play(s, es).contenders[c].pc.Clear?
    requires Play(s, es).election == Some(c) && d.token !in Play(s, es).daemons && d.claims
    ensures Playable(s, es')
    ensures Play(s, es').file.Absent? && Play(s, es').election == Some(c)
    ensures Play(s, es').contenders.Keys == Play(s, es).contenders.Keys && Play(s, es').contenders[c].pc == Look(Readiness)
    ensures Play(s, es').daemons == Play(s, es).daemons[d.token := Daemon(d, Starting, false)]
    ensures Play(s, es').spawned == Play(s, es).spawned + [d.token]
    ensures MildRun(s, es) ==> MildRun(s, es')
  {
    Snoc(s, es, ClearPointer(c, true));
    var b := es + [ClearPointer(c, true)];
    Snoc(s, b, SpawnDaemon(c, d));
    es' := b + [SpawnDaemon(c, d)];
  }

  /**
    The winner's clear does not compare contents. If a spawner gives up before
    its daemon publishes, the next winner removes the serving daemon's pointer
    and a second daemon is spawned: the readiness assumption is needed.
  */
  lemma LatePublishIsClobbered(s: System, d1: Descriptor, d2: Descriptor) returns (es: seq<Event>)
    requires Initial(s) && s.file.Absent?
    requires d1.claims && d2.claims && d1.token !in s.daemons && d2.token !in s.daemons && d1.token != d2.token
    ensures Playable(s, es)
    ensures Play(s, es).spawned == [d1.token, d2.token]
    ensures Serves(Play(s, es), d1.token) && Play(s, es).file.Absent?
  {
    var c := SpawnerGivesUp(s, d1);
    var d := ReachClear(s, c, 1);
    Snoc(s, d, Publish(d1.token));
    es := ClearAndSpawn(s, d + [Publish(d1.token)], 1, d2);
  }

  lemma SpawnerGivesUp(s: System, d1: Descriptor) returns (es: seq<Event>)
    requires Initial(s) && s.file.Absent? && d1.claims && d1.token !in s.daemons
    ensures Playable(s, es)
    ensures var v := Play(s, es);
            && v.file.Absent? && v.election.None? && v.contenders.Keys == {0} && v.spawned == [d1.token]
            && v.daemons == s.daemons[d1.token := Daemon(d1, Starting, false)]
  {
    var a := ReachClear(s, [], 0);
    var b := ClearAndSpawn(s, a, 0, d1);
    Snoc(s, b, Abandon(0));
    es := b + [Abandon(0)];
  }

  lemma SpawnedAndPublished(s: System, d1: Descriptor) returns (es: seq<Event>)
    requires Initial(s) && s.file.Absent? && d1.claims && d1.token !in s.daemons
    ensures Playable(s, es) && MildRun(s, es)
    ensures var v := Play(s, es);
            && v.file == Holds(d1) && v.election == Some(0) && v.contenders.Keys == {0} && v.contenders[0].pc == Look(Readiness)
            && v.daemons == s.daemons[d1.token := Daemon(d1, Serving, false)] && v.spawned == [d1.token]
  {
    var a := ReachClear(s, [], 0);
    var b := ClearAndSpawn(s, a, 0, d1);
    Snoc(s, b, Publish(d1.token));
    es := b + [Publish(d1.token)];
  }

  /** A contender at its readiness wait reads the pointer and gets a matching answer. */
  lemma ReadinessSucceeds(v: System, c: nat, d: Descriptor)
    requires v.file == Holds(d) && d.claims && c in v.contenders && v.contenders[c].pc == Look(Readiness) && v.election == Some(c)
    requires Serves(v, d.token) && v.daemons[d.token].descriptor == d
    ensures Enabled(v, ReadPointer(c)) && Enabled(Apply(v, ReadPointer(c)), Try(c, Matches(d.pid), false))
    ensures var w := Apply(Apply(v, ReadPointer(c)), Try(c, Matches(d.pid), false));
            && w.file == v.file && w.daemons == v.daemons && w.spawned == v.spawned && w.election.None?
            && w.contenders.Keys == v.contenders.Keys && Reports(w, c, d)
  {
    var w := Apply(v, ReadPointer(c));
    assert w.contenders[c].pc == Attempting(Readiness, d, []);
    VerdictCases(d, [], Matches(d.pid));
    assert [] + [Matches(d.pid)] == [Matches(d.pid)];
    assert d.(pid := d.pid) == d;
  }

  lemma ReadyDaemon(s: System, d1: Descriptor) returns (es: seq<Event>)
    requires Initial(s) && s.file.Absent? && d1.claims && d1.token !in s.daemons
    ensures Playable(s, es) && MildRun(s, es)
    ensures var v := Play(s, es);
            && v.election.None? && v.contenders.Keys == {0} && Reports(v, 0, d1)
            && v.daemons == s.daemons[d1.token := Daemon(d1, Serving, false)] && v.spawned == [d1.token]
  {
    var c := SpawnedAndPublished(s, d1);
    ReadinessSucceeds(Play(s, c), 0, d1);
    Snoc(s, c, ReadPointer(0));
    Snoc(s, c + [ReadPointer(0)], Try(0, Matches(d1.pid), false));
    es := c + [ReadPointer(0)] + [Try(0, Matches(d1.pid), false)];
  }

  lemma WithdrawStep(v: System, t: nat)
    requires Serves(v, t) && !v.daemons[t].withdrawn
    ensures Enabled(v, Withdraw(t, true))
    ensures Apply(v, Withdraw(t, true)) == v.(file := Absent, daemons := v.daemons[t := v.daemons[t].(withdrawn := true)])
  {
  }

  /** The spawner of `d1` sees it published and answering, and returns; then `d1` withdraws its pointer while serving. */
  lemma ReadyThenWithdrawn(s: System, d1: Descriptor) returns (es: seq<Event>)
    requires Initial(s) && s.file.Absent? && d1.claims && d1.token !in s.daemons
    ensures Playable(s, es) && MildRun(s, es)
    ensures var v := Play(s, es);
            && v.file.Absent? && v.election.None? && v.contenders.Keys == {0} && Reports(v, 0, d1)
            && v.daemons == s.daemons[d1.token := Daemon(d1, Serving, true)] && v.spawned == [d1.token]
  {
    var e := ReadyDaemon(s, d1);
    WithdrawStep(Play(s, e), d1.token);
    Snoc(s, e, Withdraw(d1.token, true));
    es := e + [Withdraw(d1.token, true)];
  }

  /**
    The idle watchdog is a second way to two daemons: nobody died, exited or
    answered late, yet a contender that looks while the pointer is withdrawn
    spawns beside a daemon that serves.
  */
  lemma WithdrawalElectsTwice(s: System, d1: Descriptor, d2: Descriptor) returns (es: seq<Event>)
    requires Initial(s) && s.file.Absent?
    requires d1.claims && d2.claims && d1.token !in s.daemons && d2.token !in s.daemons && d1.token != d2.token
    ensures Playable(s, es) && MildRun(s, es)
    ensures Play(s, es).spawned == [d1.token, d2.token] && Serves(Play(s, es), d1.token)
    ensures Play(s, es).daemons == s.daemons[d1.token := Daemon(d1, Serving, true)][d2.token := Daemon(d2, Starting, false)]
  {
    var a := ReadyThenWithdrawn(s, d1);
    var b := ReachClear(s, a, 1);
    es := ClearAndSpawn(s, b, 1, d2);
  }

  /** From there the first daemon's exit removes its successor's pointer. */
  lemma ExitRemovesSuccessor(s: System, d1: Descriptor, d2: Descriptor) returns (es: seq<Event>)
    requires Initial(s) && s.file.Absent?
    requires d1.claims && d2.claims && d1.token !in s.daemons && d2.token !in s.daemons && d1.token != d2.token
    ensures Playable(s, es) && Enabled(Play(s, es), ExitClearAny(d1.token, true))
    ensures Play(s, es).file == Holds(d2) && Serves(Play(s, es), d2.token)
    ensures Apply(Play(s, es), ExitClearAny(d1.token, true)).file.Absent?
  {
    var a := WithdrawalElectsTwice(s, d1, d2);
    Snoc(s, a, Publish(d2.token));
    var b := a + [Publish(d2.token)];
    Snoc(s, b, StopServing(d1.token));
    es := b + [StopServing(d1.token)];
  }

  /******* How long the election lock is held *******/

  const PROBE_TIMEOUT: nat := 2000
  const READY_TIMEOUT: nat := 10000
  const READY_POLL: nat := 50
  const SILENT_RETRY_TIMEOUT: nat := 15000
  const ELECTION_TIMEOUT: nat := 20000

  /** The n-th identity request of a call: what it met and how many milliseconds it took. */
  datatype Timed = Timed(read: Option<Descriptor>, attempt: Attempt, cost: nat)

  ghost predicate Bounded(net: nat -> Timed)
  {
    forall n :: net(n).cost <= PROBE_TIMEOUT
  }

  /** The read of the look that starts at request `i` found a descriptor of this domain. */
  predicate Claiming(net: nat -> Timed, i: nat)
  {
    net(i).read.Some? && net(i).read.value.claims
  }

  /** A refusal is tried once more; every other look makes one attempt at most. */
  function LookEnd(net: nat -> Timed, i: nat): nat
  {
    if Claiming(net, i) && net(i).attempt.Unreachable? then i + 2 else i + 1
  }

  function LookCost(net: nat -> Timed, i: nat): nat
  {
    if !Claiming(net, i) then 0
    else net(i).cost + (if net(i).attempt.Unreachable? then net(i + 1).cost else 0)
  }

  function LookAttempts(net: nat -> Timed, i: nat): seq<Attempt>
  {
    if LookEnd(net, i) == i + 1 then [net(i).attempt] else [net(i).attempt, net(i + 1).attempt]
  }

  predicate GoneLook(net: nat -> Timed, i: nat)
  {
    Claiming(net, i) ==> ProvesGone(LookAttempts(net, i))
  }

  predicate SilentLook(net: nat -> Timed, i: nat)
  {
    Claiming(net, i) && net(LookEnd(net, i) - 1).attempt.NoReply?
  }

  predicate LiveLook(net: nat -> Timed, i: nat)
  {
    Claiming(net, i) && net(LookEnd(net, i) - 1).attempt.Matches?
  }

  /** `p` is what the look at request `i` shows: each answer if and only if its evidence is there. */
  predicate Shows(net: nat -> Timed, i: nat, p: Probe)
  {
    && (p.Gone? <==> GoneLook(net, i))
    && (p.Silent? <==> SilentLook(net, i))
    && (p.Silent? ==> Some(p.descriptor) == net(i).read)
    && (p.Live? <==> LiveLook(net, i))
    && (LiveLook(net, i) ==> p == Live(net(i).read.value.(pid := net(LookEnd(net, i) - 1).attempt.pid)))
  }

  /** The first request of the k-th look of a polling loop, and the time at which that look starts. */
  function LookAt(net: nat -> Timed, from: nat, k: nat): nat
  {
    if k == 0 then from else LookEnd(net, LookAt(net, from, k - 1))
  }

  function Clock(net: nat -> Timed, from: nat, start: nat, k: nat): nat
  {
    if k == 0 then start
    else Clock(net, from, start, k - 1) + LookCost(net, LookAt(net, from, k - 1)) + READY_POLL
  }

  /** Look `k` starts inside the readiness window. */
  predicate InTime(net: nat -> Timed, from: nat, start: nat, k: nat)
  {
    Clock(net, from, start, k) < start + READY_TIMEOUT
  }

  predicate Missed(net: nat -> Timed, from: nat, start: nat, k: nat)
  {
    InTime(net, from, start, k) && !LiveLook(net, LookAt(net, from, k))
  }

  /** How the readiness loop ends: with the first live look, if it starts in time, and else with nothing. */
  ghost predicate WaitEnds(net: nat -> Timed, from: nat, start: nat, k: nat, r: Option<Descriptor>, now: nat)
  {
    && (forall j: nat :: j < k ==> Missed(net, from, start, j))
    && !Missed(net, from, start, k)
    && (r.Some? <==> InTime(net, from, start, k))
    && (r.Some? ==> Shows(net, LookAt(net, from, k), Live(r.value)))
    && now == Clock(net, from, start, k) + (if r.Some? then LookCost(net, LookAt(net, from, k)) else 0)
  }

  /** Look `k` was silent and ended inside the retry window, so the loop looks again. */
  predicate Retried(net: nat -> Timed, from: nat, start: nat, k: nat)
  {
    var i := LookAt(net, from, k);
    SilentLook(net, i) && Clock(net, from, start, k) + LookCost(net, i) < start + SILENT_RETRY_TIMEOUT
  }

  /** `probe_with_budget`: read the pointer, then one attempt, or two after a refusal. */
  method ProbeOnce(net: nat -> Timed, from: nat, start: nat) returns (p: Probe, next: nat, now: nat)
    requires Bounded(net)
    ensures next == LookEnd(net, from) && now == start + LookCost(net, from)
    ensures now <= start + 2 * PROBE_TIMEOUT
    ensures Shows(net, from, p)
  {
    next, now := from + 1, start;
    match net(from).read {
      case None => p := Gone;
      case Some(d) =>
        if !d.claims {
          p := Gone;
        } else {
          var first := net(from).attempt;
          now := now + net(from).cost;
          ghost var attempts := [first];
          var verdict := Verdict(d, [first]);
          if verdict.None? {
            var second := net(next).attempt;
            now := now + net(next).cost;
            verdict := Verdict(d, [first, second]);
            attempts := [first, second];
            next := next + 1;
          }
          p := verdict.value;
          assert attempts == LookAttempts(net, from);
          assert attempts[..|attempts| - 1] == [] || attempts[..|attempts| - 1] == [first];
          GoneIffProven(d, attempts);
        }
    }
  }

  /**
    `wait_until_ready`: poll until a daemon answers or the readiness window
    closes. The first live look that starts in time is what it returns, and
    `None` means that no look before the deadline was live.
  */
  method WaitUntilReady(net: nat -> Timed, from: nat, start: nat)
    returns (r: Option<Descriptor>, next: nat, now: nat, ghost k: nat)
    requires Bounded(net)
    ensures start <= now <= start + READY_TIMEOUT + 2 * PROBE_TIMEOUT + READY_POLL
    ensures WaitEnds(net, from, start, k, r, now)
    ensures next == LookAt(net, from, if r.Some? then k + 1 else k)
  {
    next, now, k := from, start, 0;
    while now < start + READY_TIMEOUT
      invariant start <= now <= start + READY_TIMEOUT + 2 * PROBE_TIMEOUT + READY_POLL
      invariant next == LookAt(net, from, k) && now == Clock(net, from, start, k)
      invariant forall j: nat :: j < k ==> Missed(net, from, start, j)
      decreases start + READY_TIMEOUT - now
    {
      var p;
      p, next, now := ProbeOnce(net, next, now);
      if p.Live? {
        assert Shows(net, LookAt(net, from, k), Live(p.descriptor));
        assert InTime(net, from, start, k);
        return Some(p.descriptor), next, now, k;
      }
      assert Missed(net, from, start, k);
      now, k := now + READY_POLL, k + 1;
    }
    r := None;
  }

  /**
    `probe_for_reuse_with_budget`: the answer is what the last look shows,
    every earlier look was silent inside the window, and silence is the
    answer only once the window is over.
  */
  method ProbeForReuse(net: nat -> Timed, from: nat, start: nat)
    returns (p: Probe, next: nat, now: nat, ghost k: nat)
    requires Bounded(net)
    ensures start <= now <= start + SILENT_RETRY_TIMEOUT + 2 * PROBE_TIMEOUT + READY_POLL
    ensures forall j: nat :: j < k ==> Retried(net, from, start, j)
    ensures !Retried(net, from, start, k)
    ensures Shows(net, LookAt(net, from, k), p)
    ensures next == LookAt(net, from, k + 1)
    ensures now == Clock(net, from, start, k) + LookCost(net, LookAt(net, from, k))
    ensures p.Silent? ==> start + SILENT_RETRY_TIMEOUT <= now
  {
    next, now, k := from, start, 0;
    while true
      invariant start <= now < start + SILENT_RETRY_TIMEOUT + READY_POLL
      invariant next == LookAt(net, from, k) && now == Clock(net, from, start, k)
      invariant forall j: nat :: j < k ==> Retried(net, from, start, j)
      decreases start + SILENT_RETRY_TIMEOUT + READY_POLL - now
    {
      p, next, now := ProbeOnce(net, next, now);
      if !(p.Silent? && now < start + SILENT_RETRY_TIMEOUT) {
        return;
      }
      now, k := now + READY_POLL, k + 1;
    }
  }

  /**
    Everything the election holder spends probing and sleeping: the recheck
    and, if it proves the pointer gone, the readiness wait. A blocked
    contender waits longer than that.
  */
  method HolderTime(net: nat -> Timed, start: nat) returns (r: Option<Descriptor>, now: nat, ghost k: nat)
    requires Bounded(net)
    ensures 0 <= now - start <= 18050 < ELECTION_TIMEOUT
    ensures !GoneLook(net, 0) ==> now == start + LookCost(net, 0)
    ensures !GoneLook(net, 0) ==> (r.Some? <==> LiveLook(net, 0)) && (r.Some? ==> Shows(net, 0, Live(r.value)))
    ensures GoneLook(net, 0) ==> WaitEnds(net, LookEnd(net, 0), start + LookCost(net, 0), k, r, now)
  {
    var p, n;
    p, n, now := ProbeOnce(net, 0, start);
    r, k := if p.Live? then Some(p.descriptor) else None, 0;
    if p.Gone? {
      r, n, now, k := WaitUntilReady(net, n, now);
    }
  }
}
