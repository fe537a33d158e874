/**
  Rate-limit backoff shared by gateway processes through one file. Windows are
  keyed by provider origin and hold the time before which it is not contacted.
*/
module DownstreamBackoff {
  import opened Basics

  type Windows = map<string, nat>

  /** `HTTP_RETRY_CAP`, in milliseconds. */
  const CAP: nat := 10000

  /******* Merging and normalizing *******/

  function At(m: Windows, k: string): nat
  {
    if k in m then m[k] else 0
  }

  function MergeMax(kept: Windows, incoming: Windows): Windows
  {
    map k | k in kept.Keys + incoming.Keys :: if At(kept, k) < At(incoming, k) then At(incoming, k) else At(kept, k)
  }

  function Sanitize(m: Windows, now: nat): Windows
  {
    map k | k in m && m[k] > now :: if m[k] > SaturatingAdd(now, CAP) then SaturatingAdd(now, CAP) else m[k]
  }

  lemma MergeAt(a: Windows, b: Windows, k: string)
    ensures k in MergeMax(a, b) <==> k in a || k in b
    ensures At(MergeMax(a, b), k) == Max(At(a, k), At(b, k))
  {
  }

  lemma SameWindows(a: Windows, b: Windows)
    requires forall k :: k in a <==> k in b
    requires forall k :: At(a, k) == At(b, k)
    ensures a == b
  {
    forall k <- a ensures k in b && a[k] == b[k] {
      assert At(a, k) == At(b, k);
    }
  }

  lemma MergeCommutes(a: Windows, b: Windows)
    ensures MergeMax(a, b) == MergeMax(b, a)
  {
    forall k ensures k in MergeMax(a, b) <==> k in MergeMax(b, a)
      ensures At(MergeMax(a, b), k) == At(MergeMax(b, a), k)
    {
      MergeAt(a, b, k);
      MergeAt(b, a, k);
    }
    SameWindows(MergeMax(a, b), MergeMax(b, a));
  }

  lemma MergeAssociates(a: Windows, b: Windows, c: Windows)
    ensures MergeMax(MergeMax(a, b), c) == MergeMax(a, MergeMax(b, c))
  {
    forall k ensures k in MergeMax(MergeMax(a, b), c) <==> k in MergeMax(a, MergeMax(b, c))
      ensures At(MergeMax(MergeMax(a, b), c), k) == At(MergeMax(a, MergeMax(b, c)), k)
    {
      MergeAt(a, b, k);
      MergeAt(b, c, k);
      MergeAt(MergeMax(a, b), c, k);
      MergeAt(a, MergeMax(b, c), k);
    }
    SameWindows(MergeMax(MergeMax(a, b), c), MergeMax(a, MergeMax(b, c)));
  }

  lemma MergeAbsorbs(a: Windows, b: Windows)
    requires forall k <- b :: k in a && b[k] <= a[k]
    ensures MergeMax(a, b) == a
  {
    forall k { MergeAt(a, b, k); }
    SameWindows(MergeMax(a, b), a);
  }

  /** `merge_max` is a join: the order and the number of merges do not matter, and nothing is lost. */
  lemma MergeIsJoin(a: Windows, b: Windows, c: Windows)
    ensures MergeMax(a, b) == MergeMax(b, a)
    ensures MergeMax(MergeMax(a, b), c) == MergeMax(a, MergeMax(b, c))
    ensures MergeMax(a, a) == a
    ensures MergeMax(MergeMax(a, b), b) == MergeMax(a, b)
    ensures forall k <- a :: k in MergeMax(a, b) && a[k] <= MergeMax(a, b)[k]
  {
    MergeCommutes(a, b);
    MergeAssociates(a, b, c);
    MergeAbsorbs(a, a);
    forall k ensures (k in b ==> k in MergeMax(a, b) && b[k] <= MergeMax(a, b)[k])
      ensures k in a ==> k in MergeMax(a, b) && a[k] <= MergeMax(a, b)[k]
    {
      MergeAt(a, b, k);
    }
    MergeAbsorbs(MergeMax(a, b), b);
  }

  /** The loop of `merge_max`, over the incoming entries in any order. */
  method MergeInto(kept: Windows, incoming: Windows) returns (r: Windows)
    ensures r == MergeMax(kept, incoming)
  {
    r := kept;
    var todo := incoming.Keys;
    while todo != {}
      invariant todo <= incoming.Keys
      invariant forall k :: k in r <==> k in kept || (k in incoming && k !in todo)
      invariant forall k <- r :: r[k] == if k in incoming && k !in todo then Max(At(kept, k), incoming[k]) else At(kept, k)
      decreases todo
    {
      var k :| k in todo;
      if k !in r {
        r := r[k := 0];
      }
      if r[k] < incoming[k] {
        r := r[k := incoming[k]];
      }
      todo := todo - {k};
    }
    forall k ensures k in r <==> k in MergeMax(kept, incoming)
      ensures At(r, k) == At(MergeMax(kept, incoming), k)
    {
      MergeAt(kept, incoming, k);
    }
    SameWindows(r, MergeMax(kept, incoming));
  }

  /** The loop of `sanitize`: `retain`, capping survivors in place. */
  method SanitizeInPlace(m: Windows, now: nat) returns (r: Windows)
    ensures r == Sanitize(m, now)
  {
    var ceiling := SaturatingAdd(now, CAP);
    r := m;
    var todo := m.Keys;
    while todo != {}
      invariant todo <= m.Keys
      invariant r == (map k | k in m && (k in todo || m[k] > now) :: if k !in todo && m[k] > ceiling then ceiling else m[k])
      decreases todo
    {
      var k :| k in todo;
      if r[k] <= now {
        r := r - {k};
      } else if r[k] > ceiling {
        r := r[k := ceiling];
      }
      todo := todo - {k};
    }
  }

  /******* Processes and the shared file *******/

  /** `recording` is the record a process is saving; its own mutex keeps other calls out meanwhile. */
  datatype Process = Process(bound: bool, windows: Windows, recording: Option<(string, nat)>)

  /** `promised` and `last` are history: windows saved so far, and when each key was last recorded. */
  datatype System = System(now: nat, file: Windows, processes: map<nat, Process>, promised: Windows, last: Windows)

  datatype Event =
    | Tick(ms: nat)
    | Start(p: nat)
    | Bind(p: nat, readable: bool)
    | RecordLocal(p: nat, key: string, retryAfter: Option<nat>)
    | RecordSave(p: nat, readable: bool)
    | RecordDrop(p: nat)
    | Consult(p: nat, key: string, readable: bool)

  predicate Free(s: System, p: nat)
  {
    p in s.processes && s.processes[p].recording.None?
  }

  predicate Enabled(s: System, e: Event)
  {
    match e
    case Tick(ms) => s.now + ms <= U64_MAX
    case Start(p) => p !in s.processes
    case Bind(p, _) => Free(s, p)
    case RecordLocal(p, _, _) => Free(s, p)
    case RecordSave(p, _) => p in s.processes && s.processes[p].recording.Some?
    case RecordDrop(p) => p in s.processes && s.processes[p].recording.Some?
    case Consult(p, _, _) => Free(s, p)
  }

  function NotBefore(now: nat, retryAfter: Option<nat>): nat
  {
    SaturatingAdd(now, if retryAfter.Some? && retryAfter.value < CAP then retryAfter.value else CAP)
  }

  /** The process windows after `remaining_for_url` has reloaded the file. */
  function Reloaded(s: System, p: Process): Windows
  {
    if p.bound then MergeMax(p.windows, Sanitize(s.file, s.now)) else p.windows
  }

  /** What `remaining_for_url` reports. */
  function Remaining(s: System, p: Process, key: string): Option<nat>
  {
    var nb := At(Reloaded(s, p), key);
    if nb > s.now then Some(if nb - s.now < CAP then nb - s.now else CAP) else None
  }

  function SetProcess(s: System, p: nat, x: Process): System
  {
    s.(processes := s.processes[p := x])
  }

  /** What a record writes; a file that cannot be read counts as empty. */
  function SaveFile(s: System, p: nat, readable: bool): Windows
    requires p in s.processes
  {
    Sanitize(MergeMax(if readable then s.file else map[], s.processes[p].windows), s.now)
  }

  function Apply(s: System, e: Event): System
    requires Enabled(s, e)
  {
    match e
    case Tick(ms) => s.(now := s.now + ms)
    case Start(p) => SetProcess(s, p, Process(false, map[], None))
    case Bind(p, readable) =>
      var x := s.processes[p];
      if x.bound then s
      else SetProcess(s, p, x.(bound := true, windows := if readable then MergeMax(x.windows, Sanitize(s.file, s.now)) else x.windows))
    case RecordLocal(p, key, retryAfter) =>
      var x, nb := s.processes[p], NotBefore(s.now, retryAfter);
      SetProcess(s, p, x.(windows := MergeMax(x.windows, map[key := nb]),
                          recording := if x.bound then Some((key, nb)) else None)).(last := s.last[key := s.now])
    case RecordSave(p, readable) =>
      var disk, (key, nb) := SaveFile(s, p, readable), s.processes[p].recording.value;
      SetProcess(s, p, s.processes[p].(windows := disk, recording := None))
        .(file := disk, promised := MergeMax(s.promised, map[key := nb]))
    case RecordDrop(p) => SetProcess(s, p, s.processes[p].(recording := None))
    case Consult(p, _, readable) =>
      SetProcess(s, p, s.processes[p].(windows := if readable then Reloaded(s, s.processes[p]) else s.processes[p].windows))
  }

  predicate Initial(s: System)
  {
    s.file == map[] && s.processes == map[] && s.promised == map[] && s.last == map[] && s.now <= U64_MAX
  }

  predicate Playable(s: System, es: seq<Event>)
    decreases |es|, 0
  {
    es == [] || (Playable(s, es[..|es| - 1]) && Enabled(Play(s, es[..|es| - 1]), es[|es| - 1]))
  }

  function Play(s: System, es: seq<Event>): System
    requires Playable(s, es)
    decreases |es|, 1
  {
    if es == [] then s else Apply(Play(s, es[..|es| - 1]), es[|es| - 1])
  }

  /******* What every step keeps *******/

  /** No window reaches past one cap after the key was last recorded. */
  ghost predicate Bounded(m: Windows, last: Windows)
  {
    forall k <- m :: k in last && m[k] <= SaturatingAdd(last[k], CAP)
  }

  ghost predicate ProcessOk(s: System, p: Process)
  {
    && Bounded(p.windows, s.last)
    && (p.recording.Some? ==>
          && p.bound && p.recording.value.0 in p.windows
          && p.recording.value.1 <= p.windows[p.recording.value.0])
  }

  ghost predicate Inv(s: System)
  {
    && s.now <= U64_MAX
    && (forall k <- s.last :: s.last[k] <= s.now)
    && Bounded(s.file, s.last) && Bounded(s.promised, s.last)
    && (forall p <- s.processes :: ProcessOk(s, s.processes[p]))
  }

  /** The window saved for `k`, if it is still open, is in the file. */
  ghost predicate KeptKey(s: System, k: string)
  {
    k in s.promised && s.promised[k] > s.now ==> s.promised[k] <= At(s.file, k)
  }

  lemma BoundedMerge(a: Windows, b: Windows, last: Windows)
    requires Bounded(a, last) && Bounded(b, last)
    ensures Bounded(MergeMax(a, b), last)
  {
  }

  lemma BoundedSanitize(a: Windows, now: nat, last: Windows)
    requires Bounded(a, last)
    ensures Bounded(Sanitize(a, now), last)
  {
  }

  /** Saving never shortens an open window that is at most one cap away. */
  lemma SanitizeKeeps(a: Windows, now: nat, k: string, v: nat)
    requires now < v <= At(a, k) && v <= SaturatingAdd(now, CAP)
    ensures v <= At(Sanitize(a, now), k)
  {
  }

  lemma ReloadKeepsInv(s: System, p: nat, x: Process)
    requires Inv(s) && p in s.processes && x.recording.None?
    requires x.windows == s.processes[p].windows || x.windows == MergeMax(s.processes[p].windows, Sanitize(s.file, s.now))
    ensures Inv(SetProcess(s, p, x))
  {
    assert ProcessOk(s, s.processes[p]);
    BoundedSanitize(s.file, s.now, s.last);
    BoundedMerge(s.processes[p].windows, Sanitize(s.file, s.now), s.last);
    var s' := SetProcess(s, p, x);
    forall q <- s'.processes ensures ProcessOk(s', s'.processes[q]) {
      if q != p {
        assert ProcessOk(s, s.processes[q]);
      }
    }
  }

  lemma RecordKeepsInv(s: System, e: Event)
    requires Inv(s) && Enabled(s, e) && e.RecordLocal?
    ensures Inv(Apply(s, e))
  {
    var s', x, nb := Apply(s, e), s.processes[e.p], NotBefore(s.now, e.retryAfter);
    assert forall m: Windows :: Bounded(m, s.last) ==> Bounded(m, s'.last);
    assert Bounded(map[e.key := nb], s'.last);
    assert ProcessOk(s, x);
    BoundedMerge(x.windows, map[e.key := nb], s'.last);
    forall q <- s'.processes ensures ProcessOk(s', s'.processes[q]) {
      if q != e.p {
        assert ProcessOk(s, s.processes[q]);
      }
    }
  }

  lemma WithinCap(m: Windows, last: Windows, now: nat, k: string)
    requires Bounded(m, last) && forall j <- last :: last[j] <= now
    ensures At(m, k) <= SaturatingAdd(now, CAP)
  {
  }

  /** A record whose read of the file failed, by a process that knows less of the open window than was promised. */
  predicate Loses(s: System, e: Event, k: string)
    requires Enabled(s, e)
  {
    && e.RecordSave? && !e.readable
    && k in s.promised && s.promised[k] > s.now && At(s.processes[e.p].windows, k) < s.promised[k]
  }

  /** The window expires, or is saved anew by a process that still knows of it. */
  predicate Restores(s: System, e: Event, k: string)
    requires Enabled(s, e) && k in s.promised
  {
    || (e.Tick? && s.promised[k] <= s.now + e.ms)
    || (e.RecordSave? && At(s.processes[e.p].windows, k) >= s.promised[k])
  }

  lemma SanitizeLowers(a: Windows, now: nat, k: string)
    ensures At(Sanitize(a, now), k) <= At(a, k)
  {
  }

  /** What a save leaves of key `k`, in numbers. */
  lemma SaveLeaves(s: System, p: nat, readable: bool, k: string)
    requires Inv(s) && Enabled(s, RecordSave(p, readable))
    ensures var s', own := Apply(s, RecordSave(p, readable)), At(s.processes[p].windows, k);
            && s'.now == s.now
            && At(s'.promised, k) >= At(s.promised, k) && (own < At(s'.promised, k) ==> At(s'.promised, k) == At(s.promised, k))
            && At(s'.file, k) <= Max(if readable then At(s.file, k) else 0, own)
            && (At(s'.promised, k) > s.now && At(s'.promised, k) <= Max(if readable then At(s.file, k) else 0, own) ==>
                  At(s'.promised, k) <= At(s'.file, k))
  {
    var x := s.processes[p];
    var (key, nb) := x.recording.value;
    var file: Windows := if readable then s.file else map[];
    assert ProcessOk(s, x);
    MergeAt(s.promised, map[key := nb], k);
    MergeAt(file, x.windows, k);
    SanitizeLowers(MergeMax(file, x.windows), s.now, k);
    SaveIsBounded(s, p, readable);
    var v := At(MergeMax(s.promised, map[key := nb]), k);
    WithinCap(MergeMax(s.promised, map[key := nb]), s.last, s.now, k);
    if s.now < v <= At(MergeMax(file, x.windows), k) {
      SanitizeKeeps(MergeMax(file, x.windows), s.now, k, v);
    }
  }

  lemma KeptByNumbers(s: System, k: string)
    ensures KeptKey(s, k) <==> (At(s.promised, k) > s.now ==> At(s.promised, k) <= At(s.file, k))
  {
  }

  /** The one way a saved window is lost. */
  lemma LostIffLoses(s: System, e: Event, k: string)
    requires Inv(s) && Enabled(s, e) && KeptKey(s, k)
    ensures !KeptKey(Apply(s, e), k) <==> Loses(s, e, k)
  {
    if e.RecordSave? {
      SaveLeaves(s, e.p, e.readable, k);
      KeptByNumbers(s, k);
      KeptByNumbers(Apply(s, e), k);
    }
  }

  /** And the two ways it is no longer lost. */
  lemma RegainedIffRestores(s: System, e: Event, k: string)
    requires Inv(s) && Enabled(s, e) && !KeptKey(s, k)
    ensures KeptKey(Apply(s, e), k) <==> Restores(s, e, k)
  {
    if e.RecordSave? {
      SaveLeaves(s, e.p, e.readable, k);
      KeptByNumbers(s, k);
      KeptByNumbers(Apply(s, e), k);
    }
  }

  lemma SaveIsBounded(s: System, p: nat, readable: bool)
    requires Inv(s) && Enabled(s, RecordSave(p, readable))
    ensures Bounded(SaveFile(s, p, readable), s.last) && Bounded(Apply(s, RecordSave(p, readable)).promised, s.last)
  {
    var x := s.processes[p];
    var (key, nb) := x.recording.value;
    var file: Windows := if readable then s.file else map[];
    assert ProcessOk(s, x);
    BoundedMerge(file, x.windows, s.last);
    BoundedSanitize(MergeMax(file, x.windows), s.now, s.last);
    BoundedMerge(s.promised, map[key := nb], s.last);
  }

  lemma SaveKeepsInv(s: System, p: nat, readable: bool)
    requires Inv(s) && Enabled(s, RecordSave(p, readable))
    ensures Inv(Apply(s, RecordSave(p, readable)))
  {
    var s' := Apply(s, RecordSave(p, readable));
    SaveIsBounded(s, p, readable);
    forall q <- s'.processes ensures ProcessOk(s', s'.processes[q]) {
      if q != p {
        assert ProcessOk(s, s.processes[q]);
      }
    }
  }

  lemma StepKeepsInv(s: System, e: Event)
    requires Inv(s) && Enabled(s, e)
    ensures Inv(Apply(s, e))
  {
    match e
    case Tick(_) => assert forall p <- s.processes :: ProcessOk(s, s.processes[p]);
    case Start(_) => assert forall p <- s.processes :: ProcessOk(s, s.processes[p]);
    case Bind(p, _) =>
      if !s.processes[p].bound {
        ReloadKeepsInv(s, p, Apply(s, e).processes[p]);
      }
    case RecordLocal(_, _, _) => RecordKeepsInv(s, e);
    case RecordSave(p, readable) => SaveKeepsInv(s, p, readable);
    case RecordDrop(p) => ReloadKeepsInv(s, p, Apply(s, e).processes[p]);
    case Consult(p, _, _) => ReloadKeepsInv(s, p, Apply(s, e).processes[p]);
  }

  lemma {:induction false} RunKeepsInv(s: System, es: seq<Event>)
    requires Initial(s) && Playable(s, es)
    ensures Inv(Play(s, es))
  {
    if es != [] {
      RunKeepsInv(s, es[..|es| - 1]);
      StepKeepsInv(Play(s, es[..|es| - 1]), es[|es| - 1]);
    }
  }

  /** Event `j` loses the window of `k`. */
  ghost predicate LosesAt(s: System, es: seq<Event>, k: string, j: nat)
  {
    j < |es| && Playable(s, es[..j]) && Enabled(Play(s, es[..j]), es[j]) && Loses(Play(s, es[..j]), es[j], k)
  }

  ghost predicate RestoresAt(s: System, es: seq<Event>, k: string, j: nat)
  {
    && j < |es| && Playable(s, es[..j]) && Enabled(Play(s, es[..j]), es[j])
    && k in Play(s, es[..j]).promised && Restores(Play(s, es[..j]), es[j], k)
  }

  /** Event `j` loses the window, and nothing has restored it since. */
  ghost predicate LostSince(s: System, es: seq<Event>, k: string, j: nat)
  {
    LosesAt(s, es, k, j) && forall n :: j < n < |es| ==> !RestoresAt(s, es, k, n)
  }

  lemma SamePrefix(s: System, es: seq<Event>, k: string, j: nat)
    requires es != [] && j < |es| - 1
    ensures LosesAt(s, es[..|es| - 1], k, j) <==> LosesAt(s, es, k, j)
    ensures RestoresAt(s, es[..|es| - 1], k, j) <==> RestoresAt(s, es, k, j)
  {
    assert es[..|es| - 1][..j] == es[..j] && es[..|es| - 1][j] == es[j];
  }

  lemma LostGoesOn(s: System, before: seq<Event>, es: seq<Event>, k: string, j: nat)
    requires es != [] && before == es[..|es| - 1] && j < |before|
    ensures LostSince(s, es, k, j) <==> LostSince(s, before, k, j) && !RestoresAt(s, es, k, |es| - 1)
  {
    SamePrefix(s, es, k, j);
    forall n | j < n < |before| ensures RestoresAt(s, before, k, n) <==> RestoresAt(s, es, k, n) {
      SamePrefix(s, es, k, n);
    }
  }

  /** Only an open promise is lost or restored, and a step cannot do both. */
  lemma NotBoth(s: System, e: Event, k: string)
    requires Enabled(s, e) && k in s.promised && Loses(s, e, k)
    ensures !Restores(s, e, k)
  {
  }

  /**
    Exactly when a saved window is missing from the file, for every run: a
    record whose read failed, by a process that knew less of it, overwrote it,
    and it has neither expired nor been saved again by one that knew.
  */
  lemma {:induction false} MissingIffLost(s: System, es: seq<Event>, k: string)
    requires Initial(s) && Playable(s, es)
    ensures !KeptKey(Play(s, es), k) <==> exists j :: LostSince(s, es, k, j)
  {
    if es != [] {
      var n := |es| - 1;
      var before := es[..n];
      var v := Play(s, before);
      MissingIffLost(s, before, k);
      RunKeepsInv(s, before);
      if KeptKey(v, k) {
        LostIffLoses(v, es[n], k);
        KeptThenLost(s, before, es, k);
      } else {
        RegainedIffRestores(v, es[n], k);
        var j: nat :| LostSince(s, before, k, j);
        LostGoesOn(s, before, es, k, j);
        if Restores(v, es[n], k) {
          LostThenRestored(s, before, es, k);
        }
      }
    }
  }

  lemma KeptThenLost(s: System, before: seq<Event>, es: seq<Event>, k: string)
    requires es != [] && before == es[..|es| - 1] && Playable(s, es) && !exists j :: LostSince(s, before, k, j)
    ensures (exists j :: LostSince(s, es, k, j)) <==> Loses(Play(s, before), es[|es| - 1], k)
  {
    var n := |es| - 1;
    forall j: nat | j < n ensures !LostSince(s, es, k, j) {
      LostGoesOn(s, before, es, k, j);
      assert !LostSince(s, before, k, j);
    }
    LosesLast(s, before, es, k);
  }

  lemma LosesLast(s: System, before: seq<Event>, es: seq<Event>, k: string)
    requires es != [] && before == es[..|es| - 1] && Playable(s, es)
    ensures LostSince(s, es, k, |es| - 1) <==> Loses(Play(s, before), es[|es| - 1], k)
  {
  }

  lemma LostThenRestored(s: System, before: seq<Event>, es: seq<Event>, k: string)
    requires es != [] && before == es[..|es| - 1] && Playable(s, es) && RestoresAt(s, es, k, |es| - 1)
    ensures !exists j :: LostSince(s, es, k, j)
  {
    var n := |es| - 1;
    forall j: nat ensures !LostSince(s, es, k, j) {
      if j < n {
        LostGoesOn(s, before, es, k, j);
      } else if j == n && LosesAt(s, es, k, n) {
        NotBoth(Play(s, before), es[n], k);
      }
    }
  }

  /** No event of the run loses the window of `k`. */
  ghost predicate NeverLost(s: System, es: seq<Event>, k: string)
  {
    forall j :: 0 <= j < |es| ==> !LosesAt(s, es, k, j)
  }

  /** Then a saved window is in the file until it expires. */
  lemma RunKeepsKept(s: System, es: seq<Event>, k: string)
    requires Initial(s) && Playable(s, es) && NeverLost(s, es, k)
    ensures KeptKey(Play(s, es), k)
  {
    MissingIffLost(s, es, k);
  }

  /** What a bound process that reads the file reports covers the rest of the promise. */
  predicate Covers(z: System, x: Process, key: string)
    requires key in z.promised && z.promised[key] > z.now
  {
    Remaining(z, x, key).Some? && z.promised[key] - z.now <= Remaining(z, x, key).value
  }

  lemma CoversByNumbers(z: System, x: Process, key: string)
    requires Inv(z) && x.bound && key in z.promised && z.promised[key] > z.now
    ensures Covers(z, x, key) <==> KeptKey(z, key) || z.promised[key] <= At(x.windows, key)
  {
    assert z.promised[key] <= SaturatingAdd(z.last[key], CAP) <= SaturatingAdd(z.now, CAP);
    MergeAt(x.windows, Sanitize(z.file, z.now), key);
    SanitizeLowers(z.file, z.now, key);
    if KeptKey(z, key) {
      SanitizeKeeps(z.file, z.now, key, z.promised[key]);
    }
  }

  /**
    Once a window is saved, a bound process that can read the file reports at
    least what is left of it, if and only if the window was not lost or the
    process itself knows of it.
  */
  lemma WindowsAreNeverShortened(s: System, es: seq<Event>, p: nat, key: string)
    requires Initial(s) && Playable(s, es) && p in Play(s, es).processes && Play(s, es).processes[p].bound
    requires key in Play(s, es).promised && Play(s, es).promised[key] > Play(s, es).now
    ensures Covers(Play(s, es), Play(s, es).processes[p], key) <==>
              || !(exists j :: LostSince(s, es, key, j))
              || Play(s, es).promised[key] <= At(Play(s, es).processes[p].windows, key)
  {
    RunKeepsInv(s, es);
    MissingIffLost(s, es, key);
    CoversByNumbers(Play(s, es), Play(s, es).processes[p], key);
  }

  lemma Snoc(s: System, es: seq<Event>, e: Event)
    requires Playable(s, es) && Enabled(Play(s, es), e)
    ensures Playable(s, es + [e]) && Play(s, es + [e]) == Apply(Play(s, es), e)
  {
    assert (es + [e])[..|es + [e]| - 1] == es;
  }

  /** A process that starts and binds while the file is empty. */
  lemma Joins(s: System, es: seq<Event>, p: nat) returns (es': seq<Event>)
    requires Playable(s, es) && p !in Play(s, es).processes && Play(s, es).file == map[]
    ensures Playable(s, es') && Play(s, es') == SetProcess(Play(s, es), p, Process(true, map[], None))
  {
    Snoc(s, es, Start(p));
    var a := es + [Start(p)];
    Snoc(s, a, Bind(p, true));
    es' := a + [Bind(p, true)];
    assert MergeMax(map[], Sanitize(map[], Play(s, es).now)) == map[];
  }

  function Recording(v: System, p: nat, key: string): System
  {
    var nb := v.now + CAP;
    SetProcess(v, p, Process(true, map[key := nb], Some((key, nb)))).(last := v.last[key := v.now])
  }

  function Saved(v: System, p: nat, key: string): System
  {
    var nb := v.now + CAP;
    System(v.now, map[key := nb], v.processes[p := Process(true, map[key := nb], None)],
           MergeMax(v.promised, map[key := nb]), v.last[key := v.now])
  }

  lemma LocalStep(v: System, p: nat, key: string)
    requires p in v.processes && v.processes[p] == Process(true, map[], None) && v.now + CAP <= U64_MAX
    ensures Enabled(v, RecordLocal(p, key, None)) && Apply(v, RecordLocal(p, key, None)) == Recording(v, p, key)
  {
    assert MergeMax(map[], map[key := v.now + CAP]) == map[key := v.now + CAP];
  }

  lemma OwnWindow(now: nat, key: string)
    requires now + CAP <= U64_MAX
    ensures var own := map[key := now + CAP]; Sanitize(MergeMax(map[], own), now) == own
  {
    var own := map[key := now + CAP];
    assert MergeMax(map[], own) == own;
    assert Sanitize(own, now) == own;
  }

  lemma SaveStep(v: System, p: nat, key: string, readable: bool)
    requires (v.file == map[] || !readable) && v.now + CAP <= U64_MAX
    ensures Enabled(Recording(v, p, key), RecordSave(p, readable))
    ensures Apply(Recording(v, p, key), RecordSave(p, readable)) == Saved(v, p, key)
  {
    var w, own := Recording(v, p, key), map[key := v.now + CAP];
    OwnWindow(v.now, key);
    assert SaveFile(w, p, readable) == own;
    ReplaceTwice(v.processes, p, w.processes[p], Process(true, own, None));
  }

  lemma ReplaceTwice(m: map<nat, Process>, p: nat, x: Process, y: Process)
    ensures m[p := x][p := y] == m[p := y]
  {
  }

  /** A record and its save by a process that knows of no window yet. */
  lemma Records(s: System, es: seq<Event>, p: nat, key: string, readable: bool) returns (es': seq<Event>)
    requires Playable(s, es) && p in Play(s, es).processes && Play(s, es).processes[p] == Process(true, map[], None)
    requires (Play(s, es).file == map[] || !readable) && Play(s, es).now + CAP <= U64_MAX
    ensures Playable(s, es') && Play(s, es') == Saved(Play(s, es), p, key)
  {
    LocalStep(Play(s, es), p, key);
    SaveStep(Play(s, es), p, key, readable);
    Snoc(s, es, RecordLocal(p, key, None));
    var a := es + [RecordLocal(p, key, None)];
    Snoc(s, a, RecordSave(p, readable));
    es' := a + [RecordSave(p, readable)];
  }

  lemma PromiseMade(v: System, p: nat, a: string)
    ensures a in Saved(v, p, a).promised && Saved(v, p, a).promised[a] >= v.now + CAP
  {
  }

  lemma PromiseStays(v: System, p: nat, a: string, b: string)
    requires a in v.promised
    ensures a in Saved(v, p, b).promised && Saved(v, p, b).promised[a] >= v.promised[a]
  {
  }

  lemma NotReported(z: System, x: Process, a: string, b: string, nb: nat)
    requires z.file == map[b := nb] && x == Process(true, map[b := nb], None) && a != b
    ensures Remaining(z, x, a).None?
  {
    MergeAt(x.windows, Sanitize(z.file, z.now), a);
  }

  /**
    A record whose read of the file fails overwrites it with one process's own
    windows: a saved window is then gone for everyone else.
  */
  lemma BlindRecordLosesWindow(s: System, a: string, b: string) returns (es: seq<Event>)
    requires Initial(s) && s.now + CAP <= U64_MAX && a != b
    ensures Playable(s, es)
    ensures var z := Play(s, es);
            && a in z.promised && z.promised[a] > z.now && 1 in z.processes && z.processes[1].bound
            && Remaining(z, z.processes[1], a).None?
  {
    var c := Joins(s, [], 0);
    var d := Joins(s, c, 1);
    var e := Records(s, d, 0, a, true);
    assert Play(s, e).processes[1] == Process(true, map[], None);
    PromiseMade(Play(s, d), 0, a);
    es := Records(s, e, 1, b, false);
    PromiseStays(Play(s, e), 1, a, b);
    NotReported(Play(s, es), Play(s, es).processes[1], a, b, s.now + CAP);
  }

  /** One cap after a key was last recorded, no process reports a window for it. */
  lemma WindowsAreReleased(s: System, es: seq<Event>, p: nat, key: string)
    requires Initial(s) && Playable(s, es) && p in Play(s, es).processes
    requires key in Play(s, es).last ==> Play(s, es).last[key] + CAP <= Play(s, es).now
    ensures Remaining(Play(s, es), Play(s, es).processes[p], key).None?
  {
    RunKeepsInv(s, es);
    var z := Play(s, es);
    assert ProcessOk(z, z.processes[p]);
    BoundedSanitize(z.file, z.now, z.last);
    BoundedMerge(z.processes[p].windows, Sanitize(z.file, z.now), z.last);
  }

  /**
    A deadline this code did not write is capped against each new clock
    reading, not once: a bound process, whatever it knows itself, is released
    one cap after `t` exactly when neither the file's own deadline nor its own
    is later than that.
  */
  lemma ForeignDeadline(file: Windows, x: Process, t: nat, key: string)
    requires x.bound && At(file, key) <= U64_MAX && At(x.windows, key) <= U64_MAX
    ensures (forall now :: t + CAP <= now <= U64_MAX ==> RemainingAt(file, x, key, now).None?)
            <==> At(file, key) <= t + CAP && At(x.windows, key) <= t + CAP
  {
    forall now: nat | t + CAP <= now <= U64_MAX
      ensures RemainingAt(file, x, key, now).None? <==> At(file, key) <= now && At(x.windows, key) <= now
    {
      ReleasedAt(file, x, key, now);
    }
    if t + CAP <= U64_MAX {
      ReleasedAt(file, x, key, t + CAP);
    }
  }

  lemma ReleasedAt(file: Windows, x: Process, key: string, now: nat)
    requires x.bound && At(file, key) <= U64_MAX && At(x.windows, key) <= U64_MAX && now <= U64_MAX
    ensures RemainingAt(file, x, key, now).None? <==> At(file, key) <= now && At(x.windows, key) <= now
  {
    MergeAt(x.windows, Sanitize(file, now), key);
  }

  /** What a process reports at a time when the file holds these windows. */
  function RemainingAt(file: Windows, x: Process, key: string, now: nat): Option<nat>
  {
    Remaining(System(now, file, map[], map[], map[]), x, key)
  }
}
