/**
  What one 429 promises, told from the event itself: how long the recording
  process and every reader of the file hold back, and that nobody holds back
  for longer than some record asked for.
*/
module BackoffRecords {
  import opened Basics
  import opened DownstreamBackoff

  /** The time a 429 met at `t` asks for: the advertised delay, ten seconds at most, and ten seconds without one. */
  function Deadline(t: nat, retryAfter: Option<nat>): nat
  {
    Min(U64_MAX, t + if retryAfter.None? then 10000 else Min(retryAfter.value, 10000))
  }

  /** Event `j` of the run is a 429 that process `p` met for `key`. */
  ghost predicate RecordedAt(s: System, es: seq<Event>, j: nat, p: nat, key: string)
  {
    j < |es| && Playable(s, es[..j]) && es[j].RecordLocal? && es[j].p == p && es[j].key == key
  }

  ghost function DeadlineAt(s: System, es: seq<Event>, j: nat): nat
    requires j < |es| && Playable(s, es[..j]) && es[j].RecordLocal?
  {
    Deadline(Play(s, es[..j]).now, es[j].retryAfter)
  }

  lemma {:induction false} PlayAt(s: System, es: seq<Event>, j: nat)
    requires Playable(s, es) && j < |es|
    ensures Playable(s, es[..j]) && Playable(s, es[..j + 1]) && Enabled(Play(s, es[..j]), es[j])
    ensures Play(s, es[..j + 1]) == Apply(Play(s, es[..j]), es[j])
  {
    if j + 1 == |es| {
      assert es[..j + 1] == es;
    } else {
      var n := |es| - 1;
      PlayAt(s, es[..n], j);
      assert es[..n][..j] == es[..j] && es[..n][..j + 1] == es[..j + 1];
    }
  }

  /******* The recording process *******/

  /** Process `p` knows of a window for `key` up to `d`, which is at most one cap away. */
  predicate Knows(s: System, p: nat, key: string, d: nat)
  {
    && p in s.processes && d <= SaturatingAdd(s.now, CAP)
    && (s.now < d ==> d <= At(s.processes[p].windows, key))
  }

  lemma RecordOpens(s: System, e: Event)
    requires Enabled(s, e) && e.RecordLocal?
    ensures Knows(Apply(s, e), e.p, e.key, Deadline(s.now, e.retryAfter))
  {
  }

  lemma SaveKnows(s: System, e: Event, p: nat, key: string, d: nat)
    requires Enabled(s, e) && e.RecordSave? && e.p == p && Knows(s, p, key, d)
    ensures Knows(Apply(s, e), p, key, d)
  {
    var file: Windows := if e.readable then s.file else map[];
    MergeAt(file, s.processes[p].windows, key);
    if s.now < d {
      SanitizeKeeps(MergeMax(file, s.processes[p].windows), s.now, key, d);
    }
  }

  lemma StepKnows(s: System, e: Event, p: nat, key: string, d: nat)
    requires Enabled(s, e) && Knows(s, p, key, d)
    ensures Knows(Apply(s, e), p, key, d)
  {
    match e
    case Tick(_) =>
    case Start(_) =>
    case Bind(_, _) => MergeAt(s.processes[p].windows, Sanitize(s.file, s.now), key);
    case RecordLocal(_, k, retryAfter) => MergeAt(s.processes[p].windows, map[k := NotBefore(s.now, retryAfter)], key);
    case RecordSave(q, _) => if q == p { SaveKnows(s, e, p, key, d); }
    case RecordDrop(_) =>
    case Consult(_, _, _) => MergeAt(s.processes[p].windows, Sanitize(s.file, s.now), key);
  }

  lemma {:induction false} KnowsSince(s: System, es: seq<Event>, j: nat, p: nat, key: string, d: nat)
    requires Playable(s, es) && j <= |es| && Playable(s, es[..j]) && Knows(Play(s, es[..j]), p, key, d)
    ensures Knows(Play(s, es), p, key, d)
  {
    if j == |es| {
      assert es[..j] == es;
    } else {
      var n := |es| - 1;
      assert es[..n][..j] == es[..j];
      KnowsSince(s, es[..n], j, p, key, d);
      StepKnows(Play(s, es[..n]), es[n], p, key, d);
    }
  }

  /** The process that met the 429 reports at least the rest of the time asked for, whatever happens in between. */
  lemma RecorderHoldsBack(s: System, es: seq<Event>, j: nat, p: nat, key: string)
    requires Playable(s, es) && RecordedAt(s, es, j, p, key) && Play(s, es).now < DeadlineAt(s, es, j)
    ensures p in Play(s, es).processes
    ensures var z := Play(s, es);
            && Remaining(z, z.processes[p], key).Some?
            && Remaining(z, z.processes[p], key).value >= DeadlineAt(s, es, j) - z.now
  {
    PlayAt(s, es, j);
    RecordOpens(Play(s, es[..j]), es[j]);
    KnowsSince(s, es, j + 1, p, key, DeadlineAt(s, es, j));
    var z := Play(s, es);
    MergeAt(z.processes[p].windows, Sanitize(z.file, z.now), key);
  }

  /** Event `j` has process `p` take over what the file holds. */
  ghost predicate TakesOver(s: System, es: seq<Event>, j: nat, p: nat)
  {
    && j < |es| && Playable(s, es[..j]) && Enabled(Play(s, es[..j]), es[j])
    && ((es[j].Consult? && es[j].p == p && es[j].readable && Play(s, es[..j]).processes[p].bound)
        || (es[j] == Bind(p, true) && !Play(s, es[..j]).processes[p].bound))
  }

  lemma TakenOver(s: System, e: Event, p: nat, key: string)
    requires Inv(s) && Enabled(s, e) && p in s.processes
    requires (e.Consult? && e.p == p && e.readable && s.processes[p].bound) || (e == Bind(p, true) && !s.processes[p].bound)
    ensures p in Apply(s, e).processes
    ensures var x := s.processes[p].(bound := true);
            Remaining(s, x, key).Some? ==> Knows(Apply(s, e), p, key, s.now + Remaining(s, x, key).value)
  {
    var all := MergeMax(s.processes[p].windows, Sanitize(s.file, s.now));
    assert ProcessOk(s, s.processes[p]);
    BoundedSanitize(s.file, s.now, s.last);
    BoundedMerge(s.processes[p].windows, Sanitize(s.file, s.now), s.last);
    WithinCap(all, s.last, s.now, key);
  }

  /**
    A window a process has read from the file stays with it: from then on it
    holds back for the rest of what it reported, whatever becomes of the file.
  */
  lemma ReaderRemembers(s: System, es: seq<Event>, j: nat, p: nat, key: string)
    requires Initial(s) && Playable(s, es) && TakesOver(s, es, j, p)
    requires var v := Play(s, es[..j]);
             && Remaining(v, v.processes[p].(bound := true), key).Some?
             && Play(s, es).now < v.now + Remaining(v, v.processes[p].(bound := true), key).value
    ensures p in Play(s, es).processes
    ensures var v, z := Play(s, es[..j]), Play(s, es);
            && Remaining(z, z.processes[p], key).Some?
            && z.now + Remaining(z, z.processes[p], key).value >= v.now + Remaining(v, v.processes[p].(bound := true), key).value
  {
    var v, z := Play(s, es[..j]), Play(s, es);
    var d := v.now + Remaining(v, v.processes[p].(bound := true), key).value;
    PlayAt(s, es, j);
    RunKeepsInv(s, es[..j]);
    TakenOver(v, es[j], p, key);
    KnowsSince(s, es, j + 1, p, key, d);
    MergeAt(z.processes[p].windows, Sanitize(z.file, z.now), key);
  }

  /******* Every reader of the file *******/

  predicate Of(e: Event, p: nat)
  {
    match e
    case Tick(_) => false
    case _ => e.p == p
  }

  /** Event `i` saves what event `j` recorded: the next thing the process does. */
  ghost predicate SavedAt(s: System, es: seq<Event>, j: nat, i: nat, p: nat, key: string)
  {
    && RecordedAt(s, es, j, p, key) && j < i < |es| && es[i].RecordSave? && es[i].p == p
    && forall m :: j < m < i ==> !Of(es[m], p)
  }

  lemma OthersLeaveAlone(s: System, e: Event, p: nat)
    requires Enabled(s, e) && !Of(e, p) && p in s.processes
    ensures p in Apply(s, e).processes && Apply(s, e).processes[p] == s.processes[p]
  {
  }

  lemma RecordBegins(s: System, e: Event)
    requires Enabled(s, e) && e.RecordLocal?
    ensures e.p in Apply(s, e).processes
    ensures Apply(s, e).processes[e.p].recording.Some? ==>
              Apply(s, e).processes[e.p].recording.value == (e.key, Deadline(s.now, e.retryAfter))
  {
  }

  lemma {:induction false} Undisturbed(s: System, es: seq<Event>, from: nat, to: nat, p: nat)
    requires Playable(s, es) && from <= to <= |es| && Playable(s, es[..from]) && p in Play(s, es[..from]).processes
    requires forall m :: from <= m < to ==> !Of(es[m], p)
    ensures Playable(s, es[..to]) && p in Play(s, es[..to]).processes
    ensures Play(s, es[..to]).processes[p] == Play(s, es[..from]).processes[p]
  {
    if from < to {
      Undisturbed(s, es, from, to - 1, p);
      PlayAt(s, es, to - 1);
      OthersLeaveAlone(Play(s, es[..to - 1]), es[to - 1], p);
    }
  }

  lemma StillRecording(s: System, es: seq<Event>, j: nat, i: nat, p: nat, key: string)
    requires Playable(s, es) && SavedAt(s, es, j, i, p, key)
    ensures Playable(s, es[..i]) && p in Play(s, es[..i]).processes
    ensures Play(s, es[..i]).processes[p].recording == Some((key, DeadlineAt(s, es, j)))
  {
    PlayAt(s, es, i);
    PlayAt(s, es, j);
    RecordBegins(Play(s, es[..j]), es[j]);
    Undisturbed(s, es, j + 1, i, p);
  }

  lemma PromiseGrows(s: System, e: Event, key: string)
    requires Enabled(s, e)
    ensures At(Apply(s, e).promised, key) >= At(s.promised, key)
  {
    if e.RecordSave? {
      var (k, nb) := s.processes[e.p].recording.value;
      MergeAt(s.promised, map[k := nb], key);
    }
  }

  lemma {:induction false} PromisedSince(s: System, es: seq<Event>, i: nat, key: string, d: nat)
    requires Playable(s, es) && i <= |es| && Playable(s, es[..i]) && At(Play(s, es[..i]).promised, key) >= d
    ensures At(Play(s, es).promised, key) >= d
  {
    if i == |es| {
      assert es[..i] == es;
    } else {
      var n := |es| - 1;
      assert es[..n][..i] == es[..i];
      PromisedSince(s, es[..n], i, key, d);
      PromiseGrows(Play(s, es[..n]), es[n], key);
    }
  }

  lemma SavePromises(s: System, p: nat, readable: bool)
    requires Enabled(s, RecordSave(p, readable))
    ensures var (key, nb) := s.processes[p].recording.value; At(Apply(s, RecordSave(p, readable)).promised, key) >= nb
  {
    var (key, nb) := s.processes[p].recording.value;
    MergeAt(s.promised, map[key := nb], key);
  }

  lemma SaveMakesPromise(s: System, es: seq<Event>, j: nat, i: nat, p: nat, key: string)
    requires Playable(s, es) && SavedAt(s, es, j, i, p, key)
    ensures At(Play(s, es).promised, key) >= DeadlineAt(s, es, j)
  {
    var d := DeadlineAt(s, es, j);
    assert Playable(s, es[..i + 1]) && At(Play(s, es[..i + 1]).promised, key) >= d by {
      PlayAt(s, es, i);
      StillRecording(s, es, j, i, p, key);
      SavePromises(Play(s, es[..i]), p, es[i].readable);
      assert es[i] == RecordSave(p, es[i].readable);
    }
    PromisedSince(s, es, i + 1, key, d);
  }

  /**
    Once the 429 is saved, every bound process that reads the file holds back
    for the rest of the time it asked for, while no record has overwritten the
    file without reading it.
  */
  lemma ReadersHoldBack(s: System, es: seq<Event>, j: nat, i: nat, p: nat, key: string, q: nat)
    requires Initial(s) && Playable(s, es) && SavedAt(s, es, j, i, p, key) && Play(s, es).now < DeadlineAt(s, es, j)
    requires q in Play(s, es).processes && Play(s, es).processes[q].bound
    requires !exists n :: LostSince(s, es, key, n)
    ensures var z := Play(s, es);
            && Remaining(z, z.processes[q], key).Some?
            && Remaining(z, z.processes[q], key).value >= DeadlineAt(s, es, j) - z.now
  {
    SaveMakesPromise(s, es, j, i, p, key);
    WindowsAreNeverShortened(s, es, q, key);
    assert Covers(Play(s, es), Play(s, es).processes[q], key);
  }

  /** Records that could read the file lose nothing. */
  lemma ReadableSavesLoseNothing(s: System, es: seq<Event>, key: string)
    requires forall n :: 0 <= n < |es| && es[n].RecordSave? ==> es[n].readable
    ensures !exists n :: LostSince(s, es, key, n)
  {
  }

  /******* Nobody waits longer than was asked *******/

  /** The latest deadline that any 429 of the run asked for; 0 if there was none for the key. */
  ghost function Latest(s: System, es: seq<Event>, key: string): nat
    requires Playable(s, es)
  {
    if es == [] then 0
    else
      var init, last := es[..|es| - 1], es[|es| - 1];
      Max(Latest(s, init, key), if last.RecordLocal? && last.key == key then Deadline(Play(s, init).now, last.retryAfter) else 0)
  }

  /** No window for the key reaches past `d`. */
  ghost predicate NothingPast(s: System, key: string, d: nat)
  {
    At(s.file, key) <= d && forall p <- s.processes :: At(s.processes[p].windows, key) <= d
  }

  lemma ReloadPast(a: Windows, b: Windows, now: nat, key: string, d: nat)
    requires At(a, key) <= d && At(b, key) <= d
    ensures At(MergeMax(a, b), key) <= d && At(MergeMax(a, Sanitize(b, now)), key) <= d && At(Sanitize(MergeMax(a, b), now), key) <= d
  {
    MergeAt(a, b, key);
    MergeAt(a, Sanitize(b, now), key);
    SanitizeLowers(b, now, key);
    SanitizeLowers(MergeMax(a, b), now, key);
  }

  /** A process that reloads or saves takes over no window but those there are. */
  lemma ProcessPast(s: System, e: Event, key: string, d: nat)
    requires Enabled(s, e) && NothingPast(s, key, d) && (e.Bind? || e.Consult? || e.RecordSave? || e.RecordDrop?)
    ensures At(Apply(s, e).processes[e.p].windows, key) <= d && At(Apply(s, e).file, key) <= d
  {
    var own := s.processes[e.p].windows;
    ReloadPast(own, s.file, s.now, key, d);
    if e.RecordSave? {
      ReloadPast(if e.readable then s.file else map[], own, s.now, key, d);
    }
  }

  lemma RecordPast(s: System, e: Event, key: string, d: nat)
    requires Enabled(s, e) && NothingPast(s, key, d) && e.RecordLocal?
    ensures At(Apply(s, e).processes[e.p].windows, key) <= Max(d, if e.key == key then Deadline(s.now, e.retryAfter) else 0)
  {
    MergeAt(s.processes[e.p].windows, map[e.key := NotBefore(s.now, e.retryAfter)], key);
  }

  lemma StepPast(s: System, e: Event, key: string, d: nat, d': nat)
    requires Enabled(s, e) && NothingPast(s, key, d)
    requires d' == Max(d, if e.RecordLocal? && e.key == key then Deadline(s.now, e.retryAfter) else 0)
    ensures NothingPast(Apply(s, e), key, d')
  {
    var s' := Apply(s, e);
    if e.RecordLocal? {
      RecordPast(s, e, key, d);
    } else if !e.Tick? && !e.Start? {
      ProcessPast(s, e, key, d);
    }
    forall q <- s'.processes ensures At(s'.processes[q].windows, key) <= d' {
      if !Of(e, q) && q in s.processes {
        OthersLeaveAlone(s, e, q);
      }
    }
  }

  lemma {:induction false} RunStaysWithin(s: System, es: seq<Event>, key: string)
    requires Initial(s) && Playable(s, es)
    ensures NothingPast(Play(s, es), key, Latest(s, es, key))
  {
    if es != [] {
      RunStaysWithin(s, es[..|es| - 1], key);
      StepPast(Play(s, es[..|es| - 1]), es[|es| - 1], key, Latest(s, es[..|es| - 1], key), Latest(s, es, key));
    }
  }

  /** Whatever a process reports, some 429 for the key asked for it. */
  lemma NobodyWaitsLonger(s: System, es: seq<Event>, q: nat, key: string)
    requires Initial(s) && Playable(s, es) && q in Play(s, es).processes
    ensures var z := Play(s, es);
            Remaining(z, z.processes[q], key).Some? ==> z.now + Remaining(z, z.processes[q], key).value <= Latest(s, es, key)
  {
    RunStaysWithin(s, es, key);
    var z := Play(s, es);
    ReloadPast(z.processes[q].windows, z.file, z.now, key, Latest(s, es, key));
  }

  lemma {:induction false} LatestOfOne(s: System, es: seq<Event>, j: nat, p: nat, key: string)
    requires Playable(s, es) && RecordedAt(s, es, j, p, key)
    requires forall m :: 0 <= m < |es| && m != j && es[m].RecordLocal? ==> es[m].key != key
    ensures Latest(s, es, key) == DeadlineAt(s, es, j)
  {
    var n := |es| - 1;
    if j == n {
      LatestOfNone(s, es[..n], key);
    } else {
      assert es[..n][..j] == es[..j] && es[..n][j] == es[j];
      LatestOfOne(s, es[..n], j, p, key);
    }
  }

  lemma {:induction false} LatestOfNone(s: System, es: seq<Event>, key: string)
    requires Playable(s, es)
    requires forall m :: 0 <= m < |es| && es[m].RecordLocal? ==> es[m].key != key
    ensures Latest(s, es, key) == 0
  {
    if es != [] {
      LatestOfNone(s, es[..|es| - 1], key);
    }
  }

  /**
    A key met by a single 429 is released exactly when it asked for, whatever
    else happens: its process reports just the rest of that time and then
    nothing, and so does, once it is saved and not lost, every bound reader.
  */
  lemma SingleRecordIsExact(s: System, es: seq<Event>, j: nat, p: nat, key: string, q: nat)
    requires Initial(s) && Playable(s, es) && RecordedAt(s, es, j, p, key) && q in Play(s, es).processes
    requires forall m :: 0 <= m < |es| && m != j && es[m].RecordLocal? ==> es[m].key != key
    requires q == p || (Play(s, es).processes[q].bound && (exists i :: SavedAt(s, es, j, i, p, key))
                        && !exists n :: LostSince(s, es, key, n))
    ensures var z, d := Play(s, es), DeadlineAt(s, es, j);
            Remaining(z, z.processes[q], key) == if z.now < d then Some(d - z.now) else None
  {
    LatestOfOne(s, es, j, p, key);
    NobodyWaitsLonger(s, es, q, key);
    if Play(s, es).now < DeadlineAt(s, es, j) {
      if q == p {
        RecorderHoldsBack(s, es, j, p, key);
      } else {
        var i :| SavedAt(s, es, j, i, p, key);
        ReadersHoldBack(s, es, j, i, p, key, q);
      }
    }
  }

  lemma SaveKeepsOwn(v: System, p: nat, readable: bool, k: string)
    requires Inv(v) && Enabled(v, RecordSave(p, readable)) && At(v.processes[p].windows, k) > v.now
    ensures At(SaveFile(v, p, readable), k) >= At(v.processes[p].windows, k)
  {
    var file: Windows := if readable then v.file else map[];
    assert ProcessOk(v, v.processes[p]);
    WithinCap(v.processes[p].windows, v.last, v.now, k);
    MergeAt(file, v.processes[p].windows, k);
    SanitizeKeeps(MergeMax(file, v.processes[p].windows), v.now, k, At(v.processes[p].windows, k));
  }

  lemma SanitizedIsOpen(m: Windows, now: nat, k: string)
    ensures k in Sanitize(m, now) <==> k in m && now < m[k]
    ensures k in Sanitize(m, now) ==> Sanitize(m, now)[k] == Min(m[k], Min(now + 10000, U64_MAX))
  {
  }

  /** Key `k` after a save: an open window at most one cap away, no earlier than what the saving process knew. */
  predicate OpenAfterSave(v: System, v': System, p: nat, k: string)
  {
    && p in v.processes && p in v'.processes && v'.processes[p].windows == v'.file
    && (k in v'.file ==> v.now < v'.file[k] <= v.now + 10000)
    && (At(v.processes[p].windows, k) > v.now ==> k in v'.file && v'.file[k] >= At(v.processes[p].windows, k))
  }

  lemma SaveIsOpen(v: System, p: nat, readable: bool, k: string)
    requires Inv(v) && Enabled(v, RecordSave(p, readable))
    ensures OpenAfterSave(v, Apply(v, RecordSave(p, readable)), p, k)
  {
    SanitizedIsOpen(MergeMax(if readable then v.file else map[], v.processes[p].windows), v.now, k);
    if At(v.processes[p].windows, k) > v.now {
      SaveKeepsOwn(v, p, readable, k);
    }
  }

  /** A saved file holds open windows only: elapsed ones are dropped, and none of the saving process's own is lost. */
  lemma SavedFileIsOpen(s: System, es: seq<Event>, p: nat, readable: bool, k: string)
    requires Initial(s) && Playable(s, es) && Enabled(Play(s, es), RecordSave(p, readable))
    ensures OpenAfterSave(Play(s, es), Apply(Play(s, es), RecordSave(p, readable)), p, k)
  {
    RunKeepsInv(s, es);
    SaveIsOpen(Play(s, es), p, readable, k);
  }
}
