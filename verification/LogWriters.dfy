/**
  Any number of processes appending to one gateway log. The lock is held from
  a batch's first append to the replacement of the file by its trimmed tail; a
  writer that cannot get the lock in time appends without it.
*/
module LogWriters {
  import opened Basics
  import opened GatewayLog

  /** Where the lock holder is: appending, with the file read for a trim, or past the replacement. */
  datatype Phase = Appending | Read(data: Bytes, upTo: nat) | Replaced

  /**
    `lines`, `gone`, `raced` and `upTo` are history: every line ever appended,
    how many of the oldest were trimmed away, which ones a trim overwrote, and
    how many there were when the trim read the file.
  */
  datatype World = World(file: Bytes, lock: Option<nat>, phase: Phase, lines: seq<Line>, gone: nat, raced: set<nat>)

  const EMPTY: World := World([], None, Appending, [], 0, {})

  const HALF: nat := GATEWAY_LOG_CAP / 2

  datatype Event =
    | Lock(w: nat)
    | Append(w: nat, line: Line)
    | AppendUnlocked(line: Line)
    | TrimRead(w: nat)
    | TrimReplace(w: nat)
    | Unlock(w: nat, failed: bool)

  /** A batch that does not fail gives the lock back only with the file found within the cap, or replaced. */
  predicate Enabled(s: World, e: Event)
  {
    match e
    case Lock(_) => s.lock.None?
    case Append(w, _) => s.lock == Some(w) && s.phase.Appending?
    case AppendUnlocked(_) => true
    case TrimRead(w) => s.lock == Some(w) && s.phase.Appending? && |s.file| > GATEWAY_LOG_CAP
    case TrimReplace(w) => s.lock == Some(w) && s.phase.Read?
    case Unlock(w, failed) =>
      s.lock == Some(w) && (failed || s.phase.Replaced? || (s.phase.Appending? && |s.file| <= GATEWAY_LOG_CAP))
  }

  function Add(s: World, line: Line): World
  {
    s.(file := s.file + Record(line), lines := s.lines + [line])
  }

  function Range(lo: nat, hi: nat): (r: set<nat>)
    ensures forall i :: i in r <==> lo <= i < hi
    decreases hi - lo
  {
    if lo >= hi then {} else {lo} + Range(lo + 1, hi)
  }

  function Apply(s: World, e: Event): World
    requires Enabled(s, e)
  {
    match e
    case Lock(w) => s.(lock := Some(w), phase := Appending)
    case Append(_, line) => Add(s, line)
    case AppendUnlocked(line) => Add(s, line)
    case TrimRead(_) => s.(phase := Read(s.file, |s.lines|))
    case TrimReplace(_) =>
      var upTo := if s.phase.upTo <= |s.lines| then s.phase.upTo else |s.lines|;
      s.(file := Trimmed(s.phase.data, HALF), phase := Replaced,
         gone := Mark(s.lines[..upTo], s.gone, s.raced, HALF), raced := s.raced + Range(upTo, |s.lines|))
    case Unlock(_, _) => s.(lock := None)
  }

  predicate Playable(es: seq<Event>)
    decreases |es|, 0
  {
    es == [] || (Playable(es[..|es| - 1]) && Enabled(Play(es[..|es| - 1]), es[|es| - 1]))
  }

  function Play(es: seq<Event>): World
    requires Playable(es)
    decreases |es|, 1
  {
    if es == [] then EMPTY else Apply(Play(es[..|es| - 1]), es[|es| - 1])
  }

  /******* Lines that survive *******/

  /** The lines from `gone` on that no trim overwrote, in the order they were appended. */
  function Survive(lines: seq<Line>, gone: nat, raced: set<nat>): seq<Line>
  {
    if |lines| <= gone then []
    else
      var n := |lines| - 1;
      Survive(lines[..n], gone, raced) + if n in raced then [] else [lines[n]]
  }

  /** The first mark from which on the surviving lines take less than `half` bytes. */
  function Mark(lines: seq<Line>, gone: nat, raced: set<nat>, half: nat): (g: nat)
    requires half > 0
    ensures g == gone || gone <= g <= |lines|
    decreases |lines| - gone
  {
    if |lines| <= gone || |Records(Survive(lines, gone, raced))| < half then gone else Mark(lines, gone + 1, raced, half)
  }

  lemma {:induction false} SurviveHead(lines: seq<Line>, gone: nat, raced: set<nat>)
    requires gone < |lines|
    ensures Survive(lines, gone, raced) == (if gone in raced then [] else [lines[gone]]) + Survive(lines, gone + 1, raced)
  {
    var n := |lines| - 1;
    if gone < n {
      SurviveHead(lines[..n], gone, raced);
      assert lines[..n][gone] == lines[gone];
    }
  }

  lemma {:induction false} SurviveAll(lines: seq<Line>, gone: nat)
    requires gone <= |lines|
    ensures Survive(lines, gone, {}) == lines[gone..]
  {
    if gone < |lines| {
      var n := |lines| - 1;
      SurviveAll(lines[..n], gone);
      assert lines[gone..] == lines[..n][gone..] + [lines[n]];
    }
  }

  lemma SurviveSnoc(lines: seq<Line>, l: Line, gone: nat, raced: set<nat>)
    requires gone <= |lines| && |lines| !in raced
    ensures Survive(lines + [l], gone, raced) == Survive(lines, gone, raced) + [l]
  {
    assert (lines + [l])[..|lines|] == lines;
  }

  /** Overwritten lines at the end count for nothing. */
  lemma {:induction false} SurviveRaced(lines: seq<Line>, upTo: nat, gone: nat, raced: set<nat>, more: set<nat>)
    requires gone <= upTo <= |lines| && (forall i :: upTo <= i < |lines| ==> i in more)
    requires forall i :: 0 <= i < upTo ==> (i in more <==> i in raced)
    ensures Survive(lines, gone, more) == Survive(lines[..upTo], gone, raced)
  {
    if |lines| == upTo {
      assert lines[..upTo] == lines;
      SurviveSame(lines, gone, raced, more);
    } else {
      var n := |lines| - 1;
      SurviveRaced(lines[..n], upTo, gone, raced, more);
      assert lines[..n][..upTo] == lines[..upTo];
    }
  }

  lemma {:induction false} SurviveSame(lines: seq<Line>, gone: nat, raced: set<nat>, more: set<nat>)
    requires forall i :: 0 <= i < |lines| ==> (i in more <==> i in raced)
    ensures Survive(lines, gone, more) == Survive(lines, gone, raced)
  {
    if |lines| > gone {
      SurviveSame(lines[..|lines| - 1], gone, raced, more);
    }
  }

  /** Raising the mark to where the cut is drops the same lines from the front as the trim. */
  lemma {:induction false} MarkIsCut(lines: seq<Line>, gone: nat, raced: set<nat>, half: nat)
    requires half > 0 && gone <= |lines|
    ensures var kept := Survive(lines, gone, raced);
            Survive(lines, Mark(lines, gone, raced, half), raced) == kept[Cut(kept, half)..]
    decreases |lines| - gone
  {
    var kept := Survive(lines, gone, raced);
    if gone == |lines| {
      assert Records([]) == [];
    } else if |Records(kept)| < half {
      assert kept[0..] == kept;
    } else {
      SurviveHead(lines, gone, raced);
      MarkIsCut(lines, gone + 1, raced, half);
      var rest := Survive(lines, gone + 1, raced);
      if gone in raced {
        assert kept == rest;
      } else {
        assert kept[1..] == rest;
        assert rest[Cut(rest, half)..] == kept[1 + Cut(rest, half)..];
      }
    }
  }

  /** What a trim keeps, in lines. */
  lemma TrimKeeps(lines: seq<Line>, gone: nat, raced: set<nat>, half: nat)
    requires 0 < half <= |Records(Survive(lines, gone, raced))| && gone <= |lines|
    ensures Trimmed(Records(Survive(lines, gone, raced)), half)
            == Records(Survive(lines, Mark(lines, gone, raced, half), raced))
    ensures |Records(Survive(lines, Mark(lines, gone, raced, half), raced))| < half
  {
    var kept := Survive(lines, gone, raced);
    TrimDropsLines(kept, half);
    MarkIsCut(lines, gone, raced, half);
    CutKeepsMost(kept, half);
  }

  /******* What every step keeps *******/

  predicate Inv(s: World)
  {
    && s.gone <= |s.lines| && (forall i <- s.raced :: i < |s.lines|)
    && s.file == Records(Survive(s.lines, s.gone, s.raced))
    && (s.lock.Some? && s.phase.Read? ==> SnapshotOk(s, s.phase.data, s.phase.upTo))
  }

  predicate SnapshotOk(s: World, data: Bytes, upTo: nat)
  {
    && s.gone <= upTo <= |s.lines| && (forall i <- s.raced :: i < upTo)
    && data == Records(Survive(s.lines[..upTo], s.gone, s.raced)) && |data| > GATEWAY_LOG_CAP
  }

  lemma AddKeepsInv(s: World, l: Line)
    requires Inv(s)
    ensures Inv(Add(s, l))
  {
    SurviveSnoc(s.lines, l, s.gone, s.raced);
    RecordsAppend(Survive(s.lines, s.gone, s.raced), l);
    if s.lock.Some? && s.phase.Read? {
      assert (s.lines + [l])[..s.phase.upTo] == s.lines[..s.phase.upTo];
    }
  }

  lemma ReplaceKeepsInv(s: World, w: nat)
    requires Inv(s) && Enabled(s, TrimReplace(w))
    ensures Inv(Apply(s, TrimReplace(w))) && |Apply(s, TrimReplace(w)).file| < HALF
  {
    var upTo := s.phase.upTo;
    TrimKeeps(s.lines[..upTo], s.gone, s.raced, HALF);
    var g := Mark(s.lines[..upTo], s.gone, s.raced, HALF);
    SurviveRaced(s.lines, upTo, g, s.raced, s.raced + Range(upTo, |s.lines|));
  }

  lemma StepKeepsInv(s: World, e: Event)
    requires Inv(s) && Enabled(s, e)
    ensures Inv(Apply(s, e))
  {
    match e
    case Lock(_) =>
    case Append(_, l) => AddKeepsInv(s, l);
    case AppendUnlocked(l) => AddKeepsInv(s, l);
    case TrimRead(_) => assert s.lines[..|s.lines|] == s.lines;
    case TrimReplace(w) => ReplaceKeepsInv(s, w);
    case Unlock(_, _) =>
  }

  /** In every run the file is exactly the lines that were neither trimmed away as the oldest nor overwritten, in order. */
  lemma {:induction false} FileIsSurvivors(es: seq<Event>)
    requires Playable(es)
    ensures Inv(Play(es))
  {
    if es != [] {
      FileIsSurvivors(es[..|es| - 1]);
      StepKeepsInv(Play(es[..|es| - 1]), es[|es| - 1]);
    }
  }

  /******* Runs in which every append holds the lock *******/

  predicate AllLocked(es: seq<Event>)
  {
    forall e <- es :: !e.AppendUnlocked?
  }

  /** The snapshot of a trim is the whole file when nobody appends beside it. */
  predicate Current(s: World)
  {
    s.raced == {} && (s.lock.Some? && s.phase.Read? ==> s.phase.upTo == |s.lines|)
    && (s.lock.Some? && s.phase.Replaced? ==> |s.file| <= GATEWAY_LOG_CAP)
  }

  lemma {:induction false} LockedStaysCurrent(es: seq<Event>)
    requires Playable(es) && AllLocked(es)
    ensures Current(Play(es))
  {
    if es != [] {
      var n := |es| - 1;
      assert forall e <- es[..n] :: e in es;
      assert es[n] in es;
      LockedStaysCurrent(es[..n]);
      FileIsSurvivors(es[..n]);
      if es[n].TrimReplace? {
        ReplaceKeepsInv(Play(es[..n]), es[n].w);
      }
    }
  }

  /** With every append under the lock, the file is a whole-line suffix of the history. */
  lemma LockedFileIsSuffix(es: seq<Event>)
    requires Playable(es) && AllLocked(es)
    ensures Play(es).gone <= |Play(es).lines| && Play(es).file == Tail(Play(es).lines, Play(es).gone)
  {
    FileIsSurvivors(es);
    LockedStaysCurrent(es);
    SurviveAll(Play(es).lines, Play(es).gone);
  }

  /** And it is within the cap whenever a batch that did not fail gives the lock back. */
  lemma LockedBatchEndsWithinCap(es: seq<Event>, w: nat)
    requires Playable(es) && AllLocked(es) && Enabled(Play(es), Unlock(w, false))
    ensures |Play(es).file| <= GATEWAY_LOG_CAP
  {
    LockedStaysCurrent(es);
  }

  /** A log whose lines all fit within the cap is never trimmed, with or without the lock: every line is there. */
  lemma {:induction false} SmallLogIsWhole(es: seq<Event>)
    requires Playable(es) && |Records(Play(es).lines)| <= 262144
    ensures Play(es).file == Records(Play(es).lines) && Play(es).gone == 0 && Play(es).raced == {} && !Play(es).phase.Read?
  {
    if es != [] {
      var n := |es| - 1;
      var v := Play(es[..n]);
      if es[n].Append? || es[n].AppendUnlocked? {
        RecordsAppend(v.lines, es[n].line);
      }
      SmallLogIsWhole(es[..n]);
    }
  }

  /** Where a trim puts the mark: a line of its snapshot stays if and only if it and the later ones take less than half the cap. */
  lemma {:induction false} MarkExactly(lines: seq<Line>, gone: nat, raced: set<nat>, half: nat, j: nat)
    requires half > 0 && gone <= j <= |lines|
    ensures |Records(Survive(lines, j, raced))| < half <==> Mark(lines, gone, raced, half) <= j
    decreases |lines| - gone
  {
    if gone == |lines| {
      assert Records([]) == [];
    } else if |Records(Survive(lines, gone, raced))| < half {
      SurviveShrinks(lines, gone, j, raced);
    } else {
      assert Mark(lines, gone, raced, half) == Mark(lines, gone + 1, raced, half) > gone;
      if gone < j {
        MarkExactly(lines, gone + 1, raced, half, j);
      }
    }
  }

  lemma {:induction false} SurviveShrinks(lines: seq<Line>, g: nat, j: nat, raced: set<nat>)
    requires g <= j <= |lines|
    ensures |Records(Survive(lines, j, raced))| <= |Records(Survive(lines, g, raced))|
    decreases j - g
  {
    if g < j {
      SurviveHead(lines, g, raced);
      SurviveShrinks(lines, g + 1, j, raced);
      var rest := Survive(lines, g + 1, raced);
      if g in raced {
        assert [] + rest == rest;
      } else {
        assert ([lines[g]] + rest)[1..] == rest;
      }
    }
  }

  /******* Which lines are lost *******/

  /** Line `i` was appended without the lock, by event `k`, between the read of a trim and its replacement. */
  ghost predicate Raced(es: seq<Event>, i: nat, n: nat, k: nat, m: nat)
  {
    && n < k < m < |es| && es[n].TrimRead? && es[m] == TrimReplace(es[n].w)
    && NoEnd(es, n, m)
    && AppendsLine(es, k, i) && es[k].AppendUnlocked?
  }

  /** Event `k` appends line number `i`. */
  ghost predicate AppendsLine(es: seq<Event>, k: nat, i: nat)
  {
    k < |es| && (es[k].AppendUnlocked? || es[k].Append?) && Playable(es[..k]) && |Play(es[..k]).lines| == i
  }

  lemma {:induction false} PrefixPlays(es: seq<Event>, n: nat)
    requires Playable(es) && n <= |es|
    ensures Playable(es[..n])
    decreases |es| - n
  {
    if n == |es| {
      assert es[..n] == es;
    } else {
      PrefixPlays(es, n + 1);
      assert es[..n + 1][..n] == es[..n];
    }
  }

  /** One event after a prefix. */
  lemma PrefixStep(es: seq<Event>, n: nat)
    requires Playable(es) && n < |es|
    ensures Playable(es[..n]) && Playable(es[..n + 1]) && Enabled(Play(es[..n]), es[n])
    ensures Play(es[..n + 1]) == Apply(Play(es[..n]), es[n])
  {
    PrefixPlays(es, n + 1);
    assert es[..n + 1][..n] == es[..n];
  }

  lemma {:induction false} HistoryGrows(es: seq<Event>, n: nat, m: nat)
    requires Playable(es) && n <= m <= |es|
    ensures Playable(es[..n]) && Playable(es[..m])
    ensures |Play(es[..n]).lines| <= |Play(es[..m]).lines| && Play(es[..n]).raced <= Play(es[..m]).raced
    decreases m - n
  {
    PrefixPlays(es, m);
    if n < m {
      PrefixStep(es, n);
      HistoryGrows(es, n + 1, m);
    }
  }

  lemma {:induction false} LineHasAppend(es: seq<Event>, i: nat) returns (k: nat)
    requires Playable(es) && i < |Play(es).lines|
    ensures AppendsLine(es, k, i)
  {
    var n := |es| - 1;
    assert es != [];
    if i < |Play(es[..n]).lines| {
      k := LineHasAppend(es[..n], i);
      assert es[..n][..k] == es[..k];
    } else {
      k := n;
    }
  }

  /** Writer `w` is between the read and the replacement of a trim that read `upTo` lines. */
  predicate Trims(s: World, w: nat, upTo: nat)
  {
    s.lock == Some(w) && s.phase.Read? && s.phase.upTo == upTo
  }

  /** Between events `n` and `m` no trim ends. */
  predicate NoEnd(es: seq<Event>, n: nat, m: nat)
    requires m <= |es|
  {
    forall x :: n < x < m ==> !es[x].Unlock? && !es[x].TrimReplace?
  }

  lemma TrimStep(s: World, e: Event, w: nat, upTo: nat)
    requires Enabled(s, e)
    ensures Trims(s, w, upTo) && !e.Unlock? && !e.TrimReplace? ==> Trims(Apply(s, e), w, upTo) && !e.Append?
    ensures Trims(Apply(s, e), w, upTo) ==> (e == TrimRead(w) && upTo == |s.lines|) || (Trims(s, w, upTo) && !e.Unlock? && !e.TrimReplace?)
    ensures e == TrimRead(w) ==> Trims(Apply(s, e), w, |s.lines|)
  {
  }

  lemma {:induction false} TrimHasRead(es: seq<Event>, w: nat, upTo: nat, m: nat) returns (n: nat)
    requires Playable(es) && m <= |es| && Playable(es[..m]) && Trims(Play(es[..m]), w, upTo)
    ensures n < m && es[n] == TrimRead(w) && NoEnd(es, n, m) && Playable(es[..n]) && |Play(es[..n]).lines| == upTo
  {
    assert es[..0] == [];
    PrefixStep(es, m - 1);
    TrimStep(Play(es[..m - 1]), es[m - 1], w, upTo);
    if es[m - 1] == TrimRead(w) && upTo == |Play(es[..m - 1]).lines| {
      n := m - 1;
    } else {
      n := TrimHasRead(es, w, upTo, m - 1);
    }
  }

  lemma {:induction false} TrimGoesOn(es: seq<Event>, n: nat, m: nat)
    requires Playable(es) && n < m <= |es| && es[n].TrimRead? && NoEnd(es, n, m)
    ensures Playable(es[..n]) && Playable(es[..m]) && Trims(Play(es[..m]), es[n].w, |Play(es[..n]).lines|)
    decreases m
  {
    PrefixStep(es, m - 1);
    PrefixPlays(es, n);
    TrimStep(Play(es[..m - 1]), es[m - 1], es[n].w, |Play(es[..n]).lines|);
    if n + 1 < m {
      TrimGoesOn(es, n, m - 1);
    }
  }

  /** While a trim is under way nobody appends under the lock. */
  lemma NoLockedAppend(es: seq<Event>, n: nat, k: nat)
    requires Playable(es) && n < k < |es| && es[n].TrimRead? && NoEnd(es, n, k)
    ensures !es[k].Append?
  {
    TrimGoesOn(es, n, k);
    PrefixStep(es, k);
  }

  lemma RacesNow(s: World, e: Event, i: nat)
    requires Inv(s) && Enabled(s, e) && i in Apply(s, e).raced && i !in s.raced
    ensures e.TrimReplace? && Trims(s, e.w, s.phase.upTo) && s.phase.upTo <= i < |s.lines|
  {
  }

  lemma LastReplaceRaces(es: seq<Event>, i: nat) returns (n: nat, k: nat)
    requires Playable(es) && es != [] && i in Play(es).raced && i !in Play(es[..|es| - 1]).raced
    ensures Raced(es, i, n, k, |es| - 1)
  {
    var m := |es| - 1;
    FileIsSurvivors(es[..m]);
    RacesNow(Play(es[..m]), es[m], i);
    n := TrimHasRead(es, es[m].w, Play(es[..m]).phase.upTo, m);
    k := LineHasAppend(es[..m], i);
    assert es[..m][..k] == es[..k] && es[..m][k] == es[k];
    OrderOfAppend(es, n, k, i);
    NoLockedAppend(es, n, k);
  }

  /** A line that came after the read of the file has its append event after it. */
  lemma OrderOfAppend(es: seq<Event>, n: nat, k: nat, i: nat)
    requires Playable(es) && n < |es| && es[n].TrimRead? && AppendsLine(es, k, i)
    requires Playable(es[..n]) && |Play(es[..n]).lines| <= i
    ensures n < k
  {
    if k < n {
      PrefixStep(es, k);
      HistoryGrows(es, k + 1, n);
    }
  }

  lemma {:induction false} OverwrittenWasRaced(es: seq<Event>, i: nat) returns (n: nat, k: nat, m: nat)
    requires Playable(es) && i in Play(es).raced
    ensures Raced(es, i, n, k, m)
  {
    var p := |es| - 1;
    assert es != [];
    if i in Play(es[..p]).raced {
      n, k, m := OverwrittenWasRaced(es[..p], i);
      assert es[..p][..k] == es[..k] && forall x :: 0 <= x < p ==> es[..p][x] == es[x];
    } else {
      n, k := LastReplaceRaces(es, i);
      m := p;
    }
  }

  lemma ReplaceRaces(s: World, w: nat, upTo: nat, i: nat)
    requires Inv(s) && Trims(s, w, upTo) && upTo <= i < |s.lines|
    ensures Enabled(s, TrimReplace(w)) && i in Apply(s, TrimReplace(w)).raced
  {
  }

  lemma RacedIsOverwritten(es: seq<Event>, i: nat, n: nat, k: nat, m: nat)
    requires Playable(es) && Raced(es, i, n, k, m)
    ensures i in Play(es).raced
  {
    TrimGoesOn(es, n, m);
    PrefixStep(es, m);
    FileIsSurvivors(es[..m]);
    AppendedBetween(es, i, n, k, m);
    ReplaceRaces(Play(es[..m]), es[n].w, |Play(es[..n]).lines|, i);
    HistoryGrows(es, m + 1, |es|);
    assert es[..|es|] == es;
  }

  lemma AppendedBetween(es: seq<Event>, i: nat, n: nat, k: nat, m: nat)
    requires Playable(es) && n < k < m <= |es| && AppendsLine(es, k, i)
    ensures Playable(es[..n]) && Playable(es[..m]) && |Play(es[..n]).lines| <= i < |Play(es[..m]).lines|
  {
    PrefixStep(es, k);
    HistoryGrows(es, n, k);
    HistoryGrows(es, k + 1, m);
  }

  /** The file has line `i`: not trimmed away with the oldest, and not overwritten. */
  predicate Present(s: World, i: nat)
  {
    s.gone <= i < |s.lines| && i !in s.raced
  }

  /**
    Exactly which lines are missing out of order, newer than the trimmed ones
    and yet not in the file: those appended without the lock between a trim's
    read of the file and its replacement.
  */
  lemma MissingIffRaced(es: seq<Event>, i: nat)
    requires Playable(es) && Play(es).gone <= i < |Play(es).lines|
    ensures !Present(Play(es), i) <==> exists n, k, m :: Raced(es, i, n, k, m)
  {
    if !Present(Play(es), i) {
      var n, k, m := OverwrittenWasRaced(es, i);
    }
    if n: nat, k: nat, m: nat :| Raced(es, i, n, k, m) {
      RacedIsOverwritten(es, i, n, k, m);
    }
  }

  lemma Snoc(es: seq<Event>, e: Event)
    requires Playable(es) && Enabled(Play(es), e)
    ensures Playable(es + [e]) && Play(es + [e]) == Apply(Play(es), e)
  {
    assert (es + [e])[..|es + [e]| - 1] == es;
  }

  /** A writer has filled the log past the cap and read it for a trim. */
  lemma ReadForTrim(big: Line, older: Line) returns (es: seq<Event>)
    requires |big| >= GATEWAY_LOG_CAP
    ensures Playable(es)
    ensures var data := Record(big) + Record(older); Play(es) == World(data, Some(0), Read(data, 2), [big, older], 0, {})
  {
    Snoc([], Lock(0));
    var a := [] + [Lock(0)];
    Snoc(a, Append(0, big));
    var b := a + [Append(0, big)];
    Snoc(b, Append(0, older));
    var c := b + [Append(0, older)];
    assert Play(c).lines == [big, older] && Play(c).file == Record(big) + Record(older);
    Snoc(c, TrimRead(0));
    es := c + [TrimRead(0)];
  }

  /** What the replacement makes of it when another line has come in between. */
  lemma ReplaceLoses(big: Line, older: Line, newer: Line, s: World)
    requires |big| >= GATEWAY_LOG_CAP && |Record(older)| < HALF
    requires s.lock == Some(0) && s.phase.Read? && s.phase.upTo == 2 && s.lines == [big, older, newer] && s.gone == 0 && s.raced == {}
    requires Inv(s)
    ensures Enabled(s, TrimReplace(0))
    ensures var z := Apply(s, TrimReplace(0)); z.lines == s.lines && z.gone == 1 && z.raced == {2} && z.file == Record(older)
  {
    assert s.lines[..2] == [big, older];
    MarkHere(big, older);
    ReplaceKeepsInv(s, 0);
    var z := Apply(s, TrimReplace(0));
    assert z.raced == {2};
    SurviveRaced(z.lines, 2, 1, {}, z.raced);
  }

  /** A run that loses the newest line and keeps an older one. */
  lemma UnlockedAppendIsLost(big: Line, older: Line, newer: Line) returns (es: seq<Event>)
    requires |big| >= GATEWAY_LOG_CAP && |Record(older)| < HALF
    ensures Playable(es) && Play(es).lines == [big, older, newer] && Play(es).file == Record(older)
    ensures Present(Play(es), 1) && !Present(Play(es), 2) && Play(es).gone == 1
  {
    var d := ReadForTrim(big, older);
    Snoc(d, AppendUnlocked(newer));
    var e := d + [AppendUnlocked(newer)];
    assert Play(e).lines == [big, older, newer];
    FileIsSurvivors(e);
    ReplaceLoses(big, older, newer, Play(e));
    Snoc(e, TrimReplace(0));
    es := e + [TrimReplace(0)];
  }

  lemma MarkHere(big: Line, older: Line)
    requires |big| >= GATEWAY_LOG_CAP && |Record(older)| < HALF
    ensures Mark([big, older], 0, {}, HALF) == 1 && Records(Survive([big, older], 1, {})) == Record(older)
  {
    var two := [big, older];
    SurviveAll(two, 0);
    SurviveAll(two, 1);
    assert two[0..] == two && two[1..] == [older] && [older][1..] == [];
    assert Records([older]) == Record(older);
    assert |Records(two)| >= |Record(big)| >= HALF;
    assert Mark(two, 1, {}, HALF) == 1;
  }
}
