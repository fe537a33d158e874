/**
  The bounded gateway log: records are appended whole, and a locked batch ends
  with a trim that cuts the file to its last lines once it is over the cap.
*/
module GatewayLog {
  import opened Basics

  const GATEWAY_LOG_CAP: nat := 256 * 1024
  const NEWLINE: Byte := 10

  type Bytes = seq<Byte>

  /** Formatted lines: `format_line` replaces line breaks. */
  type Line = l: Bytes | forall i :: 0 <= i < |l| ==> l[i] != NEWLINE witness []

  function Record(l: Line): Bytes
  {
    l + [NEWLINE]
  }

  function Records(lines: seq<Line>): Bytes
  {
    if lines == [] then [] else Record(lines[0]) + Records(lines[1..])
  }

  lemma {:induction false} RecordsAppend(lines: seq<Line>, l: Line)
    ensures Records(lines + [l]) == Records(lines) + Record(l)
  {
    if lines == [] {
      assert [l][1..] == [];
    } else {
      RecordsAppend(lines[1..], l);
      assert (lines + [l])[1..] == lines[1..] + [l];
    }
  }

  /** `position`: where the first line feed is. */
  function Position(data: Bytes): (i: Option<nat>)
    ensures i.Some? ==> i.value < |data| && data[i.value] == NEWLINE && forall j :: 0 <= j < i.value ==> data[j] != NEWLINE
    ensures i.None? ==> forall j :: 0 <= j < |data| ==> data[j] != NEWLINE
  {
    if data == [] then None
    else if data[0] == NEWLINE then Some(0)
    else
      var i := Position(data[1..]);
      if i.Some? then Some(i.value + 1) else None
  }

  /** What the trim keeps: what follows the first line feed in the last `half` bytes. */
  function Trimmed(data: Bytes, half: nat): Bytes
  {
    var from := if |data| >= half then |data| - half else 0;
    AfterBreak(data[from..])
  }

  function AfterBreak(data: Bytes): Bytes
  {
    var at := Position(data);
    if at.Some? then data[at.value + 1..] else data
  }

  /** How many lines have to go before the others take fewer than `half` bytes. */
  function Cut(lines: seq<Line>, half: nat): (k: nat)
    requires half > 0
    ensures k <= |lines|
  {
    if |Records(lines)| < half then 0 else 1 + Cut(lines[1..], half)
  }

  /** The cut keeps as many of the last lines as fit: those fit, and one more would not. */
  lemma {:induction false} CutKeepsMost(lines: seq<Line>, half: nat)
    requires half > 0
    ensures |Records(lines[Cut(lines, half)..])| < half
    ensures forall j :: 0 <= j < Cut(lines, half) ==> |Records(lines[j..])| >= half
  {
    if |Records(lines)| < half {
      assert lines[0..] == lines;
    } else {
      var k := Cut(lines[1..], half);
      CutKeepsMost(lines[1..], half);
      assert lines[1 + k..] == lines[1..][k..];
      forall j | 0 <= j < 1 + k ensures |Records(lines[j..])| >= half {
        if j == 0 {
          assert lines[0..] == lines;
        } else {
          assert lines[j..] == lines[1..][j - 1..];
        }
      }
    }
  }

  lemma TrimInFirst(l: Line, rest: Bytes, half: nat)
    requires |rest| < half <= |Record(l)| + |rest|
    ensures Trimmed(Record(l) + rest, half) == rest
  {
    var data := Record(l) + rest;
    var from := |data| - half;
    assert data[from..][|l| - from] == NEWLINE;
    assert forall j :: 0 <= j < |l| - from ==> data[from..][j] == l[from + j];
    assert Position(data[from..]) == Some(|l| - from);
    assert data[from..][|l| - from + 1..] == rest;
  }

  lemma SkipHead(head: Bytes, rest: Bytes, i: nat)
    requires i <= |rest|
    ensures (head + rest)[|head| + i..] == rest[i..]
  {
  }

  lemma TrimLater(head: Bytes, rest: Bytes, half: nat)
    requires half <= |rest|
    ensures Trimmed(head + rest, half) == Trimmed(rest, half)
  {
    var from := |rest| - half;
    SkipHead(head, rest, from);
  }

  /** Trimming bytes is dropping lines. */
  lemma {:induction false} TrimDropsLines(lines: seq<Line>, half: nat)
    requires 0 < half <= |Records(lines)|
    ensures Trimmed(Records(lines), half) == Records(lines[Cut(lines, half)..])
  {
    var rest := Records(lines[1..]);
    if |rest| < half {
      TrimInFirst(lines[0], rest, half);
      assert lines[1..][0..] == lines[1..];
    } else {
      TrimLater(Record(lines[0]), rest, half);
      TrimDropsLines(lines[1..], half);
      assert lines[1..][Cut(lines[1..], half)..] == lines[Cut(lines, half)..];
    }
  }

  /** The bytes from a line to the end of the history. */
  function Tail(lines: seq<Line>, j: nat): Bytes
    requires j <= |lines|
  {
    Records(lines[j..])
  }

  /** Of the lines from `from` on, one is kept if and only if it and all later ones take less than `half` bytes. */
  ghost predicate KeepsExactly(lines: seq<Line>, from: nat, gone: nat, half: nat)
  {
    forall j :: from <= j <= |lines| ==> (|Tail(lines, j)| < half <==> gone <= j)
  }

  datatype AppendResult = Appended | AppendError(unconfirmed: Option<nat>)

  class LogFile {
    var data: Bytes
    /** Every line ever appended, and how many of them are gone. */
    ghost var lines: seq<Line>
    ghost var gone: nat

    ghost predicate Valid()
      reads this
    {
      gone <= |lines| && data == Tail(lines, gone)
    }

    constructor ()
      ensures Valid() && lines == [] && data == []
    {
      data := [];
      lines, gone := [], 0;
    }

    method AppendLine(l: Line)
      requires Valid()
      modifies this
      ensures Valid() && lines == old(lines) + [l] && gone == old(gone) && data == old(data) + Record(l)
    {
      RecordsAppend(lines[gone..], l);
      assert (lines + [l])[gone..] == lines[gone..] + [l];
      data := data + Record(l);
      lines := lines + [l];
    }

    /** The file within the cap is left alone; over it, the last lines that take less than half of it stay. */
    method TrimIfLarge(works: bool) returns (ok: bool)
      requires Valid()
      modifies this
      ensures Valid() && lines == old(lines) && old(gone) <= gone
      ensures ok == (works || |old(data)| <= GATEWAY_LOG_CAP)
      ensures |old(data)| <= GATEWAY_LOG_CAP || !works ==> gone == old(gone) && data == old(data)
      ensures |old(data)| > GATEWAY_LOG_CAP && works ==>
                |data| < GATEWAY_LOG_CAP / 2 && KeepsExactly(lines, old(gone), gone, GATEWAY_LOG_CAP / 2)
    {
      if |data| <= GATEWAY_LOG_CAP {
        return true;
      }
      if !works {
        return false;
      }
      TrimTail(lines, gone, GATEWAY_LOG_CAP / 2);
      data := Trimmed(data, GATEWAY_LOG_CAP / 2);
      gone := gone + Cut(lines[gone..], GATEWAY_LOG_CAP / 2);
      return true;
    }

    /** `append_batch_to`; `failAt` is the line whose append fails, if any. */
    method AppendBatch(batch: seq<Line>, locked: bool, failAt: Option<nat>, trimWorks: bool) returns (r: AppendResult)
      requires Valid()
      modifies this
      ensures Valid() && old(gone) <= gone
      ensures failAt.Some? && failAt.value < |batch| ==>
                lines == old(lines) + batch[..failAt.value] && gone == old(gone) && r == AppendError(Some(|batch| - failAt.value))
      ensures failAt.None? || failAt.value >= |batch| ==> lines == old(lines) + batch
      ensures !locked || !trimWorks || |Tail(lines, old(gone))| <= GATEWAY_LOG_CAP ==> gone == old(gone)
      ensures failAt.None? ==> r == if locked && !trimWorks && |Tail(lines, old(gone))| > GATEWAY_LOG_CAP then AppendError(None) else Appended
      ensures locked && r.Appended? ==> |data| <= GATEWAY_LOG_CAP
      ensures gone != old(gone) ==>
                KeepsExactly(lines, old(gone), gone, GATEWAY_LOG_CAP / 2)
    {
      for i := 0 to |batch|
        invariant Valid() && lines == old(lines) + batch[..i] && gone == old(gone)
        invariant failAt.Some? ==> i <= failAt.value
      {
        if failAt == Some(i) {
          return AppendError(Some(|batch| - i));
        }
        AppendLine(batch[i]);
        assert old(lines) + batch[..i] + [batch[i]] == old(lines) + batch[..i + 1];
      }
      assert batch[..|batch|] == batch;
      if locked {
        var ok := TrimIfLarge(trimWorks);
        if !ok {
          return AppendError(None);
        }
      }
      return Appended;
    }
  }

  lemma {:induction false} RecordsShrink(lines: seq<Line>, j: nat, k: nat)
    requires j <= k <= |lines|
    ensures |Records(lines[k..])| <= |Records(lines[j..])|
    decreases k - j
  {
    if j < k {
      RecordsShrink(lines, j + 1, k);
      assert lines[j..][1..] == lines[j + 1..];
    }
  }

  lemma TrimTail(lines: seq<Line>, gone: nat, half: nat)
    requires half > 0 && gone <= |lines| && half <= |Tail(lines, gone)|
    ensures var k := Cut(lines[gone..], half);
            && Trimmed(Tail(lines, gone), half) == Tail(lines, gone + k) && |Tail(lines, gone + k)| < half
            && KeepsExactly(lines, gone, gone + k, half)
  {
    var k := Cut(lines[gone..], half);
    TrimDropsLines(lines[gone..], half);
    CutExactly(lines, gone, half);
    assert lines[gone..][k..] == lines[gone + k..];
  }

  lemma CutExactly(lines: seq<Line>, gone: nat, half: nat)
    requires half > 0 && gone <= |lines|
    ensures KeepsExactly(lines, gone, gone + Cut(lines[gone..], half), half)
  {
    forall j | gone <= j <= |lines| ensures |Tail(lines, j)| < half <==> gone + Cut(lines[gone..], half) <= j {
      CutAt(lines, gone, half, j);
    }
  }

  lemma TailOfTail(lines: seq<Line>, gone: nat, j: nat)
    requires gone <= j <= |lines|
    ensures lines[gone..][j - gone..] == lines[j..]
  {
  }

  lemma CutAt(lines: seq<Line>, gone: nat, half: nat, j: nat)
    requires half > 0 && gone <= j <= |lines|
    ensures |Tail(lines, j)| < half <==> gone + Cut(lines[gone..], half) <= j
  {
    TailOfTail(lines, gone, j);
    CutIsExact(lines[gone..], half, j - gone);
  }

  lemma CutIsExact(kept: seq<Line>, half: nat, i: nat)
    requires half > 0 && i <= |kept|
    ensures |Records(kept[i..])| < half <==> Cut(kept, half) <= i
  {
    CutKeepsMost(kept, half);
    if Cut(kept, half) <= i {
      RecordsShrink(kept, Cut(kept, half), i);
    }
  }
}
