/**
  The gateway's own side of the child ledger: the list it keeps in memory and
  the file it saves after every change.
*/
module LedgerOwner {
  import opened Basics
  import opened ChildLedger

  lemma {:induction false} WithoutSnoc(children: seq<ChildEntry>, c: ChildEntry, pid: nat)
    ensures Without(children + [c], pid) == Without(children, pid) + (if c.process.pid != pid then [c] else [])
  {
    if children == [] {
      assert [c][1..] == [];
    } else {
      assert (children + [c])[1..] == children[1..] + [c];
      WithoutSnoc(children[1..], c, pid);
    }
  }

  /** No pid stands twice. */
  predicate DistinctPids(children: seq<ChildEntry>)
  {
    children == [] || (DistinctPids(children[1..]) && forall c <- children[1..] :: c.process.pid != children[0].process.pid)
  }

  /** `retain(|entry| entry.process.pid != pid)` */
  method Retain(children: seq<ChildEntry>, pid: nat) returns (kept: seq<ChildEntry>)
    ensures kept == Without(children, pid)
  {
    kept := [];
    for i := 0 to |children|
      invariant kept == Without(children[..i], pid)
    {
      WithoutSnoc(children[..i], children[i], pid);
      assert children[..i + 1] == children[..i] + [children[i]];
      if children[i].process.pid != pid {
        kept := kept + [children[i]];
      }
    }
    assert children[..|children|] == children;
  }

  class Ledger {
    const owner: ProcessId
    var children: seq<ChildEntry>
    /** The file at this owner's path; before the first save it may be a dead namesake's. */
    var disk: Option<LedgerFile>

    /** The file on disk is this ledger, and no pid is recorded twice. */
    predicate Saved()
      reads this
    {
      && disk == (if children == [] then None else Some(LedgerFile(owner, children)))
      && DistinctPids(children)
    }

    constructor (owner: ProcessId, disk: Option<LedgerFile>)
      ensures this.owner == owner && children == [] && this.disk == disk
    {
      this.owner, this.disk, children := owner, disk, [];
    }

    method Save()
      modifies this`disk
      ensures disk == (if children == [] then None else Some(LedgerFile(owner, children)))
    {
      if children == [] {
        disk := None;
        return;
      }
      disk := Some(LedgerFile(owner, children));
    }

    /** `record`; `start` is what the platform says about the pid, if anything. */
    method Record(pid: nat, start: Option<nat>, tag: nat)
      requires children == [] || Saved()
      modifies this
      ensures start.None? ==> children == old(children) && disk == old(disk)
      ensures start.Some? ==>
                && children == Without(old(children), pid) + [ChildEntry(ProcessId(pid, start.value), Some(tag))]
                && Saved()
    {
      if start.None? {
        return;
      }
      children := Retain(children, pid);
      WithoutMembers(old(children), pid);
      WithoutDistinct(old(children), pid);
      DistinctSnoc(children, ChildEntry(ProcessId(pid, start.value), Some(tag)));
      children := children + [ChildEntry(ProcessId(pid, start.value), Some(tag))];
      Save();
    }

    /** `forget`; the file is touched only if something went. */
    method Forget(pid: nat)
      requires children == [] || Saved()
      modifies this
      ensures children == Without(old(children), pid)
      ensures old(children) == [] ==> disk == old(disk)
      ensures old(children) != [] ==> Saved()
      ensures forall c <- children :: c.process.pid != pid
    {
      var before := |children|;
      children := Retain(children, pid);
      WithoutMembers(old(children), pid);
      WithoutDistinct(old(children), pid);
      if |children| != before {
        Save();
      }
    }
  }

  lemma {:induction false} WithoutDistinct(children: seq<ChildEntry>, pid: nat)
    requires DistinctPids(children)
    ensures DistinctPids(Without(children, pid))
  {
    if children != [] {
      WithoutDistinct(children[1..], pid);
      WithoutMembers(children[1..], pid);
    }
  }

  lemma {:induction false} DistinctSnoc(children: seq<ChildEntry>, c: ChildEntry)
    requires DistinctPids(children) && forall x <- children :: x.process.pid != c.process.pid
    ensures DistinctPids(children + [c])
  {
    if children == [] {
      assert [c][1..] == [];
    } else {
      assert (children + [c])[1..] == children[1..] + [c];
      DistinctSnoc(children[1..], c);
    }
  }

  /**
    The same two operations in the run of many gateways: a record leaves the
    other entries as they were, drops an earlier one of its pid and comes
    last; a forget drops the entries of its pid and nothing else.
  */
  lemma LedgerSteps(w: World, e: Event, c: ChildEntry)
    requires Enabled(w, e) && (e.Record? || e.Forget?)
    ensures var before, after := w.ledgers[e.g], Apply(w, e).ledgers[e.g];
            && (e.Record? ==>
                  && after == Without(before, e.server.pid) + [ChildEntry(e.server, Some(e.tag))]
                  && (c in after <==> c == ChildEntry(e.server, Some(e.tag)) || (c in before && c.process.pid != e.server.pid)))
            && (e.Forget? ==> (c in after <==> c in before && c.process.pid != e.pid))
    ensures forall g <- w.ledgers :: g != e.g ==> g in Apply(w, e).ledgers && Apply(w, e).ledgers[g] == w.ledgers[g]
  {
    var before := w.ledgers[e.g];
    var pid := if e.Record? then e.server.pid else e.pid;
    WithoutIff(before, pid, c);
    if e.Forget? && |Without(before, pid)| == |before| {
      NothingDropped(before, pid, c);
    }
  }

  lemma {:induction false} WithoutIff(children: seq<ChildEntry>, pid: nat, c: ChildEntry)
    ensures c in Without(children, pid) <==> c in children && c.process.pid != pid
    ensures |Without(children, pid)| <= |children|
  {
    if children != [] {
      WithoutIff(children[1..], pid, c);
      assert children == [children[0]] + children[1..];
    }
  }

  lemma {:induction false} NothingDropped(children: seq<ChildEntry>, pid: nat, c: ChildEntry)
    requires |Without(children, pid)| == |children|
    ensures c in children ==> c.process.pid != pid
  {
    if children != [] {
      WithoutIff(children[1..], pid, c);
      NothingDropped(children[1..], pid, c);
      assert children == [children[0]] + children[1..];
    }
  }
}
