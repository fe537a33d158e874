/** Rust's `String` ordering (code point by code point) and key-sorted entries. */
module TextOrder {

  predicate Less(a: string, b: string)
  {
    b != [] && (a == [] || a[0] < b[0] || (a[0] == b[0] && Less(a[1..], b[1..])))
  }

  lemma {:induction false} LessTotal(a: string, b: string)
    ensures Less(a, b) || Less(b, a) || a == b
    ensures !(Less(a, b) && Less(b, a)) && !Less(a, a)
  {
    if a != [] {
      LessTotal(a[1..], a[1..]);
      if b != [] && a[0] == b[0] {
        LessTotal(a[1..], b[1..]);
        assert a == [a[0]] + a[1..] && b == [b[0]] + b[1..];
      }
    }
  }

  lemma {:induction false} LessTransitive(a: string, b: string, c: string)
    requires Less(a, b) && Less(b, c)
    ensures Less(a, c)
  {
    if a != [] && a[0] == b[0] && b[0] == c[0] {
      LessTransitive(a[1..], b[1..], c[1..]);
    }
  }

  /** `a` and `b` agree up to `i`, where `a` ends or has the smaller character. */
  predicate DiffersAt(a: string, b: string, i: nat)
  {
    i <= |a| && i < |b| && a[..i] == b[..i] && (i == |a| || a[i] < b[i])
  }

  /** Lexicographic order, by the first character that differs. */
  lemma {:induction false} LessIff(a: string, b: string)
    ensures Less(a, b) <==> exists i :: DiffersAt(a, b, i)
  {
    if b == [] {
    } else if a == [] || a[0] < b[0] {
      assert DiffersAt(a, b, 0);
    } else {
      if i: nat :| DiffersAt(a, b, i) {
        assert i > 0 && a[..i][0] == b[..i][0];
      }
      if a[0] == b[0] {
        LessIff(a[1..], b[1..]);
        forall i: nat ensures DiffersAt(a[1..], b[1..], i) <==> DiffersAt(a, b, i + 1) {
          if i < |a| && i + 1 < |b| {
            assert a[..i + 1] == [a[0]] + a[1..][..i] && b[..i + 1] == [b[0]] + b[1..][..i];
            assert a[..i + 1][1..] == a[1..][..i] && b[..i + 1][1..] == b[1..][..i];
          }
        }
        if i: nat :| DiffersAt(a, b, i) {
          assert i > 0 && DiffersAt(a[1..], b[1..], i - 1);
        }
        if i: nat :| DiffersAt(a[1..], b[1..], i) {
          assert DiffersAt(a, b, i + 1);
        }
      }
    }
  }

  datatype Entry<V> = Entry(key: string, value: V)

  ghost predicate Sorted<V(!new)>(xs: seq<Entry<V>>)
  {
    forall i, j :: 0 <= i < j < |xs| ==> Less(xs[i].key, xs[j].key)
  }

  ghost predicate HasKey<V(!new)>(xs: seq<Entry<V>>, k: string)
  {
    exists x <- xs :: x.key == k
  }

  /** Insert into a key-sorted sequence; a key already there keeps its first value (`or_insert`). */
  function Insert<V(!new)>(e: Entry<V>, xs: seq<Entry<V>>): seq<Entry<V>>
  {
    if xs == [] then [e]
    else if Less(e.key, xs[0].key) then [e] + xs
    else if e.key == xs[0].key then xs
    else [xs[0]] + Insert(e, xs[1..])
  }

  /** In a sorted sequence everything after the head has a larger key. */
  lemma TailIsLarger<V(!new)>(xs: seq<Entry<V>>, x: Entry<V>)
    requires Sorted(xs) && xs != [] && x in xs[1..]
    ensures Less(xs[0].key, x.key)
  {
    var j :| 0 <= j < |xs[1..]| && xs[1..][j] == x;
    assert xs[j + 1] == x;
  }

  lemma {:induction false} InsertMembers<V(!new)>(e: Entry<V>, xs: seq<Entry<V>>)
    requires Sorted(xs)
    ensures forall x :: x in Insert(e, xs) <==> x in xs || (x == e && !HasKey(xs, e.key))
  {
    if xs != [] {
      LessTotal(e.key, xs[0].key);
      var tail := xs[1..];
      assert forall x :: x in xs <==> x == xs[0] || x in tail;
      forall x <- tail ensures Less(xs[0].key, x.key) && (Less(e.key, xs[0].key) ==> x.key != e.key) {
        TailIsLarger(xs, x);
        LessTotal(xs[0].key, x.key);
        LessTotal(e.key, x.key);
        if Less(e.key, xs[0].key) {
          LessTransitive(e.key, xs[0].key, x.key);
        }
      }
      if !Less(e.key, xs[0].key) && e.key != xs[0].key {
        InsertMembers(e, tail);
        assert HasKey(xs, e.key) <==> HasKey(tail, e.key);
      }
    }
  }

  /** A smaller entry in front keeps the order. */
  lemma ConsSorted<V(!new)>(e: Entry<V>, xs: seq<Entry<V>>)
    requires Sorted(xs) && forall x <- xs :: Less(e.key, x.key)
    ensures Sorted([e] + xs)
  {
  }

  lemma FrontIsSmaller<V(!new)>(e: Entry<V>, xs: seq<Entry<V>>)
    requires Sorted(xs) && xs != [] && Less(e.key, xs[0].key)
    ensures forall x <- xs :: Less(e.key, x.key)
  {
    forall x <- xs ensures Less(e.key, x.key) {
      var j :| 0 <= j < |xs| && xs[j] == x;
      if j > 0 {
        LessTransitive(e.key, xs[0].key, xs[j].key);
      }
    }
  }

  lemma {:induction false} InsertSorted<V(!new)>(e: Entry<V>, xs: seq<Entry<V>>)
    requires Sorted(xs)
    ensures Sorted(Insert(e, xs))
  {
    if xs != [] {
      LessTotal(e.key, xs[0].key);
      if Less(e.key, xs[0].key) {
        FrontIsSmaller(e, xs);
        ConsSorted(e, xs);
      } else if e.key != xs[0].key {
        var rest := Insert(e, xs[1..]);
        InsertSorted(e, xs[1..]);
        InsertMembers(e, xs[1..]);
        forall x <- rest ensures Less(xs[0].key, x.key) {
          if x in xs[1..] {
            TailIsLarger(xs, x);
          }
        }
        ConsSorted(xs[0], rest);
      }
    }
  }

  lemma InsertOk<V(!new)>(e: Entry<V>, xs: seq<Entry<V>>)
    requires Sorted(xs)
    ensures Sorted(Insert(e, xs))
    ensures forall x :: x in Insert(e, xs) <==> x in xs || (x == e && !HasKey(xs, e.key))
    ensures forall k :: HasKey(Insert(e, xs), k) <==> k == e.key || HasKey(xs, k)
  {
    InsertSorted(e, xs);
    InsertMembers(e, xs);
    var r := Insert(e, xs);
    forall k ensures HasKey(r, k) <==> k == e.key || HasKey(xs, k) {
      if HasKey(r, k) {
        var x :| x in r && x.key == k;
        assert x in xs || x == e;
      }
      if HasKey(xs, k) {
        var x :| x in xs && x.key == k;
        assert x in r;
      } else {
        assert k == e.key ==> e in r;
      }
    }
  }

  /** Key sort of entries with distinct keys. */
  function Sort<V(!new)>(xs: seq<Entry<V>>): seq<Entry<V>>
  {
    if xs == [] then [] else Insert(xs[0], Sort(xs[1..]))
  }

  ghost predicate Distinct<V(!new)>(xs: seq<Entry<V>>)
  {
    forall i, j :: 0 <= i < j < |xs| ==> xs[i].key != xs[j].key
  }

  lemma {:induction false} SortOk<V(!new)>(xs: seq<Entry<V>>)
    requires Distinct(xs)
    ensures Sorted(Sort(xs))
    ensures forall x :: x in Sort(xs) <==> x in xs
  {
    if xs != [] {
      SortOk(xs[1..]);
      InsertOk(xs[0], Sort(xs[1..]));
      assert forall x :: x in xs <==> x == xs[0] || x in xs[1..];
      assert !HasKey(Sort(xs[1..]), xs[0].key);
    }
  }

  /** Two key-sorted sequences over the same keys list them in the same order. */
  lemma {:induction false} SortedKeysUnique<V(!new), W(!new)>(xs: seq<Entry<V>>, ys: seq<Entry<W>>)
    requires Sorted(xs) && Sorted(ys)
    requires forall x <- xs :: HasKey(ys, x.key)
    requires forall y <- ys :: HasKey(xs, y.key)
    ensures |xs| == |ys| && forall i :: 0 <= i < |xs| ==> xs[i].key == ys[i].key
  {
    if xs == [] {
      assert ys != [] ==> HasKey(xs, ys[0].key);
    } else {
      assert HasKey(ys, xs[0].key);
      FirstIsLeast(ys, xs[0].key);
      FirstIsLeast(xs, ys[0].key);
      LessTotal(xs[0].key, ys[0].key);
      TailKeys(xs, ys);
      TailKeys(ys, xs);
      SortedKeysUnique(xs[1..], ys[1..]);
      forall i | 0 <= i < |xs| ensures xs[i].key == ys[i].key {
        if i > 0 {
          assert xs[i] == xs[1..][i - 1] && ys[i] == ys[1..][i - 1];
        }
      }
    }
  }

  lemma FirstIsLeast<V(!new)>(xs: seq<Entry<V>>, k: string)
    requires Sorted(xs) && HasKey(xs, k)
    ensures xs != [] && (k == xs[0].key || Less(xs[0].key, k))
  {
    var x :| x in xs && x.key == k;
    var j :| 0 <= j < |xs| && xs[j] == x;
  }

  lemma TailKeys<V(!new), W(!new)>(xs: seq<Entry<V>>, ys: seq<Entry<W>>)
    requires Sorted(xs) && xs != [] && ys != [] && xs[0].key == ys[0].key
    requires forall x <- xs :: HasKey(ys, x.key)
    ensures forall x <- xs[1..] :: HasKey(ys[1..], x.key)
  {
    forall x <- xs[1..] ensures HasKey(ys[1..], x.key) {
      assert x in xs;
      LessTotal(xs[0].key, x.key);
      var y :| y in ys && y.key == x.key;
      assert y in ys[1..] by {
        assert ys == [ys[0]] + ys[1..];
      }
    }
  }
}
