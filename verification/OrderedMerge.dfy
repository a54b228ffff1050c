/** Merging keyed lists: environment variables by name, files by path.

    The controller builds a map and an order slice; what it computes is a keyed list in
    first-occurrence order holding last-occurrence values.
 */
module OrderedMerge {

  // A value the merge hands on without looking inside.
  type Blob = string

  datatype Entry = Entry(key: string, value: Blob)

  predicate HasKey(s: seq<Entry>, key: string) {
    exists i :: 0 <= i < |s| && s[i].key == key
  }

  function FirstIndex(s: seq<Entry>, key: string): (i: nat)
    requires HasKey(s, key)
    ensures i < |s| && s[i].key == key && forall j | 0 <= j < i :: s[j].key != key
  {
    if s[0].key == key then 0
    else
      assert HasKey(s[1..], key) by {
        var i :| 0 <= i < |s| && s[i].key == key;
        assert s[1..][i - 1].key == key;
      }
      1 + FirstIndex(s[1..], key)
  }

  function LastIndex(s: seq<Entry>, key: string): (i: nat)
    requires HasKey(s, key)
    ensures i < |s| && s[i].key == key && forall j | i < j < |s| :: s[j].key != key
  {
    var n := |s| - 1;
    if s[n].key == key then n
    else
      assert HasKey(s[..n], key) by {
        var i :| 0 <= i < |s| && s[i].key == key;
        assert s[..n][i].key == key;
      }
      LastIndex(s[..n], key)
  }

  ghost predicate DistinctKeys(s: seq<Entry>) {
    forall i, j | 0 <= i < j < |s| :: s[i].key != s[j].key
  }

  // Replace the entry with this key where it stands, or append.
  function Upsert(s: seq<Entry>, e: Entry): (r: seq<Entry>)
    ensures r != []
  {
    if s == [] then [e]
    else if s[0].key == e.key then [e] + s[1..]
    else [s[0]] + Upsert(s[1..], e)
  }

  function Absorb(s: seq<Entry>, more: seq<Entry>): seq<Entry> {
    if more == [] then s else Upsert(Absorb(s, more[..|more| - 1]), more[|more| - 1])
  }

  function Dedup(s: seq<Entry>): seq<Entry> {
    Absorb([], s)
  }

  /******* Upsert and Absorb *******/

  // Behind an entry with another key, a key stands where it stands in the rest.
  lemma KeyInTail(s: seq<Entry>, key: string)
    requires s != [] && s[0].key != key
    ensures HasKey(s, key) <==> HasKey(s[1..], key)
    ensures HasKey(s, key) ==> FirstIndex(s, key) == 1 + FirstIndex(s[1..], key)
  {
    var tail := s[1..];
    if HasKey(s, key) {
      assert tail[FirstIndex(s, key) - 1].key == key;
    }
    if HasKey(tail, key) {
      assert s[1 + FirstIndex(tail, key)].key == key;
    }
  }

  lemma {:induction false} UpsertStands(s: seq<Entry>, e: Entry)
    ensures HasKey(s, e.key) ==> Upsert(s, e) == s[FirstIndex(s, e.key) := e]
    ensures !HasKey(s, e.key) ==> Upsert(s, e) == s + [e]
  {
    if s == [] {
    } else if s[0].key == e.key {
      assert s[0 := e] == [e] + s[1..];
    } else {
      KeyInTail(s, e.key);
      UpsertStands(s[1..], e);
      assert s == [s[0]] + s[1..];
    }
  }

  lemma ReplaceKeepsDistinct(s: seq<Entry>, at: nat, e: Entry)
    requires DistinctKeys(s) && at < |s| && s[at].key == e.key
    ensures DistinctKeys(s[at := e])
  {
    assert forall i | 0 <= i < |s| :: s[at := e][i].key == s[i].key;
  }

  lemma AppendKeepsDistinct(s: seq<Entry>, e: Entry)
    requires DistinctKeys(s) && !HasKey(s, e.key)
    ensures DistinctKeys(s + [e])
  {
    assert forall i | 0 <= i < |s| :: (s + [e])[i] == s[i] && s[i].key != e.key;
  }

  lemma UpsertAt(s: seq<Entry>, e: Entry)
    requires DistinctKeys(s)
    ensures var r := Upsert(s, e);
            && DistinctKeys(r)
            && (HasKey(s, e.key) ==> r == s[FirstIndex(s, e.key) := e])
            && (!HasKey(s, e.key) ==> r == s + [e])
  {
    UpsertStands(s, e);
    if HasKey(s, e.key) {
      ReplaceKeepsDistinct(s, FirstIndex(s, e.key), e);
    } else {
      AppendKeepsDistinct(s, e);
    }
  }

  lemma {:induction false} UpsertTwice(s: seq<Entry>, d: Entry, e: Entry)
    ensures d.key == e.key ==> Upsert(Upsert(s, d), e) == Upsert(s, e)
    ensures d.key != e.key && HasKey(s, e.key) ==> Upsert(Upsert(s, d), e) == Upsert(Upsert(s, e), d)
  {
    if s == [] {
    } else if s[0].key == d.key || s[0].key == e.key {
      if d.key == e.key {
        assert ([d] + s[1..])[1..] == s[1..];
      } else if s[0].key == d.key {
        assert ([d] + s[1..])[1..] == s[1..];
        assert ([s[0]] + Upsert(s[1..], e))[1..] == Upsert(s[1..], e);
      } else {
        assert ([s[0]] + Upsert(s[1..], d))[1..] == Upsert(s[1..], d);
        assert ([e] + s[1..])[1..] == s[1..];
      }
    } else {
      UpsertTwice(s[1..], d, e);
      if HasKey(s, e.key) {
        assert s[1..][FirstIndex(s, e.key) - 1].key == e.key;
      }
      assert ([s[0]] + Upsert(s[1..], d))[1..] == Upsert(s[1..], d);
      assert ([s[0]] + Upsert(s[1..], e))[1..] == Upsert(s[1..], e);
    }
  }

  lemma {:induction false} AbsorbConcat(s: seq<Entry>, x: seq<Entry>, y: seq<Entry>)
    ensures Absorb(s, x + y) == Absorb(Absorb(s, x), y)
  {
    if y == [] {
      assert x + y == x;
    } else {
      var n := |y| - 1;
      assert (x + y)[..|x + y| - 1] == x + y[..n];
      AbsorbConcat(s, x, y[..n]);
    }
  }

  lemma HasKeyAppend(s: seq<Entry>, e: Entry, key: string)
    ensures HasKey(s + [e], key) <==> HasKey(s, key) || key == e.key
  {
    var r := s + [e];
    if HasKey(s, key) {
      assert r[FirstIndex(s, key)].key == key;
    } else if key == e.key {
      assert r[|s|].key == key;
    }
  }

  lemma UpsertHasKey(s: seq<Entry>, e: Entry, key: string)
    requires DistinctKeys(s)
    ensures HasKey(Upsert(s, e), key) <==> HasKey(s, key) || key == e.key
  {
    UpsertAt(s, e);
    HasKeyAppend(s, e, key);
    if HasKey(s, e.key) {
      var i := FirstIndex(s, e.key);
      var r := s[i := e];
      assert forall j | 0 <= j < |s| :: r[j].key == s[j].key;
      if HasKey(s, key) { assert r[FirstIndex(s, key)].key == key; }
      if HasKey(r, key) { assert s[FirstIndex(r, key)].key == key; }
    }
  }

  lemma {:induction false} AbsorbHasKey(s: seq<Entry>, x: seq<Entry>, key: string)
    requires DistinctKeys(s)
    ensures DistinctKeys(Absorb(s, x))
    ensures HasKey(Absorb(s, x), key) <==> HasKey(s, key) || HasKey(x, key)
  {
    if x != [] {
      var n := |x| - 1;
      AbsorbHasKey(s, x[..n], key);
      UpsertAt(Absorb(s, x[..n]), x[n]);
      UpsertHasKey(Absorb(s, x[..n]), x[n], key);
      assert x == x[..n] + [x[n]];
      HasKeyAppend(x[..n], x[n], key);
    }
  }

  lemma NoKeys(key: string)
    ensures !HasKey([], key)
  {
  }

  lemma UpsertNew(s: seq<Entry>, e: Entry)
    requires DistinctKeys(s + [e])
    ensures DistinctKeys(s) && Upsert(s, e) == s + [e]
  {
    var t := s + [e];
    assert forall i | 0 <= i < |s| :: t[i] == s[i];
    assert t[|s|] == e;
    UpsertAt(s, e);
  }

  // Appending entries that are new to a distinct list leaves them as they are.
  lemma {:induction false} AbsorbDistinct(s: seq<Entry>, x: seq<Entry>)
    requires DistinctKeys(s + x)
    ensures Absorb(s, x) == s + x
  {
    if x == [] {
      assert s + x == s;
    } else {
      var front, e := x[..|x| - 1], x[|x| - 1];
      assert s + x == s + front + [e];
      UpsertNew(s + front, e);
      AbsorbDistinct(s, front);
    }
  }

  lemma AbsorbSnoc(s: seq<Entry>, x: seq<Entry>, e: Entry)
    ensures Absorb(s, x + [e]) == Upsert(Absorb(s, x), e)
  {
    assert (x + [e])[..|x|] == x;
  }

  // The key stands before the last entry: upserting reaches past it.
  lemma UpsertInFront(front: seq<Entry>, d: Entry, e: Entry)
    requires DistinctKeys(front + [d]) && HasKey(front + [d], e.key) && d.key != e.key
    ensures HasKey(front, e.key) && Upsert(front + [d], e) == Upsert(front, e) + [d]
  {
    var x := front + [d];
    HasKeyAppend(front, d, e.key);
    UpsertStands(x, e);
    UpsertStands(front, e);
    var i := FirstIndex(front, e.key);
    assert x[i].key == e.key && forall j | 0 <= j < i :: x[j] == front[j];
    assert x[i := e] == front[i := e] + [d];
  }

  lemma DistinctFront(front: seq<Entry>, d: Entry)
    requires DistinctKeys(front + [d])
    ensures DistinctKeys(front) && !HasKey(front, d.key)
  {
    var x := front + [d];
    assert forall i | 0 <= i < |front| :: x[i] == front[i];
    assert x[|front|] == d;
  }

  lemma UpsertLast(front: seq<Entry>, d: Entry, e: Entry)
    requires !HasKey(front, d.key) && d.key == e.key
    ensures Upsert(front + [d], e) == front + [e]
  {
    var x := front + [d];
    assert x[|front|].key == e.key;
    UpsertStands(x, e);
    assert forall j | 0 <= j < |front| :: x[j] == front[j];
    assert x[|front| := e] == front + [e];
  }

  // Absorbing an upserted list is upserting after absorbing it.
  lemma {:induction false} AbsorbUpsert(s: seq<Entry>, x: seq<Entry>, e: Entry)
    requires DistinctKeys(s) && DistinctKeys(x)
    ensures Absorb(s, Upsert(x, e)) == Upsert(Absorb(s, x), e)
  {
    if !HasKey(x, e.key) {
      UpsertStands(x, e);
      AbsorbSnoc(s, x, e);
    } else {
      var front, d := x[..|x| - 1], x[|x| - 1];
      assert x == front + [d];
      DistinctFront(front, d);
      AbsorbSnoc(s, front, d);
      UpsertTwice(Absorb(s, front), d, e);
      if d.key == e.key {
        UpsertLast(front, d, e);
        AbsorbSnoc(s, front, e);
      } else {
        UpsertInFront(front, d, e);
        AbsorbSnoc(s, Upsert(front, e), d);
        AbsorbUpsert(s, front, e);
        AbsorbHasKey(s, front, e.key);
      }
    }
  }

  lemma {:induction false} AbsorbDedup(s: seq<Entry>, x: seq<Entry>)
    requires DistinctKeys(s)
    ensures Absorb(s, Dedup(x)) == Absorb(s, x)
  {
    if x != [] {
      var n := |x| - 1;
      AbsorbDedup(s, x[..n]);
      AbsorbHasKey([], x[..n], "");
      AbsorbUpsert(s, Dedup(x[..n]), x[n]);
    }
  }

  /******* What Dedup is *******/

  lemma FirstOfFront(s: seq<Entry>, key: string)
    requires s != [] && HasKey(s[..|s| - 1], key)
    ensures HasKey(s, key) && FirstIndex(s, key) == FirstIndex(s[..|s| - 1], key)
  {
    var front := s[..|s| - 1];
    var f := FirstIndex(front, key);
    var g := FirstIndex(s, key);
    assert s[f] == front[f];
    assert g <= f && front[g] == s[g];
  }

  lemma LastOfFront(s: seq<Entry>, key: string)
    requires s != [] && HasKey(s[..|s| - 1], key) && s[|s| - 1].key != key
    ensures HasKey(s, key) && s[LastIndex(s, key)] == s[..|s| - 1][LastIndex(s[..|s| - 1], key)]
  {
    var l := LastIndex(s[..|s| - 1], key);
    assert s[l].key == key;
  }

  // In order of first occurrence, with the last occurrence's value.
  ghost predicate FirstOrderLastValue(d: seq<Entry>, s: seq<Entry>) {
    && (forall i | 0 <= i < |d| :: HasKey(s, d[i].key) && d[i] == s[LastIndex(s, d[i].key)])
    && (forall i, j | 0 <= i < j < |d| :: FirstIndex(s, d[i].key) < FirstIndex(s, d[j].key))
  }

  // Distinct keys, every key once, first-occurrence order, last-occurrence value.
  lemma {:induction false} DedupMeaning(s: seq<Entry>)
    ensures DistinctKeys(Dedup(s))
    ensures forall key :: HasKey(Dedup(s), key) <==> HasKey(s, key)
    ensures FirstOrderLastValue(Dedup(s), s)
  {
    forall key ensures HasKey(Dedup(s), key) <==> HasKey(s, key) {
      AbsorbHasKey([], s, key);
      NoKeys(key);
    }
    AbsorbHasKey([], s, "");
    if s != [] {
      var n := |s| - 1;
      DedupMeaning(s[..n]);
      UpsertAt(Dedup(s[..n]), s[n]);
      if HasKey(Dedup(s[..n]), s[n].key) {
        ReplacingKeepsOrder(Dedup(s[..n]), s);
      } else {
        AppendingKeepsOrder(Dedup(s[..n]), s);
      }
    }
  }

  lemma ReplacingKeepsOrder(c: seq<Entry>, s: seq<Entry>)
    requires s != [] && DistinctKeys(c) && HasKey(c, s[|s| - 1].key)
    requires FirstOrderLastValue(c, s[..|s| - 1])
    ensures FirstOrderLastValue(c[FirstIndex(c, s[|s| - 1].key) := s[|s| - 1]], s)
  {
    var e := s[|s| - 1];
    var at := FirstIndex(c, e.key);
    forall i | 0 <= i < |c|
      ensures HasKey(s, c[i].key) && FirstIndex(s, c[i].key) == FirstIndex(s[..|s| - 1], c[i].key)
      ensures s[LastIndex(s, c[i].key)] == if i == at then e else c[i]
    {
      FirstOfFront(s, c[i].key);
      if i != at {
        assert c[i].key != c[at].key;
        LastOfFront(s, c[i].key);
      }
    }
    ReplacedOrder(c, at, e, s);
  }

  lemma ReplacedOrder(c: seq<Entry>, at: nat, e: Entry, s: seq<Entry>)
    requires at < |c| && c[at].key == e.key
    requires forall i | 0 <= i < |c| :: HasKey(s, c[i].key) && s[LastIndex(s, c[i].key)] == if i == at then e else c[i]
    requires forall i, j | 0 <= i < j < |c| :: FirstIndex(s, c[i].key) < FirstIndex(s, c[j].key)
    ensures FirstOrderLastValue(c[at := e], s)
  {
    var d := c[at := e];
    assert forall i | 0 <= i < |d| :: d[i].key == c[i].key;
  }

  // An entry whose key the last one does not have stands where it stood.
  lemma FrontStands(s: seq<Entry>, key: string)
    requires s != [] && HasKey(s[..|s| - 1], key) && s[|s| - 1].key != key
    ensures HasKey(s, key) && FirstIndex(s, key) == FirstIndex(s[..|s| - 1], key) < |s| - 1
    ensures s[LastIndex(s, key)] == s[..|s| - 1][LastIndex(s[..|s| - 1], key)]
  {
    FirstOfFront(s, key);
    LastOfFront(s, key);
  }

  lemma NewKeyComesLast(s: seq<Entry>)
    requires s != [] && !HasKey(s[..|s| - 1], s[|s| - 1].key)
    ensures HasKey(s, s[|s| - 1].key)
    ensures FirstIndex(s, s[|s| - 1].key) == |s| - 1 && LastIndex(s, s[|s| - 1].key) == |s| - 1
  {
    var front, key := s[..|s| - 1], s[|s| - 1].key;
    assert s[|s| - 1].key == key;
    assert forall j | 0 <= j < |front| :: s[j] == front[j];
  }

  lemma AppendingKeepsOrder(c: seq<Entry>, s: seq<Entry>)
    requires s != [] && !HasKey(c, s[|s| - 1].key) && !HasKey(s[..|s| - 1], s[|s| - 1].key)
    requires FirstOrderLastValue(c, s[..|s| - 1])
    ensures FirstOrderLastValue(c + [s[|s| - 1]], s)
  {
    var front, e := s[..|s| - 1], s[|s| - 1];
    NewKeyComesLast(s);
    forall i | 0 <= i < |c|
      ensures HasKey(s, c[i].key) && c[i] == s[LastIndex(s, c[i].key)]
      ensures FirstIndex(s, c[i].key) == FirstIndex(front, c[i].key) < |s| - 1
    {
      assert c[i].key != e.key;
      FrontStands(s, c[i].key);
    }
    AppendedOrder(c, e, s);
  }

  lemma AppendedOrder(c: seq<Entry>, e: Entry, s: seq<Entry>)
    requires FirstOrderLastValue(c, s)
    requires HasKey(s, e.key) && e == s[LastIndex(s, e.key)]
    requires forall i | 0 <= i < |c| :: FirstIndex(s, c[i].key) < FirstIndex(s, e.key)
    ensures FirstOrderLastValue(c + [e], s)
  {
    var d := c + [e];
    assert forall i | 0 <= i < |c| :: d[i] == c[i];
    assert d[|c|] == e;
    forall i | 0 <= i < |d| ensures HasKey(s, d[i].key) && d[i] == s[LastIndex(s, d[i].key)] {
      assert i < |c| ==> d[i] == c[i];
    }
    forall i, j | 0 <= i < j < |d| ensures FirstIndex(s, d[i].key) < FirstIndex(s, d[j].key) {
      assert d[i] == c[i] && (j < |c| ==> d[j] == c[j]);
    }
  }

  lemma DedupTwice(x: seq<Entry>)
    ensures Dedup(Dedup(x)) == Dedup(x)
  {
    AbsorbHasKey([], x, "");
    assert [] + Dedup(x) == Dedup(x);
    AbsorbDistinct([], Dedup(x));
  }

  // Deduplicating either part first changes nothing.
  lemma DedupAbsorbs(x: seq<Entry>, y: seq<Entry>)
    ensures Dedup(Dedup(x) + y) == Dedup(x + y) == Dedup(x + Dedup(y))
  {
    var d := Dedup(x);
    AbsorbHasKey([], x, "");
    DedupTwice(x);
    AbsorbConcat([], x, y);
    AbsorbConcat([], d, y);
    AbsorbConcat([], x, Dedup(y));
    AbsorbDedup(d, y);
  }

  lemma DedupEmpty(x: seq<Entry>)
    ensures Dedup(x) == [] <==> x == []
  {
  }

  /******* The merge of two lists *******/

  // One empty side returns the other side untouched, duplicates and all.
  function Merge(parent: seq<Entry>, child: seq<Entry>): seq<Entry> {
    if child == [] then parent
    else if parent == [] then child
    else Dedup(parent + child)
  }

  lemma MergeOfThree(x: seq<Entry>, y: seq<Entry>, z: seq<Entry>)
    requires x != [] && y != [] && z != []
    ensures Merge(Merge(x, y), z) == Dedup(x + y + z) == Merge(x, Merge(y, z))
  {
    var xy, yz := Dedup(x + y), Dedup(y + z);
    assert x + y != [] && y + z != [];
    DedupEmpty(x + y);
    DedupEmpty(y + z);
    assert Merge(x, y) == xy && Merge(y, z) == yz && xy != [] && yz != [];
    DedupAbsorbs(x + y, z);
    DedupAbsorbs(x, y + z);
    assert x + y + z == x + (y + z);
    assert Merge(xy, z) == Dedup(xy + z) && Merge(x, yz) == Dedup(x + yz);
  }

  lemma MergeIsAssociative(x: seq<Entry>, y: seq<Entry>, z: seq<Entry>)
    ensures Merge(Merge(x, y), z) == Merge(x, Merge(y, z))
  {
    if x != [] && y != [] && z != [] {
      MergeOfThree(x, y, z);
    } else {
      MergeOfTwo(x, y, z);
    }
  }

  // An empty list anywhere leaves the merge of the other two.
  lemma MergeOfTwo(x: seq<Entry>, y: seq<Entry>, z: seq<Entry>)
    requires x == [] || y == [] || z == []
    ensures Merge(Merge(x, y), z) == Merge(x, Merge(y, z))
  {
    if z == [] {
    } else if y == [] {
    } else {
      MergeWithNothing(y);
      MergeWithNothing(Merge(y, z));
    }
  }

  lemma MergeWithNothing(x: seq<Entry>)
    ensures Merge([], x) == x && Merge(x, []) == x
  {
  }

  // One map-and-order loop: the first runs over the parent, the second over the child.
  method Collect(entries0: map<string, Entry>, order0: seq<string>, ghost held: seq<Entry>, list: seq<Entry>)
    returns (entries: map<string, Entry>, order: seq<string>)
    requires Represents(entries0, order0, held)
    ensures Represents(entries, order, Absorb(held, list))
  {
    entries, order := entries0, order0;
    for i := 0 to |list|
      invariant Represents(entries, order, Absorb(held, list[..i]))
    {
      assert list[..i + 1][..i] == list[..i];
      RepresentsUpsert(entries, order, Absorb(held, list[..i]), list[i]);
      if list[i].key !in entries {
        order := order + [list[i].key];
      }
      entries := entries[list[i].key := list[i]];
    }
    assert list[..|list|] == list;
  }

  method MergeEntries(parent: seq<Entry>, child: seq<Entry>) returns (result: seq<Entry>)
    ensures result == Merge(parent, child)
  {
    if child == [] {
      return parent;
    }
    if parent == [] {
      return child;
    }
    var entries, order := Collect(map[], [], [], parent);
    entries, order := Collect(entries, order, Dedup(parent), child);
    AbsorbConcat([], parent, child);
    result := Rebuild(entries, order, Dedup(parent + child));
  }

  // The last loop: the entries in order.
  method Rebuild(entries: map<string, Entry>, order: seq<string>, ghost held: seq<Entry>) returns (result: seq<Entry>)
    requires Represents(entries, order, held)
    ensures result == held
  {
    result := [];
    for i := 0 to |order|
      invariant result == held[..i]
    {
      assert held[..i + 1] == held[..i] + [held[i]];
      result := result + [entries[order[i]]];
    }
    assert held[..|order|] == held;
  }

  // The map and the order slice together stand for a distinct list.
  ghost predicate Represents(entries: map<string, Entry>, order: seq<string>, s: seq<Entry>) {
    && DistinctKeys(s)
    && |order| == |s|
    && (forall i | 0 <= i < |s| :: order[i] == s[i].key && order[i] in entries && entries[order[i]] == s[i])
    && (forall key | key in entries :: HasKey(s, key))
  }

  lemma RepresentsUpsert(entries: map<string, Entry>, order: seq<string>, s: seq<Entry>, e: Entry)
    requires Represents(entries, order, s)
    ensures Represents(entries[e.key := e], if e.key in entries then order else order + [e.key], Upsert(s, e))
  {
    UpsertAt(s, e);
    if HasKey(s, e.key) {
      assert order[FirstIndex(s, e.key)] == e.key;
      RepresentsReplaced(entries, order, s, e, FirstIndex(s, e.key));
    } else {
      RepresentsAppended(entries, order, s, e);
    }
  }

  lemma RepresentsReplaced(entries: map<string, Entry>, order: seq<string>, s: seq<Entry>, e: Entry, at: nat)
    requires Represents(entries, order, s) && at < |s| && s[at].key == e.key
    ensures Represents(entries[e.key := e], order, s[at := e])
  {
    var r := s[at := e];
    assert forall i | 0 <= i < |s| :: r[i].key == s[i].key;
    forall key | key in entries[e.key := e] ensures HasKey(r, key) {
      assert r[if key == e.key then at else FirstIndex(s, key)].key == key;
    }
  }

  lemma RepresentsAppended(entries: map<string, Entry>, order: seq<string>, s: seq<Entry>, e: Entry)
    requires Represents(entries, order, s) && e.key !in entries
    ensures Represents(entries[e.key := e], order + [e.key], s + [e])
  {
    var r := s + [e];
    assert forall i | 0 <= i < |s| :: r[i] == s[i] && order[i] != e.key;
    assert r[|s|] == e;
    forall key | key in entries[e.key := e] ensures HasKey(r, key) {
      assert r[if key == e.key then |s| else FirstIndex(s, key)].key == key;
    }
  }

  /******* Merging along a chain *******/

  function MergeAll(lists: seq<seq<Entry>>): seq<Entry> {
    if lists == [] then [] else Merge(MergeAll(lists[..|lists| - 1]), lists[|lists| - 1])
  }

  function Flatten<T>(lists: seq<seq<T>>): seq<T> {
    if lists == [] then [] else Flatten(lists[..|lists| - 1]) + lists[|lists| - 1]
  }

  function NonEmpty<T>(lists: seq<seq<T>>): nat {
    if lists == [] then 0
    else NonEmpty(lists[..|lists| - 1]) + if lists[|lists| - 1] != [] then 1 else 0
  }

  lemma MergeAllSnoc(lists: seq<seq<Entry>>, last: seq<Entry>)
    ensures MergeAll(lists + [last]) == Merge(MergeAll(lists), last)
  {
    assert (lists + [last])[..|lists|] == lists;
  }

  lemma FlattenSnoc<T>(lists: seq<seq<T>>, last: seq<T>)
    ensures Flatten(lists + [last]) == Flatten(lists) + last
  {
    assert (lists + [last])[..|lists|] == lists;
  }

  // Merging along a chain is one deduplication of the concatenation, unless at most one list
  // says anything: then that list comes through as written.
  lemma {:induction false} MergeAllIsDedup(lists: seq<seq<Entry>>)
    ensures MergeAll(lists) == if NonEmpty(lists) >= 2 then Dedup(Flatten(lists)) else Flatten(lists)
    ensures Flatten(lists) == [] <==> NonEmpty(lists) == 0
  {
    if lists != [] {
      var front, last := lists[..|lists| - 1], lists[|lists| - 1];
      MergeAllIsDedup(front);
      DedupAbsorbs(Flatten(front), last);
      DedupEmpty(Flatten(front));
      if last == [] {
        assert Flatten(front) + last == Flatten(front);
      }
    }
  }
}
