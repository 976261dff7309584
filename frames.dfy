/** The small part of pandas the output code relies on: solved value lists, numeric
    cells that may be NaN, and the lookup a merge on (Packing ID, Period ID) performs. */
module Frames {
  import opened Types
  import opened Lp

  /** `(i, t, var.value())`: one line of a solved variable list. */
  datatype Entry = Entry(i: Item, t: Period, value: int)

  /** `[(i, t, var.value()) for (i, t), var in family.items()]`: one entry per key of the
      variable dictionary, in key order, carrying that variable's value. */
  function Entries(keys: seq<Key>, family: VarFamily, v: Valuation): (r: seq<Entry>)
    ensures |r| == |keys|
    ensures forall k :: 0 <= k < |keys| ==>
              r[k].i == keys[k].0 && r[k].t == keys[k].1 && r[k].value == v(V(family, keys[k].0, keys[k].1))
  {
    if keys == [] then []
    else [Entry(keys[0].0, keys[0].1, v(V(family, keys[0].0, keys[0].1)))] + Entries(keys[1..], family, v)
  }

  /** A solved value list holds an entry for (i, t), with that variable's value, exactly
      when (i, t) is a key of the variable dictionary. */
  lemma EntriesMember(keys: seq<Key>, family: VarFamily, v: Valuation, i: Item, t: Period)
    ensures Entry(i, t, v(V(family, i, t))) in Entries(keys, family, v) <==> (i, t) in keys
  {
    var r := Entries(keys, family, v);
    var e := Entry(i, t, v(V(family, i, t)));
    if (i, t) in keys {
      var k :| 0 <= k < |keys| && keys[k] == (i, t);
      assert r[k] == e;
    }
  }

  /** A numeric cell of a data frame; `None` is the NaN an unmatched merge leaves. */
  type Cell = Option<int>

  /** Column addition: NaN if either side is NaN. */
  function Plus(a: Cell, b: Cell): (r: Cell)
    ensures r.Some? <==> a.Some? && b.Some?
    ensures r.Some? ==> r.value == a.value + b.value
  {
    if a.Some? && b.Some? then Some(a.value + b.value) else None
  }

  /** Column subtraction: NaN if either side is NaN. */
  function Minus(a: Cell, b: Cell): (r: Cell)
    ensures r.Some? <==> a.Some? && b.Some?
    ensures r.Some? ==> r.value == a.value - b.value
  {
    if a.Some? && b.Some? then Some(a.value - b.value) else None
  }

  /** `fillna(default)`: a NaN cell becomes `default`, a number stays. */
  function FillNa(a: Cell, default: int): (r: int)
    ensures a.Some? ==> r == a.value
    ensures a.None? ==> r == default
  {
    if a.Some? then a.value else default
  }

  /** The value a left merge on (Packing ID, Period ID) brings over from `entries` for the
      key (i, t): that of the first matching entry, NaN when no entry matches. */
  function Lookup(entries: seq<Entry>, i: Item, t: Period): (r: Cell)
    ensures r.Some? <==> exists k :: 0 <= k < |entries| && entries[k].i == i && entries[k].t == t
    ensures r.Some? ==> exists k :: 0 <= k < |entries| && entries[k] == Entry(i, t, r.value)
  {
    if entries == [] then None
    else if entries[0].i == i && entries[0].t == t then Some(entries[0].value)
    else
      var r := Lookup(entries[1..], i, t);
      assert forall k :: 0 < k < |entries| ==> entries[k] == entries[1..][k - 1];
      r
  }

  /** Looking a key up in a solved value list finds that variable's value, and finds
      nothing for a key the list does not hold. */
  lemma LookupEntries(keys: seq<Key>, family: VarFamily, v: Valuation, i: Item, t: Period)
    ensures Lookup(Entries(keys, family, v), i, t) == if (i, t) in keys then Some(v(V(family, i, t))) else None
  {
    var es := Entries(keys, family, v);
    if (i, t) in keys {
      var k :| 0 <= k < |keys| && keys[k] == (i, t);
      assert es[k].i == i && es[k].t == t;
      var j :| 0 <= j < |es| && es[j] == Entry(i, t, Lookup(es, i, t).value);
    }
  }
}
