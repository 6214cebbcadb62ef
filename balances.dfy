/** The unit-to-quantity tables the service builds with Python dicts:
    sender balances, packages, change. A dict remembers the order its keys
    were first inserted, and the service iterates in that order, so a
    `Balance` keeps the key order beside the values. */
module Balances {

  /** The unit of the native currency. */
  const Lovelace := "lovelace"

  /** One (unit, quantity) record. */
  datatype Entry = Entry(unit: string, quantity: int)

  /** An amount as the service's JSON carries it, {'unit': ..., 'quantity': ...},
      with the quantity as text. */
  datatype Amount = Amount(unit: string, quantity: string)

  /** A Python dict from asset unit to quantity: its keys in insertion order
      and its values. */
  datatype Balance = Balance(units: seq<string>, qty: map<string, int>)

  /** The keys are listed once each, and exactly the keys of the values. */
  ghost predicate Valid(b: Balance)
  {
    && (forall i, j :: 0 <= i < j < |b.units| ==> b.units[i] != b.units[j])
    && (forall u :: u in b.qty <==> u in b.units)
  }

  /** `{}` */
  const Empty: Balance := Balance([], map[])

  /** The quantity of a unit, 0 when the dict has no such key. */
  function Get(b: Balance, u: string): int
  {
    if u in b.qty then b.qty[u] else 0
  }

  /** `d[u] = q`: a new key goes to the end, an existing key keeps its place. */
  function Put(b: Balance, u: string, q: int): (r: Balance)
    requires Valid(b)
    ensures Valid(r)
    ensures r.qty == b.qty[u := q]
    ensures r.units == if u in b.qty then b.units else b.units + [u]
  {
    if u in b.qty then Balance(b.units, b.qty[u := q]) else Balance(b.units + [u], b.qty[u := q])
  }

  /** `if u in d: d[u] += q else: d[u] = q`, the update every accumulation
      loop of the service makes. */
  function Add(b: Balance, u: string, q: int): (r: Balance)
    requires Valid(b)
    ensures Valid(r)
    ensures r.qty == b.qty[u := Get(b, u) + q]
    ensures r.units == if u in b.qty then b.units else b.units + [u]
  {
    Put(b, u, Get(b, u) + q)
  }

  /** The dict after adding each record in turn. */
  function AddAll(b: Balance, es: seq<Entry>): (r: Balance)
    requires Valid(b)
    ensures Valid(r)
  {
    if es == [] then b
    else Add(AddAll(b, es[..|es| - 1]), es[|es| - 1].unit, es[|es| - 1].quantity)
  }

  /** Adding one more record is one more Add. */
  lemma AddAllSnoc(b: Balance, es: seq<Entry>, e: Entry)
    requires Valid(b)
    ensures AddAll(b, es + [e]) == Add(AddAll(b, es), e.unit, e.quantity)
  {
    assert (es + [e])[..|es|] == es;
  }

  /** The total quantity the records give to unit u. */
  function UnitSum(es: seq<Entry>, u: string): int
  {
    if es == [] then 0
    else UnitSum(es[..|es| - 1], u) + (if es[|es| - 1].unit == u then es[|es| - 1].quantity else 0)
  }

  /** Whether some record names unit u. */
  predicate Mentions(es: seq<Entry>, u: string)
  {
    exists k :: 0 <= k < |es| && es[k].unit == u
  }

  /** Adding records leaves each unit at its prior value plus the sum of its
      quantities in the records. */
  lemma {:induction false} AddAllGet(b: Balance, es: seq<Entry>, u: string)
    requires Valid(b)
    ensures Get(AddAll(b, es), u) == Get(b, u) + UnitSum(es, u)
  {
    if es != [] {
      AddAllGet(b, es[..|es| - 1], u);
    }
  }

  /** Adding records keeps every prior key and adds exactly the units the
      records name. */
  lemma {:induction false} AddAllKeys(b: Balance, es: seq<Entry>, u: string)
    requires Valid(b)
    ensures u in AddAll(b, es).qty <==> u in b.qty || Mentions(es, u)
  {
    if es != [] {
      var init := es[..|es| - 1];
      AddAllKeys(b, init, u);
      if Mentions(init, u) {
        var k :| 0 <= k < |init| && init[k].unit == u;
        assert es[k].unit == u;
      }
      if Mentions(es, u) && es[|es| - 1].unit != u {
        var k :| 0 <= k < |es| && es[k].unit == u;
        assert init[k].unit == u;
      }
    }
  }

  /** Folding records in two batches is folding them in one pass. */
  lemma {:induction false} AddAllAppend(b: Balance, x: seq<Entry>, y: seq<Entry>)
    requires Valid(b)
    ensures AddAll(AddAll(b, x), y) == AddAll(b, x + y)
  {
    if y != [] {
      var init, e := y[..|y| - 1], y[|y| - 1];
      assert y == init + [e];
      assert x + y == (x + init) + [e];
      AddAllAppend(b, x, init);
      AddAllSnoc(AddAll(b, x), init, e);
      AddAllSnoc(b, x + init, e);
    } else {
      assert x + y == x;
    }
  }

  lemma {:induction false} UnitSumAppend(x: seq<Entry>, y: seq<Entry>, u: string)
    ensures UnitSum(x + y, u) == UnitSum(x, u) + UnitSum(y, u)
  {
    if y != [] {
      UnitSumAppend(x, y[..|y| - 1], u);
      assert (x + y)[..|x + y| - 1] == x + y[..|y| - 1];
      assert (x + y)[|x + y| - 1] == y[|y| - 1];
      assert x + y != [];
    } else {
      assert x + y == x;
    }
  }

  /** Folding two batches in either order gives every unit the same
      quantity; only the key order can differ. */
  lemma AddAllCommutes(b: Balance, x: seq<Entry>, y: seq<Entry>, u: string)
    requires Valid(b)
    ensures Get(AddAll(AddAll(b, x), y), u) == Get(AddAll(AddAll(b, y), x), u)
  {
    AddAllAppend(b, x, y);
    AddAllAppend(b, y, x);
    AddAllGet(b, x + y, u);
    AddAllGet(b, y + x, u);
    UnitSumAppend(x, y, u);
    UnitSumAppend(y, x, u);
  }

  /** The dict's first n items in iteration order. */
  function RecordsUpTo(b: Balance, n: nat): (r: seq<Entry>)
    requires Valid(b) && n <= |b.units|
    ensures |r| == n
  {
    if n == 0 then [] else RecordsUpTo(b, n - 1) + [Entry(b.units[n - 1], b.qty[b.units[n - 1]])]
  }

  /** The dict's items in iteration order: `for key in d: (key, d[key])`. */
  function Records(b: Balance): (r: seq<Entry>)
    requires Valid(b)
    ensures |r| == |b.units|
  {
    RecordsUpTo(b, |b.units|)
  }

  /** Item k is key k with its value. */
  lemma {:induction false} RecordsAt(b: Balance, n: nat, k: nat)
    requires Valid(b) && k < n <= |b.units|
    ensures RecordsUpTo(b, n)[k] == Entry(b.units[k], b.qty[b.units[k]])
  {
    if k < n - 1 {
      RecordsAt(b, n - 1, k);
    }
  }

  /** The first n records list each unit of the first n keys once, so a
      unit's sum over them is its value when it is among those keys. */
  lemma {:induction false} RecordsPrefixSum(b: Balance, n: nat, u: string)
    requires Valid(b) && n <= |b.units|
    ensures UnitSum(RecordsUpTo(b, n), u) == if u in b.units[..n] then b.qty[u] else 0
  {
    if n > 0 {
      RecordsPrefixSum(b, n - 1, u);
      var r := RecordsUpTo(b, n);
      assert r[..n - 1] == RecordsUpTo(b, n - 1);
      assert b.units[..n] == b.units[..n - 1] + [b.units[n - 1]];
      assert b.units[n - 1] !in b.units[..n - 1];
    }
  }

  /** The records of a dict give each unit exactly its value. */
  lemma RecordsGet(b: Balance, u: string)
    requires Valid(b)
    ensures UnitSum(Records(b), u) == Get(b, u)
  {
    RecordsPrefixSum(b, |b.units|, u);
    assert b.units[..|b.units|] == b.units;
  }

  /** A dict with no negative value has no negative record. */
  lemma RecordsUnsigned(b: Balance)
    requires Valid(b) && forall u :: Get(b, u) >= 0
    ensures forall k :: 0 <= k < |Records(b)| ==> Records(b)[k].quantity >= 0
  {
    forall k | 0 <= k < |Records(b)|
      ensures Records(b)[k].quantity >= 0
    {
      RecordsAt(b, |b.units|, k);
      assert Get(b, b.units[k]) >= 0;
    }
  }

  /** The records whose quantity is above zero, in order: what the loops
      `for key in d: if d[key] > 0: ...` emit. */
  function Keep(es: seq<Entry>): seq<Entry>
  {
    if es == [] then []
    else Keep(es[..|es| - 1]) + (if es[|es| - 1].quantity > 0 then [es[|es| - 1]] else [])
  }

  lemma KeepSnoc(es: seq<Entry>, e: Entry)
    ensures Keep(es + [e]) == Keep(es) + (if e.quantity > 0 then [e] else [])
  {
    assert (es + [e])[..|es|] == es;
  }

  /** Only records above zero are kept, and none is added. */
  lemma {:induction false} KeepPositive(es: seq<Entry>)
    ensures |Keep(es)| <= |es|
    ensures forall k :: 0 <= k < |Keep(es)| ==> Keep(es)[k].quantity > 0
  {
    if es != [] {
      KeepPositive(es[..|es| - 1]);
    }
  }

  /** Dropping records at zero changes no unit's sum when none is negative. */
  lemma {:induction false} KeepSum(es: seq<Entry>, u: string)
    requires forall k :: 0 <= k < |es| ==> es[k].quantity >= 0
    ensures UnitSum(Keep(es), u) == UnitSum(es, u)
  {
    if es != [] {
      var init := es[..|es| - 1];
      var last := es[|es| - 1];
      KeepSum(init, u);
      UnitSumAppend(Keep(init), if last.quantity > 0 then [last] else [], u);
      assert [last][..0] == [];
    }
  }

  /** Records that are none of them negative give no unit a negative sum. */
  lemma {:induction false} UnitSumUnsigned(es: seq<Entry>, u: string)
    requires forall k :: 0 <= k < |es| ==> es[k].quantity >= 0
    ensures UnitSum(es, u) >= 0
  {
    if es != [] {
      UnitSumUnsigned(es[..|es| - 1], u);
    }
  }
}
