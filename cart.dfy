/**
 The cart as a value: a map from item id to entry, the four transitions the
 cart buttons trigger, and the cart total.
 */
module Cart {

  /** One cart line: the item's id, name and unit price, and its quantity. */
  datatype Entry = Entry(id: string, name: string, price: int, qty: int)

  type Items = map<string, Entry>

  /** The amount one entry contributes: `price * qty`. */
  function Line(e: Entry): int {
    e.price * e.qty
  }

  /** One more of an entry adds its price to its line. */
  lemma LineIncrease(e: Entry)
    ensures Line(e.(qty := e.qty + 1)) == Line(e) + e.price
  {
    assert e.price * (e.qty + 1) == e.price * e.qty + e.price;
  }

  /** One fewer of an entry takes its price off its line. */
  lemma LineDecrease(e: Entry)
    ensures Line(e.(qty := e.qty - 1)) == Line(e) - e.price
  {
    assert e.price * (e.qty - 1) == e.price * e.qty - e.price;
  }

  /** Every entry sits under its own id and has a quantity of at least 1. */
  ghost predicate WellFormed(m: Items) {
    forall k :: k in m ==> m[k].id == k && m[k].qty >= 1
  }

  // ---------------- transitions ----------------

  /** `onAddToCart`: an absent id gets an entry with quantity 0 first; then the
      entry's quantity goes up by one. */
  function AddItem(m: Items, id: string, name: string, price: int): (r: Items)
    ensures r.Keys == m.Keys + {id}
    ensures id in m ==> r[id] == m[id].(qty := m[id].qty + 1)
    ensures id !in m ==> r[id] == Entry(id, name, price, 1)
    ensures forall k :: k in m && k != id ==> r[k] == m[k]
    ensures WellFormed(m) ==> WellFormed(r)
  {
    var base := if id in m then m[id] else Entry(id, name, price, 0);
    m[id := base.(qty := base.qty + 1)]
  }

  /** `increaseQty`: a no-op on an absent id, else one more of that entry. */
  function IncreaseItem(m: Items, id: string): (r: Items)
    ensures r.Keys == m.Keys
    ensures id in m ==> r[id] == m[id].(qty := m[id].qty + 1)
    ensures forall k :: k in m && k != id ==> r[k] == m[k]
    ensures id !in m ==> r == m
    ensures WellFormed(m) ==> WellFormed(r)
  {
    if id !in m then m else m[id := m[id].(qty := m[id].qty + 1)]
  }

  /** `decreaseQty`: a no-op on an absent id; else one fewer, and the entry is
      deleted once its quantity is no longer positive. */
  function DecreaseItem(m: Items, id: string): (r: Items)
    ensures id !in m ==> r == m
    ensures id in m && m[id].qty - 1 <= 0 ==> r == m - {id}
    ensures id in m && m[id].qty - 1 > 0 ==> r == m[id := m[id].(qty := m[id].qty - 1)]
    ensures forall k :: k != id ==> (k in r <==> k in m)
    ensures forall k :: k in m && k != id ==> r[k] == m[k]
    ensures WellFormed(m) ==> WellFormed(r)
  {
    if id !in m then m
    else
      var e := m[id].(qty := m[id].qty - 1);
      if e.qty <= 0 then m - {id} else m[id := e]
  }

  /** `removeFromCart`: the id is gone, nothing else changes. */
  function RemoveItem(m: Items, id: string): (r: Items)
    ensures id !in r
    ensures r.Keys == m.Keys - {id}
    ensures forall k :: k in r ==> r[k] == m[k]
    ensures WellFormed(m) ==> WellFormed(r)
  {
    m - {id}
  }

  // ---------------- total ----------------

  /** The sum of `price * qty` over the entries, taken in an arbitrary order. */
  ghost function Total(m: Items): int
    decreases |m|
  {
    if m == map[] then 0
    else
      var k :| k in m;
      Line(m[k]) + Total(m - {k})
  }

  /** The total does not depend on which entry is taken first: any entry can be
      split off. */
  lemma {:induction false} TotalSplit(m: Items, k: string)
    requires k in m
    ensures Total(m) == Line(m[k]) + Total(m - {k})
    decreases |m|
  {
    var j :| j in m && Total(m) == Line(m[j]) + Total(m - {j});
    if j != k {
      var rest := m - {j};
      TotalSplit(rest, k);
      assert rest - {k} == (m - {k}) - {j};
      TotalSplit(m - {k}, j);
    }
  }

  /** The left fold `entries.reduce((s, it) => s + it.price * it.qty, 0)`. */
  function SumLines(es: seq<Entry>): int {
    if es == [] then 0 else SumLines(es[..|es| - 1]) + Line(es[|es| - 1])
  }

  /** The entries of `m`, listed in the order `ks` gives their keys. */
  ghost predicate Lists(m: Items, ks: seq<string>, es: seq<Entry>) {
    && |ks| == |es|
    && (forall i, j :: 0 <= i < j < |ks| ==> ks[i] != ks[j])
    && (forall k :: k in m <==> k in ks)
    && (forall i :: 0 <= i < |ks| ==> ks[i] in m && es[i] == m[ks[i]])
  }

  /** Dropping the last listed entry lists the rest of the map. */
  lemma ListsDropLast(m: Items, ks: seq<string>, es: seq<Entry>)
    requires Lists(m, ks, es) && ks != []
    ensures ks[|ks| - 1] in m
    ensures Lists(m - {ks[|ks| - 1]}, ks[..|ks| - 1], es[..|es| - 1])
  {
    var n := |ks| - 1;
    var k := ks[n];
    forall x | x in m - {k}
      ensures x in ks[..n]
    {
      var i :| 0 <= i < |ks| && ks[i] == x;
      assert i != n;
    }
  }

  /** Whatever order the entries are listed in, the fold gives the total. */
  lemma {:induction false} SumLinesIsTotal(m: Items, ks: seq<string>, es: seq<Entry>)
    requires Lists(m, ks, es)
    ensures SumLines(es) == Total(m)
    decreases |ks|
  {
    if ks == [] {
      assert m.Keys == {};
    } else {
      var n := |ks| - 1;
      var k := ks[n];
      ListsDropLast(m, ks, es);
      TotalSplit(m, k);
      SumLinesIsTotal(m - {k}, ks[..n], es[..n]);
      assert es[n] == m[k];
    }
  }

  /** Writing an entry under `k` replaces whatever line `k` had. */
  lemma TotalUpdate(m: Items, k: string, e: Entry)
    ensures Total(m[k := e]) == Total(m - {k}) + Line(e)
  {
    var r := m[k := e];
    TotalSplit(r, k);
    assert r - {k} == m - {k};
  }

  /** One more of an entry already present adds its price to the total. */
  lemma TotalBump(m: Items, id: string)
    requires id in m
    ensures Total(m[id := m[id].(qty := m[id].qty + 1)]) == Total(m) + m[id].price
  {
    var e := m[id];
    TotalUpdate(m, id, e.(qty := e.qty + 1));
    TotalSplit(m, id);
    LineIncrease(e);
  }

  /** A new entry of quantity 1 adds its price to the total. */
  lemma TotalInsertOne(m: Items, id: string, name: string, price: int)
    requires id !in m
    ensures Total(m[id := Entry(id, name, price, 1)]) == Total(m) + price
  {
    var e := Entry(id, name, price, 1);
    TotalUpdate(m, id, e);
    assert m - {id} == m;
    assert Line(e) == price;
  }

  /** Adding an item adds its price to the total, whether it was new or not. */
  lemma TotalAfterAdd(m: Items, id: string, name: string, price: int)
    ensures Total(AddItem(m, id, name, price))
         == Total(m) + (if id in m then m[id].price else price)
  {
    if id in m {
      assert AddItem(m, id, name, price) == m[id := m[id].(qty := m[id].qty + 1)];
      TotalBump(m, id);
    } else {
      assert AddItem(m, id, name, price) == m[id := Entry(id, name, price, 1)];
      TotalInsertOne(m, id, name, price);
    }
  }

  /** Increasing an entry adds its price to the total. */
  lemma TotalAfterIncrease(m: Items, id: string)
    ensures Total(IncreaseItem(m, id)) == Total(m) + (if id in m then m[id].price else 0)
  {
    if id in m {
      assert IncreaseItem(m, id) == m[id := m[id].(qty := m[id].qty + 1)];
      TotalBump(m, id);
    } else {
      assert IncreaseItem(m, id) == m;
    }
  }

  /** One fewer of an entry with more than one takes its price off the total. */
  lemma TotalDrop(m: Items, id: string)
    requires id in m
    ensures Total(m[id := m[id].(qty := m[id].qty - 1)]) == Total(m) - m[id].price
  {
    var e := m[id];
    TotalUpdate(m, id, e.(qty := e.qty - 1));
    TotalSplit(m, id);
    LineDecrease(e);
  }

  /** Deleting an entry of quantity 1 takes its price off the total. */
  lemma TotalDeleteOne(m: Items, id: string)
    requires id in m && m[id].qty == 1
    ensures Total(m - {id}) == Total(m) - m[id].price
  {
    TotalSplit(m, id);
    assert Line(m[id]) == m[id].price;
  }

  /** Decreasing a well-formed entry takes its price off the total, also when
      the entry disappears. */
  lemma TotalAfterDecrease(m: Items, id: string)
    requires WellFormed(m)
    ensures Total(DecreaseItem(m, id)) == Total(m) - (if id in m then m[id].price else 0)
  {
    if id !in m {
      assert DecreaseItem(m, id) == m;
    } else if m[id].qty - 1 > 0 {
      assert DecreaseItem(m, id) == m[id := m[id].(qty := m[id].qty - 1)];
      TotalDrop(m, id);
    } else {
      assert DecreaseItem(m, id) == m - {id};
      TotalDeleteOne(m, id);
    }
  }

  /** Removing an entry takes its whole line off the total. */
  lemma TotalAfterRemove(m: Items, id: string)
    ensures Total(RemoveItem(m, id)) == Total(m) - (if id in m then Line(m[id]) else 0)
  {
    if id in m {
      TotalSplit(m, id);
    } else {
      assert RemoveItem(m, id) == m;
    }
  }

  /** Adding the same item twice gives one entry of quantity 2. */
  lemma AddTwice(m: Items, id: string, name: string, price: int)
    requires id !in m
    ensures var r := AddItem(AddItem(m, id, name, price), id, name, price);
            r.Keys == m.Keys + {id} && r[id] == Entry(id, name, price, 2)
  {
  }

  /** The example: A at 500 twice and B at 350 once total 1350; after
      removing A the total is 350. */
  lemma TwoItemExample()
    ensures var m := map["A" := Entry("A", "A", 500, 2), "B" := Entry("B", "B", 350, 1)];
            Total(m) == 1350 && Total(RemoveItem(m, "A")) == 350
  {
    var m := map["A" := Entry("A", "A", 500, 2), "B" := Entry("B", "B", 350, 1)];
    var b := map["B" := Entry("B", "B", 350, 1)];
    TotalSplit(m, "A");
    assert m - {"A"} == b;
    TotalSplit(b, "B");
    assert b - {"B"} == map[];
  }
}
