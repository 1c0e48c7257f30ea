/** The vocabulary both cart implementations are specified in: the lookup
    `items.find(item => item.id === id)` performs, the `map` and `filter`
    passes over the items, the running-count invariant, and the subtotal. */
module CartSpec {
  import opened CartTypes

  // ---------------------------------------------------------------------
  // Lookup by id
  // ---------------------------------------------------------------------

  /** Position of the FIRST item whose id is `id`, the one `find` returns. */
  function IndexOf(items: seq<CartItem>, id: string): (r: Option<nat>)
    ensures r.Some? ==> r.value < |items| && items[r.value].id == id
    ensures r.Some? ==> forall j :: 0 <= j < r.value ==> items[j].id != id
    ensures r.None? <==> forall j :: 0 <= j < |items| ==> items[j].id != id
  {
    if items == [] then None
    else if items[0].id == id then Some(0)
    else match IndexOf(items[1..], id)
      case None => None
      case Some(k) => Some(k + 1)
  }

  /** The set of ids present in the cart. */
  function IdSet(items: seq<CartItem>): set<string>
  {
    if items == [] then {} else {items[0].id} + IdSet(items[1..])
  }

  /** An id is among the cart's products exactly when `find` locates it. */
  lemma {:induction false} IdSetMembers(items: seq<CartItem>, id: string)
    ensures id in IdSet(items) <==> IndexOf(items, id).Some?
  {
    if items != [] {
      IdSetMembers(items[1..], id);
    }
  }

  lemma {:induction false} IdSetConcat(a: seq<CartItem>, b: seq<CartItem>)
    ensures IdSet(a + b) == IdSet(a) + IdSet(b)
  {
    if a == [] {
      assert a + b == b;
    } else {
      assert (a + b)[1..] == a[1..] + b;
      IdSetConcat(a[1..], b);
    }
  }

  // ---------------------------------------------------------------------
  // The invariant every reachable state keeps
  // ---------------------------------------------------------------------

  /** Sum of the quantities of all line items. */
  function SumQuantities(items: seq<CartItem>): int
  {
    if items == [] then 0 else items[0].quantity + SumQuantities(items[1..])
  }

  /** No two line items share an id. */
  predicate UniqueIds(items: seq<CartItem>)
  {
    forall i, j :: 0 <= i < j < |items| ==> items[i].id != items[j].id
  }

  /** Every line item holds at least one unit. */
  predicate AllPositive(items: seq<CartItem>)
  {
    forall i :: 0 <= i < |items| ==> items[i].quantity >= 1
  }

  /** The consistency the store promises at every observable state. */
  predicate Invariant(s: CartState)
  {
    s.totalItems == SumQuantities(s.items) && UniqueIds(s.items) && AllPositive(s.items)
  }

  /** The line `{...payload, quantity: 1}` that adding a new product appends:
      it is found under the payload's id and holds exactly one unit. */
  function NewLine(p: AddToCartPayload): (item: CartItem)
    ensures IdSet([item]) == {p.id}
    ensures AllPositive([item]) && SumQuantities([item]) == 1
  {
    var item := CartItem(p.id, p.name, p.price, p.image, p.brand, 1);
    assert [item][1..] == [];
    item
  }

  // ---------------------------------------------------------------------
  // Changes to the item sequence
  // ---------------------------------------------------------------------

  /** The item at position `i` with its quantity replaced, all else kept. */
  function WithQuantity(items: seq<CartItem>, i: nat, q: int): seq<CartItem>
    requires i < |items|
  {
    items[i := items[i].(quantity := q)]
  }

  /** How a `map` pass rewrites the quantity of a matching item. */
  datatype QuantityChange = Shift(delta: int) | SetTo(value: int)

  function Applied(c: QuantityChange, q: int): int
  {
    match c
    case Shift(d) => q + d
    case SetTo(n) => n
  }

  /** `items.map(item => item.id === id ? {...item, quantity: ...} : item)`:
      EVERY item carrying the id is rewritten, not only the first. */
  function MapQuantity(items: seq<CartItem>, id: string, c: QuantityChange): (r: seq<CartItem>)
    ensures |r| == |items|
    ensures IndexOf(items, id).None? ==> r == items
  {
    if items == [] then []
    else
      var head := if items[0].id == id then items[0].(quantity := Applied(c, items[0].quantity)) else items[0];
      [head] + MapQuantity(items[1..], id, c)
  }

  /** The `map` pass line by line: a line carrying the id has its quantity
      rewritten, every other line is kept as it was. */
  lemma {:induction false} MapQuantityLine(items: seq<CartItem>, id: string, c: QuantityChange, k: nat)
    requires k < |items|
    ensures MapQuantity(items, id, c)[k]
         == if items[k].id == id then items[k].(quantity := Applied(c, items[k].quantity)) else items[k]
  {
    if k > 0 {
      MapQuantityLine(items[1..], id, c, k - 1);
    }
  }

  /** The `map` pass changes quantities only: the cart holds the same products. */
  lemma {:induction false} MapQuantityIds(items: seq<CartItem>, id: string, c: QuantityChange)
    ensures IdSet(MapQuantity(items, id, c)) == IdSet(items)
  {
    if items != [] {
      MapQuantityIds(items[1..], id, c);
    }
  }

  /** `items.filter(item => item.id !== id)`: drops EVERY item carrying the id. */
  function FilterOut(items: seq<CartItem>, id: string): (r: seq<CartItem>)
    ensures IndexOf(items, id).None? ==> r == items
    ensures IndexOf(items, id).Some? ==> |r| < |items|
  {
    if items == [] then []
    else (if items[0].id == id then [] else [items[0]]) + FilterOut(items[1..], id)
  }

  /** With unique ids, the `map` pass touches exactly the item `find` returns. */
  lemma MapQuantityAt(items: seq<CartItem>, id: string, c: QuantityChange, i: nat)
    requires UniqueIds(items) && IndexOf(items, id) == Some(i)
    ensures MapQuantity(items, id, c) == WithQuantity(items, i, Applied(c, items[i].quantity))
  {
    var r, w := MapQuantity(items, id, c), WithQuantity(items, i, Applied(c, items[i].quantity));
    forall k | 0 <= k < |items| ensures r[k] == w[k] {
      MapQuantityLine(items, id, c, k);
      if k != i {
        assert items[k].id != id by {
          if k < i { assert items[k].id != items[i].id; } else { assert items[i].id != items[k].id; }
        }
      }
    }
  }

  /** The `filter` pass keeps precisely the lines with another id. */
  lemma {:induction false} FilterOutKeeps(items: seq<CartItem>, id: string, x: CartItem)
    ensures x in FilterOut(items, id) <==> x in items && x.id != id
  {
    if items != [] {
      FilterOutKeeps(items[1..], id, x);
      assert items == [items[0]] + items[1..];
    }
  }

  /** The `filter` pass takes exactly the product `id` out of the cart. */
  lemma {:induction false} FilterOutIds(items: seq<CartItem>, id: string)
    ensures IdSet(FilterOut(items, id)) == IdSet(items) - {id}
  {
    if items != [] {
      var head := if items[0].id == id then [] else [items[0]];
      IdSetConcat(head, FilterOut(items[1..], id));
      FilterOutIds(items[1..], id);
    }
  }

  /** Dropping the first line keeps ids unique. */
  lemma UniqueTail(items: seq<CartItem>)
    requires items != [] && UniqueIds(items)
    ensures UniqueIds(items[1..])
    ensures IndexOf(items[1..], items[0].id).None?
  {
    var tail := items[1..];
    forall a, b | 0 <= a < b < |tail| ensures tail[a].id != tail[b].id {
      assert items[a + 1].id != items[b + 1].id;
    }
    forall j | 0 <= j < |tail| ensures tail[j].id != items[0].id {
      assert items[0].id != items[j + 1].id;
    }
  }

  /** When line `i` is the only one carrying the id, the `filter` pass removes
      exactly that line and keeps the rest in their order. */
  lemma {:induction false} FilterOutOnly(items: seq<CartItem>, id: string, i: nat)
    requires i < |items| && items[i].id == id
    requires forall j :: 0 <= j < |items| && j != i ==> items[j].id != id
    ensures FilterOut(items, id) == items[..i] + items[i + 1..]
  {
    var tail := items[1..];
    if i == 0 {
      assert forall j :: 0 <= j < |tail| ==> tail[j].id != id by {
        forall j | 0 <= j < |tail| ensures tail[j].id != id { assert tail[j] == items[j + 1]; }
      }
      assert IndexOf(tail, id).None?;
      assert FilterOut(items, id) == FilterOut(tail, id);
    } else {
      assert items[0].id != id;
      forall j | 0 <= j < |tail| && j != i - 1 ensures tail[j].id != id { assert tail[j] == items[j + 1]; }
      FilterOutOnly(tail, id, i - 1);
      assert FilterOut(items, id) == [items[0]] + FilterOut(tail, id);
      assert items[..i] == [items[0]] + tail[..i - 1];
      assert items[i + 1..] == tail[i..];
    }
  }

  /** With unique ids, the `filter` pass removes exactly the line `find`
      returns and keeps the rest in their order. */
  lemma FilterOutAt(items: seq<CartItem>, id: string, i: nat)
    requires UniqueIds(items) && IndexOf(items, id) == Some(i)
    ensures FilterOut(items, id) == items[..i] + items[i + 1..]
  {
    forall j | 0 <= j < |items| && j != i ensures items[j].id != id {
      if j < i { assert items[j].id != items[i].id; } else { assert items[i].id != items[j].id; }
    }
    FilterOutOnly(items, id, i);
  }

  /** Deleting one line keeps ids distinct and quantities positive. */
  lemma RemoveAtKeeps(items: seq<CartItem>, i: nat)
    requires i < |items|
    ensures UniqueIds(items) ==> UniqueIds(items[..i] + items[i + 1..])
    ensures AllPositive(items) ==> AllPositive(items[..i] + items[i + 1..])
  {
    var w := items[..i] + items[i + 1..];
    assert |w| == |items| - 1;
    assert forall k :: 0 <= k < |w| ==> w[k] == items[if k < i then k else k + 1];
  }

  // ---------------------------------------------------------------------
  // Lemmas about the unit count
  // ---------------------------------------------------------------------

  lemma {:induction false} SumAppend(a: seq<CartItem>, b: seq<CartItem>)
    ensures SumQuantities(a + b) == SumQuantities(a) + SumQuantities(b)
  {
    if a == [] {
      assert a + b == b;
    } else {
      assert (a + b)[1..] == a[1..] + b;
      SumAppend(a[1..], b);
    }
  }

  lemma {:induction false} SumWithQuantity(items: seq<CartItem>, i: nat, q: int)
    requires i < |items|
    ensures SumQuantities(WithQuantity(items, i, q)) == SumQuantities(items) - items[i].quantity + q
  {
    if i == 0 {
      assert WithQuantity(items, i, q)[1..] == items[1..];
    } else {
      assert WithQuantity(items, i, q)[1..] == WithQuantity(items[1..], i - 1, q);
      SumWithQuantity(items[1..], i - 1, q);
    }
  }

  lemma SumRemoveAt(items: seq<CartItem>, i: nat)
    requires i < |items|
    ensures SumQuantities(items[..i] + items[i + 1..]) == SumQuantities(items) - items[i].quantity
  {
    var rest := items[i..];
    assert items[..i] + rest == items;
    assert rest[1..] == items[i + 1..];
    assert SumQuantities(rest) == items[i].quantity + SumQuantities(items[i + 1..]);
    SumAppend(items[..i], items[i + 1..]);
    SumAppend(items[..i], rest);
  }

  /** Each line holds at least one unit, so there are at least as many units as lines. */
  lemma {:induction false} UnitsCoverLines(items: seq<CartItem>)
    ensures AllPositive(items) ==> SumQuantities(items) >= |items|
  {
    if items != [] {
      UnitsCoverLines(items[1..]);
      assert AllPositive(items) ==> AllPositive(items[1..]) by {
        if AllPositive(items) {
          forall k | 0 <= k < |items| - 1 ensures items[1..][k].quantity >= 1 {
            assert items[k + 1].quantity >= 1;
          }
        }
      }
    }
  }

  /** With unique ids, the number of lines is the number of distinct ids. */
  lemma {:induction false} DistinctIdCount(items: seq<CartItem>)
    ensures UniqueIds(items) ==> |IdSet(items)| == |items|
  {
    if items != [] && UniqueIds(items) {
      UniqueTail(items);
      DistinctIdCount(items[1..]);
      IdSetMembers(items[1..], items[0].id);
      assert IndexOf(items[1..], items[0].id).None? by {
        forall j | 0 <= j < |items[1..]| ensures items[1..][j].id != items[0].id {
          assert items[0].id != items[j + 1].id;
        }
      }
    }
  }

  // ---------------------------------------------------------------------
  // Subtotal
  // ---------------------------------------------------------------------

  /** Price of one line: unit price times quantity. `priceOf` stands for the
      exact value of the decimal price string. */
  function LineTotal(item: CartItem, priceOf: string -> real): real
  {
    priceOf(item.price) * (item.quantity as real)
  }

  /** The subtotal as a plain sum over the lines: the reference definition. */
  function LineSum(items: seq<CartItem>, priceOf: string -> real): real
  {
    if items == [] then 0.0 else LineTotal(items[0], priceOf) + LineSum(items[1..], priceOf)
  }

  /** `items.reduce((total, item) => total + price * item.quantity, acc)`:
      a left fold from the accumulator. */
  function Reduce(acc: real, items: seq<CartItem>, priceOf: string -> real): (r: real)
    decreases items
    ensures r == acc + LineSum(items, priceOf)
  {
    if items == [] then acc else Reduce(acc + LineTotal(items[0], priceOf), items[1..], priceOf)
  }

  /** The subtotal both implementations compute: the fold started at 0. */
  function Subtotal(items: seq<CartItem>, priceOf: string -> real): (r: real)
    ensures r == LineSum(items, priceOf)
  {
    Reduce(0.0, items, priceOf)
  }

  lemma {:induction false} LineSumAppend(a: seq<CartItem>, b: seq<CartItem>, priceOf: string -> real)
    ensures LineSum(a + b, priceOf) == LineSum(a, priceOf) + LineSum(b, priceOf)
  {
    if a == [] {
      assert a + b == b;
    } else {
      assert (a + b)[1..] == a[1..] + b;
      LineSumAppend(a[1..], b, priceOf);
    }
  }

  lemma {:induction false} LineSumWithQuantity(items: seq<CartItem>, i: nat, q: int, priceOf: string -> real)
    requires i < |items|
    ensures LineSum(WithQuantity(items, i, q), priceOf)
         == LineSum(items, priceOf) - LineTotal(items[i], priceOf) + priceOf(items[i].price) * (q as real)
  {
    if i == 0 {
      assert WithQuantity(items, i, q)[1..] == items[1..];
    } else {
      assert WithQuantity(items, i, q)[1..] == WithQuantity(items[1..], i - 1, q);
      LineSumWithQuantity(items[1..], i - 1, q, priceOf);
    }
  }

  lemma LineSumRemoveAt(items: seq<CartItem>, i: nat, priceOf: string -> real)
    requires i < |items|
    ensures LineSum(items[..i] + items[i + 1..], priceOf) == LineSum(items, priceOf) - LineTotal(items[i], priceOf)
  {
    var rest := items[i..];
    assert items[..i] + rest == items;
    assert rest[1..] == items[i + 1..];
    assert LineSum(rest, priceOf) == LineTotal(items[i], priceOf) + LineSum(items[i + 1..], priceOf);
    LineSumAppend(items[..i], items[i + 1..], priceOf);
    LineSumAppend(items[..i], rest, priceOf);
  }

  /** With non-negative unit prices and positive quantities the subtotal is
      never negative. */
  lemma {:induction false} SubtotalNonNegative(items: seq<CartItem>, priceOf: string -> real)
    requires AllPositive(items)
    requires forall k :: 0 <= k < |items| ==> priceOf(items[k].price) >= 0.0
    ensures Subtotal(items, priceOf) >= 0.0
  {
    if items != [] {
      var tail := items[1..];
      assert AllPositive(tail) by {
        forall k | 0 <= k < |tail| ensures tail[k].quantity >= 1 { assert items[k + 1].quantity >= 1; }
      }
      forall k | 0 <= k < |tail| ensures priceOf(tail[k].price) >= 0.0 { assert tail[k] == items[k + 1]; }
      SubtotalNonNegative(tail, priceOf);
      assert items[0].quantity >= 1;
      assert LineTotal(items[0], priceOf) >= 0.0;
    }
  }
}
