/**
 * The cart store of lib/store/cart.ts: a list of lines, at most one per (product, size), each with
 * a quantity of at least 1. The actions replace the list; the totals are folds over it.
 * Prices are whole units in each currency.
 */
module CartStore {
  import opened Wrappers
  import opened Numbers
  import opened Sequences
  import opened UserTypes
  import opened ProductTypes

  /** A line belongs to the (product, size) pair. */
  predicate HasKey(item: CartItem, productId: string, size: string)
  {
    item.productId == productId && item.size == size
  }

  /** No two lines share a (product, size) pair. */
  ghost predicate KeysUnique(items: seq<CartItem>)
  {
    forall i, j :: 0 <= i < j < |items| ==> !HasKey(items[j], items[i].productId, items[i].size)
  }

  ghost predicate QuantitiesPositive(items: seq<CartItem>)
  {
    forall i :: 0 <= i < |items| ==> items[i].quantity >= 1
  }

  /** No two lines share an id; the ids carry a timestamp, which is what keeps them apart. */
  ghost predicate IdsUnique(items: seq<CartItem>)
  {
    forall i, j :: 0 <= i < j < |items| ==> items[i].id != items[j].id
  }

  /** No line carries this id. */
  predicate IdUnused(items: seq<CartItem>, id: string)
  {
    forall line :: line in items ==> line.id != id
  }

  /** The `find` of addItem: the index of the first line of the pair, if any. */
  function FindLine(items: seq<CartItem>, productId: string, size: string): (r: Option<nat>)
    ensures r.Some? ==> r.value < |items| && HasKey(items[r.value], productId, size)
    ensures r.Some? ==> forall j :: 0 <= j < r.value ==> !HasKey(items[j], productId, size)
    ensures r.None? ==> forall j :: 0 <= j < |items| ==> !HasKey(items[j], productId, size)
  {
    if items == [] then None
    else if HasKey(items[0], productId, size) then Some(0)
    else match FindLine(items[1..], productId, size)
      case Some(k) => Some(k + 1)
      case None => None
  }

  /** The id a new line gets: product id, size and the caller's timestamp, joined by dashes. */
  function LineId(productId: string, size: string, stamp: string): (r: string)
    ensures |r| == |productId| + |size| + |stamp| + 2
    ensures r[..|productId|] == productId && r[|productId|] == '-'
    ensures r[|productId| + 1..|productId| + 1 + |size|] == size
    ensures r[|r| - |stamp|..] == stamp && r[|r| - |stamp| - 1] == '-'
  {
    productId + "-" + size + "-" + stamp
  }

  /** The `map` of addItem: one more of every line carrying `id`. */
  function BumpQuantity(items: seq<CartItem>, id: string): (r: seq<CartItem>)
    ensures |r| == |items|
    ensures forall i :: 0 <= i < |items| ==>
      r[i] == if items[i].id == id then items[i].(quantity := items[i].quantity + 1) else items[i]
  {
    if items == [] then []
    else
      [if items[0].id == id then items[0].(quantity := items[0].quantity + 1) else items[0]]
        + BumpQuantity(items[1..], id)
  }

  /** With distinct ids, bumping the id of line `k` changes line `k` alone. */
  lemma BumpQuantityOneLine(items: seq<CartItem>, k: int)
    requires IdsUnique(items) && 0 <= k < |items|
    ensures BumpQuantity(items, items[k].id) == items[k := items[k].(quantity := items[k].quantity + 1)]
  {
  }

  /** The `filter` of removeItem: every line whose id is not `id`, in order. */
  function RemoveLines(items: seq<CartItem>, id: string): (r: seq<CartItem>)
    ensures Subsequence(r, items)
    ensures forall line :: line in r ==> line in items && line.id != id
    ensures forall line :: line in items && line.id != id ==> line in r
    ensures IdUnused(items, id) ==> r == items
  {
    if items == [] then []
    else
      var rest := RemoveLines(items[1..], id);
      assert forall line :: line in items[1..] ==> line in items;
      if items[0].id != id then [items[0]] + rest else rest
  }

  /** Removing lines keeps the cart's invariants. */
  lemma {:induction false} RemoveLinesKeepsInvariants(items: seq<CartItem>, id: string)
    requires KeysUnique(items) && QuantitiesPositive(items)
    ensures KeysUnique(RemoveLines(items, id)) && QuantitiesPositive(RemoveLines(items, id))
  {
    if items != [] {
      var rest := RemoveLines(items[1..], id);
      RemoveLinesKeepsInvariants(items[1..], id);
      assert forall j :: 0 <= j < |rest| ==> rest[j] in items[1..];
      if items[0].id != id {
        var r := [items[0]] + rest;
        assert r[1..] == rest;
        forall i, j | 0 <= i < j < |r|
          ensures !HasKey(r[j], r[i].productId, r[i].size)
        {
          if i == 0 {
            assert r[j] in items[1..];
          }
        }
      }
    }
  }

  /** Removing lines keeps distinct ids distinct. */
  lemma {:induction false} RemoveLinesKeepsIdsUnique(items: seq<CartItem>, id: string)
    requires IdsUnique(items)
    ensures IdsUnique(RemoveLines(items, id))
  {
    if items != [] {
      var rest := RemoveLines(items[1..], id);
      RemoveLinesKeepsIdsUnique(items[1..], id);
      assert forall j :: 0 <= j < |rest| ==> rest[j] in items[1..];
      if items[0].id != id {
        var r := [items[0]] + rest;
        assert r[1..] == rest;
        forall i, j | 0 <= i < j < |r|
          ensures r[i].id != r[j].id
        {
          if i == 0 {
            assert r[j] in items[1..];
          }
        }
      }
    }
  }

  /**
   * With distinct ids, one more on line `k` adds one to the item count and that line's own price
   * (fixed when the line was made) to the total, and keeps the ids distinct.
   */
  lemma BumpOneLineFolds(items: seq<CartItem>, k: int)
    requires IdsUnique(items) && 0 <= k < |items|
    ensures ItemCount(BumpQuantity(items, items[k].id)) == ItemCount(items) + 1
    ensures Total(BumpQuantity(items, items[k].id)) == AddPrice(Total(items), items[k].price)
    ensures IdsUnique(BumpQuantity(items, items[k].id))
  {
    BumpQuantityOneLine(items, k);
    ReplaceOneMore(items, k);
  }

  lemma ReplaceOneMore(items: seq<CartItem>, k: int)
    requires 0 <= k < |items|
    ensures ItemCount(items[k := items[k].(quantity := items[k].quantity + 1)]) == ItemCount(items) + 1
    ensures Total(items[k := items[k].(quantity := items[k].quantity + 1)]) == AddPrice(Total(items), items[k].price)
  {
    var line := items[k];
    var bumped := line.(quantity := line.quantity + 1);
    FoldsReplace(items, k, bumped);
    LineTotalOneMore(line);
    var before, after := Total(items), Total(items[k := bumped]);
    assert after.xof == before.xof + line.price.xof;
    assert after.eur == before.eur + line.price.eur;
    assert after.usd == before.usd + line.price.usd;
  }

  lemma LineTotalOneMore(line: CartItem)
    ensures LineTotal(line.(quantity := line.quantity + 1)) == AddPrice(LineTotal(line), line.price)
  {
    assert line.price.xof * (line.quantity + 1) == line.price.xof * line.quantity + line.price.xof;
    assert line.price.eur * (line.quantity + 1) == line.price.eur * line.quantity + line.price.eur;
    assert line.price.usd * (line.quantity + 1) == line.price.usd * line.quantity + line.price.usd;
  }

  /** Bumping quantities keeps the cart's invariants, whatever the ids. */
  lemma BumpKeepsInvariants(items: seq<CartItem>, id: string)
    requires KeysUnique(items) && QuantitiesPositive(items)
    ensures KeysUnique(BumpQuantity(items, id)) && QuantitiesPositive(BumpQuantity(items, id))
  {
    var r := BumpQuantity(items, id);
    assert forall i :: 0 <= i < |items| ==> r[i].productId == items[i].productId && r[i].size == items[i].size;
  }

  /** Appending a line for a pair the cart lacks keeps the invariants; a fresh id keeps ids distinct. */
  lemma AppendNewKeepsInvariants(items: seq<CartItem>, line: CartItem)
    requires KeysUnique(items) && QuantitiesPositive(items) && line.quantity >= 1
    requires forall j :: 0 <= j < |items| ==> !HasKey(items[j], line.productId, line.size)
    ensures KeysUnique(items + [line]) && QuantitiesPositive(items + [line])
    ensures IdsUnique(items) && IdUnused(items, line.id) ==> IdsUnique(items + [line])
  {
  }

  /** The `map` of updateQuantity: every line carrying `id` gets the quantity, raised to 1 if lower. */
  function SetQuantity(items: seq<CartItem>, id: string, quantity: int): (r: seq<CartItem>)
    ensures |r| == |items|
    ensures forall i :: 0 <= i < |items| ==>
      r[i] == if items[i].id == id then items[i].(quantity := Max(1, quantity)) else items[i]
  {
    if items == [] then []
    else
      [if items[0].id == id then items[0].(quantity := Max(1, quantity)) else items[0]]
        + SetQuantity(items[1..], id, quantity)
  }

  /** The `reduce` of getItemCount: the quantities added up from the first line to the last. */
  function ItemCount(items: seq<CartItem>): (r: int)
    ensures QuantitiesPositive(items) ==> r >= |items|
  {
    if items == [] then 0
    else ItemCount(items[..|items| - 1]) + items[|items| - 1].quantity
  }

  function AddPrice(a: Price, b: Price): (r: Price)
  {
    Price(a.xof + b.xof, a.eur + b.eur, a.usd + b.usd)
  }

  ghost predicate PricesNonNegative(items: seq<CartItem>)
  {
    forall i :: 0 <= i < |items| ==> items[i].price.xof >= 0 && items[i].price.eur >= 0 && items[i].price.usd >= 0
  }

  /** What one line costs: its price times its quantity, in each currency. */
  function LineTotal(item: CartItem): (r: Price)
  {
    Price(item.price.xof * item.quantity, item.price.eur * item.quantity, item.price.usd * item.quantity)
  }

  /** The `reduce` of getTotal: the line totals added up from the first line to the last. */
  function Total(items: seq<CartItem>): (r: Price)
    ensures QuantitiesPositive(items) && PricesNonNegative(items) ==> r.xof >= 0 && r.eur >= 0 && r.usd >= 0
  {
    if items == [] then Price(0, 0, 0)
    else AddPrice(Total(items[..|items| - 1]), LineTotal(items[|items| - 1]))
  }

  /** Appending a line adds its quantity to the count and its line total to the total. */
  lemma FoldsAppend(items: seq<CartItem>, line: CartItem)
    ensures ItemCount(items + [line]) == ItemCount(items) + line.quantity
    ensures Total(items + [line]) == AddPrice(Total(items), LineTotal(line))
  {
    assert (items + [line])[..|items|] == items;
  }

  /**
   * Both folds split over a concatenation: the count and the total of a cart are those of its
   * first lines plus those of the rest.
   */
  lemma {:induction false} FoldsConcat(front: seq<CartItem>, back: seq<CartItem>)
    ensures ItemCount(front + back) == ItemCount(front) + ItemCount(back)
    ensures Total(front + back) == AddPrice(Total(front), Total(back))
    decreases |back|
  {
    if back == [] {
      assert front + back == front;
    } else {
      var n := |back|;
      var last := back[n - 1];
      assert front + back == (front + back[..n - 1]) + [last];
      assert back == back[..n - 1] + [last];
      FoldsConcat(front, back[..n - 1]);
      FoldsAppend(front + back[..n - 1], last);
      FoldsAppend(back[..n - 1], last);
    }
  }

  /** Two lines of the same product and size added at different stamps get different ids. */
  lemma LineIdsDiffer(productId: string, size: string, stamp: string, other: string)
    requires stamp != other
    ensures LineId(productId, size, stamp) != LineId(productId, size, other)
  {
  }

  /** Replacing one line changes the count and each currency's total by the difference it makes. */
  lemma {:induction false} FoldsReplace(items: seq<CartItem>, k: int, line: CartItem)
    requires 0 <= k < |items|
    ensures ItemCount(items[k := line]) == ItemCount(items) - items[k].quantity + line.quantity
    ensures Total(items[k := line]).xof == Total(items).xof - LineTotal(items[k]).xof + LineTotal(line).xof
    ensures Total(items[k := line]).eur == Total(items).eur - LineTotal(items[k]).eur + LineTotal(line).eur
    ensures Total(items[k := line]).usd == Total(items).usd - LineTotal(items[k]).usd + LineTotal(line).usd
  {
    var n := |items|;
    var updated := items[k := line];
    if k == n - 1 {
      assert updated[..n - 1] == items[..n - 1];
    } else {
      assert updated[..n - 1] == items[..n - 1][k := line];
      FoldsReplace(items[..n - 1], k, line);
    }
  }

  class Cart {
    var items: seq<CartItem>

    ghost predicate Valid()
      reads this
    {
      KeysUnique(items) && QuantitiesPositive(items)
    }

    constructor ()
      ensures items == [] && Valid()
    {
      items := [];
    }

    /**
     * Adds one of `product` in `size`: one more on the line of that pair if there is one, else a new
     * line of quantity 1 at the end, priced at the product's current price, with an id built from
     * `stamp` (the caller's clock reading).
     */
    method AddItem(product: Product, size: string, stamp: string)
      requires Valid()
      modifies this
      ensures Valid()
      ensures match FindLine(old(items), product.id, size)
        case Some(k) =>
          && items == BumpQuantity(old(items), old(items)[k].id)
          && (IdsUnique(old(items)) ==>
                items == old(items)[k := old(items)[k].(quantity := old(items)[k].quantity + 1)])
        case None =>
          items == old(items) + [CartItem(LineId(product.id, size, stamp), product.id, product, 1, size, product.price)]
      ensures IdsUnique(old(items)) ==> ItemCount(items) == ItemCount(old(items)) + 1
      ensures IdsUnique(old(items)) ==> Total(items) == AddPrice(Total(old(items)),
        match FindLine(old(items), product.id, size)
        case Some(k) => old(items)[k].price
        case None => product.price)
      ensures IdsUnique(old(items)) && IdUnused(old(items), LineId(product.id, size, stamp)) ==> IdsUnique(items)
    {
      var existing := FindLine(items, product.id, size);
      match existing {
        case Some(k) =>
          BumpKeepsInvariants(items, items[k].id);
          if IdsUnique(items) {
            BumpQuantityOneLine(items, k);
            BumpOneLineFolds(items, k);
          }
          items := BumpQuantity(items, items[k].id);
        case None =>
          var newItem := CartItem(LineId(product.id, size, stamp), product.id, product, 1, size, product.price);
          FoldsAppend(items, newItem);
          AppendNewKeepsInvariants(items, newItem);
          items := items + [newItem];
      }
    }

    /** Drops every line with this id; an unknown id leaves the cart as it is. */
    method RemoveItem(id: string)
      requires Valid()
      modifies this
      ensures Valid()
      ensures items == RemoveLines(old(items), id)
      ensures IdsUnique(old(items)) ==> IdsUnique(items)
    {
      RemoveLinesKeepsInvariants(items, id);
      if IdsUnique(items) {
        RemoveLinesKeepsIdsUnique(items, id);
      }
      items := RemoveLines(items, id);
    }

    /** Sets the quantity of the lines with this id, never below 1. */
    method UpdateQuantity(id: string, quantity: int)
      requires Valid()
      modifies this
      ensures Valid()
      ensures items == SetQuantity(old(items), id, quantity)
      ensures IdsUnique(old(items)) ==> IdsUnique(items)
    {
      items := SetQuantity(items, id, quantity);
    }

    method ClearCart()
      modifies this
      ensures items == [] && Valid()
      ensures ItemCount(items) == 0 && Total(items) == Price(0, 0, 0)
    {
      items := [];
    }
  }
}
