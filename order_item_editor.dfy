/**
 * The item list of the new-order form (app/orders/new/page.tsx): the list
 * starts with one blank item; the form appends a blank item, removes the
 * item at an index, rewrites one field of the item at an index, and shows
 * the running total, the sum of quantity x price (in cents here).
 */
module OrderItemEditor {
  import opened MockData

  /** The blank item the form starts with and appends: no product, quantity 1, price 0. */
  function DefaultItem(): (item: OrderItem)
    ensures item.productId == "" && item.productName == ""
    ensures item.quantity == 1 && item.price == 0
    ensures Subtotal(item) == 0
  {
    OrderItem("", "", 1, 0)
  }

  /** The one field `updateItem` writes, with its new value. */
  datatype FieldUpdate =
    | SetProductId(productId: string)
    | SetProductName(productName: string)
    | SetQuantity(quantity: int)
    | SetPrice(price: int)

  /** `{ ...item, [field]: value }`: the named field takes the value, the other three are kept. */
  function WithField(item: OrderItem, update: FieldUpdate): (r: OrderItem)
    ensures r.productId == (if update.SetProductId? then update.productId else item.productId)
    ensures r.productName == (if update.SetProductName? then update.productName else item.productName)
    ensures r.quantity == (if update.SetQuantity? then update.quantity else item.quantity)
    ensures r.price == (if update.SetPrice? then update.price else item.price)
  {
    match update
    case SetProductId(v) => item.(productId := v)
    case SetProductName(v) => item.(productName := v)
    case SetQuantity(v) => item.(quantity := v)
    case SetPrice(v) => item.(price := v)
  }

  /**
   * `items.filter((_, i) => i !== index)`, walking the list with the index
   * of the current position: with `index` in range the item there is dropped
   * and the rest keep their order; any other index drops nothing.
   */
  function RemoveAt(items: seq<OrderItem>, index: int): (r: seq<OrderItem>)
    ensures 0 <= index < |items| ==> r == items[..index] + items[index + 1..]
    ensures !(0 <= index < |items|) ==> r == items
  {
    if items == [] then []
    else (if index == 0 then [] else [items[0]]) + RemoveAt(items[1..], index - 1)
  }

  /** `items.reduce((sum, item) => sum + item.quantity * item.price, sum)`: a left fold. */
  function Reduce(items: seq<OrderItem>, sum: int): int {
    if items == [] then sum else Reduce(items[1..], sum + Subtotal(items[0]))
  }

  /** The fold started at `sum` adds the items' total to it. */
  lemma {:induction false} ReduceAddsTotal(items: seq<OrderItem>, sum: int)
    ensures Reduce(items, sum) == sum + ItemsTotal(items)
  {
    if items != [] {
      ReduceAddsTotal(items[1..], sum + Subtotal(items[0]));
    }
  }

  /** The total of a concatenation is the sum of the totals. */
  lemma {:induction false} TotalAppend(a: seq<OrderItem>, b: seq<OrderItem>)
    ensures ItemsTotal(a + b) == ItemsTotal(a) + ItemsTotal(b)
  {
    if a == [] {
      assert a + b == b;
    } else {
      TotalAppend(a[1..], b);
      assert (a + b)[1..] == a[1..] + b;
    }
  }

  /** Appending a blank item leaves the total as it was. */
  lemma AddItemKeepsTotal(items: seq<OrderItem>)
    ensures ItemsTotal(items + [DefaultItem()]) == ItemsTotal(items)
  {
    TotalAppend(items, [DefaultItem()]);
  }

  /** Removing the item at an index in range lowers the total by exactly that item's subtotal. */
  lemma RemoveAtLowersTotal(items: seq<OrderItem>, index: int)
    requires 0 <= index < |items|
    ensures ItemsTotal(RemoveAt(items, index)) == ItemsTotal(items) - Subtotal(items[index])
  {
    var before, here, after := items[..index], items[index], items[index + 1..];
    assert items == before + ([here] + after);
    TotalAppend(before, [here] + after);
    assert ItemsTotal([here] + after) == Subtotal(here) + ItemsTotal(after) by {
      assert ([here] + after)[1..] == after;
    }
    TotalAppend(before, after);
    assert RemoveAt(items, index) == before + after;
  }

  /** Rewriting one item changes the total by the change in that item's subtotal. */
  lemma UpdateChangesTotalBySubtotal(items: seq<OrderItem>, index: int, update: FieldUpdate)
    requires 0 <= index < |items|
    ensures ItemsTotal(items[index := WithField(items[index], update)])
         == ItemsTotal(items) - Subtotal(items[index]) + Subtotal(WithField(items[index], update))
  {
    var updated := items[index := WithField(items[index], update)];
    RemoveAtLowersTotal(items, index);
    RemoveAtLowersTotal(updated, index);
    assert RemoveAt(updated, index) == RemoveAt(items, index) by {
      assert updated[..index] == items[..index];
      assert updated[index + 1..] == items[index + 1..];
    }
  }

  /**
   * The remove button is rendered only while the list has more than one
   * item, so a removal made through the form never empties the list.
   */
  lemma RemovalFromFormKeepsAnItem(items: seq<OrderItem>, index: int)
    requires |items| > 1 && 0 <= index < |items|
    ensures |RemoveAt(items, index)| == |items| - 1 >= 1
  {
  }

  /** The `items` state of the form and its three editors. */
  class OrderEditor {
    var items: seq<OrderItem>

    constructor ()
      ensures items == [DefaultItem()]
    {
      items := [DefaultItem()];
    }

    /** calculateTotal: the sum of quantity x price over the current items. */
    function CalculateTotal(): (r: int)
      reads this
      ensures r == ItemsTotal(items)
    {
      ReduceAddsTotal(items, 0);
      Reduce(items, 0)
    }

    /** addItem: one blank item more at the end; earlier items and the total unchanged. */
    method AddItem()
      modifies this
      ensures items == old(items) + [DefaultItem()]
      ensures |items| == |old(items)| + 1
      ensures forall i :: 0 <= i < |old(items)| ==> items[i] == old(items)[i]
      ensures CalculateTotal() == old(CalculateTotal())
    {
      AddItemKeepsTotal(items);
      items := items + [DefaultItem()];
    }

    /**
     * removeItem: with `index` in range the list loses that item and the
     * total loses its subtotal; with any other index nothing changes.
     */
    method RemoveItem(index: int)
      modifies this
      ensures items == RemoveAt(old(items), index)
      ensures 0 <= index < |old(items)| ==> |items| == |old(items)| - 1
      ensures 0 <= index < |old(items)| ==>
                CalculateTotal() == old(CalculateTotal()) - Subtotal(old(items)[index])
      ensures !(0 <= index < |old(items)|) ==> items == old(items)
    {
      if 0 <= index < |items| {
        RemoveAtLowersTotal(items, index);
      }
      items := RemoveAt(items, index);
    }

    /**
     * updateItem: copies the list and replaces the item at `index` by the
     * same item with one field rewritten; every other item is kept.
     */
    method UpdateItem(index: int, update: FieldUpdate)
      requires 0 <= index < |items|
      modifies this
      ensures |items| == |old(items)|
      ensures items[index] == WithField(old(items)[index], update)
      ensures forall i :: 0 <= i < |items| && i != index ==> items[i] == old(items)[i]
      ensures CalculateTotal()
           == old(CalculateTotal()) - Subtotal(old(items)[index]) + Subtotal(items[index])
    {
      UpdateChangesTotalBySubtotal(items, index, update);
      var newItems := items;
      newItems := newItems[index := WithField(newItems[index], update)];
      items := newItems;
    }
  }

  /** A fresh form totals 0; after one addition it has two items and still totals 0. */
  method FreshFormTotals() returns (initial: int, afterAdd: int, count: nat)
    ensures initial == 0 && afterAdd == 0 && count == 2
  {
    var editor := new OrderEditor();
    initial := editor.CalculateTotal();
    assert ItemsTotal([DefaultItem()]) == Subtotal(DefaultItem()) + ItemsTotal([]);
    editor.AddItem();
    afterAdd := editor.CalculateTotal();
    count := |editor.items|;
  }
}
