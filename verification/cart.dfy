/** The shopping cart and the order hand-off of the catalog page
    (components/Products.tsx). A cart entry is a snapshot of the product
    taken when it was first added, plus a count. */
module Cart {
  import opened Seqs
  import opened Strings
  import opened Records

  datatype CartItem = CartItem(product: Product, cartQuantity: int)

  function ItemId(item: CartItem): int {
    item.product.id
  }

  /** At most one entry per product id. */
  predicate UniqueIds(cart: seq<CartItem>) {
    forall i, j :: 0 <= i < j < |cart| ==> ItemId(cart[i]) != ItemId(cart[j])
  }

  /** Every entry holds at least one unit. */
  predicate AllPositive(cart: seq<CartItem>) {
    forall i :: 0 <= i < |cart| ==> cart[i].cartQuantity > 0
  }

  predicate InCart(cart: seq<CartItem>, id: int) {
    exists i :: 0 <= i < |cart| && ItemId(cart[i]) == id
  }

  /** Adds one unit of `p`: nothing happens for an out-of-stock product; an
      entry already in the cart gains one unit and keeps its snapshot; a new
      product is appended with one unit. */
  function AddToCart(cart: seq<CartItem>, p: Product): (r: seq<CartItem>)
    ensures !p.inStock ==> r == cart
    ensures p.inStock && !InCart(cart, p.id) ==> r == cart + [CartItem(p, 1)]
    ensures p.inStock && InCart(cart, p.id) ==> |r| == |cart|
    ensures p.inStock && InCart(cart, p.id) ==> forall i :: 0 <= i < |cart| ==>
      if ItemId(cart[i]) == p.id then r[i] == cart[i].(cartQuantity := cart[i].cartQuantity + 1)
      else r[i] == cart[i]
    ensures UniqueIds(cart) ==> UniqueIds(r)
    ensures AllPositive(cart) ==> AllPositive(r)
    ensures InCart(r, p.id) <==> p.inStock || InCart(cart, p.id)
  {
    if !p.inStock then cart
    else if InCart(cart, p.id) then
      var r := seq(|cart|, i requires 0 <= i < |cart| =>
        if ItemId(cart[i]) == p.id then cart[i].(cartQuantity := cart[i].cartQuantity + 1) else cart[i]);
      assert forall i :: 0 <= i < |r| ==> ItemId(r[i]) == ItemId(cart[i]);
      r
    else
      var r := cart + [CartItem(p, 1)];
      assert ItemId(r[|cart|]) == p.id;
      r
  }

  /** The entry for `id` set to `max(0, q + delta)`, the others unchanged. */
  function ChangeQuantity(cart: seq<CartItem>, id: int, delta: int): (r: seq<CartItem>)
    ensures |r| == |cart|
    ensures forall i :: 0 <= i < |cart| ==> ItemId(r[i]) == ItemId(cart[i])
  {
    seq(|cart|, i requires 0 <= i < |cart| =>
      if ItemId(cart[i]) == id then cart[i].(cartQuantity := Max(0, cart[i].cartQuantity + delta)) else cart[i])
  }

  predicate HasUnits(item: CartItem) {
    item.cartQuantity > 0
  }

  /** The + / - buttons of the cart drawer: an entry that reaches zero
      leaves the cart. */
  function UpdateCartQuantity(cart: seq<CartItem>, id: int, delta: int): (r: seq<CartItem>)
    ensures AllPositive(r)
    ensures UniqueIds(cart) ==> UniqueIds(r)
    ensures forall x :: x in r && ItemId(x) != id ==> x in cart
  {
    var m := ChangeQuantity(cart, id, delta);
    var r := Filter(m, HasUnits);
    assert forall i :: 0 <= i < |r| ==> r[i] in r && HasUnits(r[i]);
    if UniqueIds(cart) then
      SubsequenceKeepsUniqueIds(r, m);
      r
    else r
  }

  lemma {:induction false} SubsequenceKeepsUniqueIds(a: seq<CartItem>, b: seq<CartItem>)
    requires IsSubsequence(a, b) && UniqueIds(b)
    ensures UniqueIds(a)
    decreases |b|
  {
    if |a| > 0 {
      if a[0] == b[0] {
        SubsequenceKeepsUniqueIds(a[1..], b[1..]);
        SubsequenceMembers(a[1..], b[1..]);
        forall j | 0 < j < |a|
          ensures ItemId(a[0]) != ItemId(a[j])
        {
          assert a[j] == a[1..][j - 1] && a[1..][j - 1] in a[1..];
          assert a[j] in b[1..];
          var k :| 0 <= k < |b[1..]| && b[1..][k] == a[j];
          assert b[k + 1] == a[j];
        }
        forall i, j | 0 < i < j < |a|
          ensures ItemId(a[i]) != ItemId(a[j])
        {
          assert a[i] == a[1..][i - 1] && a[j] == a[1..][j - 1];
        }
      } else {
        SubsequenceKeepsUniqueIds(a, b[1..]);
      }
    }
  }

  /** Entries whose id is not `id`. */
  function OtherThan(id: int): CartItem -> bool {
    item => ItemId(item) != id
  }

  /** The other entries are untouched and keep their order. */
  lemma UpdateKeepsOthers(cart: seq<CartItem>, id: int, delta: int)
    requires AllPositive(cart)
    ensures Filter(UpdateCartQuantity(cart, id, delta), OtherThan(id)) == Filter(cart, OtherThan(id))
  {
    var m := ChangeQuantity(cart, id, delta);
    var both := (x: CartItem) => HasUnits(x) && ItemId(x) != id;
    FilterFilter(m, HasUnits, OtherThan(id), both);
    FilterFilter(m, OtherThan(id), HasUnits, both);
    OthersUnchanged(cart, id, delta);
    assert forall x :: x in Filter(cart, OtherThan(id)) ==> x in cart;
    assert forall x :: x in cart ==> HasUnits(x);
    FilterAll(Filter(cart, OtherThan(id)), HasUnits);
  }

  lemma {:induction false} OthersUnchanged(cart: seq<CartItem>, id: int, delta: int)
    ensures Filter(ChangeQuantity(cart, id, delta), OtherThan(id)) == Filter(cart, OtherThan(id))
    decreases |cart|
  {
    if |cart| > 0 {
      OthersUnchanged(cart[1..], id, delta);
      ChangeQuantityTail(cart, id, delta);
    }
  }

  /** Changing quantities commutes with dropping the first entry. */
  lemma ChangeQuantityTail(cart: seq<CartItem>, id: int, delta: int)
    requires |cart| > 0
    ensures ChangeQuantity(cart, id, delta)[1..] == ChangeQuantity(cart[1..], id, delta)
  {
  }

  /** With one entry per id and no empty entries, the target entry at `k`
      becomes `q + delta` when that is positive and disappears otherwise. */
  lemma UpdateTarget(cart: seq<CartItem>, id: int, delta: int, k: int)
    requires UniqueIds(cart) && AllPositive(cart)
    requires 0 <= k < |cart| && ItemId(cart[k]) == id
    ensures var q := cart[k].cartQuantity + delta;
      UpdateCartQuantity(cart, id, delta) ==
        if q > 0 then cart[k := cart[k].(cartQuantity := q)] else cart[..k] + cart[k + 1..]
  {
    var x := cart[k].(cartQuantity := Max(0, cart[k].cartQuantity + delta));
    var m := ChangeQuantity(cart, id, delta);
    assert m == cart[k := x] by {
      forall i | 0 <= i < |cart| && i != k
        ensures m[i] == cart[i]
      {
        assert ItemId(cart[i]) != id;
      }
    }
    FilterAllBut(m, k, HasUnits);
    assert m[..k] == cart[..k] && m[k + 1..] == cart[k + 1..];
  }

  /** A missing id changes nothing in a cart without empty entries. */
  lemma UpdateMissingId(cart: seq<CartItem>, id: int, delta: int)
    requires AllPositive(cart) && !InCart(cart, id)
    ensures UpdateCartQuantity(cart, id, delta) == cart
  {
    assert ChangeQuantity(cart, id, delta) == cart;
    FilterAll(cart, HasUnits);
  }

  // ---------------------------------------------------------------------
  // Totals
  // ---------------------------------------------------------------------

  function LineTotal(item: CartItem): int {
    item.product.price * item.cartQuantity
  }

  /** `cartTotal`: the reduce over the entries, front to back. */
  function CartTotal(cart: seq<CartItem>): int
    decreases |cart|
  {
    if |cart| == 0 then 0 else CartTotal(cart[..|cart| - 1]) + LineTotal(cart[|cart| - 1])
  }

  /** The number on the cart badge. */
  function CartCount(cart: seq<CartItem>): int
    decreases |cart|
  {
    if |cart| == 0 then 0 else CartCount(cart[..|cart| - 1]) + cart[|cart| - 1].cartQuantity
  }

  lemma {:induction false} TotalsAppend(a: seq<CartItem>, b: seq<CartItem>)
    ensures CartTotal(a + b) == CartTotal(a) + CartTotal(b)
    ensures CartCount(a + b) == CartCount(a) + CartCount(b)
    decreases |b|
  {
    if |b| == 0 {
      assert a + b == a;
    } else {
      assert (a + b)[..|a + b| - 1] == a + b[..|b| - 1];
      TotalsAppend(a, b[..|b| - 1]);
    }
  }

  lemma TotalsSingle(x: CartItem)
    ensures CartTotal([x]) == LineTotal(x) && CartCount([x]) == x.cartQuantity
  {
    assert [x][..0] == [];
  }

  /** The totals of a cart split around one entry. */
  lemma TotalsMiddle(a: seq<CartItem>, x: CartItem, b: seq<CartItem>)
    ensures CartTotal(a + [x] + b) == CartTotal(a) + LineTotal(x) + CartTotal(b)
    ensures CartCount(a + [x] + b) == CartCount(a) + x.cartQuantity + CartCount(b)
  {
    TotalsAppend(a + [x], b);
    TotalsAppend(a, [x]);
    TotalsSingle(x);
  }

  /** Replacing one entry changes the totals by that entry's difference. */
  lemma TotalsReplace(cart: seq<CartItem>, k: int, x: CartItem)
    requires 0 <= k < |cart|
    ensures CartTotal(cart[k := x]) == CartTotal(cart) - LineTotal(cart[k]) + LineTotal(x)
    ensures CartCount(cart[k := x]) == CartCount(cart) - cart[k].cartQuantity + x.cartQuantity
  {
    var (front, back) := (cart[..k], cart[k + 1..]);
    assert cart == front + [cart[k]] + back;
    assert cart[k := x] == front + [x] + back;
    TotalsMiddle(front, cart[k], back);
    TotalsMiddle(front, x, back);
  }

  /** Removing one entry takes away exactly that entry's amount and units. */
  lemma {:induction false} TotalsRemove(cart: seq<CartItem>, k: int)
    requires 0 <= k < |cart|
    ensures CartTotal(cart[..k] + cart[k + 1..]) == CartTotal(cart) - LineTotal(cart[k])
    ensures CartCount(cart[..k] + cart[k + 1..]) == CartCount(cart) - cart[k].cartQuantity
  {
    var (front, back) := (cart[..k], cart[k + 1..]);
    assert cart == front + [cart[k]] + back;
    TotalsMiddle(front, cart[k], back);
    TotalsAppend(front, back);
  }

  /** Adding a product that is not yet in the cart adds its price and one unit. */
  lemma AddNewTotals(cart: seq<CartItem>, p: Product)
    requires p.inStock && !InCart(cart, p.id)
    ensures CartTotal(AddToCart(cart, p)) == CartTotal(cart) + p.price
    ensures CartCount(AddToCart(cart, p)) == CartCount(cart) + 1
  {
    TotalsAppend(cart, [CartItem(p, 1)]);
    TotalsSingle(CartItem(p, 1));
  }

  /** Adding a product already in the cart adds one unit at the price of the
      entry's snapshot, which may differ from the product's current price. */
  lemma {:induction false} AddExistingTotals(cart: seq<CartItem>, p: Product, k: int)
    requires UniqueIds(cart) && p.inStock
    requires 0 <= k < |cart| && ItemId(cart[k]) == p.id
    ensures CartTotal(AddToCart(cart, p)) == CartTotal(cart) + cart[k].product.price
    ensures CartCount(AddToCart(cart, p)) == CartCount(cart) + 1
  {
    var x := cart[k].(cartQuantity := cart[k].cartQuantity + 1);
    AddExistingIsReplace(cart, p, k);
    TotalsReplace(cart, k, x);
    assert LineTotal(x) == LineTotal(cart[k]) + cart[k].product.price by {
      MulAddOne(cart[k].product.price, cart[k].cartQuantity);
    }
  }

  /** With one entry per id, adding a product already in the cart replaces
      its entry by one with one more unit. */
  lemma AddExistingIsReplace(cart: seq<CartItem>, p: Product, k: int)
    requires UniqueIds(cart) && p.inStock
    requires 0 <= k < |cart| && ItemId(cart[k]) == p.id
    ensures AddToCart(cart, p) == cart[k := cart[k].(cartQuantity := cart[k].cartQuantity + 1)]
  {
    assert InCart(cart, p.id);
    var r := AddToCart(cart, p);
    forall i | 0 <= i < |cart| && i != k
      ensures r[i] == cart[i]
    {
      assert ItemId(cart[i]) != p.id;
    }
  }

  lemma MulAddOne(a: int, b: int)
    ensures a * (b + 1) == a * b + a
  {
  }

  /** The + / - buttons move the badge count and the total by exactly the
      change in the target entry: the old line amount is replaced by the
      line amount at the new count, which is zero when the entry leaves. */
  lemma {:induction false} UpdateTotals(cart: seq<CartItem>, id: int, delta: int, k: int)
    requires UniqueIds(cart) && AllPositive(cart)
    requires 0 <= k < |cart| && ItemId(cart[k]) == id
    ensures var r := UpdateCartQuantity(cart, id, delta);
      var target := cart[k].(cartQuantity := Max(0, cart[k].cartQuantity + delta));
      && CartCount(r) == CartCount(cart) - cart[k].cartQuantity + target.cartQuantity
      && CartTotal(r) == CartTotal(cart) - LineTotal(cart[k]) + LineTotal(target)
  {
    if cart[k].cartQuantity + delta > 0 {
      UpdateKeptTotals(cart, id, delta, k);
    } else {
      UpdateDroppedTotals(cart, id, delta, k);
      assert LineTotal(cart[k].(cartQuantity := 0)) == 0;
    }
  }

  lemma {:induction false} UpdateKeptTotals(cart: seq<CartItem>, id: int, delta: int, k: int)
    requires UniqueIds(cart) && AllPositive(cart)
    requires 0 <= k < |cart| && ItemId(cart[k]) == id && cart[k].cartQuantity + delta > 0
    ensures var r := UpdateCartQuantity(cart, id, delta);
      var target := cart[k].(cartQuantity := cart[k].cartQuantity + delta);
      && CartCount(r) == CartCount(cart) - cart[k].cartQuantity + target.cartQuantity
      && CartTotal(r) == CartTotal(cart) - LineTotal(cart[k]) + LineTotal(target)
  {
    UpdateTarget(cart, id, delta, k);
    TotalsReplace(cart, k, cart[k].(cartQuantity := cart[k].cartQuantity + delta));
  }

  lemma {:induction false} UpdateDroppedTotals(cart: seq<CartItem>, id: int, delta: int, k: int)
    requires UniqueIds(cart) && AllPositive(cart)
    requires 0 <= k < |cart| && ItemId(cart[k]) == id && cart[k].cartQuantity + delta <= 0
    ensures var r := UpdateCartQuantity(cart, id, delta);
      && CartCount(r) == CartCount(cart) - cart[k].cartQuantity
      && CartTotal(r) == CartTotal(cart) - LineTotal(cart[k])
  {
    UpdateTarget(cart, id, delta, k);
    TotalsRemove(cart, k);
  }

  // ---------------------------------------------------------------------
  // Placing an order
  // ---------------------------------------------------------------------

  datatype CustomerDetails = CustomerDetails(name: string, mobile: string, address: string)

  const NoDetails := CustomerDetails("", "", "")

  /** The checkout part of the page state. */
  datatype Checkout = Checkout(cart: seq<CartItem>, details: CustomerDetails, cartOpen: bool)

  datatype OrderOutcome = Rejected | Sent(message: string)

  const OrderHeader := "*New Order from Kastkar App*\n\n"

  function CustomerBlock(d: CustomerDetails): string {
    "*Customer:* " + d.name + "\n" + "*Mobile:* " + d.mobile + "\n" + "*Address:* " + d.address + "\n\n"
  }

  /** One line of the order: name, quantity and line amount. */
  function OrderLine(item: CartItem): string {
    "- " + item.product.name + " x " + IntToString(item.cartQuantity) + " = ₹" + IntToString(LineTotal(item)) + "\n"
  }

  /** The item lines, one per cart entry in cart order. */
  function OrderLines(cart: seq<CartItem>): (r: seq<string>)
    ensures |r| == |cart|
    ensures forall i :: 0 <= i < |cart| ==> r[i] == OrderLine(cart[i])
  {
    seq(|cart|, i requires 0 <= i < |cart| => OrderLine(cart[i]))
  }

  function GrandTotalLine(total: int): string {
    "\n*Grand Total: ₹" + IntToString(total) + "*"
  }

  /** The text handed to the messaging link: the header and the customer's
      details, then the item lines in cart order under their heading, then
      the grand total. Every item of the cart is named in it. */
  function OrderMessage(d: CustomerDetails, cart: seq<CartItem>): (m: string)
    ensures StartsWith(m, OrderHeader + CustomerBlock(d))
    ensures EndsWith(m, GrandTotalLine(CartTotal(cart)))
    ensures |OrderHeader + CustomerBlock(d)| + |GrandTotalLine(CartTotal(cart))| <= |m|
    ensures m[|OrderHeader + CustomerBlock(d)|..|m| - |GrandTotalLine(CartTotal(cart))|]
            == "*Order Details:*\n" + Concat(OrderLines(cart))
    ensures forall i :: 0 <= i < |cart| ==> Contains(m, OrderLine(cart[i]))
  {
    var head := OrderHeader + CustomerBlock(d);
    var lines := Concat(OrderLines(cart));
    var tail := GrandTotalLine(CartTotal(cart));
    var mid := "*Order Details:*\n" + lines;
    ThreeParts(head, mid, tail);
    ItemLinesContained(head, cart, tail);
    head + mid + tail
  }

  /** A string made of three parts starts with the first, ends with the
      last and has the middle one between them. */
  lemma ThreeParts(head: string, mid: string, tail: string)
    ensures var msg := head + mid + tail;
      && StartsWith(msg, head) && EndsWith(msg, tail)
      && msg[|head|..|msg| - |tail|] == mid
  {
    var msg := head + mid + tail;
    assert msg[..|head|] == head;
    assert msg[|msg| - |tail|..] == tail;
  }

  /** Each item line occurs in the message built around the item list. */
  lemma ItemLinesContained(head: string, cart: seq<CartItem>, tail: string)
    ensures forall i :: 0 <= i < |cart| ==>
      Contains(head + ("*Order Details:*\n" + Concat(OrderLines(cart))) + tail, OrderLine(cart[i]))
  {
    var lines := Concat(OrderLines(cart));
    var mid := "*Order Details:*\n" + lines;
    forall i | 0 <= i < |cart|
      ensures Contains(head + mid + tail, OrderLine(cart[i]))
    {
      ConcatContainsEach(OrderLines(cart), i);
      ContainsSuffix("*Order Details:*\n", lines, OrderLine(cart[i]));
      ContainsSuffix(head, mid, OrderLine(cart[i]));
      ContainsPrefix(head + mid, tail, OrderLine(cart[i]));
    }
  }

  /** `handlePlaceOrder`: with any detail missing the order is refused and
      nothing changes; otherwise the message is produced and the cart, the
      details and the drawer are cleared. */
  function PlaceOrder(s: Checkout): (r: (Checkout, OrderOutcome))
    ensures r.1.Rejected? <==> s.details.name == "" || s.details.mobile == "" || s.details.address == ""
    ensures r.1.Rejected? ==> r.0 == s
    ensures r.1.Sent? ==> r.0 == Checkout([], NoDetails, false)
    ensures r.1.Sent? ==> r.1.message == OrderMessage(s.details, s.cart)
    ensures r.1.Sent? ==> StartsWith(r.1.message, OrderHeader + CustomerBlock(s.details))
    ensures r.1.Sent? ==> forall i :: 0 <= i < |s.cart| ==> Contains(r.1.message, OrderLine(s.cart[i]))
    ensures r.1.Sent? ==> EndsWith(r.1.message, GrandTotalLine(CartTotal(s.cart)))
  {
    if s.details.name == "" || s.details.mobile == "" || s.details.address == "" then (s, Rejected)
    else (Checkout([], NoDetails, false), Sent(OrderMessage(s.details, s.cart)))
  }

  /** A sent order clears the details, so pressing the button again is
      refused until the customer fills them in anew. */
  lemma OrderTwiceRefused(s: Checkout)
    requires PlaceOrder(s).1.Sent?
    ensures PlaceOrder(PlaceOrder(s).0) == (PlaceOrder(s).0, Rejected)
    ensures PlaceOrder(s).0.cart == [] && CartTotal(PlaceOrder(s).0.cart) == 0
  {
  }
}
