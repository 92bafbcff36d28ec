/**
 * The product page (`Item`): how many pieces of the product are already in the
 * cart, the stock shown as still available, and the "Add to cart" button.
 */
module ItemPage {

  /** The product record the page is built from (`data.items`). */
  datatype ItemData = ItemData(
    name: string, desc: string, slug: string, idNormalized: string,
    price: int, qt: int, avb: int)

  /** A line of the page's cart; only the product id and the quantity in the
      cart (`cqt`) are read here. */
  datatype CartLine = CartLine(idNormalized: string, cqt: int)

  /** The action the button dispatches. */
  datatype Action = AddToCart(item: ItemData)

  /** What the details block shows: the remaining stock, whether the button is
      disabled, and what a click dispatches. */
  datatype Details = Details(remaining: int, disabled: bool, onClick: Action)

  /** `i` is the first cart line for product `id`. */
  predicate FirstMatch(cart: seq<CartLine>, id: string, i: int) {
    && 0 <= i < |cart|
    && cart[i].idNormalized == id
    && forall j :: 0 <= j < i ==> cart[j].idNormalized != id
  }

  /** `cart.filter((e) => e.id__normalized === id)` */
  function Matches(cart: seq<CartLine>, id: string): (r: seq<CartLine>)
    ensures forall k :: 0 <= k < |r| ==> r[k].idNormalized == id
    ensures |r| == 0 <==> forall i :: 0 <= i < |cart| ==> cart[i].idNormalized != id
    ensures |r| > 0 ==> exists i :: FirstMatch(cart, id, i) && r[0] == cart[i]
  {
    if cart == [] then []
    else
      var rest := Matches(cart[1..], id);
      if cart[0].idNormalized == id then
        assert FirstMatch(cart, id, 0);
        [cart[0]] + rest
      else
        FirstMatchShift(cart, id);
        rest
  }

  lemma FirstMatchShift(cart: seq<CartLine>, id: string)
    requires |cart| > 0 && cart[0].idNormalized != id
    ensures forall i :: FirstMatch(cart[1..], id, i) ==> FirstMatch(cart, id, i + 1)
    ensures (forall i :: 0 <= i < |cart| ==> cart[i].idNormalized != id) <==>
            (forall i :: 0 <= i < |cart| - 1 ==> cart[1..][i].idNormalized != id)
  {
  }

  /** `cqt`: the `cqt` of the first cart line for the product, 0 when there is none. */
  function CartQuantity(cart: seq<CartLine>, id: string): (cqt: int)
    ensures (forall i :: 0 <= i < |cart| ==> cart[i].idNormalized != id) ==> cqt == 0
    ensures forall i :: FirstMatch(cart, id, i) ==> cqt == cart[i].cqt
  {
    var m := Matches(cart, id);
    if |m| > 0 then
      assert forall i, k :: FirstMatch(cart, id, i) && FirstMatch(cart, id, k) ==> i == k;
      m[0].cqt
    else 0
  }

  /** The details block: `{qt - cqt} kom.` and the button with
      `disabled={!(qt - cqt)}` and `onClick={() => addToCart(data.items)}`. */
  function ItemDetails(item: ItemData, cart: seq<CartLine>): (d: Details)
    ensures d.remaining == item.qt - CartQuantity(cart, item.idNormalized)
    ensures d.disabled <==> d.remaining == 0
    ensures d.onClick == AddToCart(item)
  {
    var cqt := CartQuantity(cart, item.idNormalized);
    // `!n` of a number is true exactly when the number is 0
    Details(item.qt - cqt, item.qt - cqt == 0, AddToCart(item))
  }

  /** With no line for the product in the cart, the whole stock is shown and
      the button is disabled exactly when the stock is 0. */
  lemma DetailsWithoutCartLine(item: ItemData, cart: seq<CartLine>)
    requires forall i :: 0 <= i < |cart| ==> cart[i].idNormalized != item.idNormalized
    ensures ItemDetails(item, cart).remaining == item.qt
    ensures ItemDetails(item, cart).disabled <==> item.qt == 0
  {
  }

  /** With a line for the product, the stock shown is `qt` less the first
      line's `cqt`; a negative remainder leaves the button enabled. */
  lemma DetailsWithCartLine(item: ItemData, cart: seq<CartLine>, i: int)
    requires FirstMatch(cart, item.idNormalized, i)
    ensures ItemDetails(item, cart).remaining == item.qt - cart[i].cqt
    ensures cart[i].cqt > item.qt ==> !ItemDetails(item, cart).disabled
    ensures ItemDetails(item, cart).disabled <==> cart[i].cqt == item.qt
  {
  }
}
