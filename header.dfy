/**
 * The header's cart counter: `cart.reduce((acc, obj) => acc + obj.quantity, 0)`.
 */
module Header {

  /** A line of the shared cart; only its quantity is read here. */
  datatype CartEntry = CartEntry(quantity: int)

  /** The reduce, a fold from the left: the count of all but the last line plus
      the last line's quantity. It is the sum of the quantities of all lines;
      the empty cart counts 0. */
  function CartCount(cart: seq<CartEntry>): (c: int)
    ensures c == Sum(cart)
  {
    if cart == [] then 0
    else
      var init, last := cart[..|cart| - 1], cart[|cart| - 1];
      assert cart == init + [last];
      SumAppend(init, [last]);
      CartCount(init) + last.quantity
  }

  /** The sum of the quantities taken from the front, the reference the fold is
      compared with. */
  function Sum(cart: seq<CartEntry>): int {
    if cart == [] then 0 else cart[0].quantity + Sum(cart[1..])
  }

  lemma {:induction false} SumAppend(a: seq<CartEntry>, b: seq<CartEntry>)
    ensures Sum(a + b) == Sum(a) + Sum(b)
  {
    if a == [] {
      assert a + b == b;
    } else {
      assert (a + b)[1..] == a[1..] + b;
      SumAppend(a[1..], b);
    }
  }

  /** Adding a line raises the counter by that line's quantity. */
  lemma CountAppend(cart: seq<CartEntry>, e: CartEntry)
    ensures CartCount(cart + [e]) == CartCount(cart) + e.quantity
  {
  }

  /** Taking the line at `k` out of a cart takes its quantity out of the sum. */
  lemma SumRemove(s: seq<CartEntry>, k: int)
    requires 0 <= k < |s|
    ensures Sum(s) == s[k].quantity + Sum(s[..k] + s[k + 1..])
  {
    var front, x, back := s[..k], s[k], s[k + 1..];
    assert s == (front + [x]) + back;
    SumAppend(front + [x], back);
    SumAppend(front, [x]);
    assert Sum([x]) == x.quantity by {
      assert [x][1..] == [];
    }
    SumAppend(front, back);
  }

  lemma {:induction false} SumPermutation(a: seq<CartEntry>, b: seq<CartEntry>)
    requires multiset(a) == multiset(b)
    ensures Sum(a) == Sum(b)
    decreases |a|
  {
    if a != [] {
      var x := a[0];
      assert x in multiset(b);
      var k :| 0 <= k < |b| && b[k] == x;
      var rest := b[..k] + b[k + 1..];
      assert b == b[..k] + [x] + b[k + 1..];
      assert a == [x] + a[1..];
      assert multiset(b) == multiset(b[..k]) + multiset{x} + multiset(b[k + 1..]);
      assert multiset(a) == multiset{x} + multiset(a[1..]);
      assert multiset(rest) == multiset(b[..k]) + multiset(b[k + 1..]);
      assert multiset(a[1..]) == multiset(a) - multiset{x};
      assert multiset(rest) == multiset(b) - multiset{x};
      SumPermutation(a[1..], rest);
      SumRemove(b, k);
    } else {
      assert |b| == |multiset(b)| == 0;
    }
  }

  /** The counter does not depend on the order of the lines. */
  lemma CountPermutation(a: seq<CartEntry>, b: seq<CartEntry>)
    requires multiset(a) == multiset(b)
    ensures CartCount(a) == CartCount(b)
  {
    SumPermutation(a, b);
  }
}
