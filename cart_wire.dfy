/**
 * The cart of the checkout form and the string it is sent as:
 * `cart.map((p) => p.URL + "|" + p.Quantity).join(",")`.
 *
 * `Decode` is the inverse this module defines for the receiving side (whose
 * code is not part of this model); `DecodeSerialize` proves that the string
 * is unambiguous as long as no URL contains a separator.
 */
module CartWire {
  import opened Wrappers

  /** One cart line as the checkout endpoint returns it: the product id and URL,
      the quantity and the unit price the catalogue last reported. */
  datatype CartEntry = CartEntry(ID: int, URL: string, Quantity: int, Price: int)

  type Cart = seq<CartEntry>

  const EntrySeparator: char := ','
  const FieldSeparator: char := '|'

  predicate IsDigit(c: char) {
    '0' <= c <= '9'
  }

  predicate AllDigits(s: string) {
    forall i :: 0 <= i < |s| ==> IsDigit(s[i])
  }

  function DigitChar(d: nat): (c: char)
    requires d < 10
    ensures IsDigit(c)
  {
    ('0' as int + d) as char
  }

  function DigitValue(c: char): (d: nat)
    requires IsDigit(c)
    ensures d < 10 && DigitChar(d) == c
  {
    c as int - '0' as int
  }

  /** The decimal numeral of a non-negative integer: what JavaScript prints
      for integers below 10^21 (from there on it prints exponent notation). */
  function NatToString(n: nat): (s: string)
    ensures |s| > 0 && AllDigits(s)
    decreases n
  {
    if n < 10 then [DigitChar(n)] else NatToString(n / 10) + [DigitChar(n % 10)]
  }

  /** `String(n)` for an integer `n` of magnitude below 10^21: a minus sign
      before negative numbers. */
  function IntToString(n: int): (s: string)
    ensures |s| > 0
    ensures EntrySeparator !in s && FieldSeparator !in s
  {
    var s := if n < 0 then "-" + NatToString(-n) else NatToString(n);
    assert forall i :: 0 <= i < |s| ==> s[i] == '-' || IsDigit(s[i]);
    s
  }

  function ParseNat(s: string): nat
    requires |s| > 0 && AllDigits(s)
  {
    if |s| == 1 then DigitValue(s[0])
    else ParseNat(s[..|s| - 1]) * 10 + DigitValue(s[|s| - 1])
  }

  function ParseInt(s: string): Option<int> {
    if |s| > 1 && s[0] == '-' && AllDigits(s[1..]) then var n: int := ParseNat(s[1..]); Some(-n)
    else if |s| > 0 && AllDigits(s) then Some(ParseNat(s))
    else None
  }

  lemma {:induction false} ParseNatToString(n: nat)
    ensures ParseNat(NatToString(n)) == n
  {
    if n >= 10 {
      var s := NatToString(n);
      assert s[..|s| - 1] == NatToString(n / 10);
      ParseNatToString(n / 10);
    }
  }

  /** Printing an integer and reading it back gives the integer. */
  lemma IntToStringRoundTrip(n: int)
    ensures ParseInt(IntToString(n)) == Some(n)
  {
    if n < 0 {
      var s := IntToString(n);
      assert s[1..] == NatToString(-n);
      ParseNatToString(-n);
    } else {
      ParseNatToString(n);
    }
  }

  /** `p.URL + "|" + p.Quantity`. A URL without the field separator reads back
      from the piece together with the quantity; a URL without the entry
      separator keeps the whole piece free of it. */
  function EntryText(e: CartEntry): (s: string)
    ensures FieldSeparator !in e.URL ==> DecodeEntry(s) == Some((e.URL, e.Quantity))
    ensures EntrySeparator !in e.URL ==> EntrySeparator !in s
  {
    var q := IntToString(e.Quantity);
    var s := e.URL + [FieldSeparator] + q;
    if FieldSeparator in e.URL then s
    else
      SplitJoin([e.URL, q], FieldSeparator);
      assert Join([e.URL, q], FieldSeparator) == s;
      IntToStringRoundTrip(e.Quantity);
      s
  }

  function EntryTexts(cart: Cart): (r: seq<string>)
    ensures |r| == |cart|
    ensures forall i :: 0 <= i < |cart| ==> r[i] == EntryText(cart[i])
  {
    if cart == [] then [] else [EntryText(cart[0])] + EntryTexts(cart[1..])
  }

  /** `Array.prototype.join(sep)` */
  function Join(parts: seq<string>, sep: char): string {
    if |parts| == 0 then ""
    else if |parts| == 1 then parts[0]
    else parts[0] + [sep] + Join(parts[1..], sep)
  }

  /** The `cart` field of the checkout request body. */
  function Serialize(cart: Cart): (s: string)
    ensures s == "" <==> cart == []
  {
    var parts := EntryTexts(cart);
    if cart == [] then ""
    else
      assert parts[0][|cart[0].URL|] == FieldSeparator;
      JoinNonEmpty(parts, EntrySeparator);
      Join(parts, EntrySeparator)
  }

  lemma JoinNonEmpty(parts: seq<string>, sep: char)
    requires |parts| > 0 && FieldSeparator in parts[0]
    ensures Join(parts, sep) != ""
  {
  }

  /** The first position of `c` in `s`. */
  function IndexOf(s: string, c: char): (i: nat)
    requires c in s
    ensures i < |s| && s[i] == c && c !in s[..i]
  {
    if s[0] == c then 0 else 1 + IndexOf(s[1..], c)
  }

  /** `String.prototype.split(sep)` for a one-character separator. */
  function Split(s: string, sep: char): (r: seq<string>)
    ensures |r| > 0
    decreases |s|
  {
    if sep in s then
      var i := IndexOf(s, sep);
      [s[..i]] + Split(s[i + 1..], sep)
    else [s]
  }

  lemma {:induction false} SplitJoin(parts: seq<string>, sep: char)
    requires |parts| > 0
    requires forall i :: 0 <= i < |parts| ==> sep !in parts[i]
    ensures Split(Join(parts, sep), sep) == parts
  {
    if |parts| > 1 {
      var s := Join(parts, sep);
      var p := parts[0];
      assert s == p + [sep] + Join(parts[1..], sep);
      assert s[|p|] == sep;
      assert s[..|p|] == p;
      assert IndexOf(s, sep) == |p|;
      assert s[|p| + 1..] == Join(parts[1..], sep);
      SplitJoin(parts[1..], sep);
    }
  }

  /** Reads one `URL|Quantity` piece back. */
  function DecodeEntry(piece: string): Option<(string, int)> {
    var fields := Split(piece, FieldSeparator);
    if |fields| != 2 then None
    else match ParseInt(fields[1])
      case None => None
      case Some(q) => Some((fields[0], q))
  }

  function DecodeEntries(pieces: seq<string>): Option<seq<(string, int)>>
    decreases |pieces|
  {
    if pieces == [] then Some([])
    else match (DecodeEntry(pieces[0]), DecodeEntries(pieces[1..]))
      case (Some(e), Some(rest)) => Some([e] + rest)
      case _ => None
  }

  /** The receiving side's reading of the `cart` string: the (URL, quantity)
      pairs in order, or None for a malformed string. */
  function Decode(s: string): Option<seq<(string, int)>> {
    if s == "" then Some([]) else DecodeEntries(Split(s, EntrySeparator))
  }

  /** What the `cart` string carries of each line: its URL and quantity, in cart order. */
  function Pairs(cart: Cart): (r: seq<(string, int)>)
    ensures |r| == |cart|
    ensures forall i :: 0 <= i < |cart| ==> r[i] == (cart[i].URL, cart[i].Quantity)
  {
    if cart == [] then [] else [(cart[0].URL, cart[0].Quantity)] + Pairs(cart[1..])
  }

  /** URLs are slugs: they never contain either separator. */
  predicate SeparatorFree(cart: Cart) {
    forall i :: 0 <= i < |cart| ==> EntrySeparator !in cart[i].URL && FieldSeparator !in cart[i].URL
  }

  lemma {:induction false} DecodeEntriesTexts(cart: Cart)
    requires SeparatorFree(cart)
    ensures DecodeEntries(EntryTexts(cart)) == Some(Pairs(cart))
  {
    if cart != [] {
      DecodeEntriesTexts(cart[1..]);
      assert EntryTexts(cart)[1..] == EntryTexts(cart[1..]);
    }
  }

  /** The cart string is unambiguous: decoding it gives back every line's URL
      and quantity, in cart order, and the empty cart is the empty string. */
  lemma DecodeSerialize(cart: Cart)
    requires SeparatorFree(cart)
    ensures Decode(Serialize(cart)) == Some(Pairs(cart))
  {
    if cart != [] {
      var parts := EntryTexts(cart);
      assert forall i :: 0 <= i < |parts| ==> EntrySeparator !in parts[i];
      SplitJoin(parts, EntrySeparator);
      DecodeEntriesTexts(cart);
    }
  }
}
