/**
 * The home page (`Index`): the list of popular categories and the featured
 * products, both taken from the category list the catalogue returns.
 *
 * The popular list is `filter` (drop the shop's own category), `sort` with a
 * comparator that returns a boolean, `slice(0, 6)` and `map` to links. A
 * boolean comparator is not a consistent ordering, so the order `sort` leaves
 * is up to the JavaScript engine: it is the parameter `arrange`, of which only
 * that it permutes its argument is known.
 */
module HomePage {
  import opened Wrappers

  const ShopSlug: string := "amadeus-ii-shop"
  const ListedMax: nat := 6

  datatype Category<P> = Category(ID: int, Name: string, Slug: string, Products: seq<P>)

  /** One `<li>`: React key, link target and link text. */
  datatype CategoryLink = CategoryLink(Key: int, Href: string, Label: string)

  /** `categories.filter((c) => c.Slug !== "amadeus-ii-shop")`, a fresh sequence. */
  function WithoutShop<P(!new)>(cs: seq<Category<P>>): (r: seq<Category<P>>)
    ensures forall c :: multiset(r)[c] == if c.Slug != ShopSlug then multiset(cs)[c] else 0
  {
    if cs == [] then []
    else
      assert cs == [cs[0]] + cs[1..];
      if cs[0].Slug != ShopSlug then [cs[0]] + WithoutShop(cs[1..]) else WithoutShop(cs[1..])
  }

  /** `arrange` only reorders: what `sort` promises for any comparator. */
  ghost predicate Permuting<P(!new)>(arrange: seq<Category<P>> -> seq<Category<P>>) {
    forall s :: multiset(arrange(s)) == multiset(s)
  }

  function Min(a: int, b: int): int {
    if a < b then a else b
  }

  /** The categories listed as popular, before they become links. */
  function PopularCategories<P(!new)>(cs: seq<Category<P>>, arrange: seq<Category<P>> -> seq<Category<P>>)
    : (r: seq<Category<P>>)
    requires Permuting(arrange)
    ensures |r| <= ListedMax
    ensures |r| == Min(ListedMax, |WithoutShop(cs)|)
    ensures forall c :: c in r ==> c.Slug != ShopSlug
    ensures multiset(r) <= multiset(cs)
  {
    var kept := WithoutShop(cs);
    var sorted := arrange(kept);
    assert |sorted| == |multiset(sorted)| == |multiset(kept)| == |kept|;
    var r := sorted[..Min(ListedMax, |sorted|)];
    assert sorted == r + sorted[|r|..];
    assert multiset(r) <= multiset(sorted);
    assert forall c :: c in r ==> multiset(kept)[c] > 0;
    r
  }

  function Links<P>(cs: seq<Category<P>>): (r: seq<CategoryLink>)
    ensures |r| == |cs|
    ensures forall i :: 0 <= i < |cs| ==> r[i] == CategoryLink(cs[i].ID, cs[i].Slug, cs[i].Name)
  {
    if cs == [] then [] else [CategoryLink(cs[0].ID, cs[0].Slug, cs[0].Name)] + Links(cs[1..])
  }

  /** The "Popularne kategorije" list: at most six links, none to the shop's own
      category, each to a category of the input. */
  function PopularLinks<P(!new)>(cs: seq<Category<P>>, arrange: seq<Category<P>> -> seq<Category<P>>)
    : (r: seq<CategoryLink>)
    requires Permuting(arrange)
    ensures |r| <= ListedMax
    ensures forall l :: l in r ==> l.Href != ShopSlug
    ensures forall l :: l in r ==> exists c :: c in cs && l == CategoryLink(c.ID, c.Slug, c.Name)
  {
    var listed := PopularCategories(cs, arrange);
    var r := Links(listed);
    assert forall i :: 0 <= i < |listed| ==> listed[i] in multiset(cs);
    r
  }

  /** `categories.find((c) => c.Slug === "amadeus-ii-shop").Products`: the
      products of the first category with the shop's slug; None where `find`
      yields `undefined` and reading `.Products` throws. */
  function FeaturedProducts<P>(cs: seq<Category<P>>): (r: Option<seq<P>>)
    ensures r.None? <==> forall i :: 0 <= i < |cs| ==> cs[i].Slug != ShopSlug
    ensures r.Some? ==> exists i ::
      && 0 <= i < |cs|
      && cs[i].Slug == ShopSlug
      && (forall j :: 0 <= j < i ==> cs[j].Slug != ShopSlug)
      && r.value == cs[i].Products
  {
    if cs == [] then None
    else if cs[0].Slug == ShopSlug then Some(cs[0].Products)
    else
      var r := FeaturedProducts(cs[1..]);
      assert forall i :: 1 <= i < |cs| ==> cs[i] == cs[1..][i - 1];
      r
  }
}
