/**
 * The catalogue service's product operations: validation of a product
 * request, creation, update (existence check, then delete-and-insert of the
 * child rows) and reading a product back, light or full.
 *
 * The database is a class whose fields are its tables, each a map from a row
 * id, or from a product id to that product's child rows in insertion order.
 * Every serial column draws from one counter, `serial`. The SQL text,
 * transactions and logging are not modelled; only the paths on which every
 * statement succeeds are, apart from the validation errors, the missing
 * product of an update and the empty read at the end.
 */
module Products {
  import opened Wrappers

  datatype Image = Image(ImageID: int, URL: string)
  datatype Feature = Feature(FeatureID: int, FeatureValueID: int, Name: string, Value: string, Recommended: bool)
  datatype Publication = Publication(PublicationID: int, Name: string)

  datatype Product = Product(
    ProductID: int,
    Name: string,
    Price: int,
    Discount: int,
    Quantity: int,
    Description: string,
    URL: string,
    Recommended: bool,
    CreatedAt: string,
    UpdatedAt: string,
    Brand: string,
    BrandID: int,
    Category: string,
    CategoryID: int,
    Images: seq<Image>,
    Features: seq<Feature>,
    Publications: seq<Publication>,
    Recommendations: seq<Product>)

  /** Go's zero value `Product{}`, returned beside every error. */
  function ZeroProduct(): Product {
    Product(0, "", 0, 0, 0, "", "", false, "", "", "", 0, "", 0, [], [], [], [])
  }

  const ErrNoName: string := "Proizvod mora imati ime"
  const ErrNoPrice: string := "Proizvod mora imati cijenu"
  const ErrNoBrand: string := "Proizvod mora imati brend"
  const ErrNoCategory: string := "Proizvod mora imati kategoriju"
  const ErrNotFound: string := "Proizvod ne postoji"
  /** The error of a `Get` that finds no row. */
  const ErrNoRows: string := "sql: no rows in result set"

  /** The validation chain shared by create and update: name, price, brand,
      category, in that order; the first failing rule gives its message. */
  function Validate(p: Product): (err: Option<string>)
    ensures err == None <==> p.Name != "" && p.Price != 0 && p.Brand != "" && p.Category != ""
    ensures err == Some(ErrNoName) <==> p.Name == ""
    ensures err == Some(ErrNoPrice) <==> p.Name != "" && p.Price == 0
    ensures err == Some(ErrNoBrand) <==> p.Name != "" && p.Price != 0 && p.Brand == ""
    ensures err == Some(ErrNoCategory) <==> p.Name != "" && p.Price != 0 && p.Brand != "" && p.Category == ""
  {
    if p.Name == "" then Some(ErrNoName)
    else if p.Price == 0 then Some(ErrNoPrice)
    else if p.Brand == "" then Some(ErrNoBrand)
    else if p.Category == "" then Some(ErrNoCategory)
    else None
  }

  /** Validation reads only the name, the price, the brand and the category;
      a negative price passes like any other non-zero one. */
  lemma ValidateReadsFourFields(p: Product, q: Product)
    requires p.Name == q.Name && p.Brand == q.Brand && p.Category == q.Category
    requires (p.Price == 0) == (q.Price == 0)
    ensures Validate(p) == Validate(q)
    ensures p.Name != "" && p.Brand != "" && p.Category != "" && p.Price < 0 ==> Validate(p) == None
  {
  }

  // ----- tables -----

  datatype ProductRow = ProductRow(
    Name: string, Price: int, Discount: int, Quantity: int, Description: string, URL: string,
    Recommended: bool, CreatedAt: string, UpdatedAt: string, BrandID: int, CategoryID: int)

  datatype FeatureRow = FeatureRow(Name: string, Recommended: bool, CategoryID: int)
  datatype FeatureValueRow = FeatureValueRow(FeatureValueID: int, Value: string, FeatureID: int)

  /** The child rows of product `id` in a table keyed by product. */
  function Rows<R>(table: map<int, seq<R>>, id: int): seq<R> {
    if id in table then table[id] else []
  }

  function ImageURLs(images: seq<Image>): (r: seq<string>)
    ensures |r| == |images| && forall i :: 0 <= i < |images| ==> r[i] == images[i].URL
  {
    seq(|images|, i requires 0 <= i < |images| => images[i].URL)
  }

  function PublicationIDs(ps: seq<Publication>): (r: seq<int>)
    ensures |r| == |ps| && forall i :: 0 <= i < |ps| ==> r[i] == ps[i].PublicationID
  {
    seq(|ps|, i requires 0 <= i < |ps| => ps[i].PublicationID)
  }

  function ProductIDs(ps: seq<Product>): (r: seq<int>)
    ensures |r| == |ps| && forall i :: 0 <= i < |ps| ==> r[i] == ps[i].ProductID
  {
    seq(|ps|, i requires 0 <= i < |ps| => ps[i].ProductID)
  }

  /** "ID 0 means create": a zero `requested` id adds a row named `name` under a
      fresh positive id, which is `chosen`; any other id is kept and the table
      stays as it was. */
  predicate Resolved(before: map<int, string>, after: map<int, string>, requested: int, name: string, chosen: int) {
    if requested == 0 then chosen > 0 && chosen !in before && after == before[chosen := name]
    else chosen == requested && after == before
  }

  /** A stored feature value for the requested feature `f` of a product in
      category `categoryId`: it holds `f`'s value, under `f`'s feature id, or,
      when that id is 0, under a feature row created for `f` in that category. */
  predicate FeatureStored(before: map<int, FeatureRow>, after: map<int, FeatureRow>,
                          f: Feature, row: FeatureValueRow, categoryId: int) {
    && row.Value == f.Value
    && (f.FeatureID != 0 ==> row.FeatureID == f.FeatureID)
    && (f.FeatureID == 0 ==>
          && row.FeatureID !in before
          && row.FeatureID in after
          && after[row.FeatureID] == FeatureRow(f.Name, f.Recommended, categoryId))
  }

  /** Every row of `before` is in `after`, unchanged. */
  predicate Extends(before: map<int, FeatureRow>, after: map<int, FeatureRow>) {
    forall k :: k in before ==> k in after && after[k] == before[k]
  }

  /** The feature ids stored, in value rows `rows`, for the requested features
      of `fs` that had id 0. */
  function CreatedIds(fs: seq<Feature>, rows: seq<FeatureValueRow>): set<int>
    requires |rows| == |fs|
  {
    if fs == [] then {}
    else
      var n := |fs| - 1;
      CreatedIds(fs[..n], rows[..n]) + (if fs[n].FeatureID == 0 then {rows[n].FeatureID} else {})
  }

  /** The created ids are exactly the ids stored for the features with id 0. */
  lemma {:induction false} CreatedIdsExactly(fs: seq<Feature>, rows: seq<FeatureValueRow>)
    requires |rows| == |fs|
    ensures forall i :: 0 <= i < |fs| && fs[i].FeatureID == 0 ==> rows[i].FeatureID in CreatedIds(fs, rows)
    ensures forall k :: k in CreatedIds(fs, rows) ==>
      exists i :: 0 <= i < |fs| && fs[i].FeatureID == 0 && rows[i].FeatureID == k
  {
    if fs != [] {
      var n := |fs| - 1;
      CreatedIdsExactly(fs[..n], rows[..n]);
      forall k | k in CreatedIds(fs, rows)
        ensures exists i :: 0 <= i < |fs| && fs[i].FeatureID == 0 && rows[i].FeatureID == k
      {
        if k in CreatedIds(fs[..n], rows[..n]) {
          var i :| 0 <= i < n && fs[..n][i].FeatureID == 0 && rows[..n][i].FeatureID == k;
          assert fs[i] == fs[..n][i] && rows[i] == rows[..n][i];
        } else {
          assert fs[n].FeatureID == 0 && rows[n].FeatureID == k;
        }
      }
      forall i | 0 <= i < |fs| && fs[i].FeatureID == 0
        ensures rows[i].FeatureID in CreatedIds(fs, rows)
      {
        if i < n {
          assert fs[i] == fs[..n][i] && rows[i] == rows[..n][i];
        }
      }
    }
  }

  /** The number of requested features with id 0. */
  function ZeroIds(fs: seq<Feature>): nat {
    if fs == [] then 0
    else ZeroIds(fs[..|fs| - 1]) + (if fs[|fs| - 1].FeatureID == 0 then 1 else 0)
  }

  /** Feature table `after` is `before` plus one new row for each requested
      feature of `fs` with id 0, under pairwise distinct ids, and nothing else;
      `rows` are the value rows stored for `fs`, one per feature, in order. */
  predicate FeaturesAdded(before: map<int, FeatureRow>, after: map<int, FeatureRow>,
                          fs: seq<Feature>, rows: seq<FeatureValueRow>, categoryId: int) {
    && |rows| == |fs|
    && Extends(before, after)
    && after.Keys == before.Keys + CreatedIds(fs, rows)
    && (forall i :: 0 <= i < |fs| ==> FeatureStored(before, after, fs[i], rows[i], categoryId))
    && (forall i, j :: 0 <= i < j < |fs| && fs[i].FeatureID == 0 && fs[j].FeatureID == 0 ==>
          rows[i].FeatureID != rows[j].FeatureID)
  }

  /** Storing one more feature value keeps `FeaturesAdded`: a feature with a
      non-zero id leaves the table alone, one with id 0 adds a row under an id
      the table did not have. */
  lemma FeaturesAddedStep(before: map<int, FeatureRow>, mid: map<int, FeatureRow>, after: map<int, FeatureRow>,
                          fs: seq<Feature>, rows: seq<FeatureValueRow>, f: Feature, row: FeatureValueRow,
                          categoryId: int)
    requires FeaturesAdded(before, mid, fs, rows, categoryId)
    requires row.Value == f.Value
    requires f.FeatureID != 0 ==> row.FeatureID == f.FeatureID && after == mid
    requires f.FeatureID == 0 ==>
      row.FeatureID !in mid && after == mid[row.FeatureID := FeatureRow(f.Name, f.Recommended, categoryId)]
    ensures FeaturesAdded(before, after, fs + [f], rows + [row], categoryId)
  {
    var fs', rows' := fs + [f], rows + [row];
    assert fs'[..|fs|] == fs && rows'[..|rows|] == rows;
    forall i | 0 <= i < |fs'|
      ensures FeatureStored(before, after, fs'[i], rows'[i], categoryId)
    {
      if i < |fs| {
        assert FeatureStored(before, mid, fs[i], rows[i], categoryId);
      }
    }
    forall i, j | 0 <= i < j < |fs'| && fs'[i].FeatureID == 0 && fs'[j].FeatureID == 0
      ensures rows'[i].FeatureID != rows'[j].FeatureID
    {
      if j == |fs| {
        assert FeatureStored(before, mid, fs[i], rows[i], categoryId);
      }
    }
  }

  /** Distinct created ids: as many as requested features with id 0. */
  lemma {:induction false} CreatedIdsCount(fs: seq<Feature>, rows: seq<FeatureValueRow>)
    requires |rows| == |fs|
    requires forall i, j :: 0 <= i < j < |fs| && fs[i].FeatureID == 0 && fs[j].FeatureID == 0 ==>
      rows[i].FeatureID != rows[j].FeatureID
    ensures |CreatedIds(fs, rows)| == ZeroIds(fs)
  {
    if fs != [] {
      var n := |fs| - 1;
      CreatedIdsCount(fs[..n], rows[..n]);
      CreatedIdsExactly(fs[..n], rows[..n]);
      if fs[n].FeatureID == 0 {
        assert rows[n].FeatureID !in CreatedIds(fs[..n], rows[..n]);
      }
    }
  }

  /** Under `FeaturesAdded` the feature table grows by exactly the number of
      requested features with id 0. */
  lemma FeatureTableGrowth(before: map<int, FeatureRow>, after: map<int, FeatureRow>,
                           fs: seq<Feature>, rows: seq<FeatureValueRow>, categoryId: int)
    requires FeaturesAdded(before, after, fs, rows, categoryId)
    ensures |after| == |before| + ZeroIds(fs)
  {
    CreatedIdsCount(fs, rows);
    CreatedIdsExactly(fs, rows);
    var created := CreatedIds(fs, rows);
    forall k | k in created
      ensures k !in before
    {
      var i :| 0 <= i < |fs| && fs[i].FeatureID == 0 && rows[i].FeatureID == k;
      assert FeatureStored(before, after, fs[i], rows[i], categoryId);
    }
    assert before.Keys * created == {};
    assert |after.Keys| == |before.Keys| + |created|;
  }

  /** The products row written for request `p`. */
  function RowOf(p: Product, createdAt: string, updatedAt: string): ProductRow {
    ProductRow(p.Name, p.Price, p.Discount, p.Quantity, p.Description, p.URL,
               p.Recommended, createdAt, updatedAt, p.BrandID, p.CategoryID)
  }

  /** Tables `after` are tables `before` with request `data` created as
      `stored`: its URL `url`, its brand and category resolved, a fresh id, its
      row stamped `now` twice, its child rows those of the request. */
  ghost predicate Created(before: Tables, after: Tables, data: Product, url: string, now: string, stored: Product) {
    var id := stored.ProductID;
    && stored == data.(ProductID := id, URL := url, BrandID := stored.BrandID, CategoryID := stored.CategoryID)
    && id > 0 && id !in before.products
    && Resolved(before.brands, after.brands, data.BrandID, data.Brand, stored.BrandID)
    && Resolved(before.categories, after.categories, data.CategoryID, data.Category, stored.CategoryID)
    && after.products == before.products[id := RowOf(stored, now, now)]
    && ChildRowsOf(before.features, after, stored)
    && after.publications == before.publications
    && after.productImages - {id} == before.productImages
    && after.featureValues - {id} == before.featureValues
    && after.productPublications - {id} == before.productPublications
    && after.productRecommendations - {id} == before.productRecommendations
  }

  /** Tables `after` are tables `before` with product `data.ProductID` updated
      from request `data` as `stored`: its URL `url`, its brand and category
      resolved, its row rewritten with the old creation time and `now`, its old
      child rows replaced by those of the request, every other product's rows
      as they were. */
  ghost predicate Updated(before: Tables, after: Tables, data: Product, url: string, now: string, stored: Product) {
    var id := data.ProductID;
    && id in before.products
    && stored == data.(URL := url, BrandID := stored.BrandID, CategoryID := stored.CategoryID)
    && Resolved(before.brands, after.brands, data.BrandID, data.Brand, stored.BrandID)
    && Resolved(before.categories, after.categories, data.CategoryID, data.Category, stored.CategoryID)
    && after.products == before.products[id := RowOf(stored, before.products[id].CreatedAt, now)]
    && ChildRowsOf(before.features, after, stored)
    && after.publications == before.publications
    && after.productImages - {id} == before.productImages - {id}
    && after.featureValues - {id} == before.featureValues - {id}
    && after.productPublications - {id} == before.productPublications - {id}
    && after.productRecommendations - {id} == before.productRecommendations - {id}
  }

  /** The child rows of product `p` in tables `t` are exactly those its request
      lists, in its order, and the feature table gained exactly the features it
      creates; `before` is the feature table before they were created. */
  ghost predicate ChildRowsOf(before: map<int, FeatureRow>, t: Tables, p: Product) {
    var id := p.ProductID;
    && ImageURLs(Rows(t.productImages, id)) == ImageURLs(p.Images)
    && FeaturesAdded(before, t.features, p.Features, Rows(t.featureValues, id), p.CategoryID)
    && Rows(t.productPublications, id) == PublicationIDs(p.Publications)
    && Rows(t.productRecommendations, id) == ProductIDs(p.Recommendations)
  }

  /** The contents of every table, to say that an operation left them alone. */
  datatype Tables = Tables(
    brands: map<int, string>, categories: map<int, string>, features: map<int, FeatureRow>,
    publications: map<int, string>, products: map<int, ProductRow>,
    productImages: map<int, seq<Image>>, featureValues: map<int, seq<FeatureValueRow>>,
    productPublications: map<int, seq<int>>, productRecommendations: map<int, seq<int>>)

  class Database {
    var brands: map<int, string>
    var categories: map<int, string>
    var features: map<int, FeatureRow>
    var publications: map<int, string>
    var products: map<int, ProductRow>
    var productImages: map<int, seq<Image>>
    var featureValues: map<int, seq<FeatureValueRow>>
    var productPublications: map<int, seq<int>>
    var productRecommendations: map<int, seq<int>>
    /** The next id any serial column hands out. */
    var serial: int

    /** Every id in use, and every product id with child rows, is positive and
        below `serial`. */
    ghost predicate Valid()
      reads this
    {
      && serial > 0
      && (forall k :: k in brands ==> 0 < k < serial)
      && (forall k :: k in categories ==> 0 < k < serial)
      && (forall k :: k in features ==> 0 < k < serial)
      && (forall k :: k in products ==> 0 < k < serial)
      && (forall k :: k in productImages ==> 0 < k < serial)
      && (forall k :: k in featureValues ==> 0 < k < serial)
      && (forall k :: k in productPublications ==> 0 < k < serial)
      && (forall k :: k in productRecommendations ==> 0 < k < serial)
    }

    ghost function Contents(): Tables
      reads this
    {
      Tables(brands, categories, features, publications, products,
             productImages, featureValues, productPublications, productRecommendations)
    }

    constructor ()
      ensures Valid()
      ensures brands == map[] && categories == map[] && features == map[] && publications == map[]
      ensures products == map[] && productImages == map[] && featureValues == map[]
      ensures productPublications == map[] && productRecommendations == map[]
    {
      brands, categories, features, publications := map[], map[], map[], map[];
      products, productImages, featureValues := map[], map[], map[];
      productPublications, productRecommendations := map[], map[];
      serial := 1;
    }

    /** A serial column's next value. */
    method NextId() returns (id: int)
      requires Valid()
      modifies this`serial
      ensures Valid()
      ensures id == old(serial) && serial == id + 1
    {
      id := serial;
      serial := serial + 1;
    }

    /** `BrandCreate`, reduced to what the product code relies on: a new brand
        row with a fresh id. */
    method BrandCreate(name: string) returns (id: int)
      requires Valid()
      modifies this`brands, this`serial
      ensures Valid() && serial >= old(serial)
      ensures Resolved(old(brands), brands, 0, name, id)
    {
      id := NextId();
      brands := brands[id := name];
    }

    /** `CategoryCreate`, reduced in the same way. */
    method CategoryCreate(name: string) returns (id: int)
      requires Valid()
      modifies this`categories, this`serial
      ensures Valid() && serial >= old(serial)
      ensures Resolved(old(categories), categories, 0, name, id)
    {
      id := NextId();
      categories := categories[id := name];
    }

    // ----- reading -----

    /** The light columns of product `id` joined with its brand and category;
        None when the product, its brand or its category is missing. What is
        read back is the stored row, apart from the description. */
    function LightProduct(id: int): (r: Option<Product>)
      reads this
      ensures r.Some? <==> id in products && products[id].BrandID in brands && products[id].CategoryID in categories
      ensures r.Some? ==> r.value.ProductID == id
      ensures r.Some? ==> RowOf(r.value, r.value.CreatedAt, r.value.UpdatedAt) == products[id].(Description := "")
      ensures r.Some? ==> r.value.Brand == brands[r.value.BrandID] && r.value.Category == categories[r.value.CategoryID]
      ensures r.Some? ==> r.value.Images == [] && r.value.Features == []
      ensures r.Some? ==> r.value.Publications == [] && r.value.Recommendations == []
    {
      if id in products && products[id].BrandID in brands && products[id].CategoryID in categories then
        var row := products[id];
        Some(Product(id, row.Name, row.Price, row.Discount, row.Quantity, "", row.URL, row.Recommended,
                     row.CreatedAt, row.UpdatedAt, brands[row.BrandID], row.BrandID,
                     categories[row.CategoryID], row.CategoryID, [], [], [], []))
      else None
    }

    /** The feature read back for value row `v`, joined with its feature row. */
    function JoinedFeature(v: FeatureValueRow): Feature
      reads this
      requires v.FeatureID in features
    {
      Feature(v.FeatureID, v.FeatureValueID, features[v.FeatureID].Name, v.Value, features[v.FeatureID].Recommended)
    }

    /** The feature values joined with their features; a value whose feature row
        is missing drops out of the inner join, and nothing else is added. */
    function JoinFeatures(rows: seq<FeatureValueRow>): (r: seq<Feature>)
      reads this
      ensures |r| <= |rows|
      ensures (forall i :: 0 <= i < |rows| ==> rows[i].FeatureID in features) ==> |r| == |rows|
      ensures forall i :: 0 <= i < |rows| && rows[i].FeatureID in features ==> JoinedFeature(rows[i]) in r
      ensures forall x :: x in r ==>
        exists i :: 0 <= i < |rows| && rows[i].FeatureID in features && x == JoinedFeature(rows[i])
    {
      if rows == [] then []
      else
        var rest := JoinFeatures(rows[1..]);
        assert forall i :: 1 <= i < |rows| ==> rows[i] == rows[1..][i - 1];
        if rows[0].FeatureID in features then [JoinedFeature(rows[0])] + rest else rest
    }

    /** The publication links joined with the publications table; an id with
        no publication row drops out, and nothing else is added. */
    function JoinPublications(ids: seq<int>): (r: seq<Publication>)
      reads this
      ensures |r| <= |ids|
      ensures (forall i :: 0 <= i < |ids| ==> ids[i] in publications) ==> |r| == |ids|
      ensures forall i :: 0 <= i < |ids| && ids[i] in publications ==> Publication(ids[i], publications[ids[i]]) in r
      ensures forall x :: x in r ==>
        exists i :: 0 <= i < |ids| && ids[i] in publications && x == Publication(ids[i], publications[ids[i]])
    {
      if ids == [] then []
      else
        var rest := JoinPublications(ids[1..]);
        assert forall i :: 1 <= i < |ids| ==> ids[i] == ids[1..][i - 1];
        if ids[0] in publications then [Publication(ids[0], publications[ids[0]])] + rest else rest
    }

    /** The recommendation links joined with the light columns of the
        recommended products; an id that reads no product drops out, and
        nothing else is added. */
    function JoinRecommendations(ids: seq<int>): (r: seq<Product>)
      reads this
      ensures |r| <= |ids|
      ensures (forall i :: 0 <= i < |ids| ==> LightProduct(ids[i]).Some?) ==> |r| == |ids|
      ensures forall i :: 0 <= i < |ids| && LightProduct(ids[i]).Some? ==> LightProduct(ids[i]).value in r
      ensures forall x :: x in r ==> exists i :: 0 <= i < |ids| && LightProduct(ids[i]) == Some(x)
    {
      if ids == [] then []
      else
        var rest := JoinRecommendations(ids[1..]);
        assert forall i :: 1 <= i < |ids| ==> ids[i] == ids[1..][i - 1];
        if LightProduct(ids[0]).Some? then [LightProduct(ids[0]).value] + rest else rest
    }

    /** `ProductGet(productID, light)`: the light columns, and unless `light`,
        the description and the image, feature, publication and recommendation
        rows of the product; the error of an empty result when the light
        columns find no row. */
    function ProductGet(id: int, light: bool): (r: Result<Product, string>)
      reads this
      ensures r.Failure? <==> LightProduct(id).None?
      ensures r.Failure? ==> r.error == ErrNoRows
      ensures r.Success? && light ==> r.value == LightProduct(id).value
      ensures r.Success? && !light ==>
        && r.value.(Description := "", Images := [], Features := [], Publications := [], Recommendations := [])
           == LightProduct(id).value
        && r.value.Description == products[id].Description
        && multiset(r.value.Images) == multiset(Rows(productImages, id))
        && |r.value.Features| <= |Rows(featureValues, id)|
        && |r.value.Publications| <= |Rows(productPublications, id)|
        && |r.value.Recommendations| <= |Rows(productRecommendations, id)|
    {
      match LightProduct(id)
      case None => Failure(ErrNoRows)
      case Some(p) =>
        if light then Success(p)
        else
          Success(p.(
            Description := products[id].Description,
            Images := Rows(productImages, id),
            Features := JoinFeatures(Rows(featureValues, id)),
            Publications := JoinPublications(Rows(productPublications, id)),
            Recommendations := JoinRecommendations(Rows(productRecommendations, id))))
    }

    // ----- writing child rows -----

    /** The `product_images` insert loop. */
    method InsertImages(pid: int, images: seq<Image>)
      requires Valid() && 0 < pid < serial
      modifies this`productImages, this`serial
      ensures Valid() && serial >= old(serial)
      ensures productImages - {pid} == old(productImages) - {pid}
      ensures ImageURLs(Rows(productImages, pid)) == ImageURLs(Rows(old(productImages), pid)) + ImageURLs(images)
    {
      var i := 0;
      while i < |images|
        invariant 0 <= i <= |images|
        invariant Valid() && serial >= old(serial)
        invariant productImages - {pid} == old(productImages) - {pid}
        invariant ImageURLs(Rows(productImages, pid)) == ImageURLs(Rows(old(productImages), pid)) + ImageURLs(images[..i])
      {
        var rows := Rows(productImages, pid);
        var imageId := NextId();
        productImages := productImages[pid := rows + [Image(imageId, images[i].URL)]];
        assert ImageURLs(rows + [Image(imageId, images[i].URL)]) == ImageURLs(rows) + [images[i].URL];
        assert ImageURLs(images[..i + 1]) == ImageURLs(images[..i]) + [images[i].URL];
        i := i + 1;
      }
      assert images[..i] == images;
    }

    /** One pass of the `product_feature_values` loop: the feature row first
        when the feature's id is 0, then the value row. */
    method InsertFeatureValue(pid: int, f: Feature, categoryId: int,
                              ghost base: map<int, FeatureRow>, ghost done: seq<Feature>,
                              ghost added: seq<FeatureValueRow>)
      returns (row: FeatureValueRow)
      requires Valid() && 0 < pid < serial
      requires FeaturesAdded(base, features, done, added, categoryId)
      modifies this`features, this`featureValues, this`serial
      ensures Valid() && serial >= old(serial)
      ensures featureValues == old(featureValues)[pid := Rows(old(featureValues), pid) + [row]]
      ensures row.Value == f.Value
      ensures f.FeatureID != 0 ==> row.FeatureID == f.FeatureID && features == old(features)
      ensures f.FeatureID == 0 ==>
        row.FeatureID !in old(features)
        && features == old(features)[row.FeatureID := FeatureRow(f.Name, f.Recommended, categoryId)]
      ensures FeaturesAdded(base, features, done + [f], added + [row], categoryId)
    {
      var feature := f;
      if feature.FeatureID == 0 {
        var featureId := NextId();
        features := features[featureId := FeatureRow(feature.Name, feature.Recommended, categoryId)];
        feature := feature.(FeatureID := featureId);
      }
      var valueId := NextId();
      row := FeatureValueRow(valueId, feature.Value, feature.FeatureID);
      featureValues := featureValues[pid := Rows(featureValues, pid) + [row]];
      FeaturesAddedStep(base, old(features), features, done, added, f, row, categoryId);
    }

    /** The `product_feature_values` insert loop, for a product that has no
        feature values yet (a new one, or one whose values were just deleted): a
        feature with id 0 first gets a feature row in the product's category,
        and the value row is stored under that new id. */
    method InsertFeatureValues(pid: int, fs: seq<Feature>, categoryId: int)
      requires Valid() && 0 < pid < serial && pid !in featureValues
      modifies this`features, this`featureValues, this`serial
      ensures Valid() && serial >= old(serial)
      ensures featureValues - {pid} == old(featureValues)
      ensures FeaturesAdded(old(features), features, fs, Rows(featureValues, pid), categoryId)
    {
      ghost var added: seq<FeatureValueRow> := [];
      var i := 0;
      while i < |fs|
        invariant 0 <= i <= |fs|
        invariant Valid() && serial >= old(serial)
        invariant featureValues - {pid} == old(featureValues)
        invariant Rows(featureValues, pid) == added
        invariant FeaturesAdded(old(features), features, fs[..i], added, categoryId)
      {
        var row := InsertFeatureValue(pid, fs[i], categoryId, old(features), fs[..i], added);
        assert fs[..i] + [fs[i]] == fs[..i + 1];
        added := added + [row];
        i := i + 1;
      }
      assert fs[..i] == fs;
    }

    /** The `product_publications` insert loop. */
    method InsertPublications(pid: int, ps: seq<Publication>)
      requires Valid() && 0 < pid < serial
      modifies this`productPublications
      ensures Valid()
      ensures productPublications - {pid} == old(productPublications) - {pid} && Rows(productPublications, pid) == Rows(old(productPublications), pid) + PublicationIDs(ps)
    {
      var i := 0;
      while i < |ps|
        invariant 0 <= i <= |ps|
        invariant Valid()
        invariant productPublications - {pid} == old(productPublications) - {pid} && Rows(productPublications, pid) == Rows(old(productPublications), pid) + PublicationIDs(ps[..i])
      {
        productPublications := productPublications[pid := Rows(productPublications, pid) + [ps[i].PublicationID]];
        assert PublicationIDs(ps[..i + 1]) == PublicationIDs(ps[..i]) + [ps[i].PublicationID];
        i := i + 1;
      }
      assert ps[..i] == ps;
    }

    /** The `product_recommendations` insert loop. */
    method InsertRecommendations(pid: int, rs: seq<Product>)
      requires Valid() && 0 < pid < serial
      modifies this`productRecommendations
      ensures Valid()
      ensures productRecommendations - {pid} == old(productRecommendations) - {pid} && Rows(productRecommendations, pid) == Rows(old(productRecommendations), pid) + ProductIDs(rs)
    {
      var i := 0;
      while i < |rs|
        invariant 0 <= i <= |rs|
        invariant Valid()
        invariant productRecommendations - {pid} == old(productRecommendations) - {pid} && Rows(productRecommendations, pid) == Rows(old(productRecommendations), pid) + ProductIDs(rs[..i])
      {
        productRecommendations := productRecommendations[pid := Rows(productRecommendations, pid) + [rs[i].ProductID]];
        assert ProductIDs(rs[..i + 1]) == ProductIDs(rs[..i]) + [rs[i].ProductID];
        i := i + 1;
      }
      assert rs[..i] == rs;
    }

    /** The four child-row loops for product `p`, run after the product's old
        child rows, if any, are gone. */
    method InsertChildren(p: Product)
      requires Valid() && 0 < p.ProductID < serial
      requires p.ProductID !in productImages && p.ProductID !in featureValues
      requires p.ProductID !in productPublications && p.ProductID !in productRecommendations
      modifies this`productImages, this`features, this`featureValues,
               this`productPublications, this`productRecommendations, this`serial
      ensures Valid() && serial >= old(serial)
      ensures productImages - {p.ProductID} == old(productImages) - {p.ProductID}
      ensures featureValues - {p.ProductID} == old(featureValues) - {p.ProductID}
      ensures productPublications - {p.ProductID} == old(productPublications) - {p.ProductID}
      ensures productRecommendations - {p.ProductID} == old(productRecommendations) - {p.ProductID}
      ensures ChildRowsOf(old(features), Contents(), p)
    {
      InsertImages(p.ProductID, p.Images);
      InsertFeatureValues(p.ProductID, p.Features, p.CategoryID);
      InsertPublications(p.ProductID, p.Publications);
      InsertRecommendations(p.ProductID, p.Recommendations);
    }

    /** The brand and category steps of create and update: a zero id creates
        the row by name, any other id is kept. */
    method ResolveBrandAndCategory(p: Product) returns (q: Product)
      requires Valid()
      modifies this`brands, this`categories, this`serial
      ensures Valid() && serial >= old(serial)
      ensures q == p.(BrandID := q.BrandID, CategoryID := q.CategoryID)
      ensures Resolved(old(brands), brands, p.BrandID, p.Brand, q.BrandID)
      ensures Resolved(old(categories), categories, p.CategoryID, p.Category, q.CategoryID)
    {
      q := p;
      if q.BrandID == 0 {
        var brandId := BrandCreate(q.Brand);
        q := q.(BrandID := brandId);
      }
      if q.CategoryID == 0 {
        var categoryId := CategoryCreate(q.Category);
        q := q.(CategoryID := categoryId);
      }
    }

    /** The final step of create and update: the product read back in full,
        or the zero product and the read's error. */
    function ReadBack(id: int): (r: (Product, Option<string>))
      reads this
      ensures ProductGet(id, false).Success? ==> r == (ProductGet(id, false).value, None)
      ensures ProductGet(id, false).Failure? ==> r == (ZeroProduct(), Some(ErrNoRows))
    {
      match ProductGet(id, false)
      case Success(p) => (p, None)
      case Failure(e) => (ZeroProduct(), Some(e))
    }

    /** Writes the products row of `p` and then its child rows, for a product
        that has no child rows left. */
    method WriteProduct(p: Product, createdAt: string, updatedAt: string)
      requires Valid() && 0 < p.ProductID < serial
      requires p.ProductID !in productImages && p.ProductID !in featureValues
      requires p.ProductID !in productPublications && p.ProductID !in productRecommendations
      modifies this`products, this`productImages, this`features, this`featureValues,
               this`productPublications, this`productRecommendations, this`serial
      ensures Valid()
      ensures products == old(products)[p.ProductID := RowOf(p, createdAt, updatedAt)]
      ensures productImages - {p.ProductID} == old(productImages) - {p.ProductID}
      ensures featureValues - {p.ProductID} == old(featureValues) - {p.ProductID}
      ensures productPublications - {p.ProductID} == old(productPublications) - {p.ProductID}
      ensures productRecommendations - {p.ProductID} == old(productRecommendations) - {p.ProductID}
      ensures ChildRowsOf(old(features), Contents(), p)
    {
      products := products[p.ProductID := RowOf(p, createdAt, updatedAt)];
      InsertChildren(p);
    }

    // ----- create and update -----

    /** `ProductCreate`. `slug` stands for `slug.Make` and `now` for the
        database clock. `stored` is the request as it was stored: its URL made
        from its name, its brand and category ids resolved, its new id. */
    method ProductCreate(data: Product, slug: string -> string, now: string)
      returns (product: Product, err: Option<string>, ghost stored: Product)
      requires Valid()
      modifies this
      ensures Valid()
      // a request that fails validation changes nothing
      ensures Validate(data).Some? ==>
        err == Validate(data) && product == ZeroProduct() && Contents() == old(Contents())
      ensures Validate(data).None? ==>
        && Created(old(Contents()), Contents(), data, slug(data.Name), now, stored)
        && (product, err) == ReadBack(stored.ProductID)
    {
      stored := data;
      err := Validate(data);
      if err.Some? {
        return ZeroProduct(), err, stored;
      }
      var p := CreateValidated(data, slug(data.Name), now);
      stored := p;
      var r := ReadBack(p.ProductID);
      product, err := r.0, r.1;
    }

    /** The statements of `ProductCreate` after validation, up to the commit. */
    method CreateValidated(data: Product, url: string, now: string) returns (stored: Product)
      requires Valid()
      modifies this
      ensures Valid()
      ensures Created(old(Contents()), Contents(), data, url, now, stored)
    {
      var p := data.(URL := url);
      p := ResolveBrandAndCategory(p);
      var id := NextId();
      p := p.(ProductID := id);
      WriteProduct(p, now, now);
      stored := p;
    }

    /** `ProductUpdate`: validation, then the existence check, then the brand
        and category steps, the row update, which keeps `created_at`, and the
        child rows replaced by those of the request; finally the product read
        back in full. `stored` is the request as it was stored. */
    method ProductUpdate(data: Product, slug: string -> string, now: string)
      returns (product: Product, err: Option<string>, ghost stored: Product)
      requires Valid()
      modifies this
      ensures Valid()
      // failed validation, or no such product: nothing changes
      ensures Validate(data).Some? ==>
        err == Validate(data) && product == ZeroProduct() && Contents() == old(Contents())
      ensures Validate(data).None? && data.ProductID !in old(products) ==>
        err == Some(ErrNotFound) && product == ZeroProduct() && Contents() == old(Contents())
      // a request without an id never names a product
      ensures Validate(data).None? && data.ProductID == 0 ==> err == Some(ErrNotFound)
      ensures Validate(data).None? && data.ProductID in old(products) ==>
        && Updated(old(Contents()), Contents(), data, slug(data.Name), now, stored)
        && (product, err) == ReadBack(data.ProductID)
    {
      stored := data;
      err := Validate(data);
      if err.Some? {
        return ZeroProduct(), err, stored;
      }
      if data.ProductID !in products {
        return ZeroProduct(), Some(ErrNotFound), stored;
      }
      var p := UpdateExisting(data, slug(data.Name), now);
      stored := p;
      var r := ReadBack(p.ProductID);
      product, err := r.0, r.1;
    }

    /** The four `DELETE`s of an update: product `id` loses its child rows. */
    method DeleteChildren(id: int)
      requires Valid()
      modifies this`productImages, this`featureValues, this`productPublications, this`productRecommendations
      ensures Valid()
      ensures productImages == old(productImages) - {id} && featureValues == old(featureValues) - {id}
      ensures productPublications == old(productPublications) - {id}
      ensures productRecommendations == old(productRecommendations) - {id}
    {
      productImages := productImages - {id};
      featureValues := featureValues - {id};
      productPublications := productPublications - {id};
      productRecommendations := productRecommendations - {id};
    }

    /** The statements of `ProductUpdate` after the existence check, up to the commit. */
    method UpdateExisting(data: Product, url: string, now: string) returns (stored: Product)
      requires Valid() && data.ProductID in products
      modifies this
      ensures Valid()
      ensures Updated(old(Contents()), Contents(), data, url, now, stored)
    {
      var p := data.(URL := url);
      p := ResolveBrandAndCategory(p);
      var id := p.ProductID;
      var createdAt := products[id].CreatedAt;
      DeleteChildren(id);
      WriteProduct(p, createdAt, now);
      stored := p;
    }

    /** A product whose row and child rows were written for request `p`, and
        whose brand and category exist, reads back with `p`'s columns and the
        request's images; with every feature and publication it names present,
        with as many features and publications as the request. */
    lemma WrittenProductReadsBack(p: Product, createdAt: string, updatedAt: string, before: map<int, FeatureRow>)
      requires p.ProductID in products && products[p.ProductID] == RowOf(p, createdAt, updatedAt)
      requires p.BrandID in brands && p.CategoryID in categories
      requires ChildRowsOf(before, Contents(), p)
      ensures ProductGet(p.ProductID, false).Success?
      ensures var r := ProductGet(p.ProductID, false).value;
        && RowOf(r, r.CreatedAt, r.UpdatedAt) == RowOf(p, createdAt, updatedAt)
        && r.Brand == brands[p.BrandID] && r.Category == categories[p.CategoryID]
        && multiset(ImageURLs(r.Images)) == multiset(ImageURLs(p.Images))
      ensures (forall i :: 0 <= i < |p.Features| ==> p.Features[i].FeatureID == 0 || p.Features[i].FeatureID in features)
        ==> |ProductGet(p.ProductID, false).value.Features| == |p.Features|
      ensures (forall i :: 0 <= i < |p.Publications| ==> p.Publications[i].PublicationID in publications)
        ==> |ProductGet(p.ProductID, false).value.Publications| == |p.Publications|
    {
    }
  }
}
