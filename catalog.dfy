/** The product catalog: lookup by id, the name search of the dashboard and the
    validation of the add-product form. */
module Catalog {
  import opened Outcomes
  import opened Text

  /** A catalog entry; `price` is a whole amount of rupees. */
  datatype Product = Product(id: string, name: string, price: int)

  /** Raised where the source dereferences `p.price` on a product id that no longer resolves. */
  datatype LookupError = UnknownProduct(productId: string)

  /** Position of the first product whose id is `id`. */
  function FindIndex(catalog: seq<Product>, id: string): (r: Option<nat>)
    ensures r.Some? ==> r.value < |catalog| && catalog[r.value].id == id
    ensures r.Some? ==> forall j :: 0 <= j < r.value ==> catalog[j].id != id
    ensures r.None? ==> forall j :: 0 <= j < |catalog| ==> catalog[j].id != id
  {
    if catalog == [] then None
    else if catalog[0].id == id then Some(0)
    else match FindIndex(catalog[1..], id)
      case None => None
      case Some(k) => Some(k + 1)
  }

  /** `catalog.find(pp => pp.id === id)`: the first product with that id, if any. */
  function Find(catalog: seq<Product>, id: string): (r: Option<Product>)
    ensures r.Some? ==> r.value.id == id
    ensures r.Some? ==> exists i :: 0 <= i < |catalog| && catalog[i] == r.value &&
                                    (forall j :: 0 <= j < i ==> catalog[j].id != id)
    ensures r.None? <==> forall j :: 0 <= j < |catalog| ==> catalog[j].id != id
  {
    match FindIndex(catalog, id)
    case None => None
    case Some(i) => Some(catalog[i])
  }

  /** Every price in the catalog is at least one rupee, as the add-product form demands. */
  ghost predicate PricesPositive(catalog: seq<Product>) {
    forall j :: 0 <= j < |catalog| ==> catalog[j].price >= 1
  }

  /** The catalog `getProducts()` falls back to while none is stored. */
  const DefaultCatalog: seq<Product> := [
    Product("p1", "Wireless Mouse", 2200),
    Product("p2", "Mechanical Keyboard", 9800),
    Product("p3", "USB-C Charger 45W", 3500),
    Product("p4", "Noise-Cancel Headphones", 14999),
    Product("p5", "1080p Webcam", 6500),
    Product("p6", "32GB Flash Drive", 1200)
  ]

  lemma DefaultCatalogPricesPositive()
    ensures PricesPositive(DefaultCatalog)
  {
  }

  /** The search box keeps a product when its lower-cased name contains the lower-cased query. */
  predicate Matches(p: Product, query: string) {
    Contains(Lower(p.name), Lower(query))
  }

  /** `getProducts().filter(p => p.name.toLowerCase().includes(q))`. */
  function Search(catalog: seq<Product>, query: string): (r: seq<Product>)
    ensures |r| <= |catalog|
    ensures forall p :: p in r <==> p in catalog && Matches(p, query)
  {
    if catalog == [] then []
    else
      var rest := Search(catalog[1..], query);
      assert forall p :: p in catalog <==> p == catalog[0] || p in catalog[1..];
      if Matches(catalog[0], query) then [catalog[0]] + rest else rest
  }

  /** A single product is kept exactly when it matches. */
  lemma SearchSingle(p: Product, query: string)
    ensures Search([p], query) == if Matches(p, query) then [p] else []
  {
    assert [p][1..] == [];
  }

  /** Searching two catalogs end to end is searching each and joining the results: the
      filter keeps catalog order and repeats, with nothing added or dropped. */
  lemma {:induction false} SearchConcat(a: seq<Product>, b: seq<Product>, query: string)
    ensures Search(a + b, query) == Search(a, query) + Search(b, query)
  {
    if a == [] {
      assert a + b == b;
    } else {
      assert (a + b)[0] == a[0];
      assert (a + b)[1..] == a[1..] + b;
      SearchConcat(a[1..], b, query);
    }
  }

  /** An empty query lists the whole catalog, in catalog order. */
  lemma {:induction false} SearchEmptyQuery(catalog: seq<Product>)
    ensures Search(catalog, "") == catalog
  {
    if catalog != [] {
      assert StartsWith(Lower(catalog[0].name), Lower(""));
      SearchEmptyQuery(catalog[1..]);
    }
  }

  /** Searching for a product's own name, in any letter case, finds it. */
  lemma SearchFindsOwnName(catalog: seq<Product>, p: Product, query: string)
    requires p in catalog && Lower(query) == Lower(p.name)
    ensures p in Search(catalog, query)
  {
    assert StartsWith(Lower(p.name), Lower(query));
  }

  datatype ProductError = InvalidNameOrPrice

  /** The add-product form: a non-empty name and a price that parsed to an integer of at
      least 1; `id` is the generated identifier. */
  function AddProduct(catalog: seq<Product>, id: string, name: string, price: Option<int>)
    : (r: Result<seq<Product>, ProductError>)
    ensures r.Ok? <==> name != "" && price.Some? && price.value >= 1
    ensures r.Ok? ==> |r.value| == |catalog| + 1 && r.value[..|catalog|] == catalog
    ensures r.Ok? ==> r.value[|catalog|] == Product(id, name, price.value)
  {
    if name == "" || price.None? || price.value < 1 then Err(InvalidNameOrPrice)
    else Ok(catalog + [Product(id, name, price.value)])
  }

  /** Adding products through the form never introduces a price below one. */
  lemma AddProductKeepsPricesPositive(catalog: seq<Product>, id: string, name: string, price: Option<int>)
    requires PricesPositive(catalog) && AddProduct(catalog, id, name, price).Ok?
    ensures PricesPositive(AddProduct(catalog, id, name, price).value)
  {
  }
}
