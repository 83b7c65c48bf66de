/** The product list page of the frontend (components/ProductList.jsx): the
    query it sends to `GET /products`, and the reducer that inserts a product
    announced by the realtime `product.created` message. */
module ProductList {
  import opened Common
  import ProductController

  /** A product as announced or listed; only the fields the page uses. */
  datatype Product = Product(id: ProductId, name: string, station: Option<string>, priceCents: int, available: bool)

  /** A product on the page, with the restaurant name attached to it. */
  datatype ListedProduct = ListedProduct(product: Product, restaurantName: Option<string>)

  /** The payload of a `product.created` message. */
  datatype CreatedMessage = CreatedMessage(product: Product, restaurantName: Option<string>)

  /** `toLowerCase` on the ASCII letters. */
  function LowerChar(c: char): char
  {
    if 'A' <= c <= 'Z' then (c as int + 32) as char else c
  }

  /** `s.toLowerCase()`: upper-case ASCII letters become their lower-case
      form, every other character stays, and no upper-case letter is left. */
  function Lower(s: string): (r: string)
    ensures |r| == |s| && forall i :: 0 <= i < |s| ==> r[i] == LowerChar(s[i])
    ensures forall i :: 0 <= i < |s| && 'A' <= s[i] <= 'Z' ==> r[i] as int == s[i] as int + 32
    ensures forall i :: 0 <= i < |s| && !('A' <= s[i] <= 'Z') ==> r[i] == s[i]
    ensures forall i :: 0 <= i < |r| ==> !('A' <= r[i] <= 'Z')
  {
    seq(|s|, i requires 0 <= i < |s| => LowerChar(s[i]))
  }

  /** `s.includes(t)` */
  predicate Includes(s: string, t: string)
  {
    exists i :: 0 <= i <= |s| && t <= s[i..]
  }

  /** Whether the station filter and the search box let the product in. */
  predicate PassesFilters(p: Product, selectedStation: string, searchTerm: string)
  {
    && (selectedStation == "" || p.station == Some(selectedStation))
    && (searchTerm == "" || Includes(Lower(p.name), Lower(searchTerm)))
  }

  /** The `setProducts` updater of the `product.created` handler: the new
      product goes first unless the selected station or the search term rules
      it out, in which case the list is returned as it was. */
  function OnProductCreated(prev: seq<ListedProduct>, msg: CreatedMessage, selectedStation: string, searchTerm: string)
    : (r: seq<ListedProduct>)
    ensures PassesFilters(msg.product, selectedStation, searchTerm) ==>
      r == [ListedProduct(msg.product, msg.restaurantName)] + prev
    ensures !PassesFilters(msg.product, selectedStation, searchTerm) ==> r == prev
    ensures |r| == |prev| || (|r| == |prev| + 1 && r[1..] == prev)
  {
    var newProduct := ListedProduct(msg.product, msg.restaurantName);
    if selectedStation != "" && newProduct.product.station != Some(selectedStation) then prev
    else if searchTerm != "" && !Includes(Lower(newProduct.product.name), Lower(searchTerm)) then prev
    else [newProduct] + prev
  }

  /** With no station selected and an empty search box every announced
      product is put first. */
  lemma NoFiltersPrependsAll(prev: seq<ListedProduct>, msg: CreatedMessage)
    ensures OnProductCreated(prev, msg, "", "") == [ListedProduct(msg.product, msg.restaurantName)] + prev
  {
  }

  /** A search term that is the product's name in another ASCII case lets it
      in. */
  lemma NameMatchesItself(prev: seq<ListedProduct>, msg: CreatedMessage, searchTerm: string)
    requires Lower(searchTerm) == Lower(msg.product.name)
    ensures OnProductCreated(prev, msg, "", searchTerm) == [ListedProduct(msg.product, msg.restaurantName)] + prev
  {
    var s := Lower(msg.product.name);
    assert s[0..] == s;
    assert Includes(s, Lower(searchTerm));
  }

  /** `fetchProducts`: `q` and `station` only when non-empty, and
      `onlyAvailable` always 'true'. */
  function FetchParams(searchTerm: string, selectedStation: string): (params: map<string, string>)
    ensures params.Keys <= {"q", "station", "onlyAvailable"}
    ensures "onlyAvailable" in params && params["onlyAvailable"] == "true"
    ensures "q" in params <==> searchTerm != ""
    ensures "q" in params ==> params["q"] == searchTerm
    ensures "station" in params <==> selectedStation != ""
    ensures "station" in params ==> params["station"] == selectedStation
  {
    var withQ := if searchTerm != "" then map["q" := searchTerm] else map[];
    var withStation := if selectedStation != "" then withQ["station" := selectedStation] else withQ;
    withStation["onlyAvailable" := "true"]
  }

  function Param(params: map<string, string>, k: string): Option<string>
  {
    if k in params then Some(params[k]) else None
  }

  /** The backend's view of the page's query. */
  function QueryOf(params: map<string, string>): ProductController.ListQuery
  {
    ProductController.ListQuery(Param(params, "station"), Param(params, "q"), Param(params, "page"),
                                Param(params, "limit"), Param(params, "onlyAvailable"))
  }

  /** The page and the backend agree: the query the page sends makes `list`
      filter on availability, on the selected station and on the search term
      exactly when those are set, and ask for the first 50 products. */
  lemma FetchParamsFilters(searchTerm: string, selectedStation: string, toNum: string -> Num)
    ensures var query := QueryOf(FetchParams(searchTerm, selectedStation));
      && ProductController.ListFilters(query) == ProductController.Filters(
           if selectedStation != "" then Some(selectedStation) else None,
           true,
           if searchTerm != "" then Some(searchTerm) else None)
      && ProductController.Skip(query, toNum) == Finite(0.0)
      && ProductController.LimitOf(query, toNum) == Finite(50.0)
  {
  }

  /** The reducer does not look at availability: an unavailable product that
      passes the station and search checks is put first, although the fetched
      list only holds available products. */
  lemma UnavailableProductIsPrepended(prev: seq<ListedProduct>, msg: CreatedMessage, selectedStation: string, searchTerm: string)
    requires !msg.product.available
    requires PassesFilters(msg.product, selectedStation, searchTerm)
    ensures OnProductCreated(prev, msg, selectedStation, searchTerm)[0].product.available == false
    ensures ProductController.ListFilters(QueryOf(FetchParams(searchTerm, selectedStation))).available
  {
  }
}
