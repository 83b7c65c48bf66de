/** The product endpoints of the backend (controllers/productController.js):
    the field whitelist, the name and price checks of create and update, the
    filter and paging of the list query, and the not-found paths of update
    and remove.  The database is a map from product id to document. */
module ProductController {
  import opened Common

  /** A request body or stored document: field name to value. */
  type Doc = map<string, JsValue>

  /** The fields a client may set on a product. */
  const ALLOWED: seq<string> :=
    ["name", "description", "priceCents", "available", "station", "restaurant", "imageUrl", "stock"]

  /** `obj[k]`, which is `undefined` for a missing field. */
  function Get(obj: Doc, k: string): JsValue
  {
    if k in obj then obj[k] else Undefined
  }

  // ---------------------------------------------------------------------
  // pick

  /** The fields of `obj` that are named in `keys`, with their values. */
  function Picked(obj: Doc, keys: seq<string>): (r: Doc)
    ensures forall k :: k in r <==> k in obj && k in keys
    ensures forall k :: k in r ==> r[k] == obj[k]
  {
    map k | k in obj && k in keys :: obj[k]
  }

  /** Picking twice with the same keys is picking once. */
  lemma PickedIdempotent(obj: Doc, keys: seq<string>)
    ensures Picked(Picked(obj, keys), keys) == Picked(obj, keys)
  {
  }

  /** `pick`: copy, key by key, the listed keys that are own fields of `obj`. */
  method Pick(obj: Doc, keys: seq<string>) returns (out: Doc)
    ensures out == Picked(obj, keys)
  {
    out := map[];
    var i := 0;
    while i < |keys|
      invariant 0 <= i <= |keys|
      invariant out == Picked(obj, keys[..i])
    {
      var k := keys[i];
      assert keys[..i + 1] == keys[..i] + [k];
      if k in obj {
        out := out[k := obj[k]];
      }
      assert out.Keys == Picked(obj, keys[..i + 1]).Keys;
      i := i + 1;
    }
    assert keys[..i] == keys;
  }

  // ---------------------------------------------------------------------
  // Name check

  /** The characters `String.prototype.trim` removes: the JavaScript
      white space and line terminator characters. */
  predicate IsSpace(c: char)
  {
    c in {'\t', '\n', '\U{B}', '\U{C}', '\r', ' ', '\U{A0}', '\U{1680}', '\U{2028}', '\U{2029}',
          '\U{202F}', '\U{205F}', '\U{3000}', '\U{FEFF}'}
    || ('\U{2000}' <= c <= '\U{200A}')
  }

  function TrimStart(s: string): string
  {
    if s != [] && IsSpace(s[0]) then TrimStart(s[1..]) else s
  }

  function TrimEnd(s: string): string
  {
    if s != [] && IsSpace(s[|s| - 1]) then TrimEnd(s[..|s| - 1]) else s
  }

  /** `s.trim()` */
  function Trim(s: string): string
  {
    TrimEnd(TrimStart(s))
  }

  /** Every character is white space (so is the empty string). */
  predicate Blank(s: string)
  {
    forall i :: 0 <= i < |s| ==> IsSpace(s[i])
  }

  lemma {:induction false} TrimStartEmpty(s: string)
    ensures TrimStart(s) == "" <==> Blank(s)
  {
    if s != [] && IsSpace(s[0]) {
      TrimStartEmpty(s[1..]);
      assert forall i :: 1 <= i < |s| ==> s[i] == s[1..][i - 1];
    }
  }

  lemma {:induction false} TrimEndEmpty(s: string)
    ensures TrimEnd(s) == "" <==> Blank(s)
  {
    if s != [] && IsSpace(s[|s| - 1]) {
      TrimEndEmpty(s[..|s| - 1]);
      assert forall i :: 0 <= i < |s| - 1 ==> s[i] == s[..|s| - 1][i];
    }
  }

  /** A string trims to '' exactly when it is all white space. */
  lemma {:induction false} TrimEmptyIffBlank(s: string)
    ensures Trim(s) == "" <==> Blank(s)
  {
    TrimStartEmpty(s);
    TrimEndEmpty(TrimStart(s));
    if TrimStart(s) != "" {
      TrimStartKeepsFirst(s);
    }
  }

  /** What survives TrimStart starts with a non-space character. */
  lemma {:induction false} TrimStartKeepsFirst(s: string)
    requires TrimStart(s) != ""
    ensures !IsSpace(TrimStart(s)[0])
  {
    if s != [] && IsSpace(s[0]) {
      TrimStartKeepsFirst(s[1..]);
    }
  }

  datatype Check = Pass | Fail(status: int)

  /** `if (!data.name || data.name.trim() === '')`: a missing, falsy or blank
      name is refused with 400; a truthy name that is not a string has no
      `trim` and the handler answers 500. */
  function NameCheck(data: Doc): (r: Check)
    ensures r == Pass <==> Get(data, "name").Str? && !Blank(Get(data, "name").s)
    ensures r == Fail(BAD_REQUEST) <==>
      !Truthy(Get(data, "name")) || (Get(data, "name").Str? && Blank(Get(data, "name").s))
    ensures r == Fail(SERVER_ERROR) <==> Truthy(Get(data, "name")) && !Get(data, "name").Str?
    ensures r in {Pass, Fail(BAD_REQUEST), Fail(SERVER_ERROR)}
  {
    var name := Get(data, "name");
    if !Truthy(name) then Fail(BAD_REQUEST)
    else if !name.Str? then Fail(SERVER_ERROR)
    else
      TrimEmptyIffBlank(name.s);
      if Trim(name.s) == "" then Fail(BAD_REQUEST) else Pass
  }

  // ---------------------------------------------------------------------
  // Price check

  datatype PriceCheck = BadPrice | Price(cents: int)

  /** `Number(v)`, refused unless finite and positive, then `Math.round`. */
  function CheckPrice(v: JsValue, toNum: string -> Num): (r: PriceCheck)
    ensures r.Price? <==> ToNumber(v, toNum).Finite? && ToNumber(v, toNum).r > 0.0
    ensures r.Price? ==>
      && r.cents >= 0
      && (r.cents as real - ToNumber(v, toNum).r) * 2.0 <= 1.0
      && (ToNumber(v, toNum).r - r.cents as real) * 2.0 < 1.0
  {
    var price := ToNumber(v, toNum);
    if !price.Finite? || price.r <= 0.0 then BadPrice else Price(Round(price.r))
  }

  /** The check is on the number before rounding: a price below half a cent
      is accepted and stored as 0. */
  lemma SubHalfCentStoredAsZero(toNum: string -> Num)
    ensures CheckPrice(Number(Finite(0.4)), toNum) == Price(0)
  {
  }

  /** A price missing from the body is `undefined`, which is NaN. */
  lemma MissingPriceRefused(data: Doc, toNum: string -> Num)
    requires "priceCents" !in data
    ensures CheckPrice(Get(data, "priceCents"), toNum) == BadPrice
  {
  }

  /** An array price converts through its string form: `[250]` is accepted
      as 250 cents, just as "250" is. */
  lemma ArrayPriceAccepted(toNum: string -> Num)
    requires toNum("250") == Finite(250.0)
    ensures CheckPrice(Obj("250"), toNum) == CheckPrice(Str("250"), toNum) == Price(250)
  {
    assert Round(250.0) == 250;
  }

  // ---------------------------------------------------------------------
  // List query

  /** The query string of `GET /api/products`; every value is a string. */
  datatype ListQuery = ListQuery(
    station: Option<string>, q: Option<string>, page: Option<string>, limit: Option<string>,
    onlyAvailable: Option<string>)

  /** The database filter: station equality, `available: true`, and a
      case-insensitive regular expression on the name. */
  datatype Filters = Filters(station: Option<string>, available: bool, nameRegex: Option<string>)

  /** The filter built by `list`: each field only from a non-empty parameter,
      and `available` only for the exact string 'true'. */
  function ListFilters(query: ListQuery): (f: Filters)
    ensures f.available <==> query.onlyAvailable == Some("true")
    ensures f.station.Some? <==> Present(query.station)
    ensures f.station.Some? ==> f.station == query.station
    ensures f.nameRegex.Some? <==> Present(query.q)
    ensures f.nameRegex.Some? ==> f.nameRegex == query.q
  {
    Filters(
      if Present(query.station) then query.station else None,
      query.onlyAvailable == Some("true"),
      if Present(query.q) then query.q else None)
  }

  /** `Math.max(1, n)` */
  function MaxOne(n: Num): Num
  {
    match n
    case NaN => NaN
    case PosInf => PosInf
    case NegInf => Finite(1.0)
    case Finite(x) => if x < 1.0 then Finite(1.0) else n
  }

  /** `n - 1` */
  function MinusOne(n: Num): Num
  {
    match n
    case Finite(x) => Finite(x - 1.0)
    case _ => n
  }

  /** The sign of a number that is not NaN. */
  function Sign(n: Num): int
  {
    match n
    case PosInf => 1
    case NegInf => -1
    case NaN => 0
    case Finite(x) => if x > 0.0 then 1 else if x < 0.0 then -1 else 0
  }

  /** JavaScript multiplication; an infinity times zero is NaN. */
  function Times(a: Num, b: Num): Num
  {
    if a.NaN? || b.NaN? then NaN
    else if a.Finite? && b.Finite? then Finite(a.r * b.r)
    else if Sign(a) * Sign(b) == 0 then NaN
    else if Sign(a) * Sign(b) > 0 then PosInf
    else NegInf
  }

  /** `Number(page)` and `Number(limit)`, with the defaults 1 and 50 for a
      parameter that is absent. */
  function PageOf(query: ListQuery, toNum: string -> Num): Num
  {
    if query.page.Some? then toNum(query.page.value) else Finite(1.0)
  }

  function LimitOf(query: ListQuery, toNum: string -> Num): Num
  {
    if query.limit.Some? then toNum(query.limit.value) else Finite(50.0)
  }

  /** `(Math.max(1, Number(page)) - 1) * Number(limit)` */
  function Skip(query: ListQuery, toNum: string -> Num): Num
  {
    Times(MinusOne(MaxOne(PageOf(query, toNum))), LimitOf(query, toNum))
  }

  /** With a finite limit, a page of 1 or less (or minus infinity) skips
      nothing, and a larger finite page skips (page - 1) × limit. */
  lemma SkipFinite(query: ListQuery, toNum: string -> Num)
    requires LimitOf(query, toNum).Finite?
    ensures var page, limit := PageOf(query, toNum), LimitOf(query, toNum);
      && (page.NegInf? || (page.Finite? && page.r <= 1.0) ==> Skip(query, toNum) == Finite(0.0))
      && (page.Finite? && page.r >= 1.0 ==> Skip(query, toNum) == Finite((page.r - 1.0) * limit.r))
  {
  }

  /** Without page and limit the first 50 products are asked for. */
  lemma ListDefaults(query: ListQuery, toNum: string -> Num)
    requires query.page.None? && query.limit.None?
    ensures Skip(query, toNum) == Finite(0.0) && LimitOf(query, toNum) == Finite(50.0)
  {
  }

  // ---------------------------------------------------------------------
  // The product collection

  class ProductStore {
    var products: map<ProductId, Doc>

    constructor (initial: map<ProductId, Doc>)
      ensures products == initial
    {
      products := initial;
    }

    /** `create`: whitelist the body, check the name and the price, store the
        rounded price and the creator.  `newId` is the id the database
        assigns. */
    method Create(body: Doc, toNum: string -> Num, creator: Option<UserId>, newId: ProductId)
      returns (status: int, created: Option<Doc>)
      requires newId !in products
      modifies this
      ensures var data := Picked(body, ALLOWED);
        if NameCheck(data).Fail? then status == NameCheck(data).status && created.None?
        else if CheckPrice(Get(data, "priceCents"), toNum).BadPrice? then status == BAD_REQUEST && created.None?
        else
          var withPrice := data["priceCents" := Number(Finite(CheckPrice(Get(data, "priceCents"), toNum).cents as real))];
          && status == CREATED
          && created == Some(if Present(creator) then withPrice["createdBy" := Str(creator.value)] else withPrice)
      ensures status == CREATED ==> products == old(products)[newId := created.value]
      ensures status != CREATED ==> products == old(products)
    {
      var data := Pick(body, ALLOWED);
      var nameCheck := NameCheck(data);
      if nameCheck.Fail? {
        return nameCheck.status, None;
      }
      var price := ToNumber(Get(data, "priceCents"), toNum);
      if !price.Finite? || price.r <= 0.0 {
        return BAD_REQUEST, None;
      }
      data := data["priceCents" := Number(Finite(Round(price.r) as real))];
      if Present(creator) {
        data := data["createdBy" := Str(creator.value)];
      }
      products := products[newId := data];
      return CREATED, Some(data);
    }

    /** `update`: whitelist the body, check and round the price only when it is
        given, then merge into the document stored under the ObjectId cast of
        the id (`cast`); 404 when there is none.  The name is not checked
        here. */
    method Update(id: ProductId, body: Doc, toNum: string -> Num, cast: ProductId -> ProductId)
      returns (status: int)
      modifies this
      ensures var data := Picked(body, ALLOWED);
        var priceGiven := Get(data, "priceCents") != Undefined;
        var price := CheckPrice(Get(data, "priceCents"), toNum);
        if priceGiven && price.BadPrice? then status == BAD_REQUEST && products == old(products)
        else if cast(id) !in old(products) then status == NOT_FOUND && products == old(products)
        else
          && status == OK
          && products == old(products)[cast(id) := old(products)[cast(id)] +
               (if priceGiven then data["priceCents" := Number(Finite(price.cents as real))] else data)]
    {
      var data := Pick(body, ALLOWED);
      if Get(data, "priceCents") != Undefined {
        var price := ToNumber(data["priceCents"], toNum);
        if !price.Finite? || price.r <= 0.0 {
          return BAD_REQUEST;
        }
        data := data["priceCents" := Number(Finite(Round(price.r) as real))];
      }
      var key := cast(id);
      if key !in products {
        return NOT_FOUND;
      }
      products := products[key := products[key] + data];
      status := OK;
    }

    /** `remove`: delete the document stored under the ObjectId cast of the
        id, or 404 when there is none. */
    method Remove(id: ProductId, cast: ProductId -> ProductId) returns (status: int)
      modifies this
      ensures cast(id) !in old(products) ==> status == NOT_FOUND && products == old(products)
      ensures cast(id) in old(products) ==> status == OK && products == old(products) - {cast(id)}
    {
      var key := cast(id);
      if key !in products {
        return NOT_FOUND;
      }
      products := products - {key};
      status := OK;
    }
  }
}
