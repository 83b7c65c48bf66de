/** The per-user cart of the backend (controllers/cartController.js): a list
    of product lines with integer cents, kept one document per user. */
module CartController {
  import opened Common

  /** One cart line: the product, its quantity and the price in cents that
      was taken from the catalog when the line was first created. */
  datatype CartItem = CartItem(product: ProductId, quantity: int, priceCents: int)

  /** A stored cart document. `totalCents` is only written by `GetCart` and
      `ClearCart`; the other operations leave it as it was. */
  datatype CartDoc = CartDoc(items: seq<CartItem>, totalCents: int)

  /** What the catalog knows about a product. */
  datatype Product = Product(priceCents: int)

  /** The product collection, as seen by one request. */
  type Catalog = map<ProductId, Product>

  predicate HasProduct(items: seq<CartItem>, pid: ProductId)
  {
    exists i :: 0 <= i < |items| && items[i].product == pid
  }

  /** The cart invariant: at most one line per product. */
  ghost predicate UniqueProducts(items: seq<CartItem>)
  {
    forall i, j :: 0 <= i < j < |items| ==> items[i].product != items[j].product
  }

  /** `items.find(item => item.product === pid)`, as an index. */
  function FirstIndex(items: seq<CartItem>, pid: ProductId): (r: Option<nat>)
    ensures r.None? <==> !HasProduct(items, pid)
    ensures r.Some? ==> r.value < |items| && items[r.value].product == pid
    ensures r.Some? ==> forall j :: 0 <= j < r.value ==> items[j].product != pid
  {
    if items == [] then None
    else if items[0].product == pid then Some(0)
    else
      match FirstIndex(items[1..], pid)
      case None => None
      case Some(i) => Some(i + 1)
  }

  /** Σ priceCents × quantity over the lines. */
  function Total(items: seq<CartItem>): int
  {
    if items == [] then 0 else items[0].priceCents * items[0].quantity + Total(items[1..])
  }

  /** Reference meaning of adding to a cart: the first line whose product
      equals the request's id `key` gains the quantity; otherwise a new line
      goes at the end, holding `id`, the product id as the database stores it
      (the ObjectId cast of `key`). */
  function AddItem(items: seq<CartItem>, key: ProductId, id: ProductId, quantity: int, priceCents: int): seq<CartItem>
  {
    if items == [] then [CartItem(id, quantity, priceCents)]
    else if items[0].product == key then [items[0].(quantity := items[0].quantity + quantity)] + items[1..]
    else [items[0]] + AddItem(items[1..], key, id, quantity, priceCents)
  }

  /** `items.filter(item => item.product !== pid)`. */
  function WithoutProduct(items: seq<CartItem>, pid: ProductId): seq<CartItem>
  {
    if items == [] then []
    else (if items[0].product == pid then [] else [items[0]]) + WithoutProduct(items[1..], pid)
  }

  /** The lines whose product still exists in the catalog (the populate
      step of `getCart` turns a deleted product into null). */
  function Resolvable(items: seq<CartItem>, catalog: Catalog): seq<CartItem>
  {
    if items == [] then []
    else (if items[0].product in catalog then [items[0]] else []) + Resolvable(items[1..], catalog)
  }

  /** The quantity of the first line for `pid` overwritten; nothing else. */
  function SetQuantity(items: seq<CartItem>, pid: ProductId, quantity: int): (r: seq<CartItem>)
    ensures |r| == |items|
    ensures forall i :: 0 <= i < |items| && items[i].product != pid ==> r[i] == items[i]
    ensures forall i :: 0 <= i < |items| && Some(i) != FirstIndex(items, pid) ==> r[i] == items[i]
    ensures HasProduct(items, pid) ==>
      var k := FirstIndex(items, pid).value;
      r[k] == CartItem(pid, quantity, items[k].priceCents)
  {
    match FirstIndex(items, pid)
    case None => items
    case Some(k) => items[k := items[k].(quantity := quantity)]
  }

  // ---------------------------------------------------------------------
  // Lemmas about the list operations

  /** Re-adding a product already in the cart raises that line's quantity and
      changes nothing else, not even the line's price. */
  lemma {:induction false} AddItemExisting(items: seq<CartItem>, pid: ProductId, id: ProductId, quantity: int, priceCents: int, k: nat)
    requires FirstIndex(items, pid) == Some(k)
    ensures AddItem(items, pid, id, quantity, priceCents)
      == items[k := CartItem(pid, items[k].quantity + quantity, items[k].priceCents)]
  {
    if items[0].product != pid {
      AddItemExisting(items[1..], pid, id, quantity, priceCents, k - 1);
      assert items[1..][k - 1 := CartItem(pid, items[k].quantity + quantity, items[k].priceCents)]
        == items[k := CartItem(pid, items[k].quantity + quantity, items[k].priceCents)][1..];
    }
  }

  /** Adding a product that no line matches appends exactly one line carrying
      the stored id and the given price. */
  lemma {:induction false} AddItemNew(items: seq<CartItem>, pid: ProductId, id: ProductId, quantity: int, priceCents: int)
    requires !HasProduct(items, pid)
    ensures AddItem(items, pid, id, quantity, priceCents) == items + [CartItem(id, quantity, priceCents)]
  {
    if items != [] {
      assert items[0].product != pid;
      assert !HasProduct(items[1..], pid) by {
        forall i | 0 <= i < |items[1..]| ensures items[1..][i].product != pid {
          assert items[1..][i] == items[i + 1];
        }
      }
      AddItemNew(items[1..], pid, id, quantity, priceCents);
      assert items == [items[0]] + items[1..];
    }
  }

  /** Adding keeps one line per product exactly when the request's id
      matches a line, or the stored id is not in the cart yet.  With an id
      already in canonical form (`key == id`) that always holds. */
  lemma AddItemKeepsUnique(items: seq<CartItem>, key: ProductId, id: ProductId, quantity: int, priceCents: int)
    requires UniqueProducts(items)
    ensures UniqueProducts(AddItem(items, key, id, quantity, priceCents))
      <==> HasProduct(items, key) || !HasProduct(items, id)
  {
    match FirstIndex(items, key)
    case Some(k) => AddItemExisting(items, key, id, quantity, priceCents, k);
    case None =>
      AddItemNew(items, key, id, quantity, priceCents);
      var r := items + [CartItem(id, quantity, priceCents)];
      if HasProduct(items, id) {
        var i :| 0 <= i < |items| && items[i].product == id;
        assert r[i].product == r[|items|].product;
      }
  }

  /** The ObjectId cast accepts another spelling of an id (upper-case hex),
      but lines are matched on the raw string: adding a product under another
      spelling of an id already in the cart appends a second line for it. */
  lemma OtherSpellingDuplicatesLine()
    ensures var items := [CartItem("a1", 1, 100)];
      && AddItem(items, "A1", "a1", 1, 100) == [CartItem("a1", 1, 100), CartItem("a1", 1, 100)]
      && !UniqueProducts(AddItem(items, "A1", "a1", 1, 100))
  {
    var r := AddItem([CartItem("a1", 1, 100)], "A1", "a1", 1, 100);
    assert r[0].product == r[1].product;
  }

  /** The filter leaves no line for the product, and keeps exactly the lines
      of the other products. */
  lemma {:induction false} WithoutProductMembers(items: seq<CartItem>, pid: ProductId)
    ensures forall x :: x in WithoutProduct(items, pid) <==> x in items && x.product != pid
    ensures !HasProduct(WithoutProduct(items, pid), pid)
  {
    if items != [] {
      WithoutProductMembers(items[1..], pid);
      assert items == [items[0]] + items[1..];
    }
    var r := WithoutProduct(items, pid);
    forall i | 0 <= i < |r| ensures r[i].product != pid {
      assert r[i] in r;
    }
  }

  /** Removing a product that is not in the cart changes nothing. */
  lemma {:induction false} WithoutAbsent(items: seq<CartItem>, pid: ProductId)
    requires !HasProduct(items, pid)
    ensures WithoutProduct(items, pid) == items
  {
    if items != [] {
      assert items[0].product != pid;
      assert !HasProduct(items[1..], pid) by {
        forall i | 0 <= i < |items[1..]| ensures items[1..][i].product != pid {
          assert items[1..][i] == items[i + 1];
        }
      }
      WithoutAbsent(items[1..], pid);
      assert items == [items[0]] + items[1..];
    }
  }

  /** `removeCartItem` is idempotent. */
  lemma WithoutIdempotent(items: seq<CartItem>, pid: ProductId)
    ensures WithoutProduct(WithoutProduct(items, pid), pid) == WithoutProduct(items, pid)
  {
    WithoutProductMembers(items, pid);
    WithoutAbsent(WithoutProduct(items, pid), pid);
  }

  /** In a cart with one line per product, the filter cuts out exactly the
      line of the product and keeps the rest in order. */
  lemma {:induction false} WithoutUnique(items: seq<CartItem>, pid: ProductId, k: nat)
    requires UniqueProducts(items)
    requires FirstIndex(items, pid) == Some(k)
    ensures WithoutProduct(items, pid) == items[..k] + items[k + 1..]
  {
    if items[0].product == pid {
      assert !HasProduct(items[1..], pid) by {
        forall i | 0 <= i < |items[1..]| ensures items[1..][i].product != pid {
          assert items[1..][i] == items[i + 1];
        }
      }
      WithoutAbsent(items[1..], pid);
    } else {
      assert UniqueProducts(items[1..]) by {
        forall i, j | 0 <= i < j < |items[1..]| ensures items[1..][i].product != items[1..][j].product {
          assert items[1..][i] == items[i + 1] && items[1..][j] == items[j + 1];
        }
      }
      WithoutUnique(items[1..], pid, k - 1);
      assert items[..k] == [items[0]] + items[1..][..k - 1];
      assert items[k + 1..] == items[1..][k..];
    }
  }

  lemma {:induction false} TotalAppend(a: seq<CartItem>, b: seq<CartItem>)
    ensures Total(a + b) == Total(a) + Total(b)
  {
    if a == [] {
      assert a + b == b;
    } else {
      assert (a + b)[1..] == a[1..] + b;
      TotalAppend(a[1..], b);
    }
  }

  /** Removing a line lowers the cart sum by exactly that line's amount. */
  lemma TotalWithout(items: seq<CartItem>, pid: ProductId, k: nat)
    requires UniqueProducts(items)
    requires FirstIndex(items, pid) == Some(k)
    ensures Total(WithoutProduct(items, pid)) == Total(items) - items[k].priceCents * items[k].quantity
  {
    WithoutUnique(items, pid, k);
    assert items == items[..k] + ([items[k]] + items[k + 1..]);
    TotalAppend(items[..k], [items[k]] + items[k + 1..]);
    TotalAppend(items[..k], items[k + 1..]);
  }

  lemma WithoutKeepsUnique(items: seq<CartItem>, pid: ProductId)
    requires UniqueProducts(items)
    ensures UniqueProducts(WithoutProduct(items, pid))
  {
    match FirstIndex(items, pid)
    case None => WithoutAbsent(items, pid);
    case Some(k) =>
      WithoutUnique(items, pid, k);
      var r := items[..k] + items[k + 1..];
      forall i, j | 0 <= i < j < |r| ensures r[i].product != r[j].product {
        var i' := if i < k then i else i + 1;
        var j' := if j < k then j else j + 1;
        assert r[i] == items[i'] && r[j] == items[j'];
      }
  }

  /** Pruning keeps exactly the lines whose product resolves, in order. */
  lemma {:induction false} ResolvableMembers(items: seq<CartItem>, catalog: Catalog)
    ensures forall x :: x in Resolvable(items, catalog) <==> x in items && x.product in catalog
  {
    if items != [] {
      ResolvableMembers(items[1..], catalog);
      assert items == [items[0]] + items[1..];
    }
  }

  /** Pruning keeps the one-line-per-product invariant. */
  lemma {:induction false} ResolvableKeepsUnique(items: seq<CartItem>, catalog: Catalog)
    requires UniqueProducts(items)
    ensures UniqueProducts(Resolvable(items, catalog))
  {
    if items != [] {
      assert UniqueProducts(items[1..]) by {
        forall i, j | 0 <= i < j < |items[1..]| ensures items[1..][i].product != items[1..][j].product {
          assert items[1..][i] == items[i + 1] && items[1..][j] == items[j + 1];
        }
      }
      ResolvableKeepsUnique(items[1..], catalog);
      ResolvableMembers(items[1..], catalog);
      var rest := Resolvable(items[1..], catalog);
      var r := Resolvable(items, catalog);
      if items[0].product in catalog {
        assert r == [items[0]] + rest;
        forall j | 0 < j < |r| ensures r[0].product != r[j].product {
          assert rest[j - 1] in rest;
          var m :| 0 <= m < |items[1..]| && items[1..][m] == rest[j - 1];
          assert items[m + 1] == rest[j - 1];
        }
      }
    }
  }

  /** Pruning a cart whose products all exist changes nothing. */
  lemma {:induction false} ResolvableAllPresent(items: seq<CartItem>, catalog: Catalog)
    requires forall i :: 0 <= i < |items| ==> items[i].product in catalog
    ensures Resolvable(items, catalog) == items
  {
    if items != [] {
      assert forall i :: 0 <= i < |items[1..]| ==> items[1..][i] == items[i + 1];
      ResolvableAllPresent(items[1..], catalog);
      assert items == [items[0]] + items[1..];
    }
  }

  // ---------------------------------------------------------------------
  // The cart collection and the controller actions

  /** The lines of a user's cart, or none when the user has no cart yet. */
  function ItemsOf(carts: map<UserId, CartDoc>, user: UserId): seq<CartItem>
  {
    if user in carts then carts[user].items else []
  }

  /** A missing id or a missing or zero quantity is refused (`!productId ||
      !quantity`); a negative quantity is accepted. */
  predicate AddRequestMissing(productId: Option<ProductId>, quantity: Option<int>)
  {
    !Present(productId) || quantity.None? || quantity.value == 0
  }

  class CartStore {
    /** One cart document per user. */
    var carts: map<UserId, CartDoc>

    /** Every cart holds at most one line per product. */
    ghost predicate Valid()
      reads this
    {
      forall u :: u in carts ==> UniqueProducts(carts[u].items)
    }

    constructor ()
      ensures carts == map[] && Valid()
    {
      carts := map[];
    }

    /** `addToCart`: look the product up under the ObjectId cast of the
        request's id (`cast`), merge into the first line whose product equals
        the request's id as given, or append a line with the cast id and the
        catalog price; a new cart starts with total 0.  The stored total is
        not recomputed.  The invariant survives exactly when the request's id
        matches a line or the cast id is not in the cart yet, which an id in
        canonical spelling always satisfies. */
    method AddToCart(user: UserId, productId: Option<ProductId>, quantity: Option<int>, catalog: Catalog,
                     cast: ProductId -> ProductId)
      returns (status: int)
      modifies this
      ensures status == BAD_REQUEST <==> AddRequestMissing(productId, quantity)
      ensures status == NOT_FOUND <==> !AddRequestMissing(productId, quantity) && cast(productId.value) !in catalog
      ensures status in {OK, BAD_REQUEST, NOT_FOUND}
      ensures status != OK ==> carts == old(carts)
      ensures status == OK ==>
        var pid := productId.value;
        carts == old(carts)[user := CartDoc(
          AddItem(ItemsOf(old(carts), user), pid, cast(pid), quantity.value, catalog[cast(pid)].priceCents),
          if user in old(carts) then old(carts)[user].totalCents else 0)]
      ensures old(Valid()) ==>
        (Valid() <==> status != OK || HasProduct(ItemsOf(old(carts), user), productId.value)
                      || !HasProduct(ItemsOf(old(carts), user), cast(productId.value)))
    {
      if AddRequestMissing(productId, quantity) {
        return BAD_REQUEST;
      }
      var pid, qty := productId.value, quantity.value;
      var id := cast(pid);
      if id !in catalog {
        return NOT_FOUND;
      }
      var cart := if user in carts then carts[user] else CartDoc([], 0);
      var items := cart.items;
      match FirstIndex(items, pid) {
        case Some(k) =>
          AddItemExisting(items, pid, id, qty, catalog[id].priceCents, k);
          items := items[k := items[k].(quantity := items[k].quantity + qty)];
        case None =>
          AddItemNew(items, pid, id, qty, catalog[id].priceCents);
          items := items + [CartItem(id, qty, catalog[id].priceCents)];
      }
      ghost var before := carts;
      ghost var wasValid := Valid();
      if wasValid {
        AddItemKeepsUnique(cart.items, pid, id, qty, catalog[id].priceCents);
      }
      carts := carts[user := cart.(items := items)];
      if wasValid {
        assert Valid() <==> UniqueProducts(items) by {
          assert carts[user].items == items;
          assert forall u :: u in carts && u != user ==> carts[u] == before[u];
        }
      }
      status := OK;
    }

    /** `getCart`: drop the lines whose product was deleted, recompute and
        store the total, and answer with the cleaned cart. */
    method GetCart(user: UserId, catalog: Catalog) returns (view: CartDoc)
      modifies this
      ensures old(Valid()) ==> Valid()
      ensures user !in old(carts) ==> view == CartDoc([], 0) && carts == old(carts)
      ensures user in old(carts) ==>
        view.items == Resolvable(old(carts)[user].items, catalog) &&
        view.totalCents == Total(view.items) &&
        carts == old(carts)[user := view]
    {
      if user !in carts {
        return CartDoc([], 0);
      }
      var items := Resolvable(carts[user].items, catalog);
      if Valid() {
        ResolvableKeepsUnique(carts[user].items, catalog);
      }
      view := CartDoc(items, Total(items));
      carts := carts[user := view];
    }

    /** `updateCartItem`: a quantity of zero or less removes the product's
        lines, a positive one overwrites the line's quantity. */
    method UpdateCartItem(user: UserId, productId: Option<ProductId>, quantity: int) returns (status: int)
      modifies this
      ensures old(Valid()) ==> Valid()
      ensures status == NOT_FOUND <==>
        user !in old(carts) || productId.None? || !HasProduct(old(carts)[user].items, productId.value)
      ensures status != OK ==> status == NOT_FOUND && carts == old(carts)
      ensures status == OK ==>
        var prior := old(carts)[user];
        carts == old(carts)[user := prior.(items :=
          if quantity <= 0 then WithoutProduct(prior.items, productId.value)
          else SetQuantity(prior.items, productId.value, quantity))]
    {
      if user !in carts {
        return NOT_FOUND;
      }
      var cart := carts[user];
      if productId.None? || FirstIndex(cart.items, productId.value).None? {
        return NOT_FOUND;
      }
      var pid := productId.value;
      var items;
      if quantity <= 0 {
        items := WithoutProduct(cart.items, pid);
        if Valid() {
          WithoutKeepsUnique(cart.items, pid);
        }
      } else {
        items := SetQuantity(cart.items, pid, quantity);
        assert forall i :: 0 <= i < |items| ==> items[i].product == cart.items[i].product;
      }
      carts := carts[user := cart.(items := items)];
      status := OK;
    }

    /** `removeCartItem`: filter out every line of the product. */
    method RemoveCartItem(user: UserId, pid: ProductId) returns (status: int)
      modifies this
      ensures old(Valid()) ==> Valid()
      ensures status == NOT_FOUND <==> user !in old(carts)
      ensures status != OK ==> status == NOT_FOUND && carts == old(carts)
      ensures status == OK ==>
        carts == old(carts)[user := old(carts)[user].(items := WithoutProduct(old(carts)[user].items, pid))]
    {
      if user !in carts {
        return NOT_FOUND;
      }
      if Valid() {
        WithoutKeepsUnique(carts[user].items, pid);
      }
      carts := carts[user := carts[user].(items := WithoutProduct(carts[user].items, pid))];
      status := OK;
    }

    /** `clearCart`: empty the items and zero the total. */
    method ClearCart(user: UserId) returns (status: int)
      modifies this
      ensures old(Valid()) ==> Valid()
      ensures status == NOT_FOUND <==> user !in old(carts)
      ensures status != OK ==> status == NOT_FOUND && carts == old(carts)
      ensures status == OK ==> carts == old(carts)[user := CartDoc([], 0)]
    {
      if user !in carts {
        return NOT_FOUND;
      }
      carts := carts[user := CartDoc([], 0)];
      status := OK;
    }
  }
}
