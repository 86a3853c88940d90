/** The shop's shared store: the product, cart, cart-line, product-request and
    sales-summary tables, with the operations of the cart views and of the
    models that change them. */
module Shop {
  import opened Wrappers
  import opened Money
  import opened Models
  import opened Ledger

  /** Why a view answers with an error: a referenced row does not exist, the
      quantity given is not an integer, or the response for a line already written
      could not be built from it. */
  datatype Failure = NotFound | NotAnInteger | ResponseFailed

  class Store {
    /** Django's `slugify`, a library function kept abstract. */
    const slugify: string -> string

    var products: map<ProductId, Product>
    var carts: map<CartCode, Cart>
    var items: map<ItemId, CartItem>
    var requests: map<RequestId, ProductRequest>
    var summaries: Summaries
    var nextProductId: nat
    var nextItemId: nat

    /** The request each product created by `Approve` came from. */
    ghost var origin: map<ProductId, RequestId>

    /** Product ids are allocated from a counter. */
    ghost predicate CatalogValid()
      reads this`products, this`nextProductId
    {
      forall id :: id in products ==> id < nextProductId
    }

    /** Line ids are allocated from a counter, every line's cart and product exist,
        and a cart holds at most one line per product. */
    ghost predicate LinesValid()
      reads this`items, this`nextItemId, this`carts, this`products
    {
      && (forall id :: id in items ==> id < nextItemId)
      && (forall id :: id in items ==> items[id].cart in carts && items[id].product in products)
      && UniqueLines(items)
    }

    /** Every summary row belongs to an existing product and that product's vendor. */
    ghost predicate LedgerValid()
      reads this`summaries, this`products
    {
      forall k :: k in summaries ==> k.product in products && products[k.product].vendor == Some(k.vendor)
    }

    /** Every product created by an approval comes from an approved request, and no
        request has yielded two products. */
    ghost predicate OriginValid()
      reads this`origin, this`products, this`requests
    {
      && (forall p :: p in origin ==> p in products && origin[p] in requests && requests[origin[p]].status == Approved)
      && (forall p, q :: p in origin && q in origin && origin[p] == origin[q] ==> p == q)
    }

    ghost predicate Valid()
      reads this
    {
      CatalogValid() && LinesValid() && LedgerValid() && OriginValid()
    }

    constructor (slugify: string -> string)
      ensures Valid()
      ensures this.slugify == slugify
      ensures products == map[] && carts == map[] && items == map[] && requests == map[] && summaries == map[]
    {
      this.slugify := slugify;
      products, carts, items, requests, summaries := map[], map[], map[], map[], map[];
      nextProductId, nextItemId := 0, 0;
      origin := map[];
    }

    // -------------------------------------------------------------------------
    // Product.save

    /** Inserts a new product under a fresh id, after the slug rule of `save`. */
    method CreateProduct(p: Product) returns (id: ProductId)
      requires Valid()
      modifies this`products, this`nextProductId
      ensures Valid()
      ensures id !in old(products)
      ensures products == old(products)[id := p.(slug := Some(AssignSlug(p.slug, p.name, slugify, Slugs(old(products)))))]
    {
      var slug := AssignSlug(p.slug, p.name, slugify, Slugs(products));
      id := nextProductId;
      nextProductId := nextProductId + 1;
      products := products[id := p.(slug := Some(slug))];
    }

    // -------------------------------------------------------------------------
    // ProductRequest.approve / reject

    /** Approving a pending request creates one product carrying the request's
        name, image, description, price and category, its vendor and its commission
        rate, and marks the request approved. Any other request is left as it is,
        and no product is created. */
    method Approve(rid: RequestId) returns (created: Option<ProductId>)
      requires Valid() && rid in requests
      modifies this`products, this`nextProductId, this`requests, this`origin
      ensures Valid()
      ensures created.Some? <==> old(requests[rid].status) == Pending
      ensures requests == old(requests)[rid := Decide(old(requests[rid]), Decision.Approve)]
      ensures created.None? ==> products == old(products) && nextProductId == old(nextProductId) && origin == old(origin)
      ensures created.Some? ==>
        && created.value !in old(products)
        && products == old(products)[created.value :=
             ProductFrom(old(requests[rid])).(slug := Some(AssignSlug(None, old(requests[rid]).name, slugify, Slugs(old(products)))))]
        && origin == old(origin)[created.value := rid]
    {
      var req := requests[rid];
      if req.status != Pending {
        return None;
      }
      var id := CreateProduct(ProductFrom(req));
      requests := requests[rid := Decide(req, Decision.Approve)];
      origin := origin[id := rid];
      created := Some(id);
    }

    /** Rejecting a pending request marks it rejected and keeps non-blank notes;
        any other request is left as it is. Returns whether the request was pending. */
    method Reject(rid: RequestId, notes: Option<string>) returns (ok: bool)
      requires Valid() && rid in requests
      modifies this`requests
      ensures Valid()
      ensures ok <==> old(requests[rid].status) == Pending
      ensures requests == old(requests)[rid := Decide(old(requests[rid]), Decision.Reject(notes))]
      ensures !ok ==> requests == old(requests)
    {
      var req := requests[rid];
      if req.status != Pending {
        return false;
      }
      requests := requests[rid := Decide(req, Decision.Reject(notes))];
      ok := true;
    }

    // -------------------------------------------------------------------------
    // Cart views

    /** `product_in_cart`: whether the cart holds a line for the product; an
        unknown cart or product is an error. */
    function ProductInCart(code: CartCode, pid: ProductId): (r: Result<bool, Failure>)
      reads this
      ensures r.Ok? <==> code in carts && pid in products
      ensures r.Ok? ==> (r.value <==> LinesFor(items, code, pid) != {})
    {
      if code !in carts || pid !in products then Err(NotFound)
      else
        var found := exists id :: id in items && items[id].cart == code && items[id].product == pid;
        assert found ==> LinesFor(items, code, pid) != {} by {
          if found {
            var id :| id in items && items[id].cart == code && items[id].product == pid;
            assert id in LinesFor(items, code, pid);
          }
        }
        Ok(found)
    }

    /** `get_cart` and `get_card_stat`: only an unpaid cart with this code is found. */
    function OpenCart(code: CartCode): (r: Result<Cart, Failure>)
      reads this
      ensures r.Ok? <==> code in carts && !carts[code].paid
      ensures r.Ok? ==> r.value == carts[code] && !r.value.paid
    {
      if code in carts && !carts[code].paid then Ok(carts[code]) else Err(NotFound)
    }

    /** The first step of `add_item`: the cart with this code, whether paid or not,
        or a new unpaid cart without a user. */
    method GetOrCreateCart(code: CartCode)
      requires Valid()
      modifies this`carts
      ensures Valid()
      ensures carts == if code in old(carts) then old(carts) else old(carts)[code := Cart(None, false)]
    {
      if code !in carts {
        carts := carts[code := Cart(None, false)];
      }
    }

    /** The second step of `add_item`: the cart's one line for the product, reused or
        created under a fresh id, with its quantity set to 1. */
    method SetLine(code: CartCode, pid: ProductId) returns (id: ItemId)
      requires Valid() && code in carts && pid in products
      modifies this`items, this`nextItemId
      ensures Valid()
      ensures items == old(items)[id := CartItem(code, pid, 1)]
      ensures LinesFor(items, code, pid) == {id}
      ensures id in old(items) <==> LinesFor(old(items), code, pid) != {}
    {
      if exists k :: k in items && items[k].cart == code && items[k].product == pid {
        id :| id in items && items[id].cart == code && items[id].product == pid;
        LinesForSingle(items, code, pid, id);
      } else {
        id := nextItemId;
        nextItemId := nextItemId + 1;
        assert LinesFor(items, code, pid) == {};
      }
      WriteKeepsUnique(items, id, CartItem(code, pid, 1));
      items := items[id := CartItem(code, pid, 1)];
    }

    /** `add_item`: the cart for the code is reused, whether paid or not, or created
        unpaid; then, if the product exists, the cart's one line for it is created or
        reused and its quantity set to 1. An unknown product is an error, but the
        cart created for it stays. `rendered` tells whether the line's serialiser
        builds the response; when it does not, the view answers with an error
        although the line is written. `line` is the id written. */
    method AddItem(code: CartCode, pid: ProductId, rendered: bool) returns (r: Result<ItemId, Failure>, ghost line: ItemId)
      requires Valid()
      modifies this`carts, this`items, this`nextItemId
      ensures Valid()
      ensures carts == if code in old(carts) then old(carts) else old(carts)[code := Cart(None, false)]
      ensures pid !in products ==> r == Err(NotFound) && items == old(items)
      ensures pid in products ==>
        && r == (if rendered then Ok(line) else Err(ResponseFailed))
        && items == old(items)[line := CartItem(code, pid, 1)]
        && LinesFor(items, code, pid) == {line}
        && (line in old(items) <==> LinesFor(old(items), code, pid) != {})
        && ProductInCart(code, pid) == Ok(true)
    {
      line := 0;
      GetOrCreateCart(code);
      if pid !in products {
        return Err(NotFound), line;
      }
      var id := SetLine(code, pid);
      line := id;
      if !rendered {
        return Err(ResponseFailed), line;
      }
      r := Ok(id);
    }

    /** `update_quantity`: the line's quantity is overwritten with the given integer,
        of any sign. A quantity that is not an integer, or an unknown line, is an
        error and changes nothing; the quantity is checked first. `rendered` tells
        whether the line's serialiser builds the response; when it does not, the view
        answers with an error although the quantity is saved. */
    method UpdateQuantity(id: ItemId, quantity: Option<int>, rendered: bool) returns (r: Result<ItemId, Failure>)
      requires Valid()
      modifies this`items
      ensures Valid()
      ensures quantity.None? ==> r == Err(NotAnInteger)
      ensures quantity.Some? && id !in old(items) ==> r == Err(NotFound)
      ensures quantity.Some? && id in old(items) ==> r == if rendered then Ok(id) else Err(ResponseFailed)
      ensures items == if quantity.Some? && id in old(items) then old(items)[id := old(items[id]).(quantity := quantity.value)] else old(items)
    {
      if quantity.None? {
        return Err(NotAnInteger);
      }
      if id !in items {
        return Err(NotFound);
      }
      items := items[id := items[id].(quantity := quantity.value)];
      if !rendered {
        return Err(ResponseFailed);
      }
      r := Ok(id);
    }

    /** `delete_cartitem`: removes exactly the named line; an unknown line is an error.
        Afterwards the line's cart no longer holds its product. */
    method DeleteCartItem(id: ItemId) returns (r: Result<ItemId, Failure>)
      requires Valid()
      modifies this`items
      ensures Valid()
      ensures r.Ok? <==> id in old(items)
      ensures r.Err? ==> r.error == NotFound
      ensures items == old(items) - {id}
      ensures r.Ok? ==> ProductInCart(old(items[id]).cart, old(items[id]).product) == Ok(false)
    {
      if id !in items {
        return Err(NotFound);
      }
      var line := items[id];
      items := items - {id};
      assert LinesFor(items, line.cart, line.product) == {} by {
        forall k | k in items ensures !(items[k].cart == line.cart && items[k].product == line.product) {
          assert k in old(items) && k != id;
        }
      }
      r := Ok(id);
    }

    // -------------------------------------------------------------------------
    // SalesSummary.update_sales_for_cart

    /** The body of the loop of `update_sales_for_cart`: a line whose product has a
        vendor is added to the (product, vendor) summary, created from the line's own
        amounts when missing; a line of a platform product is skipped. */
    method BookLine(item: CartItem)
      requires item.product in products
      modifies this`summaries
      ensures summaries == Step(old(summaries), LineOf(item, products[item.product]))
    {
      var product := products[item.product];
      if product.vendor.Some? {
        var key := Key(item.product, product.vendor.value);
        var quantity := item.quantity;
        var total := product.price * quantity;
        var commission := Commission(total, product.commissionRate);
        if key !in summaries {
          summaries := summaries[key := Totals(quantity, total, commission)];
        } else {
          var row := summaries[key];
          summaries := summaries[key := Totals(row.quantity + quantity, row.sales + total, row.commission + commission)];
        }
      }
    }

    /** Folds the lines of a paid cart into the summaries; an unpaid cart changes
        nothing. `order` is the order in which the database returns the cart's lines:
        each of them exactly once. */
    method UpdateSalesForCart(code: CartCode, order: seq<ItemId>)
      requires Valid() && code in carts
      requires multiset(order) == multiset(CartLineIds(items, code))
      modifies this`summaries
      ensures Valid()
      ensures Readable(items, products, order)
      ensures summaries == if carts[code].paid then Fold(old(summaries), LinesOf(items, products, order)) else old(summaries)
    {
      forall id | id in order ensures id in items && items[id].product in products {
        assert id in multiset(order);
      }
      if !carts[code].paid {
        return;
      }
      ghost var lines := LinesOf(items, products, order);
      var i := 0;
      while i < |order|
        invariant 0 <= i <= |order|
        invariant summaries == Fold(old(summaries), lines[..i])
      {
        BookLine(items[order[i]]);
        assert lines[..i + 1][..i] == lines[..i];
        i := i + 1;
      }
      assert lines[..|order|] == lines;
      FoldKeepsVendors(old(summaries), items, products, order);
    }
  }
}
