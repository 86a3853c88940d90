/** The rows of the shop's tables, and the pure parts of the model methods:
    the slug rule of `Product.save`, the approval state machine of
    `ProductRequest`, and the platform-benefit preview. */
module Models {
  import opened Wrappers
  import opened Money

  type UserId = nat
  type ProductId = nat
  type ItemId = nat
  type RequestId = nat
  /** A cart is identified by its client-chosen code, which is unique among carts. */
  type CartCode = string

  /** The default commission rate of products and requests: 10.00 %. */
  const DefaultCommissionRate: int := 1000

  /** A catalog entry; `vendor` is None for a platform-owned product. */
  datatype Product = Product(
    name: string,
    slug: Option<string>,
    image: string,
    description: Option<string>,
    price: int,
    category: Option<string>,
    vendor: Option<UserId>,
    commissionRate: int)

  datatype Cart = Cart(user: Option<UserId>, paid: bool)

  /** A cart line; the quantity is whatever the last update wrote, sign included. */
  datatype CartItem = CartItem(cart: CartCode, product: ProductId, quantity: int)

  datatype Status = Pending | Approved | Rejected

  /** A vendor's submission of a product, awaiting an administrator's decision. */
  datatype ProductRequest = ProductRequest(
    vendor: UserId,
    name: string,
    image: string,
    description: Option<string>,
    price: int,
    category: Option<string>,
    status: Status,
    adminNotes: Option<string>,
    commissionRate: int)

  /** Python's falsiness of an optional string: None and "" are both false. */
  predicate Blank(s: Option<string>) {
    s.None? || s.value == ""
  }

  // ---------------------------------------------------------------------------
  // Tables

  /** The slugs stored in the product table (a NULL slug matches no filter). */
  function Slugs(products: map<ProductId, Product>): set<string> {
    set id | id in products && products[id].slug.Some? :: products[id].slug.value
  }

  /** The ids of the lines of one cart. */
  function CartLineIds(items: map<ItemId, CartItem>, code: CartCode): set<ItemId> {
    set id | id in items && items[id].cart == code
  }

  /** The ids of the lines of one cart that hold one product. */
  function LinesFor(items: map<ItemId, CartItem>, code: CartCode, pid: ProductId): set<ItemId> {
    set id | id in items && items[id].cart == code && items[id].product == pid
  }

  /** No two lines hold the same product in the same cart. */
  ghost predicate UniqueLines(items: map<ItemId, CartItem>) {
    forall i, j :: i in items && j in items && i != j ==>
      items[i].cart != items[j].cart || items[i].product != items[j].product
  }

  /** Writing a line adds its id to the lines of its cart and product. */
  lemma LinesForWrite(items: map<ItemId, CartItem>, id: ItemId, line: CartItem)
    ensures LinesFor(items[id := line], line.cart, line.product) == LinesFor(items, line.cart, line.product) + {id}
  {
  }

  /** With unique lines, a cart holds at most one line per product. */
  lemma LinesForSingle(items: map<ItemId, CartItem>, code: CartCode, pid: ProductId, id: ItemId)
    requires UniqueLines(items) && id in LinesFor(items, code, pid)
    ensures LinesFor(items, code, pid) == {id}
  {
  }

  /** Writing a line where its cart holds no other line for its product keeps the
      lines unique, and leaves that one line for the pair. */
  lemma WriteKeepsUnique(items: map<ItemId, CartItem>, id: ItemId, line: CartItem)
    requires UniqueLines(items) && LinesFor(items, line.cart, line.product) <= {id}
    ensures UniqueLines(items[id := line])
    ensures LinesFor(items[id := line], line.cart, line.product) == {id}
  {
    LinesForWrite(items, id, line);
    forall j | j in items && j != id
      ensures items[j].cart != line.cart || items[j].product != line.product
    {
      assert j !in LinesFor(items, line.cart, line.product);
    }
  }

  // ---------------------------------------------------------------------------
  // Product.save: the slug rule

  /** The slug `Product.save` stores: a set slug is kept; a blank one becomes
      `slugify(name)`, or `slugify(name) + "-1"` when the former is already stored.
      Only that one suffix is tried, so the result is fresh unless the suffixed
      slug is taken as well, in which case it collides. */
  function AssignSlug(slug: Option<string>, name: string, slugify: string -> string, taken: set<string>): (r: string)
    ensures !Blank(slug) ==> r == slug.value
    ensures Blank(slug) ==> (r == slugify(name) <==> slugify(name) !in taken)
    ensures Blank(slug) && r != slugify(name) ==> r == slugify(name) + "-1"
    ensures Blank(slug) ==> (r !in taken <==> slugify(name) !in taken || slugify(name) + "-1" !in taken)
  {
    if !Blank(slug) then slug.value
    else
      var base := slugify(name);
      assert |base + "-1"| == |base| + 2;
      if base in taken then base + "-1" else base
  }

  // ---------------------------------------------------------------------------
  // ProductRequest.approve / reject

  /** One administrator call on a request: `approve()` or `reject(notes)`. */
  datatype Decision = Approve | Reject(notes: Option<string>)

  /** Whether the call creates a Product: only `approve()` on a pending request does. */
  predicate Yields(req: ProductRequest, d: Decision) {
    req.status == Pending && d.Approve?
  }

  /** The request after one call. Calls on a request that is no longer pending change
      nothing; otherwise only the status, and on a rejection with non-blank notes the
      administrator's notes, change. */
  function Decide(req: ProductRequest, d: Decision): (r: ProductRequest)
    ensures req.status != Pending ==> r == req
    ensures req.status == Pending ==> r.status == (if d.Approve? then Approved else Rejected)
    ensures r.(status := req.status, adminNotes := req.adminNotes) == req
    ensures r.adminNotes != req.adminNotes ==> req.status == Pending && d.Reject? && !Blank(d.notes) && r.adminNotes == d.notes
    ensures req.status == Pending && d.Reject? && !Blank(d.notes) ==> r.adminNotes == d.notes
  {
    if req.status != Pending then req
    else match d
      case Approve => req.(status := Approved)
      case Reject(notes) => req.(status := Rejected, adminNotes := if Blank(notes) then req.adminNotes else notes)
  }

  /** The product `approve()` materialises from a request, before `save` assigns its slug. */
  function ProductFrom(req: ProductRequest): Product {
    Product(req.name, None, req.image, req.description, req.price, req.category,
            Some(req.vendor), req.commissionRate)
  }

  /** The request after a sequence of calls. */
  function Run(req: ProductRequest, ds: seq<Decision>): ProductRequest
    decreases |ds|
  {
    if ds == [] then req else Run(Decide(req, ds[0]), ds[1..])
  }

  /** How many of the calls in the sequence create a Product. */
  function Made(req: ProductRequest, ds: seq<Decision>): nat
    decreases |ds|
  {
    if ds == [] then 0
    else (if Yields(req, ds[0]) then 1 else 0) + Made(Decide(req, ds[0]), ds[1..])
  }

  /** Approved and rejected are terminal: no sequence of calls changes such a
      request or creates a product from it. */
  lemma {:induction false} TerminalAbsorbs(req: ProductRequest, ds: seq<Decision>)
    requires req.status != Pending
    ensures Run(req, ds) == req && Made(req, ds) == 0
    decreases |ds|
  {
    if ds != [] {
      TerminalAbsorbs(Decide(req, ds[0]), ds[1..]);
    }
  }

  /** Whatever the calls, a request yields at most one product, and it yields one
      exactly when it started pending and ended approved. */
  lemma {:induction false} AtMostOneProduct(req: ProductRequest, ds: seq<Decision>)
    ensures Made(req, ds) <= 1
    ensures Made(req, ds) == 1 <==> req.status == Pending && Run(req, ds).status == Approved
  {
    if ds != [] {
      if req.status == Pending {
        TerminalAbsorbs(Decide(req, ds[0]), ds[1..]);
      } else {
        TerminalAbsorbs(req, ds);
      }
    }
  }

  // ---------------------------------------------------------------------------
  // ProductRequest.calculate_platform_benefit

  /** The platform's share of one sale at the requested price: price times rate over
      100, to the nearest cent, ties to the even cent. Read-only: nothing is stored. */
  function PlatformBenefit(req: ProductRequest): (b: int)
    ensures 2 * Dist(req.price * req.commissionRate, b * RateScale) <= RateScale
    ensures 2 * Dist(req.price * req.commissionRate, b * RateScale) == RateScale ==> b % 2 == 0
    ensures 0 <= req.price && 0 <= req.commissionRate <= RateScale ==> 0 <= b <= req.price
  {
    CommissionRounds(req.price, req.commissionRate);
    Commission(req.price, req.commissionRate)
  }
}
