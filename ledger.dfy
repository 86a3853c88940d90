/** The sales ledger: per-(product, vendor) running totals, and the fold that
    `SalesSummary.update_sales_for_cart` performs over a paid cart's lines. The
    table's `unique_together = ('product', 'vendor')` makes the pair its key. */
module Ledger {
  import opened Wrappers
  import opened Money
  import opened Models

  datatype Key = Key(product: ProductId, vendor: UserId)

  /** total_quantity, total_sales (cents) and total_commission (cents) of one summary row. */
  datatype Totals = Totals(quantity: int, sales: int, commission: int)

  type Summaries = map<Key, Totals>

  const Zero: Totals := Totals(0, 0, 0)

  function Plus(a: Totals, b: Totals): Totals {
    Totals(a.quantity + b.quantity, a.sales + b.sales, a.commission + b.commission)
  }

  lemma PlusAssociates(a: Totals, b: Totals, c: Totals)
    ensures Plus(Plus(a, b), c) == Plus(a, Plus(b, c))
  {
  }

  /** The totals of a key, zero for a key with no row. */
  function Get(s: Summaries, k: Key): Totals {
    if k in s then s[k] else Zero
  }

  /** What one cart line adds to its summary: the quantity, the line total (price
      times quantity), and the commission on that total at the product's rate,
      rounded to the cent. */
  function LineAmounts(price: int, quantity: int, rate: int): Totals {
    var total := price * quantity;
    Totals(quantity, total, Commission(total, rate))
  }

  /** A line of nonnegative price, quantity and rate adds nothing negative. */
  lemma LineAmountsNonNegative(price: int, quantity: int, rate: int)
    requires 0 <= price && 0 <= quantity && 0 <= rate
    ensures var t := LineAmounts(price, quantity, rate); 0 <= t.quantity && 0 <= t.sales && 0 <= t.commission
  {
    MulMonotone(price, 0, quantity);
    CommissionRounds(price * quantity, rate);
  }

  /** What the fold reads of one cart line: its product, the product's vendor, and
      the amounts the line adds. */
  datatype Line = Line(product: ProductId, vendor: Option<UserId>, amounts: Totals)

  function LineOf(item: CartItem, p: Product): Line {
    Line(item.product, p.vendor, LineAmounts(p.price, item.quantity, p.commissionRate))
  }

  /** Every id in `order` names a cart line whose product exists. */
  predicate Readable(items: map<ItemId, CartItem>, products: map<ProductId, Product>, order: seq<ItemId>) {
    forall id :: id in order ==> id in items && items[id].product in products
  }

  /** The lines of `order`, in that order, as the fold sees them. */
  function LinesOf(items: map<ItemId, CartItem>, products: map<ProductId, Product>, order: seq<ItemId>): (ls: seq<Line>)
    requires Readable(items, products, order)
    ensures |ls| == |order|
    ensures forall i :: 0 <= i < |order| ==> ls[i] == LineOf(items[order[i]], products[items[order[i]].product])
  {
    seq(|order|, i requires 0 <= i < |order| => LineOf(items[order[i]], products[items[order[i]].product]))
  }

  /** Whether a line is booked under a key. */
  predicate Books(l: Line, k: Key) {
    l.vendor == Some(k.vendor) && l.product == k.product
  }

  /** One iteration of the loop: a line of a platform-owned product is skipped;
      otherwise its amounts are added to the (product, vendor) row, which starts
      from zero when absent. */
  function Step(s: Summaries, l: Line): Summaries {
    if l.vendor.None? then s
    else
      var k := Key(l.product, l.vendor.value);
      s[k := Plus(Get(s, k), l.amounts)]
  }

  /** The summaries after folding the lines in order. */
  function Fold(s: Summaries, ls: seq<Line>): Summaries
    decreases |ls|
  {
    if ls == [] then s else Step(Fold(s, ls[..|ls| - 1]), ls[|ls| - 1])
  }

  /** The sum of the amounts of the lines booked under a key. */
  function Contribution(ls: seq<Line>, k: Key): Totals
    decreases |ls|
  {
    if ls == [] then Zero
    else Plus(Contribution(ls[..|ls| - 1], k), if Books(ls[|ls| - 1], k) then ls[|ls| - 1].amounts else Zero)
  }

  /** The lines of vendor-owned products. */
  function VendorLines(ls: seq<Line>): (vs: seq<Line>)
    ensures forall i :: 0 <= i < |vs| ==> vs[i].vendor.Some?
    decreases |ls|
  {
    if ls == [] then []
    else VendorLines(ls[..|ls| - 1]) + (if ls[|ls| - 1].vendor.Some? then [ls[|ls| - 1]] else [])
  }

  predicate NonNegative(ls: seq<Line>) {
    forall i :: 0 <= i < |ls| ==> 0 <= ls[i].amounts.quantity && 0 <= ls[i].amounts.sales && 0 <= ls[i].amounts.commission
  }

  // ---------------------------------------------------------------------------
  // What the fold computes

  lemma PlusZero(t: Totals)
    ensures Plus(t, Zero) == t
  {
  }

  /** One step adds the line's amounts to the row it is booked under and to no other. */
  lemma GetStep(s: Summaries, l: Line, k: Key)
    ensures Books(l, k) ==> Get(Step(s, l), k) == Plus(Get(s, k), l.amounts)
    ensures !Books(l, k) ==> Get(Step(s, l), k) == Get(s, k)
  {
    if l.vendor.Some? {
      var k2 := Key(l.product, l.vendor.value);
      assert Step(s, l) == s[k2 := Plus(Get(s, k2), l.amounts)];
      assert Books(l, k) <==> k == k2;
    }
  }

  /** Folding two batches one after the other is folding their concatenation. */
  lemma {:induction false} FoldAppend(s: Summaries, xs: seq<Line>, ys: seq<Line>)
    ensures Fold(s, xs + ys) == Fold(Fold(s, xs), ys)
    decreases |ys|
  {
    if ys == [] {
      assert xs + ys == xs;
    } else {
      var zs := xs + ys;
      assert zs[..|zs| - 1] == xs + ys[..|ys| - 1];
      assert zs[|zs| - 1] == ys[|ys| - 1];
      FoldAppend(s, xs, ys[..|ys| - 1]);
    }
  }

  /** Each row ends with its old totals plus the quantity, sales and commission of
      every line booked under its key; a missing row counts as zero. */
  lemma {:induction false} FoldAdds(s: Summaries, ls: seq<Line>, k: Key)
    ensures Get(Fold(s, ls), k) == Plus(Get(s, k), Contribution(ls, k))
    decreases |ls|
  {
    if ls == [] {
      PlusZero(Get(s, k));
    } else {
      var init, last := ls[..|ls| - 1], ls[|ls| - 1];
      FoldAdds(s, init, k);
      var before := Fold(s, init);
      assert Fold(s, ls) == Step(before, last);
      GetStep(before, last, k);
      var c := Contribution(init, k);
      assert Get(before, k) == Plus(Get(s, k), c);
      if Books(last, k) {
        assert Contribution(ls, k) == Plus(c, last.amounts);
        assert Get(Fold(s, ls), k) == Plus(Plus(Get(s, k), c), last.amounts);
        PlusAssociates(Get(s, k), c, last.amounts);
      } else {
        assert Contribution(ls, k) == Plus(c, Zero);
        assert Get(Fold(s, ls), k) == Plus(Get(s, k), c);
        PlusZero(c);
      }
    }
  }

  /** A row exists after the fold exactly when it existed before or some line is
      booked under its key: rows are created on first use and never removed. */
  lemma {:induction false} FoldKeys(s: Summaries, ls: seq<Line>, k: Key)
    ensures k in Fold(s, ls) <==> k in s || exists i :: 0 <= i < |ls| && Books(ls[i], k)
    decreases |ls|
  {
    if ls != [] {
      var init := ls[..|ls| - 1];
      FoldKeys(s, init, k);
      if exists i :: 0 <= i < |init| && Books(init[i], k) {
        var i :| 0 <= i < |init| && Books(init[i], k);
        assert Books(ls[i], k);
      }
      if exists i :: 0 <= i < |ls| && Books(ls[i], k) {
        var i :| 0 <= i < |ls| && Books(ls[i], k);
        if i < |init| {
          assert Books(init[i], k);
        }
      }
    }
  }

  /** Lines of platform-owned products contribute nothing: folding all lines is
      folding the vendor lines alone. */
  lemma {:induction false} FoldSkipsPlatformLines(s: Summaries, ls: seq<Line>)
    ensures Fold(s, ls) == Fold(s, VendorLines(ls))
    decreases |ls|
  {
    if ls != [] {
      var init, last := ls[..|ls| - 1], ls[|ls| - 1];
      FoldSkipsPlatformLines(s, init);
      if last.vendor.Some? {
        FoldAppend(s, VendorLines(init), [last]);
      } else {
        assert VendorLines(ls) == VendorLines(init);
      }
    }
  }

  /** There is no guard against folding the same cart again: a second fold adds
      every amount a second time. */
  lemma RefoldCountsTwice(s: Summaries, ls: seq<Line>, k: Key)
    ensures Get(Fold(Fold(s, ls), ls), k) == Plus(Plus(Get(s, k), Contribution(ls, k)), Contribution(ls, k))
  {
    FoldAdds(s, ls, k);
    FoldAdds(Fold(s, ls), ls, k);
  }

  lemma {:induction false} ContributionNonNegative(ls: seq<Line>, k: Key)
    requires NonNegative(ls)
    ensures var c := Contribution(ls, k); 0 <= c.quantity && 0 <= c.sales && 0 <= c.commission
    decreases |ls|
  {
    if ls != [] {
      ContributionNonNegative(ls[..|ls| - 1], k);
    }
  }

  /** With lines of nonnegative amounts the totals never decrease. */
  lemma FoldMonotone(s: Summaries, ls: seq<Line>, k: Key)
    requires NonNegative(ls)
    ensures Get(s, k).quantity <= Get(Fold(s, ls), k).quantity
    ensures Get(s, k).sales <= Get(Fold(s, ls), k).sales
    ensures Get(s, k).commission <= Get(Fold(s, ls), k).commission
  {
    FoldAdds(s, ls, k);
    ContributionNonNegative(ls, k);
  }

  /** A cart line may hold a negative quantity (the quantity update does not check
      its sign). Folding a line of -1 at 19.99 and 10.00 % into an existing row of
      quantity at least 1 lowers it by 1, 19.99 and 2.00, and leaves its quantity
      nonnegative, so the row's positive-integer column accepts the update. */
  lemma NegativeQuantityLowersTotals(s: Summaries, c: CartCode, p: ProductId, n: string, v: UserId)
    requires Key(p, v) in s && s[Key(p, v)].quantity >= 1
    ensures var t := Get(Fold(s, [LineOf(CartItem(c, p, -1), Product(n, None, "", None, 1999, None, Some(v), 1000))]), Key(p, v));
      && t == Plus(s[Key(p, v)], Totals(-1, -1999, -200))
      && t.quantity < s[Key(p, v)].quantity && t.sales < s[Key(p, v)].sales && t.commission < s[Key(p, v)].commission
      && 0 <= t.quantity
  {
    var l := LineOf(CartItem(c, p, -1), Product(n, None, "", None, 1999, None, Some(v), 1000));
    assert [l][..0] == [];
    RoundHalfEvenUnique(-1999 * 1000, RateScale, -200);
  }

  /** One line of 3 at 19.99, sold by a vendor at the default 10.00 %: the row gains
      quantity 3, sales 59.97 and commission 6.00. */
  lemma SingleLineExample(s: Summaries, c: CartCode, p: ProductId, n: string, v: UserId)
    ensures Get(Fold(s, [LineOf(CartItem(c, p, 3), Product(n, None, "", None, 1999, None, Some(v), DefaultCommissionRate))]), Key(p, v))
         == Plus(Get(s, Key(p, v)), Totals(3, 5997, 600))
  {
    var l := LineOf(CartItem(c, p, 3), Product(n, None, "", None, 1999, None, Some(v), DefaultCommissionRate));
    assert [l][..0] == [];
    CommissionExamples();
  }

  /** The lines of a cart whose quantities, prices and rates are nonnegative have
      nonnegative amounts. */
  lemma LinesOfNonNegative(items: map<ItemId, CartItem>, products: map<ProductId, Product>, order: seq<ItemId>)
    requires Readable(items, products, order)
    requires forall id :: id in order ==>
      0 <= items[id].quantity && 0 <= products[items[id].product].price && 0 <= products[items[id].product].commissionRate
    ensures NonNegative(LinesOf(items, products, order))
  {
    var ls := LinesOf(items, products, order);
    forall i | 0 <= i < |ls|
      ensures 0 <= ls[i].amounts.quantity && 0 <= ls[i].amounts.sales && 0 <= ls[i].amounts.commission
    {
      assert order[i] in order;
      var item := items[order[i]];
      var product := products[item.product];
      LineAmountsNonNegative(product.price, item.quantity, product.commissionRate);
    }
  }

  /** Folding a cart whose quantities, prices and rates are nonnegative never lowers
      any row's quantity, sales or commission. */
  lemma CartFoldMonotone(s: Summaries, items: map<ItemId, CartItem>, products: map<ProductId, Product>, order: seq<ItemId>, k: Key)
    requires Readable(items, products, order)
    requires forall id :: id in order ==>
      0 <= items[id].quantity && 0 <= products[items[id].product].price && 0 <= products[items[id].product].commissionRate
    ensures var t := Fold(s, LinesOf(items, products, order));
      Get(s, k).quantity <= Get(t, k).quantity && Get(s, k).sales <= Get(t, k).sales && Get(s, k).commission <= Get(t, k).commission
  {
    LinesOfNonNegative(items, products, order);
    FoldMonotone(s, LinesOf(items, products, order), k);
  }

  /** Every row the fold touches belongs to a product and that product's vendor,
      so rows that did so before still do. */
  lemma FoldKeepsVendors(s: Summaries, items: map<ItemId, CartItem>, products: map<ProductId, Product>, order: seq<ItemId>)
    requires Readable(items, products, order)
    requires forall k :: k in s ==> k.product in products && products[k.product].vendor == Some(k.vendor)
    ensures var t := Fold(s, LinesOf(items, products, order));
      forall k :: k in t ==> k.product in products && products[k.product].vendor == Some(k.vendor)
  {
    var ls := LinesOf(items, products, order);
    forall k | k in Fold(s, ls) ensures k.product in products && products[k.product].vendor == Some(k.vendor) {
      FoldKeys(s, ls, k);
      if k !in s {
        var i :| 0 <= i < |ls| && Books(ls[i], k);
        assert order[i] in order;
      }
    }
  }

  // ---------------------------------------------------------------------------
  // The fold does not depend on the order of the lines

  /** Two steps commute: adding is commutative, and a row created by either step
      starts from zero. */
  lemma StepCommutes(s: Summaries, a: Line, b: Line)
    ensures Step(Step(s, a), b) == Step(Step(s, b), a)
  {
    if a.vendor.Some? && b.vendor.Some? {
      var ka, kb := Key(a.product, a.vendor.value), Key(b.product, b.vendor.value);
      if ka == kb {
        assert Plus(Plus(Get(s, ka), a.amounts), b.amounts) == Plus(Plus(Get(s, ka), b.amounts), a.amounts);
      }
    }
  }

  /** A step taken before a batch can be taken after it instead. */
  lemma {:induction false} StepThroughFold(s: Summaries, a: Line, ys: seq<Line>)
    ensures Fold(Step(s, a), ys) == Step(Fold(s, ys), a)
    decreases |ys|
  {
    if ys != [] {
      var init, last := ys[..|ys| - 1], ys[|ys| - 1];
      StepThroughFold(s, a, init);
      StepCommutes(Fold(s, init), a, last);
    }
  }

  /** Removing the line at position i and folding it last gives the same summaries. */
  lemma MoveToEnd(s: Summaries, ys: seq<Line>, i: nat)
    requires i < |ys|
    ensures Fold(s, ys) == Step(Fold(s, ys[..i] + ys[i + 1..]), ys[i])
  {
    var pre, post := ys[..i], ys[i + 1..];
    assert ys == pre + [ys[i]] + post;
    FoldAppend(s, pre + [ys[i]], post);
    assert (pre + [ys[i]])[..|pre|] == pre;
    StepThroughFold(Fold(s, pre), ys[i], post);
    FoldAppend(s, pre, post);
  }

  /** Folding any rearrangement of the same lines gives the same summaries. */
  lemma {:induction false} FoldPermutation(s: Summaries, xs: seq<Line>, ys: seq<Line>)
    requires multiset(xs) == multiset(ys)
    ensures Fold(s, xs) == Fold(s, ys)
    decreases |xs|
  {
    if xs == [] {
      assert |ys| == |multiset(ys)| == 0;
    } else {
      var init, last := xs[..|xs| - 1], xs[|xs| - 1];
      RemoveAt(xs, |xs| - 1);
      assert last in multiset(ys);
      var i :| 0 <= i < |ys| && ys[i] == last;
      RemoveAt(ys, i);
      var rest := ys[..i] + ys[i + 1..];
      FoldPermutation(s, init, rest);
      MoveToEnd(s, ys, i);
    }
  }

  lemma LinesOfAppend(items: map<ItemId, CartItem>, products: map<ProductId, Product>, a: seq<ItemId>, b: seq<ItemId>)
    requires Readable(items, products, a)
    requires Readable(items, products, b)
    ensures Readable(items, products, a + b)
    ensures LinesOf(items, products, a + b) == LinesOf(items, products, a) + LinesOf(items, products, b)
  {
    assert forall i :: 0 <= i < |a + b| ==> (a + b)[i] == if i < |a| then a[i] else b[i - |a|];
  }

  /** Removing the element at position i takes one occurrence of it out of the multiset. */
  lemma RemoveAt<T>(ys: seq<T>, i: nat)
    requires i < |ys|
    ensures ys == ys[..i] + [ys[i]] + ys[i + 1..]
    ensures multiset(ys[..i] + ys[i + 1..]) == multiset(ys) - multiset{ys[i]}
  {
    assert ys == ys[..i] + [ys[i]] + ys[i + 1..];
  }

  /** Reading a line out of the middle of an order takes its line out of the multiset. */
  lemma LinesOfRemoveAt(items: map<ItemId, CartItem>, products: map<ProductId, Product>, o: seq<ItemId>, i: nat)
    requires Readable(items, products, o) && i < |o|
    ensures Readable(items, products, o[..i] + o[i + 1..])
    ensures multiset(LinesOf(items, products, o))
         == multiset(LinesOf(items, products, o[..i] + o[i + 1..])) + multiset(LinesOf(items, products, [o[i]]))
  {
    var pre, post := o[..i], o[i + 1..];
    RemoveAt(o, i);
    LinesOfAppend(items, products, pre, [o[i]]);
    LinesOfAppend(items, products, pre + [o[i]], post);
    LinesOfAppend(items, products, pre, post);
  }

  /** Reading the same lines in two orders gives rearrangements of the same lines. */
  lemma {:induction false} LinesOfPermutation(items: map<ItemId, CartItem>, products: map<ProductId, Product>, o1: seq<ItemId>, o2: seq<ItemId>)
    requires Readable(items, products, o1)
    requires Readable(items, products, o2)
    requires multiset(o1) == multiset(o2)
    ensures multiset(LinesOf(items, products, o1)) == multiset(LinesOf(items, products, o2))
    decreases |o1|
  {
    if o1 == [] {
      assert |o2| == |multiset(o2)| == 0;
    } else {
      var n := |o1| - 1;
      var last := o1[n];
      RemoveAt(o1, n);
      assert last in multiset(o2);
      var i :| 0 <= i < |o2| && o2[i] == last;
      RemoveAt(o2, i);
      LinesOfRemoveAt(items, products, o1, n);
      LinesOfRemoveAt(items, products, o2, i);
      LinesOfPermutation(items, products, o1[..n] + o1[n + 1..], o2[..i] + o2[i + 1..]);
    }
  }

  /** The order in which the database returns a cart's lines does not matter. */
  lemma FoldIndependentOfOrder(s: Summaries, items: map<ItemId, CartItem>, products: map<ProductId, Product>, o1: seq<ItemId>, o2: seq<ItemId>)
    requires Readable(items, products, o1)
    requires Readable(items, products, o2)
    requires multiset(o1) == multiset(o2)
    ensures Fold(s, LinesOf(items, products, o1)) == Fold(s, LinesOf(items, products, o2))
  {
    LinesOfPermutation(items, products, o1, o2);
    FoldPermutation(s, LinesOf(items, products, o1), LinesOf(items, products, o2));
  }
}
