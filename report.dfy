/** The report derivation that the Run Report timer callback performs: from the loaded
    product list (possibly absent) and the selected titles, the chart's x-axis labels
    and y-axis values. */
module Report {
  import opened Catalog

  datatype Report = Report(xAxis: seq<string>, yAxis: seq<Price>)

  /** `a` is `b` with some elements dropped, the rest kept in order. */
  predicate IsSubsequence<T(==)>(a: seq<T>, b: seq<T>)
    decreases |b|
  {
    if |a| == 0 then true
    else if |b| == 0 then false
    else (a[0] == b[0] && IsSubsequence(a[1..], b[1..])) || IsSubsequence(a, b[1..])
  }

  // ---------------------------------------------------------------------------
  // The list operations the derivation is built from

  /** `products.map(product => product.title)` */
  function Titles(ps: seq<Product>): (r: seq<string>)
    ensures |r| == |ps|
    ensures forall i :: 0 <= i < |ps| ==> r[i] == ps[i].title
  {
    if ps == [] then [] else [ps[0].title] + Titles(ps[1..])
  }

  /** `products.map(product => product.price)` */
  function Prices(ps: seq<Product>): (r: seq<Price>)
    ensures |r| == |ps|
    ensures forall i :: 0 <= i < |ps| ==> r[i] == ps[i].price
  {
    if ps == [] then [] else [ps[0].price] + Prices(ps[1..])
  }

  /** `titles.filter(title => selectedProducts.includes(title))` */
  function SelectedTitles(ts: seq<string>, sel: seq<string>): seq<string>
  {
    if ts == [] then []
    else if ts[0] in sel then [ts[0]] + SelectedTitles(ts[1..], sel)
    else SelectedTitles(ts[1..], sel)
  }

  /** `products.filter(product => selectedProducts.includes(product.title))` */
  function SelectedProductsOf(ps: seq<Product>, sel: seq<string>): seq<Product>
  {
    if ps == [] then []
    else if ps[0].title in sel then [ps[0]] + SelectedProductsOf(ps[1..], sel)
    else SelectedProductsOf(ps[1..], sel)
  }

  /** `prices.filter(price => typeof price === "number")` */
  function NumericOnly(vs: seq<Price>): seq<Price>
  {
    if vs == [] then []
    else if vs[0].Num? then [vs[0]] + NumericOnly(vs[1..])
    else NumericOnly(vs[1..])
  }

  // ---------------------------------------------------------------------------
  // The derivation

  /** `products?.products.map(product => product.title) || []` */
  function AllTitles(products: Option<ProductResponse>): seq<string>
  {
    match products
    case None => []
    case Some(resp) => Titles(resp.products)
  }

  /** `products?.products.map(product => product.price) || []` */
  function AllPrices(products: Option<ProductResponse>): seq<Price>
  {
    match products
    case None => []
    case Some(resp) => Prices(resp.products)
  }

  /** The selected products' prices, numbers only; `[]` when nothing is loaded. */
  function FilteredPrices(products: Option<ProductResponse>, sel: seq<string>): seq<Price>
  {
    match products
    case None => []
    case Some(resp) => NumericOnly(Prices(SelectedProductsOf(resp.products, sel)))
  }

  /** The x-axis labels: the selected catalog titles, or every title when none is selected. */
  function XAxisValues(products: Option<ProductResponse>, sel: seq<string>): seq<string>
  {
    var all := AllTitles(products);
    var filtered := SelectedTitles(all, sel);
    if |filtered| > 0 then filtered else all
  }

  /** The y-axis values: the numeric prices of the selected products, or, when there are
      none, every price of the list without the numeric filter. */
  function YAxisValues(products: Option<ProductResponse>, sel: seq<string>): seq<Price>
  {
    var filtered := FilteredPrices(products, sel);
    if |filtered| > 0 then filtered else AllPrices(products)
  }

  function Derive(products: Option<ProductResponse>, sel: seq<string>): Report
  {
    Report(XAxisValues(products, sel), YAxisValues(products, sel))
  }

  // ---------------------------------------------------------------------------
  // Properties of the building blocks

  lemma {:induction false} SubsequenceCount<T>(a: seq<T>, b: seq<T>, x: T)
    requires IsSubsequence(a, b)
    ensures multiset(a)[x] <= multiset(b)[x]
    decreases |b|
  {
    if |a| == 0 {
    } else {
      assert b == [b[0]] + b[1..];
      if a[0] == b[0] && IsSubsequence(a[1..], b[1..]) {
        SubsequenceCount(a[1..], b[1..], x);
        assert a == [a[0]] + a[1..];
      } else {
        SubsequenceCount(a, b[1..], x);
      }
    }
  }

  /** The title filter keeps catalog order and keeps exactly the selected occurrences. */
  lemma {:induction false} SelectedTitlesSpec(ts: seq<string>, sel: seq<string>)
    ensures IsSubsequence(SelectedTitles(ts, sel), ts)
    ensures forall t :: t in SelectedTitles(ts, sel) <==> t in ts && t in sel
    ensures forall t :: multiset(SelectedTitles(ts, sel))[t] == if t in sel then multiset(ts)[t] else 0
  {
    if ts != [] {
      SelectedTitlesSpec(ts[1..], sel);
      assert ts == [ts[0]] + ts[1..];
      var rest := SelectedTitles(ts[1..], sel);
      if ts[0] in sel {
        assert ([ts[0]] + rest)[1..] == rest;
      }
    }
  }

  /** `r` is what filtering `s` by `keep` leaves: a subsequence of `s` that holds every
      kept element as often as `s` does and nothing else. */
  ghost predicate FilterOf<T(!new)>(r: seq<T>, s: seq<T>, keep: T -> bool)
  {
    IsSubsequence(r, s) && forall x :: multiset(r)[x] == if keep(x) then multiset(s)[x] else 0
  }

  /** Peeling the first element off `s`: a kept head must open `r`, a dropped one cannot. */
  lemma {:induction false} FilterOfTail<T(!new)>(r: seq<T>, s: seq<T>, keep: T -> bool)
    requires s != [] && FilterOf(r, s, keep)
    ensures keep(s[0]) ==> r != [] && r[0] == s[0] && FilterOf(r[1..], s[1..], keep)
    ensures !keep(s[0]) ==> FilterOf(r, s[1..], keep)
  {
    var a, rest := s[0], s[1..];
    assert s == [a] + rest;
    if keep(a) {
      assert multiset(r)[a] == multiset(rest)[a] + 1;
      if |r| == 0 || r[0] != a || !IsSubsequence(r[1..], rest) {
        assert IsSubsequence(r, rest);
        SubsequenceCount(r, rest, a);
        assert false;
      }
      assert r == [a] + r[1..];
      forall x ensures multiset(r[1..])[x] == if keep(x) then multiset(rest)[x] else 0 {
        assert multiset(r) == multiset([a]) + multiset(r[1..]);
      }
    } else {
      assert a !in r by {
        assert multiset(r)[a] == 0;
      }
      assert IsSubsequence(r, rest);
      forall x ensures multiset(r)[x] == if keep(x) then multiset(rest)[x] else 0 {
        if keep(x) {
          assert x != a;
        }
      }
    }
  }

  /** A filter's result is determined by order and multiplicity alone. */
  lemma {:induction false} FilterOfUnique<T(!new)>(r1: seq<T>, r2: seq<T>, s: seq<T>, keep: T -> bool)
    requires FilterOf(r1, s, keep) && FilterOf(r2, s, keep)
    ensures r1 == r2
  {
    if s == [] {
      SubsequenceLength(r1, s);
      SubsequenceLength(r2, s);
    } else {
      FilterOfTail(r1, s, keep);
      FilterOfTail(r2, s, keep);
      if keep(s[0]) {
        FilterOfUnique(r1[1..], r2[1..], s[1..], keep);
        assert r1 == [s[0]] + r1[1..] && r2 == [s[0]] + r2[1..];
      } else {
        FilterOfUnique(r1, r2, s[1..], keep);
      }
    }
  }

  /** Any subsequence of the catalog titles holding exactly the selected occurrences is the
      title filter's result: the filter is determined by order and membership alone. */
  lemma SelectedTitlesUnique(ts: seq<string>, sel: seq<string>, r: seq<string>)
    requires IsSubsequence(r, ts)
    requires forall t :: multiset(r)[t] == if t in sel then multiset(ts)[t] else 0
    ensures r == SelectedTitles(ts, sel)
  {
    SelectedTitlesSpec(ts, sel);
    FilterOfUnique(r, SelectedTitles(ts, sel), ts, t => t in sel);
  }

  /** The product filter keeps catalog order and keeps exactly the selected products. */
  lemma {:induction false} SelectedProductsSpec(ps: seq<Product>, sel: seq<string>)
    ensures IsSubsequence(SelectedProductsOf(ps, sel), ps)
    ensures forall p :: p in SelectedProductsOf(ps, sel) <==> p in ps && p.title in sel
    ensures forall p :: multiset(SelectedProductsOf(ps, sel))[p] == if p.title in sel then multiset(ps)[p] else 0
  {
    if ps != [] {
      SelectedProductsSpec(ps[1..], sel);
      assert ps == [ps[0]] + ps[1..];
      var rest := SelectedProductsOf(ps[1..], sel);
      if ps[0].title in sel {
        assert ([ps[0]] + rest)[1..] == rest;
      }
    }
  }

  /** The numeric filter keeps order and keeps exactly the numeric prices. */
  lemma {:induction false} NumericOnlySpec(vs: seq<Price>)
    ensures IsSubsequence(NumericOnly(vs), vs)
    ensures forall v :: v in NumericOnly(vs) <==> v in vs && v.Num?
    ensures forall v :: multiset(NumericOnly(vs))[v] == if v.Num? then multiset(vs)[v] else 0
  {
    if vs != [] {
      NumericOnlySpec(vs[1..]);
      assert vs == [vs[0]] + vs[1..];
      var rest := NumericOnly(vs[1..]);
      if vs[0].Num? {
        assert ([vs[0]] + rest)[1..] == rest;
      }
    }
  }

  /** The products whose title is selected and whose price is a number, in catalog order:
      the products whose prices the y axis shows when it does not fall back. */
  function PricedSelection(ps: seq<Product>, sel: seq<string>): seq<Product>
  {
    if ps == [] then []
    else if ps[0].title in sel && ps[0].price.Num? then [ps[0]] + PricedSelection(ps[1..], sel)
    else PricedSelection(ps[1..], sel)
  }

  lemma {:induction false} PricedSelectionSpec(ps: seq<Product>, sel: seq<string>)
    ensures IsSubsequence(PricedSelection(ps, sel), ps)
    ensures forall p :: multiset(PricedSelection(ps, sel))[p] ==
              if p.title in sel && p.price.Num? then multiset(ps)[p] else 0
  {
    if ps != [] {
      PricedSelectionSpec(ps[1..], sel);
      assert ps == [ps[0]] + ps[1..];
      var rest := PricedSelection(ps[1..], sel);
      if ps[0].title in sel && ps[0].price.Num? {
        assert ([ps[0]] + rest)[1..] == rest;
      }
    }
  }

  /** Any subsequence of the catalog holding exactly the selected, numerically priced
      products (with their multiplicity) is `PricedSelection`. */
  lemma PricedSelectionUnique(ps: seq<Product>, sel: seq<string>, q: seq<Product>)
    requires IsSubsequence(q, ps)
    requires forall p :: multiset(q)[p] == if p.title in sel && p.price.Num? then multiset(ps)[p] else 0
    ensures q == PricedSelection(ps, sel)
  {
    PricedSelectionSpec(ps, sel);
    FilterOfUnique(q, PricedSelection(ps, sel), ps, (p: Product) => p.title in sel && p.price.Num?);
  }

  /** Filtering by title, taking prices and dropping non-numbers gives the prices of the
      priced selection. */
  lemma {:induction false} PricesOfPricedSelection(ps: seq<Product>, sel: seq<string>)
    ensures NumericOnly(Prices(SelectedProductsOf(ps, sel))) == Prices(PricedSelection(ps, sel))
  {
    if ps != [] {
      PricesOfPricedSelection(ps[1..], sel);
      var rest := SelectedProductsOf(ps[1..], sel);
      if ps[0].title in sel {
        assert ([ps[0]] + rest)[1..] == rest;
        assert Prices([ps[0]] + rest)[1..] == Prices(rest);
        var q := PricedSelection(ps[1..], sel);
        if ps[0].price.Num? {
          assert ([ps[0]] + q)[1..] == q;
        }
      }
    }
  }

  /** Filtering products by title and then taking titles is filtering the titles. */
  lemma {:induction false} TitlesOfSelectedProducts(ps: seq<Product>, sel: seq<string>)
    ensures Titles(SelectedProductsOf(ps, sel)) == SelectedTitles(Titles(ps), sel)
  {
    if ps != [] {
      TitlesOfSelectedProducts(ps[1..], sel);
      assert Titles(ps)[1..] == Titles(ps[1..]);
      var rest := SelectedProductsOf(ps[1..], sel);
      if ps[0].title in sel {
        assert ([ps[0]] + rest)[1..] == rest;
      }
    }
  }

  /** Taking prices maps a subsequence of products to a subsequence of prices. */
  lemma {:induction false} PricesOfSubsequence(a: seq<Product>, b: seq<Product>)
    requires IsSubsequence(a, b)
    ensures IsSubsequence(Prices(a), Prices(b))
    decreases |b|
  {
    if |a| > 0 {
      assert Prices(b)[1..] == Prices(b[1..]);
      assert Prices(a)[1..] == Prices(a[1..]);
      if a[0] == b[0] && IsSubsequence(a[1..], b[1..]) {
        PricesOfSubsequence(a[1..], b[1..]);
      } else {
        PricesOfSubsequence(a, b[1..]);
      }
    }
  }

  lemma {:induction false} SubsequenceTransitive<T>(a: seq<T>, b: seq<T>, c: seq<T>)
    requires IsSubsequence(a, b) && IsSubsequence(b, c)
    ensures IsSubsequence(a, c)
    decreases |c|
  {
    if |a| > 0 {
      if IsSubsequence(b, c[1..]) {
        SubsequenceTransitive(a, b, c[1..]);
      } else if a[0] == b[0] && IsSubsequence(a[1..], b[1..]) {
        SubsequenceTransitive(a[1..], b[1..], c[1..]);
      } else {
        SubsequenceTransitive(a, b[1..], c[1..]);
      }
    }
  }

  lemma {:induction false} SubsequenceReflexive<T>(s: seq<T>)
    ensures IsSubsequence(s, s)
  {
    if |s| > 0 {
      SubsequenceReflexive(s[1..]);
    }
  }

  /** When every price is a number the numeric filter changes nothing. */
  lemma {:induction false} NumericOnlyOfNumbers(vs: seq<Price>)
    requires forall i :: 0 <= i < |vs| ==> vs[i].Num?
    ensures NumericOnly(vs) == vs
  {
    if vs != [] {
      NumericOnlyOfNumbers(vs[1..]);
    }
  }

  // ---------------------------------------------------------------------------
  // Properties of the derivation

  /** With no product list loaded, both axes come out empty. */
  lemma NoProductsEmptyReport(sel: seq<string>)
    ensures Derive(None, sel) == Report([], [])
  {
  }

  /** The x-axis labels are catalog titles in catalog order, never more than the products.
      When some catalog title is selected they are exactly the selected catalog titles,
      each as often as it occurs in the catalog; when none is, they are every title. */
  lemma XAxisLabelsSpec(products: Option<ProductResponse>, sel: seq<string>)
    ensures IsSubsequence(XAxisValues(products, sel), AllTitles(products))
    ensures |XAxisValues(products, sel)| <= |AllTitles(products)|
    ensures (exists t :: t in AllTitles(products) && t in sel) ==>
              && (forall t :: t in XAxisValues(products, sel) <==> t in AllTitles(products) && t in sel)
              && (forall t :: multiset(XAxisValues(products, sel))[t] ==
                               if t in sel then multiset(AllTitles(products))[t] else 0)
    ensures (forall t :: t in AllTitles(products) ==> t !in sel) ==>
              XAxisValues(products, sel) == AllTitles(products)
  {
    var all := AllTitles(products);
    SelectedTitlesSpec(all, sel);
    SubsequenceReflexive(all);
    SubsequenceLength(XAxisValues(products, sel), all);
  }

  lemma {:induction false} SubsequenceLength<T>(a: seq<T>, b: seq<T>)
    requires IsSubsequence(a, b)
    ensures |a| <= |b|
    decreases |b|
  {
    if |a| > 0 {
      if a[0] == b[0] && IsSubsequence(a[1..], b[1..]) {
        SubsequenceLength(a[1..], b[1..]);
      } else {
        SubsequenceLength(a, b[1..]);
      }
    }
  }

  /** The filtered prices keep catalog order and are all numbers. */
  lemma {:induction false} FilteredPricesInOrder(ps: seq<Product>, sel: seq<string>)
    ensures IsSubsequence(NumericOnly(Prices(SelectedProductsOf(ps, sel))), Prices(ps))
    ensures forall v :: v in NumericOnly(Prices(SelectedProductsOf(ps, sel))) ==> v.Num?
  {
    var chosen := SelectedProductsOf(ps, sel);
    SelectedProductsSpec(ps, sel);
    NumericOnlySpec(Prices(chosen));
    PricesOfSubsequence(chosen, ps);
    SubsequenceTransitive(NumericOnly(Prices(chosen)), Prices(chosen), Prices(ps));
  }

  /** A price is among the filtered prices iff it is a number and the price of a selected product. */
  lemma {:induction false} FilteredPricesMembers(ps: seq<Product>, sel: seq<string>)
    ensures forall v :: v in NumericOnly(Prices(SelectedProductsOf(ps, sel))) <==>
              v.Num? && exists p :: p in ps && p.title in sel && p.price == v
  {
    var chosen := SelectedProductsOf(ps, sel);
    assert forall p :: p in chosen <==> p in ps && p.title in sel by {
      SelectedProductsSpec(ps, sel);
    }
    assert forall v :: v in NumericOnly(Prices(chosen)) <==> v in Prices(chosen) && v.Num? by {
      NumericOnlySpec(Prices(chosen));
    }
    forall v ensures v in Prices(chosen) <==> exists p :: p in chosen && p.price == v {
      if v in Prices(chosen) {
        var i :| 0 <= i < |chosen| && Prices(chosen)[i] == v;
        assert chosen[i] in chosen;
      }
    }
  }

  /** The y-axis values are prices of the list in catalog order. The filtered prices are the
      prices of `PricedSelection`, which `PricedSelectionUnique` pins down by order and
      multiplicity. When there are any they are the values, all numbers; otherwise the values
      are every price of the list, numeric or not. */
  lemma YAxisValuesSpec(products: Option<ProductResponse>, sel: seq<string>)
    ensures IsSubsequence(YAxisValues(products, sel), AllPrices(products))
    ensures products.Some? ==>
              FilteredPrices(products, sel) == Prices(PricedSelection(products.value.products, sel))
    ensures forall v :: v in FilteredPrices(products, sel) <==>
              v.Num? && products.Some? && exists p :: p in products.value.products && p.title in sel && p.price == v
    ensures |FilteredPrices(products, sel)| > 0 ==>
              YAxisValues(products, sel) == FilteredPrices(products, sel) &&
              forall v :: v in YAxisValues(products, sel) ==> v.Num?
    ensures |FilteredPrices(products, sel)| == 0 ==> YAxisValues(products, sel) == AllPrices(products)
  {
    SubsequenceReflexive(AllPrices(products));
    if products.Some? {
      var ps := products.value.products;
      PricesOfPricedSelection(ps, sel);
      FilteredPricesInOrder(ps, sel);
      FilteredPricesMembers(ps, sel);
    }
  }

  /** The products a report charts when every price is a number: the selected ones, or all
      of them when none is selected. */
  function ChartedProducts(ps: seq<Product>, sel: seq<string>): seq<Product>
  {
    var chosen := SelectedProductsOf(ps, sel);
    if |chosen| > 0 then chosen else ps
  }

  /** When every price is a number, label i and value i belong to the same product, so the
      two axes have the same length. */
  lemma AxesAlignWhenAllNumeric(resp: ProductResponse, sel: seq<string>)
    requires forall i :: 0 <= i < |resp.products| ==> resp.products[i].price.Num?
    ensures XAxisValues(Some(resp), sel) == Titles(ChartedProducts(resp.products, sel))
    ensures YAxisValues(Some(resp), sel) == Prices(ChartedProducts(resp.products, sel))
    ensures |XAxisValues(Some(resp), sel)| == |YAxisValues(Some(resp), sel)|
  {
    var ps := resp.products;
    var chosen := SelectedProductsOf(ps, sel);
    TitlesOfSelectedProducts(ps, sel);
    SelectedProductsSpec(ps, sel);
    forall i | 0 <= i < |Prices(chosen)| ensures Prices(chosen)[i].Num? {
      assert chosen[i] in ps;
    }
    NumericOnlyOfNumbers(Prices(chosen));
  }

  /** The two fallbacks are independent: a selected product whose price is not a number
      yields one label but sends the values to the unfiltered fallback. */
  lemma AxesMayDisagreeInLength()
    ensures var resp := ProductResponse([Product(1, "A", NotNum), Product(2, "B", Num(20.0))], 2);
            XAxisValues(Some(resp), ["A"]) == ["A"] &&
            YAxisValues(Some(resp), ["A"]) == [NotNum, Num(20.0)]
  {
  }

  /** A non-empty loaded list always yields non-empty labels and values. */
  lemma NonEmptyListGivesNonEmptyReport(products: Option<ProductResponse>, sel: seq<string>)
    requires products.Some? && |products.value.products| > 0
    ensures |XAxisValues(products, sel)| > 0 && |YAxisValues(products, sel)| > 0
  {
  }

  /** Only which titles are selected matters, not the order or repetition of the selection. */
  lemma SelectionOrderIrrelevant(products: Option<ProductResponse>, sel1: seq<string>, sel2: seq<string>)
    requires forall t :: t in sel1 <==> t in sel2
    ensures Derive(products, sel1) == Derive(products, sel2)
  {
    if products.Some? {
      var ps := products.value.products;
      SameSelectionSameProducts(ps, sel1, sel2);
      var all := Titles(ps);
      SelectedTitlesSpec(all, sel1);
      SelectedTitlesUnique(all, sel2, SelectedTitles(all, sel1));
    }
  }

  lemma {:induction false} SameSelectionSameProducts(ps: seq<Product>, sel1: seq<string>, sel2: seq<string>)
    requires forall t :: t in sel1 <==> t in sel2
    ensures SelectedProductsOf(ps, sel1) == SelectedProductsOf(ps, sel2)
  {
    if ps != [] {
      SameSelectionSameProducts(ps[1..], sel1, sel2);
    }
  }

  /** Three worked cases: one title selected, nothing selected, nothing loaded. */
  lemma ExampleReports()
    ensures var resp := ProductResponse([Product(1, "A", Num(10.0)), Product(2, "B", Num(20.0))], 2);
            && Derive(Some(resp), ["B"]) == Report(["B"], [Num(20.0)])
            && Derive(Some(resp), []) == Report(["A", "B"], [Num(10.0), Num(20.0)])
            && Derive(Some(ProductResponse([], 0)), ["X"]) == Report([], [])
  {
  }
}
