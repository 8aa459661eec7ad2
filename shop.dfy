/** The shop page's category buttons and the product list they filter. */
module Shop {
  import opened Wrappers
  import opened Backend

  /** The selection that shows every product. */
  const AllCategories: string := "all"

  predicate NoDuplicates(xs: seq<string>) {
    forall i, j :: 0 <= i < j < |xs| ==> xs[i] != xs[j]
  }

  /** The index of the first occurrence of `x` in `xs`. */
  function FirstIndex(xs: seq<string>, x: string): (k: nat)
    requires x in xs
    ensures k < |xs| && xs[k] == x
    ensures forall j :: 0 <= j < k ==> xs[j] != x
  {
    if xs[0] == x then 0 else 1 + FirstIndex(xs[1..], x)
  }

  /**
   * The members of `new Set(xs)` in iteration order: each value once, at its
   * first insertion.
   */
  function Distinct(xs: seq<string>): (r: seq<string>)
    ensures NoDuplicates(r)
    ensures forall x :: x in r <==> x in xs
    decreases |xs|
  {
    if |xs| == 0 then []
    else
      var init := xs[..|xs| - 1];
      var last := xs[|xs| - 1];
      assert xs == init + [last];
      var d := Distinct(init);
      if last in d then d else d + [last]
  }

  /** Appending a value does not move the first occurrence of any value already present. */
  lemma FirstIndexAppend(xs: seq<string>, y: string, x: string)
    requires x in xs
    ensures FirstIndex(xs + [y], x) == FirstIndex(xs, x)
  {
    var k := FirstIndex(xs, x);
    assert (xs + [y])[k] == x;
  }

  /** Distinct values come out in the order of their first occurrence. */
  lemma {:induction false} DistinctInFirstOccurrenceOrder(xs: seq<string>)
    ensures forall i, j :: 0 <= i < j < |Distinct(xs)| ==>
              FirstIndex(xs, Distinct(xs)[i]) < FirstIndex(xs, Distinct(xs)[j])
    decreases |xs|
  {
    if |xs| > 0 {
      var init := xs[..|xs| - 1];
      var last := xs[|xs| - 1];
      assert xs == init + [last];
      DistinctInFirstOccurrenceOrder(init);
      var d := Distinct(init);
      var r := Distinct(xs);
      forall i, j | 0 <= i < j < |r| ensures FirstIndex(xs, r[i]) < FirstIndex(xs, r[j]) {
        assert r[i] == d[i] && r[i] in init;
        FirstIndexAppend(init, last, r[i]);
        if j < |d| {
          assert r[j] == d[j];
          FirstIndexAppend(init, last, r[j]);
        } else {
          assert r[j] == last && last !in init;
          assert FirstIndex(xs, last) == |init|;
        }
      }
    }
  }

  /** Each product's category, in product order. */
  function CategoryNames(products: seq<Product>): seq<string>
  {
    seq(|products|, i requires 0 <= i < |products| => products[i].category)
  }

  /**
   * The category buttons: nothing before the products are loaded, otherwise
   * "all" followed by each distinct category once.
   */
  function Categories(products: Option<seq<Product>>): (r: seq<string>)
    ensures products.None? ==> r == []
    ensures products.Some? ==> |r| >= 1 && r[0] == AllCategories
    ensures products.Some? ==> NoDuplicates(r[1..])
    ensures products.Some? ==> forall c :: c in r[1..] <==> exists p :: p in products.value && p.category == c
  {
    match products
    case None => []
    case Some(ps) =>
      var names := CategoryNames(ps);
      var r := [AllCategories] + Distinct(names);
      assert r[1..] == Distinct(names);
      assert forall c :: c in names <==> exists p :: p in ps && p.category == c by {
        forall c ensures c in names <==> exists p :: p in ps && p.category == c {
          if c in names {
            var i :| 0 <= i < |names| && names[i] == c;
            assert ps[i] in ps;
          }
          if exists p :: p in ps && p.category == c {
            var p :| p in ps && p.category == c;
            var i :| 0 <= i < |ps| && ps[i] == p;
            assert names[i] == c;
          }
        }
      }
      r
  }

  /** After "all", categories appear in the order of the first product that has them. */
  lemma CategoriesInFirstOccurrenceOrder(ps: seq<Product>)
    ensures var r := Categories(Some(ps));
            forall i, j :: 1 <= i < j < |r| ==>
              FirstIndex(CategoryNames(ps), r[i]) < FirstIndex(CategoryNames(ps), r[j])
  {
    var names := CategoryNames(ps);
    DistinctInFirstOccurrenceOrder(names);
    var r := Categories(Some(ps));
    assert forall i :: 1 <= i < |r| ==> r[i] == Distinct(names)[i - 1];
  }

  /** `products.filter(p => p.category === c)`. */
  function InCategory(products: seq<Product>, c: string): (r: seq<Product>)
    ensures |r| <= |products|
    ensures forall p :: p in r <==> p in products && p.category == c
    decreases |products|
  {
    if |products| == 0 then []
    else
      assert products == [products[0]] + products[1..];
      (if products[0].category == c then [products[0]] else []) + InCategory(products[1..], c)
  }

  /** Filtering distributes over concatenation, so the original order is kept. */
  lemma {:induction false} InCategoryConcat(a: seq<Product>, b: seq<Product>, c: string)
    ensures InCategory(a + b, c) == InCategory(a, c) + InCategory(b, c)
    decreases |a|
  {
    if |a| == 0 {
      assert a + b == b;
    } else {
      assert (a + b)[0] == a[0];
      assert (a + b)[1..] == a[1..] + b;
      InCategoryConcat(a[1..], b, c);
    }
  }

  /** The products shown for the selected category. */
  function FilteredProducts(products: Option<seq<Product>>, selected: string): (r: seq<Product>)
    ensures products.None? ==> r == []
    ensures products.Some? && selected == AllCategories ==> r == products.value
    ensures products.Some? && selected != AllCategories ==>
              forall p :: p in r <==> p in products.value && p.category == selected
  {
    match products
    case None => []
    case Some(ps) => if selected == AllCategories then ps else InCategory(ps, selected)
  }

  /** Every product's category is offered as a button. */
  lemma CategoriesCoverProducts(ps: seq<Product>, p: Product)
    requires p in ps
    ensures p.category in Categories(Some(ps))
  {
    var r := Categories(Some(ps));
    assert p.category in r[1..];
  }

  /** Selecting any offered category other than "all" shows at least one product. */
  lemma OfferedCategoryIsNonEmpty(ps: seq<Product>, c: string)
    requires c in Categories(Some(ps)) && c != AllCategories
    ensures |FilteredProducts(Some(ps), c)| > 0
  {
    var r := Categories(Some(ps));
    assert c in r[1..] by {
      var i :| 0 <= i < |r| && r[i] == c;
      assert r[1..][i - 1] == c;
    }
    var p :| p in ps && p.category == c;
    assert p in FilteredProducts(Some(ps), c);
  }
}
