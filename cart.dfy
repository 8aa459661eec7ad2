/**
 * The shopper's cart: an ordered list of lines, each identified by the triple
 * (product id, size, color), and the store object that owns that list.
 *
 * The pure functions below give the list each store operation produces; the
 * class `CartStore` replaces its `items` field by exactly that list.
 */
module Cart {
  import opened Wrappers
  import opened Backend

  /** One cart line. `product` is the snapshot taken when the line was first added. */
  datatype CartItem = CartItem(
    product: Product,
    quantity: int,
    size: Option<string>,
    color: Option<string>)

  /**
   * The identity of a cart line. Components are compared by strict equality,
   * so an absent size or color (`None`) differs from every string, "" included.
   */
  datatype LineKey = LineKey(productId: ProductId, size: Option<string>, color: Option<string>)

  function KeyOf(item: CartItem): LineKey {
    LineKey(item.product.id, item.size, item.color)
  }

  predicate HasKey(items: seq<CartItem>, key: LineKey) {
    exists i :: 0 <= i < |items| && KeyOf(items[i]) == key
  }

  /** No two lines share a key. */
  predicate UniqueKeys(items: seq<CartItem>) {
    forall i, j :: 0 <= i < j < |items| ==> KeyOf(items[i]) != KeyOf(items[j])
  }

  /** Every line holds at least one unit. */
  predicate AllPositive(items: seq<CartItem>) {
    forall i :: 0 <= i < |items| ==> items[i].quantity >= 1
  }

  /** The index of the first line with `key`, or -1 when there is none (`findIndex`). */
  function FindIndex(items: seq<CartItem>, key: LineKey): (r: int)
    ensures -1 <= r < |items|
    ensures r == -1 <==> !HasKey(items, key)
    ensures r >= 0 ==> KeyOf(items[r]) == key
    ensures r >= 0 ==> forall j :: 0 <= j < r ==> KeyOf(items[j]) != key
  {
    if |items| == 0 then -1
    else if KeyOf(items[0]) == key then 0
    else
      var r := FindIndex(items[1..], key);
      if r == -1 then
        assert forall i :: 1 <= i < |items| ==> items[i] == items[1..][i - 1];
        -1
      else r + 1
  }

  /** FindIndex looks at keys only: two lists with the same keys, position by position, agree on it. */
  lemma FindIndexSameKeys(a: seq<CartItem>, b: seq<CartItem>, key: LineKey)
    requires |a| == |b|
    requires forall i :: 0 <= i < |a| ==> KeyOf(a[i]) == KeyOf(b[i])
    ensures FindIndex(a, key) == FindIndex(b, key)
  {
    var ra, rb := FindIndex(a, key), FindIndex(b, key);
    if ra >= 0 {
      assert KeyOf(b[ra]) == key;
    }
    if rb >= 0 {
      assert KeyOf(a[rb]) == key;
    }
  }

  /** Under unique keys, the line with `key` is the one FindIndex returns. */
  lemma FindIndexUnique(items: seq<CartItem>, key: LineKey, i: int)
    requires UniqueKeys(items)
    requires 0 <= i < |items| && KeyOf(items[i]) == key
    ensures FindIndex(items, key) == i
  {
  }

  // ---------------------------------------------------------------------------
  // addItem

  /**
   * The line list after `addItem(product, quantity, size, color)`: one line more
   * exactly when no line has the key; every earlier line keeps its key and its
   * product snapshot. `AddMergesExisting` and `AddAppendsNew` give the lines exactly.
   */
  function AfterAdd(items: seq<CartItem>, product: Product, quantity: int,
                    size: Option<string>, color: Option<string>): (r: seq<CartItem>)
    ensures |r| == if HasKey(items, LineKey(product.id, size, color)) then |items| else |items| + 1
    ensures forall j :: 0 <= j < |items| ==> KeyOf(r[j]) == KeyOf(items[j]) && r[j].product == items[j].product
  {
    var i := FindIndex(items, LineKey(product.id, size, color));
    if i >= 0 then items[i := items[i].(quantity := items[i].quantity + quantity)]
    else items + [CartItem(product, quantity, size, color)]
  }

  /**
   * Adding for a key that already has a line increases that line's quantity by
   * exactly `quantity`; the number of lines, their order, the line's product
   * snapshot and every other line are unchanged.
   */
  lemma AddMergesExisting(items: seq<CartItem>, product: Product, quantity: int,
                          size: Option<string>, color: Option<string>, i: int)
    requires UniqueKeys(items)
    requires 0 <= i < |items| && KeyOf(items[i]) == LineKey(product.id, size, color)
    ensures |AfterAdd(items, product, quantity, size, color)| == |items|
    ensures AfterAdd(items, product, quantity, size, color)[i]
         == items[i].(quantity := items[i].quantity + quantity)
    ensures forall j :: 0 <= j < |items| && j != i ==>
              AfterAdd(items, product, quantity, size, color)[j] == items[j]
  {
    FindIndexUnique(items, LineKey(product.id, size, color), i);
  }

  /** Adding for a key with no line appends one new line at the end; earlier lines are unchanged. */
  lemma AddAppendsNew(items: seq<CartItem>, product: Product, quantity: int,
                      size: Option<string>, color: Option<string>)
    requires !HasKey(items, LineKey(product.id, size, color))
    ensures AfterAdd(items, product, quantity, size, color)
         == items + [CartItem(product, quantity, size, color)]
  {
  }

  /** After adding, the cart has a line for the key, and the set of keys grows by that key only. */
  lemma AddKeys(items: seq<CartItem>, product: Product, quantity: int,
                size: Option<string>, color: Option<string>, k: LineKey)
    ensures HasKey(AfterAdd(items, product, quantity, size, color), k)
        <==> HasKey(items, k) || k == LineKey(product.id, size, color)
  {
    var key := LineKey(product.id, size, color);
    var r := AfterAdd(items, product, quantity, size, color);
    var i := FindIndex(items, key);
    if i >= 0 {
      assert forall j :: 0 <= j < |items| ==> KeyOf(r[j]) == KeyOf(items[j]);
      if HasKey(items, k) {
        var j :| 0 <= j < |items| && KeyOf(items[j]) == k;
        assert KeyOf(r[j]) == k;
      }
      if k == key {
        assert KeyOf(r[i]) == k;
      }
    } else {
      assert KeyOf(r[|items|]) == key;
      if HasKey(items, k) {
        var j :| 0 <= j < |items| && KeyOf(items[j]) == k;
        assert KeyOf(r[j]) == k;
      }
    }
  }

  /** addItem never creates a second line for a key. */
  lemma AddKeepsKeysUnique(items: seq<CartItem>, product: Product, quantity: int,
                           size: Option<string>, color: Option<string>)
    requires UniqueKeys(items)
    ensures UniqueKeys(AfterAdd(items, product, quantity, size, color))
  {
    var key := LineKey(product.id, size, color);
    var r := AfterAdd(items, product, quantity, size, color);
    if FindIndex(items, key) >= 0 {
      assert forall j :: 0 <= j < |items| ==> KeyOf(r[j]) == KeyOf(items[j]);
    } else {
      assert forall j :: 0 <= j < |items| ==> KeyOf(items[j]) != key;
      assert forall j :: 0 <= j < |items| ==> r[j] == items[j];
      assert KeyOf(r[|items|]) == key;
    }
  }

  /** Adding a positive quantity keeps every line's quantity at least 1. */
  lemma AddKeepsPositive(items: seq<CartItem>, product: Product, quantity: int,
                         size: Option<string>, color: Option<string>)
    requires AllPositive(items) && quantity >= 1
    ensures AllPositive(AfterAdd(items, product, quantity, size, color))
  {
  }

  /**
   * Merge law: two adds for the same key equal one add of the summed quantity.
   * The line keeps the product snapshot of the first add, whatever the second passes.
   */
  lemma AddTwiceMerges(items: seq<CartItem>, p1: Product, q1: int, p2: Product, q2: int,
                       size: Option<string>, color: Option<string>)
    requires p2.id == p1.id
    ensures AfterAdd(AfterAdd(items, p1, q1, size, color), p2, q2, size, color)
         == AfterAdd(items, p1, q1 + q2, size, color)
  {
    var key := LineKey(p1.id, size, color);
    var once := AfterAdd(items, p1, q1, size, color);
    var i := FindIndex(items, key);
    if i >= 0 {
      FindIndexSameKeys(items, once, key);
    } else {
      assert KeyOf(once[|items|]) == key;
      assert forall j :: 0 <= j < |items| ==> KeyOf(once[j]) == KeyOf(items[j]);
      assert FindIndex(once, key) == |items|;
    }
  }

  /**
   * Keys that differ (in id, size or color) give separate lines: adding two
   * absent, distinct keys appends two lines in order.
   */
  lemma AddDistinctKeysAppendsTwo(items: seq<CartItem>, p1: Product, q1: int,
                                  s1: Option<string>, c1: Option<string>,
                                  p2: Product, q2: int, s2: Option<string>, c2: Option<string>)
    requires LineKey(p1.id, s1, c1) != LineKey(p2.id, s2, c2)
    requires !HasKey(items, LineKey(p1.id, s1, c1)) && !HasKey(items, LineKey(p2.id, s2, c2))
    ensures AfterAdd(AfterAdd(items, p1, q1, s1, c1), p2, q2, s2, c2)
         == items + [CartItem(p1, q1, s1, c1), CartItem(p2, q2, s2, c2)]
  {
    var once := items + [CartItem(p1, q1, s1, c1)];
    AddKeys(items, p1, q1, s1, c1, LineKey(p2.id, s2, c2));
    assert AfterAdd(once, p2, q2, s2, c2) == once + [CartItem(p2, q2, s2, c2)];
  }

  // ---------------------------------------------------------------------------
  // removeItem

  /** The lines whose key differs from `key`, in their order (`filter`). */
  function Kept(items: seq<CartItem>, key: LineKey): seq<CartItem>
    decreases |items|
  {
    if |items| == 0 then []
    else (if KeyOf(items[0]) == key then [] else [items[0]]) + Kept(items[1..], key)
  }

  /** What the filter keeps: only lines without the key, all of them, and nothing new. */
  lemma {:induction false} KeptLines(items: seq<CartItem>, key: LineKey)
    ensures |Kept(items, key)| <= |items|
    ensures forall i :: 0 <= i < |Kept(items, key)| ==> KeyOf(Kept(items, key)[i]) != key
    ensures forall x :: x in Kept(items, key) ==> x in items
    ensures forall x :: x in items && KeyOf(x) != key ==> x in Kept(items, key)
    ensures !HasKey(items, key) ==> Kept(items, key) == items
    decreases |items|
  {
    if |items| > 0 {
      KeptLines(items[1..], key);
      assert !HasKey(items, key) ==> !HasKey(items[1..], key) by {
        if HasKey(items[1..], key) {
          var j :| 0 <= j < |items[1..]| && KeyOf(items[1..][j]) == key;
          assert KeyOf(items[j + 1]) == key;
        }
      }
      assert items == [items[0]] + items[1..];
    }
  }

  /** The filter distributes over concatenation. */
  lemma {:induction false} KeptConcat(a: seq<CartItem>, b: seq<CartItem>, key: LineKey)
    ensures Kept(a + b, key) == Kept(a, key) + Kept(b, key)
    decreases |a|
  {
    if |a| == 0 {
      assert a + b == b;
    } else {
      assert (a + b)[0] == a[0];
      assert (a + b)[1..] == a[1..] + b;
      KeptConcat(a[1..], b, key);
    }
  }

  /** The line list after `removeItem(key)`. */
  function AfterRemove(items: seq<CartItem>, key: LineKey): (r: seq<CartItem>)
    ensures |r| <= |items|
    ensures forall i :: 0 <= i < |r| ==> KeyOf(r[i]) != key
    ensures forall x :: x in r ==> x in items
    ensures forall x :: x in items && KeyOf(x) != key ==> x in r
    ensures !HasKey(items, key) ==> r == items
  {
    KeptLines(items, key);
    Kept(items, key)
  }

  /** Removal from a non-empty list: the first line is kept or dropped, then the rest. */
  lemma RemoveCons(items: seq<CartItem>, key: LineKey)
    requires |items| > 0
    ensures AfterRemove(items, key)
         == (if KeyOf(items[0]) == key then [] else [items[0]]) + AfterRemove(items[1..], key)
  {
  }

  /** Removal distributes over concatenation, so the kept lines stay in their original order. */
  lemma RemoveConcat(a: seq<CartItem>, b: seq<CartItem>, key: LineKey)
    ensures AfterRemove(a + b, key) == AfterRemove(a, key) + AfterRemove(b, key)
  {
    KeptConcat(a, b, key);
  }

  /** Under unique keys, a slice that leaves out the line with `key` has no line with it. */
  lemma NoKeyOutside(items: seq<CartItem>, key: LineKey, i: int, lo: int, hi: int)
    requires UniqueKeys(items)
    requires 0 <= i < |items| && KeyOf(items[i]) == key
    requires 0 <= lo <= hi <= |items| && !(lo <= i < hi)
    ensures !HasKey(items[lo..hi], key)
  {
  }

  /** With unique keys, removing an existing key deletes exactly that one line. */
  lemma RemoveExisting(items: seq<CartItem>, key: LineKey, i: int)
    requires UniqueKeys(items)
    requires 0 <= i < |items| && KeyOf(items[i]) == key
    ensures AfterRemove(items, key) == items[..i] + items[i + 1..]
    ensures |AfterRemove(items, key)| == |items| - 1
  {
    var pre, post := items[..i], items[i + 1..];
    var tail := [items[i]] + post;
    assert items == pre + tail;
    NoKeyOutside(items, key, i, 0, i);
    NoKeyOutside(items, key, i, i + 1, |items|);
    assert AfterRemove(pre, key) == pre;
    assert AfterRemove(post, key) == post;
    assert tail[0] == items[i] && tail[1..] == post;
    assert AfterRemove(tail, key) == post;
    RemoveConcat(pre, tail, key);
  }

  /** The lines after the first of a list with unique keys have unique keys. */
  lemma TailKeysUnique(items: seq<CartItem>)
    requires |items| > 0 && UniqueKeys(items)
    ensures UniqueKeys(items[1..])
    ensures forall x :: x in items[1..] ==> KeyOf(x) != KeyOf(items[0])
  {
    var tail := items[1..];
    forall i, j | 0 <= i < j < |tail| ensures KeyOf(tail[i]) != KeyOf(tail[j]) {
      assert tail[i] == items[i + 1] && tail[j] == items[j + 1];
    }
    forall x | x in tail ensures KeyOf(x) != KeyOf(items[0]) {
      var j :| 0 <= j < |tail| && tail[j] == x;
      assert items[j + 1] == x;
    }
  }

  /** Putting a line in front of lines with other keys keeps keys unique. */
  lemma ConsKeysUnique(x: CartItem, rest: seq<CartItem>)
    requires UniqueKeys(rest)
    requires forall y :: y in rest ==> KeyOf(y) != KeyOf(x)
    ensures UniqueKeys([x] + rest)
  {
    var r := [x] + rest;
    forall i, j | 0 <= i < j < |r| ensures KeyOf(r[i]) != KeyOf(r[j]) {
      assert r[j] == rest[j - 1];
      if i > 0 {
        assert r[i] == rest[i - 1];
      }
    }
  }

  /** removeItem keeps keys unique. */
  lemma {:induction false} RemoveKeepsKeysUnique(items: seq<CartItem>, key: LineKey)
    requires UniqueKeys(items)
    ensures UniqueKeys(AfterRemove(items, key))
  {
    if |items| > 0 {
      TailKeysUnique(items);
      RemoveKeepsKeysUnique(items[1..], key);
      RemoveCons(items, key);
      if KeyOf(items[0]) != key {
        ConsKeysUnique(items[0], AfterRemove(items[1..], key));
      }
    }
  }

  /** removeItem keeps every quantity at least 1. */
  lemma RemoveKeepsPositive(items: seq<CartItem>, key: LineKey)
    requires AllPositive(items)
    ensures AllPositive(AfterRemove(items, key))
  {
    var r := AfterRemove(items, key);
    forall i | 0 <= i < |r| ensures r[i].quantity >= 1 {
      assert r[i] in items;
    }
  }

  // ---------------------------------------------------------------------------
  // updateQuantity

  /** Every line with `key` gets `quantity`; all else is kept (`map` with `{ ...item, quantity }`). */
  function WithQuantity(items: seq<CartItem>, key: LineKey, quantity: int): (r: seq<CartItem>)
    ensures |r| == |items|
    ensures forall i :: 0 <= i < |r| ==> KeyOf(r[i]) == KeyOf(items[i]) && r[i].product == items[i].product
    ensures forall i :: 0 <= i < |r| ==>
              r[i].quantity == if KeyOf(items[i]) == key then quantity else items[i].quantity
  {
    seq(|items|, i requires 0 <= i < |items| =>
      if KeyOf(items[i]) == key then items[i].(quantity := quantity) else items[i])
  }

  /** With unique keys, removing a key the cart holds shortens it by exactly one line. */
  lemma RemoveLength(items: seq<CartItem>, key: LineKey)
    ensures UniqueKeys(items) && HasKey(items, key) ==> |AfterRemove(items, key)| == |items| - 1
  {
    if UniqueKeys(items) && HasKey(items, key) {
      RemoveExisting(items, key, FindIndex(items, key));
    }
  }

  /**
   * The line list after `updateQuantity(key, quantity)`: for a quantity of 0 or
   * less the lines with `key` are dropped (the same filter as removeItem),
   * otherwise they take the new quantity in place.
   */
  function AfterUpdate(items: seq<CartItem>, key: LineKey, quantity: int): (r: seq<CartItem>)
    ensures quantity <= 0 ==> forall i :: 0 <= i < |r| ==> KeyOf(r[i]) != key
    ensures quantity <= 0 ==> forall x :: x in r ==> x in items
    ensures quantity <= 0 ==> forall x :: x in items && KeyOf(x) != key ==> x in r
    ensures quantity <= 0 && UniqueKeys(items) && HasKey(items, key) ==> |r| == |items| - 1
    ensures quantity > 0 ==> |r| == |items|
    ensures quantity > 0 ==> forall i :: 0 <= i < |r| ==>
              KeyOf(r[i]) == KeyOf(items[i]) && r[i].product == items[i].product
              && r[i].quantity == if KeyOf(items[i]) == key then quantity else items[i].quantity
  {
    if quantity <= 0 then
      RemoveLength(items, key);
      AfterRemove(items, key)
    else
      WithQuantity(items, key, quantity)
  }

  /**
   * With unique keys, a positive update of an existing line replaces that line's
   * quantity; length, order and the other lines are unchanged.
   */
  lemma UpdateExisting(items: seq<CartItem>, key: LineKey, quantity: int, i: int)
    requires UniqueKeys(items) && quantity > 0
    requires 0 <= i < |items| && KeyOf(items[i]) == key
    ensures AfterUpdate(items, key, quantity) == items[i := items[i].(quantity := quantity)]
  {
  }

  /** A positive update on an absent key changes nothing. */
  lemma UpdateMissing(items: seq<CartItem>, key: LineKey, quantity: int)
    requires !HasKey(items, key)
    ensures AfterUpdate(items, key, quantity) == items
  {
    if quantity > 0 {
      assert forall i :: 0 <= i < |items| ==> KeyOf(items[i]) != key;
    }
  }

  /** updateQuantity keeps keys unique and, for any quantity, every line's quantity at least 1. */
  lemma UpdateKeepsValid(items: seq<CartItem>, key: LineKey, quantity: int)
    requires UniqueKeys(items) && AllPositive(items)
    ensures UniqueKeys(AfterUpdate(items, key, quantity))
    ensures AllPositive(AfterUpdate(items, key, quantity))
  {
    if quantity <= 0 {
      RemoveKeepsKeysUnique(items, key);
      RemoveKeepsPositive(items, key);
    }
  }

  // ---------------------------------------------------------------------------
  // getTotal and getItemCount

  /** What one line contributes to the total: unit price × quantity. */
  function LineTotal(item: CartItem): int {
    item.product.price * item.quantity
  }

  function LineQuantity(item: CartItem): int {
    item.quantity
  }

  /** `items.reduce((acc, item) => acc + f(item), acc)`: a left-to-right fold. */
  function Reduce(items: seq<CartItem>, acc: int, f: CartItem -> int): int
    decreases |items|
  {
    if |items| == 0 then acc else Reduce(items[1..], acc + f(items[0]), f)
  }

  /** The reference sum Σ f(line) over the lines. */
  function Sum(items: seq<CartItem>, f: CartItem -> int): int
    decreases |items|
  {
    if |items| == 0 then 0 else f(items[0]) + Sum(items[1..], f)
  }

  /** The fold computes the reference sum, offset by its start value. */
  lemma {:induction false} ReduceIsSum(items: seq<CartItem>, acc: int, f: CartItem -> int)
    ensures Reduce(items, acc, f) == acc + Sum(items, f)
    decreases |items|
  {
    if |items| > 0 {
      ReduceIsSum(items[1..], acc + f(items[0]), f);
    }
  }

  lemma {:induction false} SumConcat(a: seq<CartItem>, b: seq<CartItem>, f: CartItem -> int)
    ensures Sum(a + b, f) == Sum(a, f) + Sum(b, f)
    decreases |a|
  {
    if |a| == 0 {
      assert a + b == b;
    } else {
      assert (a + b)[0] == a[0];
      assert (a + b)[1..] == a[1..] + b;
      SumConcat(a[1..], b, f);
    }
  }

  /** Replacing one line changes the sum by the difference of the two lines' contributions. */
  lemma SumReplace(items: seq<CartItem>, i: int, x: CartItem, f: CartItem -> int)
    requires 0 <= i < |items|
    ensures Sum(items[i := x], f) == Sum(items, f) - f(items[i]) + f(x)
  {
    assert items == items[..i] + [items[i]] + items[i + 1..];
    assert items[i := x] == items[..i] + [x] + items[i + 1..];
    SumConcat(items[..i] + [items[i]], items[i + 1..], f);
    SumConcat(items[..i], [items[i]], f);
    SumConcat(items[..i] + [x], items[i + 1..], f);
    SumConcat(items[..i], [x], f);
  }

  /** `getTotal`: Σ price × quantity over the lines; 0 for an empty cart. */
  function Total(items: seq<CartItem>): (t: int)
    ensures t == Sum(items, LineTotal)
    ensures items == [] ==> t == 0
  {
    ReduceIsSum(items, 0, LineTotal);
    Reduce(items, 0, LineTotal)
  }

  /** `getItemCount`: Σ quantity over the lines; 0 for an empty cart. */
  function ItemCount(items: seq<CartItem>): (n: int)
    ensures n == Sum(items, LineQuantity)
    ensures items == [] ==> n == 0
    ensures AllPositive(items) ==> n >= |items|
  {
    ReduceIsSum(items, 0, LineQuantity);
    CountAtLeastLines(items);
    Reduce(items, 0, LineQuantity)
  }

  lemma {:induction false} CountAtLeastLines(items: seq<CartItem>)
    ensures AllPositive(items) ==> Sum(items, LineQuantity) >= |items|
    decreases |items|
  {
    if |items| > 0 {
      CountAtLeastLines(items[1..]);
    }
  }

  /**
   * addItem raises the total by the added quantity priced at the line's snapshot:
   * the existing line's price when it merges, the new product's price otherwise.
   */
  lemma AddTotal(items: seq<CartItem>, product: Product, quantity: int,
                 size: Option<string>, color: Option<string>)
    ensures var i := FindIndex(items, LineKey(product.id, size, color));
            var price := if i >= 0 then items[i].product.price else product.price;
            Total(AfterAdd(items, product, quantity, size, color)) == Total(items) + price * quantity
  {
    var i := FindIndex(items, LineKey(product.id, size, color));
    if i >= 0 {
      var line := items[i];
      SumReplace(items, i, line.(quantity := line.quantity + quantity), LineTotal);
      assert line.product.price * (line.quantity + quantity)
          == line.product.price * line.quantity + line.product.price * quantity;
    } else {
      SumConcat(items, [CartItem(product, quantity, size, color)], LineTotal);
    }
  }

  /** addItem raises the item count by exactly the added quantity. */
  lemma AddItemCount(items: seq<CartItem>, product: Product, quantity: int,
                     size: Option<string>, color: Option<string>)
    ensures ItemCount(AfterAdd(items, product, quantity, size, color)) == ItemCount(items) + quantity
  {
    var i := FindIndex(items, LineKey(product.id, size, color));
    if i >= 0 {
      SumReplace(items, i, items[i].(quantity := items[i].quantity + quantity), LineQuantity);
    } else {
      SumConcat(items, [CartItem(product, quantity, size, color)], LineQuantity);
    }
  }

  /** Taking `x` out from between `pre` and `post` lowers a sum by `f(x)`. */
  lemma SumSplice(pre: seq<CartItem>, x: CartItem, post: seq<CartItem>, f: CartItem -> int)
    ensures Sum(pre + ([x] + post), f) == Sum(pre + post, f) + f(x)
  {
    SumConcat(pre, [x] + post, f);
    SumConcat(pre, post, f);
    assert ([x] + post)[1..] == post;
  }

  /** Deleting the line at `i` lowers a sum by that line's term. */
  lemma SumDelete(items: seq<CartItem>, i: int, f: CartItem -> int)
    requires 0 <= i < |items|
    ensures Sum(items[..i] + items[i + 1..], f) == Sum(items, f) - f(items[i])
  {
    Splice(items, i);
    SumSplice(items[..i], items[i], items[i + 1..], f);
  }

  /** A list is its lines before `i`, the line at `i`, and its lines after `i`. */
  lemma Splice(items: seq<CartItem>, i: int)
    requires 0 <= i < |items|
    ensures items == items[..i] + ([items[i]] + items[i + 1..])
  {
    assert items == items[..i] + items[i..];
    assert items[i..] == [items[i]] + items[i + 1..];
  }

  /** Removing an existing line (unique keys) lowers the total by that line's amount. */
  lemma RemoveTotal(items: seq<CartItem>, key: LineKey, i: int)
    requires UniqueKeys(items)
    requires 0 <= i < |items| && KeyOf(items[i]) == key
    ensures Total(AfterRemove(items, key)) == Total(items) - LineTotal(items[i])
    ensures ItemCount(AfterRemove(items, key)) == ItemCount(items) - items[i].quantity
  {
    RemoveExisting(items, key, i);
    SumDelete(items, i, LineTotal);
    SumDelete(items, i, LineQuantity);
  }

  /** A positive update of an existing line (unique keys) reprices just that line. */
  lemma UpdateTotal(items: seq<CartItem>, key: LineKey, quantity: int, i: int)
    requires UniqueKeys(items) && quantity > 0
    requires 0 <= i < |items| && KeyOf(items[i]) == key
    ensures Total(AfterUpdate(items, key, quantity))
         == Total(items) - LineTotal(items[i]) + items[i].product.price * quantity
    ensures ItemCount(AfterUpdate(items, key, quantity))
         == ItemCount(items) - items[i].quantity + quantity
  {
    UpdateExisting(items, key, quantity, i);
    SumReplace(items, i, items[i].(quantity := quantity), LineTotal);
    SumReplace(items, i, items[i].(quantity := quantity), LineQuantity);
  }

  // ---------------------------------------------------------------------------
  // The store

  /** The cart store: its only state is the list of lines, replaced by every operation. */
  class CartStore {
    var items: seq<CartItem>

    /** The store's invariant. */
    predicate Valid()
      reads this
    {
      ValidLines(items)
    }

    /** The store starts empty. */
    constructor ()
      ensures items == [] && Valid()
    {
      items := [];
    }

    /** Merge into the first line with the same key, or append a new line. */
    method AddItem(product: Product, quantity: int, size: Option<string>, color: Option<string>)
      modifies this
      ensures items == AfterAdd(old(items), product, quantity, size, color)
      ensures old(Valid()) && quantity >= 1 ==> Valid()
      ensures ItemCount(items) == ItemCount(old(items)) + quantity
    {
      var existingIndex := FindIndex(items, LineKey(product.id, size, color));
      ghost var before := items;
      if existingIndex >= 0 {
        var line := items[existingIndex];
        items := items[existingIndex := line.(quantity := line.quantity + quantity)];
      } else {
        items := items + [CartItem(product, quantity, size, color)];
      }
      if UniqueKeys(before) {
        AddKeepsKeysUnique(before, product, quantity, size, color);
      }
      if AllPositive(before) && quantity >= 1 {
        AddKeepsPositive(before, product, quantity, size, color);
      }
      AddItemCount(before, product, quantity, size, color);
    }

    /** Drop every line with the key; the rest keep their order. */
    method RemoveItem(productId: ProductId, size: Option<string>, color: Option<string>)
      modifies this
      ensures items == AfterRemove(old(items), LineKey(productId, size, color))
      ensures old(Valid()) ==> Valid()
    {
      ghost var before := items;
      items := AfterRemove(items, LineKey(productId, size, color));
      if ValidLines(before) {
        RemoveKeepsKeysUnique(before, LineKey(productId, size, color));
        RemoveKeepsPositive(before, LineKey(productId, size, color));
      }
    }

    /** Remove the key's lines when `quantity <= 0`, else set their quantity. */
    method UpdateQuantity(productId: ProductId, quantity: int, size: Option<string>, color: Option<string>)
      modifies this
      ensures items == AfterUpdate(old(items), LineKey(productId, size, color), quantity)
      ensures old(Valid()) ==> Valid()
    {
      ghost var before := items;
      var key := LineKey(productId, size, color);
      if quantity <= 0 {
        items := AfterRemove(items, key);
      } else {
        items := WithQuantity(items, key, quantity);
      }
      if ValidLines(before) {
        UpdateKeepsValid(before, key, quantity);
      }
    }

    /** Empty the cart; the result does not depend on the old state, so a second call changes nothing. */
    method ClearCart()
      modifies this
      ensures items == [] && Valid()
    {
      items := [];
    }

    method GetTotal() returns (total: int)
      ensures total == Sum(items, LineTotal)
    {
      total := Total(items);
    }

    method GetItemCount() returns (count: int)
      ensures count == Sum(items, LineQuantity)
    {
      count := ItemCount(items);
    }
  }

  /** The store invariant on a plain list of lines: one line per key, none without units. */
  predicate ValidLines(items: seq<CartItem>) {
    UniqueKeys(items) && AllPositive(items)
  }
}
