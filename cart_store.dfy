/**
 * The client-side shopping bag: a list of line items keyed by
 * (id, selected size, selected material), with merge-on-add, removal and
 * quantity update by exact key, and the two sums the UI shows.
 */
module CartStore {
  import opened Options

  /** The identity of a line: two lines with the same key are merged. */
  datatype LineKey = LineKey(id: string, size: Option<string>, material: Option<string>)

  /** One line of the bag. `id` is the variant id (or the product id). */
  datatype CartItem = CartItem(
    id: string,
    slug: string,
    name: string,
    price: int,
    image: string,
    quantity: int,
    selectedSize: Option<string>,
    selectedMaterial: Option<string>)
  {
    function Key(): LineKey {
      LineKey(id, selectedSize, selectedMaterial)
    }
  }

  /** The bag's invariant: no two lines share a key. */
  predicate UniqueKeys(items: seq<CartItem>) {
    forall i, j | 0 <= i < j < |items| :: items[i].Key() != items[j].Key()
  }

  /** `findIndex`: the first line whose key is `k`, if any. */
  function FindIndex(items: seq<CartItem>, k: LineKey): (r: Option<nat>)
    ensures r.Some? ==> r.value < |items| && items[r.value].Key() == k
    ensures r.Some? ==> forall j | 0 <= j < r.value :: items[j].Key() != k
    ensures r.None? <==> forall j | 0 <= j < |items| :: items[j].Key() != k
  {
    if items == [] then None
    else if items[0].Key() == k then Some(0)
    else match FindIndex(items[1..], k)
      case None => None
      case Some(i) => Some(i + 1)
  }

  /** The bag after adding `x`: merged into the line with its key, or appended. */
  function WithItem(items: seq<CartItem>, x: CartItem): (r: seq<CartItem>)
    ensures |items| <= |r| <= |items| + 1
    ensures forall j | 0 <= j < |items| :: r[j].Key() == items[j].Key()
    ensures FindIndex(r, x.Key()).Some?
  {
    match FindIndex(items, x.Key())
    case Some(i) => items[i := items[i].(quantity := items[i].quantity + x.quantity)]
    case None =>
      var r := items + [x];
      assert r[|items|].Key() == x.Key();
      r
  }

  /** The bag without the lines whose key is `k`, the rest in order (`filter`). */
  function Removed(items: seq<CartItem>, k: LineKey): (r: seq<CartItem>)
    ensures |r| <= |items|
  {
    if items == [] then []
    else (if items[0].Key() == k then [] else [items[0]]) + Removed(items[1..], k)
  }

  /** The bag with the quantity of the lines whose key is `k` set to `q` (`map`). */
  function Updated(items: seq<CartItem>, k: LineKey, q: int): (r: seq<CartItem>)
    ensures |r| == |items|
    ensures forall j | 0 <= j < |items| :: r[j].Key() == items[j].Key()
    ensures forall j | 0 <= j < |items| && items[j].Key() == k :: r[j].quantity == q
    ensures forall j | 0 <= j < |items| && items[j].Key() != k :: r[j] == items[j]
  {
    seq(|items|, i requires 0 <= i < |items| =>
      if items[i].Key() == k then items[i].(quantity := q) else items[i])
  }

  /** What one line adds to the total. */
  function LineTotal(x: CartItem): (r: int)
    ensures x.price >= 0 && x.quantity >= 0 ==> r >= 0
  {
    x.price * x.quantity
  }

  /** `getCartTotal`: the left fold of `price * quantity` from 0. */
  function Total(items: seq<CartItem>): (r: int)
    ensures items == [] ==> r == 0
  {
    if items == [] then 0 else Total(items[..|items| - 1]) + LineTotal(items[|items| - 1])
  }

  /** `getCartCount`: the left fold of `quantity` from 0. */
  function Count(items: seq<CartItem>): (r: int)
    ensures items == [] ==> r == 0
  {
    if items == [] then 0 else Count(items[..|items| - 1]) + items[|items| - 1].quantity
  }

  // ---------------------------------------------------------------------------
  // The sums

  lemma {:induction false} TotalAppend(a: seq<CartItem>, b: seq<CartItem>)
    ensures Total(a + b) == Total(a) + Total(b)
  {
    if b != [] {
      var c := a + b;
      assert c[..|c| - 1] == a + b[..|b| - 1];
      TotalAppend(a, b[..|b| - 1]);
    } else {
      assert a + b == a;
    }
  }

  lemma {:induction false} CountAppend(a: seq<CartItem>, b: seq<CartItem>)
    ensures Count(a + b) == Count(a) + Count(b)
  {
    if b != [] {
      var c := a + b;
      assert c[..|c| - 1] == a + b[..|b| - 1];
      CountAppend(a, b[..|b| - 1]);
    } else {
      assert a + b == a;
    }
  }

  lemma SplitAt(items: seq<CartItem>, i: nat)
    requires i < |items|
    ensures items == items[..i] + [items[i]] + items[i + 1..]
  {
    assert items[i..] == [items[i]] + items[i + 1..];
    assert items == items[..i] + items[i..];
  }

  lemma Distribute(p: int, q: int, d: int)
    ensures p * (q + d) == p * q + d * p
  {
  }

  lemma Singleton(x: CartItem)
    ensures Total([x]) == LineTotal(x) && Count([x]) == x.quantity
  {
    assert [x][..0] == [];
  }

  /** Replacing one line changes the sums by the difference of that line only. */
  lemma SumsReplaceAt(items: seq<CartItem>, i: nat, v: CartItem)
    requires i < |items|
    ensures Total(items[i := v]) == Total(items) - LineTotal(items[i]) + LineTotal(v)
    ensures Count(items[i := v]) == Count(items) - items[i].quantity + v.quantity
  {
    var pre, post := items[..i], items[i + 1..];
    var a, b := pre + [items[i]], pre + [v];
    assert items == a + post;
    assert items[i := v] == b + post;
    Singleton(items[i]);
    Singleton(v);
    TotalAppend(a, post);
    TotalAppend(b, post);
    TotalAppend(pre, [items[i]]);
    TotalAppend(pre, [v]);
    assert Total(items) == Total(pre) + LineTotal(items[i]) + Total(post);
    assert Total(items[i := v]) == Total(pre) + LineTotal(v) + Total(post);
    CountAppend(a, post);
    CountAppend(b, post);
    CountAppend(pre, [items[i]]);
    CountAppend(pre, [v]);
    assert Count(items) == Count(pre) + items[i].quantity + Count(post);
    assert Count(items[i := v]) == Count(pre) + v.quantity + Count(post);
  }

  /** Removing one line lowers the sums by that line's share. */
  lemma SumsRemoveAt(items: seq<CartItem>, i: nat)
    requires i < |items|
    ensures Total(items[..i] + items[i + 1..]) == Total(items) - LineTotal(items[i])
    ensures Count(items[..i] + items[i + 1..]) == Count(items) - items[i].quantity
  {
    var pre, post := items[..i], items[i + 1..];
    var a := pre + [items[i]];
    SplitAt(items, i);
    Singleton(items[i]);
    TotalAppend(a, post);
    TotalAppend(pre, [items[i]]);
    TotalAppend(pre, post);
    assert Total(items) == Total(pre) + LineTotal(items[i]) + Total(post);
    CountAppend(a, post);
    CountAppend(pre, [items[i]]);
    CountAppend(pre, post);
    assert Count(items) == Count(pre) + items[i].quantity + Count(post);
  }

  /** With no negative price or quantity the total is never negative. */
  lemma {:induction false} TotalNonNegative(items: seq<CartItem>)
    requires forall i | 0 <= i < |items| :: items[i].price >= 0 && items[i].quantity >= 0
    ensures Total(items) >= 0
  {
    if items != [] {
      var init := items[..|items| - 1];
      assert forall i | 0 <= i < |init| :: init[i] == items[i];
      TotalNonNegative(init);
    }
  }

  /**
   * With every quantity at least 1 the count is at least the number of lines,
   * so it is zero exactly when the bag is empty.
   */
  lemma {:induction false} CountAtLeastLines(items: seq<CartItem>)
    requires forall i | 0 <= i < |items| :: items[i].quantity >= 1
    ensures Count(items) >= |items|
    ensures Count(items) == 0 <==> items == []
  {
    if items != [] {
      var init := items[..|items| - 1];
      assert forall i | 0 <= i < |init| :: init[i] == items[i];
      CountAtLeastLines(init);
    }
  }

  // ---------------------------------------------------------------------------
  // addItem

  /** Adding a line whose key is present merges into that line and changes nothing else. */
  lemma AddExistingMerges(items: seq<CartItem>, x: CartItem, i: nat)
    requires UniqueKeys(items)
    requires i < |items| && items[i].Key() == x.Key()
    ensures |WithItem(items, x)| == |items|
    ensures WithItem(items, x)[i] == items[i].(quantity := items[i].quantity + x.quantity)
    ensures forall j | 0 <= j < |items| && j != i :: WithItem(items, x)[j] == items[j]
  {
    assert FindIndex(items, x.Key()) == Some(i);
  }

  /** Adding a line whose key is absent appends it behind the unchanged bag. */
  lemma AddNewAppends(items: seq<CartItem>, x: CartItem)
    requires forall j | 0 <= j < |items| :: items[j].Key() != x.Key()
    ensures WithItem(items, x) == items + [x]
  {
  }

  /** `addItem` keeps the keys of the bag unique. */
  lemma AddPreservesUniqueKeys(items: seq<CartItem>, x: CartItem)
    requires UniqueKeys(items)
    ensures UniqueKeys(WithItem(items, x))
  {
    var r := WithItem(items, x);
    match FindIndex(items, x.Key())
    case Some(i) =>
      assert forall j | 0 <= j < |items| :: r[j].Key() == items[j].Key();
    case None =>
      assert forall j | 0 <= j < |items| :: r[j] == items[j];
  }

  /** Adding a line raises the count by its quantity, and the total by its quantity times the merged line's price. */
  lemma AddSums(items: seq<CartItem>, x: CartItem)
    ensures Count(WithItem(items, x)) == Count(items) + x.quantity
    ensures Total(WithItem(items, x)) == Total(items) + x.quantity *
      (match FindIndex(items, x.Key()) case Some(i) => items[i].price case None => x.price)
  {
    var r := WithItem(items, x);
    match FindIndex(items, x.Key())
    case Some(i) =>
      var merged := items[i].(quantity := items[i].quantity + x.quantity);
      assert r == items[i := merged];
      MergedSums(items, i, x.quantity);
    case None =>
      assert r == items + [x];
      AppendedSums(items, x);
  }

  lemma AppendedSums(items: seq<CartItem>, x: CartItem)
    ensures Count(items + [x]) == Count(items) + x.quantity
    ensures Total(items + [x]) == Total(items) + x.quantity * x.price
  {
    TotalAppend(items, [x]);
    CountAppend(items, [x]);
    Singleton(x);
  }

  lemma MergedSums(items: seq<CartItem>, i: nat, d: int)
    requires i < |items|
    ensures var merged := items[i].(quantity := items[i].quantity + d);
      && Count(items[i := merged]) == Count(items) + d
      && Total(items[i := merged]) == Total(items) + d * items[i].price
  {
    var merged := items[i].(quantity := items[i].quantity + d);
    SumsReplaceAt(items, i, merged);
    Distribute(items[i].price, items[i].quantity, d);
  }

  /** Two additions with the same key give one line holding the sum of both quantities. */
  lemma AddSameKeyTwice(items: seq<CartItem>, a: CartItem, b: CartItem)
    requires forall j | 0 <= j < |items| :: items[j].Key() != a.Key()
    requires a.Key() == b.Key()
    ensures WithItem(WithItem(items, a), b) == items + [a.(quantity := a.quantity + b.quantity)]
  {
    var once := items + [a];
    assert WithItem(items, a) == once;
    assert FindIndex(once, b.Key()) == Some(|items|) by {
      var r := FindIndex(once, b.Key());
      assert once[|items|].Key() == b.Key();
      assert forall j | 0 <= j < |items| :: once[j].Key() != b.Key();
    }
  }

  /** Two additions with different keys (say the same id in another size) give two lines. */
  lemma AddDistinctKeysTwice(items: seq<CartItem>, a: CartItem, b: CartItem)
    requires forall j | 0 <= j < |items| :: items[j].Key() != a.Key() && items[j].Key() != b.Key()
    requires a.Key() != b.Key()
    ensures WithItem(WithItem(items, a), b) == items + [a, b]
  {
    var once := items + [a];
    assert WithItem(items, a) == once;
    assert forall j | 0 <= j < |once| :: once[j].Key() != b.Key();
  }

  // ---------------------------------------------------------------------------
  // removeItem

  lemma {:induction false} RemovedAppend(a: seq<CartItem>, b: seq<CartItem>, k: LineKey)
    ensures Removed(a + b, k) == Removed(a, k) + Removed(b, k)
  {
    if a == [] {
      assert a + b == b;
    } else {
      assert (a + b)[1..] == a[1..] + b;
      RemovedAppend(a[1..], b, k);
    }
  }

  /** Removing a key that no line has leaves the bag as it was. */
  lemma {:induction false} RemoveAbsentIsNoop(items: seq<CartItem>, k: LineKey)
    requires forall j | 0 <= j < |items| :: items[j].Key() != k
    ensures Removed(items, k) == items
  {
    if items != [] {
      RemoveAbsentIsNoop(items[1..], k);
      assert items == [items[0]] + items[1..];
    }
  }

  /** Every surviving line was in the bag and has another key. */
  lemma {:induction false} RemovedMembers(items: seq<CartItem>, k: LineKey)
    ensures forall x | x in Removed(items, k) :: x in items && x.Key() != k
  {
    if items != [] {
      RemovedMembers(items[1..], k);
    }
  }

  /** Removing twice is removing once. */
  lemma RemoveIdempotent(items: seq<CartItem>, k: LineKey)
    ensures Removed(Removed(items, k), k) == Removed(items, k)
  {
    var r := Removed(items, k);
    RemovedMembers(items, k);
    assert forall j | 0 <= j < |r| :: r[j] in r;
    RemoveAbsentIsNoop(r, k);
  }

  /** A line whose key is not `k` survives the removal. */
  lemma {:induction false} RemoveKeepsOthers(items: seq<CartItem>, k: LineKey, x: CartItem)
    requires x in items && x.Key() != k
    ensures x in Removed(items, k)
  {
    if items[0] != x {
      RemoveKeepsOthers(items[1..], k, x);
    }
  }

  /** In a bag with unique keys, removing the key of line `i` cuts out exactly that line. */
  lemma RemoveAt(items: seq<CartItem>, i: nat)
    requires UniqueKeys(items)
    requires i < |items|
    ensures Removed(items, items[i].Key()) == items[..i] + items[i + 1..]
  {
    SplitAt(items, i);
    OthersHaveOtherKeys(items, i);
    RemoveOnly(items[..i], items[i], items[i + 1..]);
  }

  lemma RemoveOnly(pre: seq<CartItem>, x: CartItem, post: seq<CartItem>)
    requires forall j | 0 <= j < |pre| :: pre[j].Key() != x.Key()
    requires forall j | 0 <= j < |post| :: post[j].Key() != x.Key()
    ensures Removed(pre + [x] + post, x.Key()) == pre + post
  {
    var k := x.Key();
    var front := pre + [x];
    RemovedAppend(front, post, k);
    RemovedAppend(pre, [x], k);
    assert Removed([x], k) == [] by {
      assert [x][1..] == [];
    }
    RemoveAbsentIsNoop(pre, k);
    RemoveAbsentIsNoop(post, k);
    assert Removed(front, k) == pre;
    calc {
      Removed(front + post, k);
      Removed(front, k) + Removed(post, k);
      pre + post;
    }
  }

  lemma OthersHaveOtherKeys(items: seq<CartItem>, i: nat)
    requires UniqueKeys(items)
    requires i < |items|
    ensures var pre := items[..i]; forall j | 0 <= j < |pre| :: pre[j].Key() != items[i].Key()
    ensures var post := items[i + 1..]; forall j | 0 <= j < |post| :: post[j].Key() != items[i].Key()
  {
    var post := items[i + 1..];
    forall j | 0 <= j < |post| ensures post[j].Key() != items[i].Key() {
      assert post[j] == items[i + 1 + j];
    }
  }

  /** `removeItem` keeps the keys of the bag unique. */
  lemma {:induction false} RemovePreservesUniqueKeys(items: seq<CartItem>, k: LineKey)
    requires UniqueKeys(items)
    ensures UniqueKeys(Removed(items, k))
  {
    if items != [] {
      RemovePreservesUniqueKeys(items[1..], k);
      RemovedMembers(items[1..], k);
      var rest := Removed(items[1..], k);
      if items[0].Key() != k {
        var r := [items[0]] + rest;
        forall i, j | 0 <= i < j < |r| ensures r[i].Key() != r[j].Key() {
          if i == 0 {
            assert r[j] in items[1..];
            var m :| 0 <= m < |items[1..]| && items[1..][m] == r[j];
            assert items[m + 1] == r[j];
          } else {
            assert r[i] == rest[i - 1] && r[j] == rest[j - 1];
          }
        }
      }
    }
  }

  // ---------------------------------------------------------------------------
  // updateQuantity

  /** Updating keeps every line's key, so it keeps the keys unique. */
  lemma UpdateKeepsKeys(items: seq<CartItem>, k: LineKey, q: int)
    ensures |Updated(items, k, q)| == |items|
    ensures forall j | 0 <= j < |items| :: Updated(items, k, q)[j].Key() == items[j].Key()
    ensures UniqueKeys(items) ==> UniqueKeys(Updated(items, k, q))
  {
  }

  /** In a bag with unique keys, updating the key of line `i` rewrites that line's quantity, stored as given, and nothing else. */
  lemma UpdateAt(items: seq<CartItem>, i: nat, q: int)
    requires UniqueKeys(items)
    requires i < |items|
    ensures Updated(items, items[i].Key(), q) == items[i := items[i].(quantity := q)]
    ensures Count(Updated(items, items[i].Key(), q)) == Count(items) - items[i].quantity + q
  {
    var r := Updated(items, items[i].Key(), q);
    assert forall j | 0 <= j < |items| && j != i :: items[j].Key() != items[i].Key();
    assert r == items[i := items[i].(quantity := q)];
    SumsReplaceAt(items, i, items[i].(quantity := q));
  }

  /** Updating a key that no line has leaves the bag as it was. */
  lemma UpdateAbsentIsNoop(items: seq<CartItem>, k: LineKey, q: int)
    requires forall j | 0 <= j < |items| :: items[j].Key() != k
    ensures Updated(items, k, q) == items
  {
  }

  // ---------------------------------------------------------------------------
  // The store

  /** The bag, as the UI holds it; only the methods below change it. */
  class Cart {
    var items: seq<CartItem>

    ghost predicate Valid()
      reads this
    {
      UniqueKeys(items)
    }

    constructor ()
      ensures Valid() && items == []
    {
      items := [];
    }

    /** `addItem`: merge into the line with the same key, or append. */
    method AddItem(newItem: CartItem)
      requires Valid()
      modifies this
      ensures Valid()
      ensures items == WithItem(old(items), newItem)
    {
      AddPreservesUniqueKeys(items, newItem);
      var existing := FindIndex(items, newItem.Key());
      match existing {
        case Some(i) =>
          items := items[i := items[i].(quantity := items[i].quantity + newItem.quantity)];
        case None =>
          items := items + [newItem];
      }
    }

    /** `removeItem`: drop every line with exactly this key. */
    method RemoveItem(id: string, size: Option<string>, material: Option<string>)
      requires Valid()
      modifies this
      ensures Valid()
      ensures items == Removed(old(items), LineKey(id, size, material))
    {
      RemovePreservesUniqueKeys(items, LineKey(id, size, material));
      items := Removed(items, LineKey(id, size, material));
    }

    /** `updateQuantity`: overwrite the quantity of the line with exactly this key; no range check. */
    method UpdateQuantity(id: string, quantity: int, size: Option<string>, material: Option<string>)
      requires Valid()
      modifies this
      ensures Valid()
      ensures items == Updated(old(items), LineKey(id, size, material), quantity)
    {
      UpdateKeepsKeys(items, LineKey(id, size, material), quantity);
      items := Updated(items, LineKey(id, size, material), quantity);
    }

    /** `clearCart`: empty the bag; both sums are then zero. */
    method ClearCart()
      modifies this
      ensures Valid()
      ensures items == [] && Total(items) == 0 && Count(items) == 0
    {
      items := [];
    }

    /** `getCartTotal`. */
    function CartTotal(): (r: int)
      reads this
      ensures items == [] ==> r == 0
    {
      Total(items)
    }

    /** `getCartCount`. */
    function CartCount(): (r: int)
      reads this
      ensures items == [] ==> r == 0
    {
      Count(items)
    }
  }
}
