/**
 * The product page's purchase panel: the price and stock of the selected
 * variant, the material and size pickers, "Add to Bag", and the image
 * carousel.
 */
module ProductInteractions {
  import opened Options
  import opened Text
  import opened Dedup
  import opened CartStore

  datatype Variant = Variant(
    id: string,
    material: string,
    size: Option<string>,
    priceAdjustment: int,
    inventoryCount: int,
    isMadeToOrder: bool,
    showOutOfStockLabel: bool)

  datatype ProductImage = ProductImage(id: string, url: string, altText: Option<string>, displayOrder: int)

  /** The price shown and put in the bag: the base price plus the selected variant's adjustment. */
  function EffectivePrice(basePrice: int, selected: Option<Variant>): (price: int)
    ensures selected.None? ==> price == basePrice
    ensures selected.Some? ==> price - basePrice == selected.value.priceAdjustment
  {
    basePrice + (if selected.Some? then selected.value.priceAdjustment else 0)
  }

  /** Whether "Add to Bag" is enabled: units left, or made to order. */
  function IsInStock(selected: Option<Variant>): (b: bool)
    ensures b ==> selected.Some?
    ensures b <==> selected.Some? && (selected.value.inventoryCount > 0 || selected.value.isMadeToOrder)
  {
    (if selected.Some? then selected.value.inventoryCount else 0) > 0
    || (selected.Some? && selected.value.isMadeToOrder)
  }

  datatype StockLabel = MadeToOrder | InStock(left: nat) | OutOfStock

  /** The text of a stock label. */
  function StockText(stock: StockLabel): (text: string)
    ensures text == "Out of Stock" <==> stock == OutOfStock
    ensures text == "Made to Order (4\U{2013}6 weeks)" <==> stock == MadeToOrder
    ensures stock.InStock? ==> text == "In Stock (" + NatToString(stock.left) + " left)"
  {
    match stock
    case MadeToOrder => "Made to Order (4\U{2013}6 weeks)"
    case InStock(n) =>
      var text := "In Stock (" + NatToString(n) + " left)";
      assert text[0] == 'I';
      text
    case OutOfStock => "Out of Stock"
  }

  /**
   * The stock label: made to order first, then the units left, then
   * "Out of Stock" only when the variant asks for it, else none.
   */
  function StockLabelOf(selected: Option<Variant>): (shown: Option<StockLabel>)
    ensures shown == Some(MadeToOrder) <==> selected.Some? && selected.value.isMadeToOrder
    ensures shown.Some? && shown.value.InStock? <==>
      selected.Some? && !selected.value.isMadeToOrder && selected.value.inventoryCount > 0
    ensures shown.Some? && shown.value.InStock? ==> shown.value.left == selected.value.inventoryCount
    ensures shown == Some(OutOfStock) <==>
      !IsInStock(selected) && selected.Some? && selected.value.showOutOfStockLabel
    ensures IsInStock(selected) <==> shown.Some? && !shown.value.OutOfStock?
  {
    if selected.Some? && selected.value.isMadeToOrder then Some(MadeToOrder)
    else if selected.Some? && selected.value.inventoryCount > 0 then Some(InStock(selected.value.inventoryCount))
    else if selected.Some? && selected.value.showOutOfStockLabel then Some(OutOfStock)
    else None
  }

  // ---------------------------------------------------------------------------
  // The pickers

  function Itself(s: string): string {
    s
  }

  /** The material of every variant, in order. */
  function MaterialsOf(variants: seq<Variant>): (ms: seq<string>)
    ensures |ms| == |variants|
    ensures forall i | 0 <= i < |variants| :: ms[i] == variants[i].material
  {
    seq(|variants|, i requires 0 <= i < |variants| => variants[i].material)
  }

  /** The material buttons: each material once, in order of first appearance. */
  function Materials(variants: seq<Variant>): (ms: seq<string>)
    ensures |ms| <= |variants|
    ensures forall m | m in ms :: exists v | v in variants :: v.material == m
  {
    FirstByKey(MaterialsOf(variants), Itself, {})
  }

  /** The non-empty sizes of the variants in `material`, in order. */
  function SizeCandidates(variants: seq<Variant>, material: string): (ss: seq<string>)
    ensures forall s | s in ss :: s != "" && exists v | v in variants :: v.material == material && v.size == Some(s)
  {
    if variants == [] then []
    else
      var v := variants[0];
      (if v.material == material && v.size.Some? && v.size.value != "" then [v.size.value] else [])
      + SizeCandidates(variants[1..], material)
  }

  /** The size buttons: each size of the selected material once, in order of first appearance. */
  function Sizes(variants: seq<Variant>, selected: Option<Variant>): (ss: seq<string>)
    ensures selected.None? ==> ss == []
    ensures forall s | s in ss :: (s != "" && selected.Some? &&
      exists v | v in variants :: v.material == selected.value.material && v.size == Some(s))
  {
    if selected.None? then [] else FirstByKey(SizeCandidates(variants, selected.value.material), Itself, {})
  }

  lemma KeysOfItself(s: seq<string>)
    ensures forall m :: m in KeysOf(s, Itself) <==> m in s
  {
    forall m | m in s ensures m in KeysOf(s, Itself) {
      var i :| 0 <= i < |s| && s[i] == m;
      assert Itself(s[i]) == m;
    }
  }

  /** Every material appears once, every variant's material appears, and in order of first appearance. */
  lemma MaterialsSpec(variants: seq<Variant>)
    ensures var ms := Materials(variants); forall i, j | 0 <= i < j < |ms| :: ms[i] != ms[j]
    ensures forall m :: m in Materials(variants) <==> exists v | v in variants :: v.material == m
    ensures FirstOccurrencesInOrder(Materials(variants), MaterialsOf(variants), Itself)
  {
    var all := MaterialsOf(variants);
    var ms := Materials(variants);
    FirstByKeyDistinct(all, Itself, {});
    FirstByKeyKeys(all, Itself, {});
    FirstByKeyFirstOccurrences(all, Itself, {});
    KeysOfItself(ms);
    KeysOfItself(all);
    forall m ensures m in all <==> exists v | v in variants :: v.material == m {
      if m in all {
        var i :| 0 <= i < |all| && all[i] == m;
        assert variants[i] in variants;
      }
      if exists v | v in variants :: v.material == m {
        var v :| v in variants && v.material == m;
        var i :| 0 <= i < |variants| && variants[i] == v;
        assert all[i] == m;
      }
    }
  }

  lemma {:induction false} SizeCandidatesComplete(variants: seq<Variant>, material: string, v: Variant)
    requires v in variants && v.material == material && v.size.Some? && v.size.value != ""
    ensures v.size.value in SizeCandidates(variants, material)
  {
    if variants[0] != v {
      SizeCandidatesComplete(variants[1..], material, v);
    }
  }

  /** Every size appears once; a size appears exactly when some variant in the selected material has it. */
  lemma SizesSpec(variants: seq<Variant>, selected: Option<Variant>)
    ensures var ss := Sizes(variants, selected); forall i, j | 0 <= i < j < |ss| :: ss[i] != ss[j]
    ensures forall s :: s in Sizes(variants, selected) <==>
      selected.Some? && s != "" &&
      exists v | v in variants :: v.material == selected.value.material && v.size == Some(s)
  {
    if selected.Some? {
      var all := SizeCandidates(variants, selected.value.material);
      var ss := Sizes(variants, selected);
      FirstByKeyDistinct(all, Itself, {});
      FirstByKeyKeys(all, Itself, {});
      KeysOfItself(ss);
      KeysOfItself(all);
      forall s | s != "" && exists v | v in variants :: v.material == selected.value.material && v.size == Some(s)
        ensures s in ss
      {
        var v :| v in variants && v.material == selected.value.material && v.size == Some(s);
        SizeCandidatesComplete(variants, selected.value.material, v);
      }
    }
  }

  /** `find`: the first variant in `material`. */
  function FindMaterial(variants: seq<Variant>, material: string): (r: Option<nat>)
    ensures r.Some? ==> r.value < |variants| && variants[r.value].material == material
    ensures r.Some? ==> forall j | 0 <= j < r.value :: variants[j].material != material
    ensures r.None? <==> forall j | 0 <= j < |variants| :: variants[j].material != material
  {
    if variants == [] then None
    else if variants[0].material == material then Some(0)
    else match FindMaterial(variants[1..], material)
      case None => None
      case Some(i) => Some(i + 1)
  }

  /** `find`: the first variant in `material` and of `size`. */
  function FindMaterialAndSize(variants: seq<Variant>, material: string, size: string): (r: Option<nat>)
    ensures r.Some? ==>
      (r.value < |variants| && variants[r.value].material == material && variants[r.value].size == Some(size))
    ensures r.Some? ==> forall j | 0 <= j < r.value ::
      !(variants[j].material == material && variants[j].size == Some(size))
    ensures r.None? <==> forall j | 0 <= j < |variants| ::
      !(variants[j].material == material && variants[j].size == Some(size))
  {
    if variants == [] then None
    else if variants[0].material == material && variants[0].size == Some(size) then Some(0)
    else match FindMaterialAndSize(variants[1..], material, size)
      case None => None
      case Some(i) => Some(i + 1)
  }

  /** The selection after a material button: the first variant in it, else the current one. */
  function MaterialChoice(variants: seq<Variant>, selected: Option<Variant>, material: string): (r: Option<Variant>)
    ensures r == selected || (r.Some? && r.value in variants && r.value.material == material)
    ensures (exists v | v in variants :: v.material == material) ==> r.Some? && r.value.material == material
    ensures (forall v | v in variants :: v.material != material) ==> r == selected
    ensures forall i | 0 <= i < |variants| && variants[i].material == material
      && (forall j | 0 <= j < i :: variants[j].material != material) :: r == Some(variants[i])
  {
    match FindMaterial(variants, material)
    case Some(i) => Some(variants[i])
    case None => selected
  }

  /** The selection after a size button: the variant in the current material of that size, else the current one. */
  function SizeChoice(variants: seq<Variant>, selected: Option<Variant>, size: string): (r: Option<Variant>)
    requires selected.Some?
    ensures r.Some? && r.value.material == selected.value.material
    ensures r == selected || (r.value in variants && r.value.size == Some(size))
    ensures (exists v | v in variants :: v.material == selected.value.material && v.size == Some(size))
      ==> r.value.size == Some(size)
    ensures forall i | 0 <= i < |variants| && variants[i].material == selected.value.material
      && variants[i].size == Some(size)
      && (forall j | 0 <= j < i :: !(variants[j].material == selected.value.material && variants[j].size == Some(size)))
      :: r == Some(variants[i])
  {
    match FindMaterialAndSize(variants, selected.value.material, size)
    case Some(i) => Some(variants[i])
    case None => selected
  }

  // ---------------------------------------------------------------------------
  // The image carousel

  /** JavaScript's `%`: the remainder takes the sign of the dividend. */
  function JsRem(a: int, n: int): (r: int)
    requires n > 0
    ensures a >= 0 ==> 0 <= r < n
    ensures a <= 0 ==> -n < r <= 0
    ensures a == (if a >= 0 then a / n else -((-a) / n)) * n + r
  {
    if a >= 0 then a % n else -((-a) % n)
  }

  lemma ModBelow(x: int, n: int)
    requires 0 <= x < n
    ensures x % n == x
  {
    assert x / n == 0;
  }

  lemma ModOnce(x: int, n: int)
    requires n <= x < 2 * n
    ensures x % n == x - n
  {
    assert x / n == 1;
  }

  /** Within one divisor of zero the remainder is the dividend; one turn above, it wraps once. */
  lemma JsRemNearZero(a: int, n: int)
    requires n > 0
    ensures -n < a < n ==> JsRem(a, n) == a
    ensures n <= a < 2 * n ==> JsRem(a, n) == a - n
  {
    if 0 <= a < n {
      ModBelow(a, n);
    } else if -n < a < 0 {
      ModBelow(-a, n);
    } else if n <= a < 2 * n {
      ModOnce(a, n);
    }
  }

  /** The image after the current one, wrapping to the first. */
  function NextImage(p: int, n: int): (r: int)
    requires n > 0
    ensures 0 <= p < n ==> 0 <= r < n
    ensures 0 <= p < n - 1 ==> r == p + 1
    ensures p == n - 1 ==> r == 0
  {
    JsRemNearZero(p + 1, n);
    JsRem(p + 1, n)
  }

  /** The image before the current one, wrapping to the last. */
  function PrevImage(p: int, n: int): (r: int)
    requires n > 0
    ensures 0 <= p < n ==> 0 <= r < n
    ensures 0 < p < n ==> r == p - 1
    ensures p == 0 ==> r == n - 1
  {
    JsRemNearZero(p - 1 + n, n);
    JsRem(p - 1 + n, n)
  }

  /** Forward then back, or back then forward, returns to the same image. */
  lemma PrevNextInverse(p: int, n: int)
    requires 0 <= p < n
    ensures PrevImage(NextImage(p, n), n) == p
    ensures NextImage(PrevImage(p, n), n) == p
  {
  }

  // ---------------------------------------------------------------------------
  // Add to Bag

  /** The line "Add to Bag" puts in the bag. */
  function CartLine(productId: string, slug: string, name: string, basePrice: int,
                    selected: Option<Variant>, images: seq<ProductImage>): (line: CartItem)
    ensures line.quantity == 1
    ensures line.price == EffectivePrice(basePrice, selected)
    ensures line.slug == slug && line.name == name
  {
    CartItem(
      id := if selected.Some? then selected.value.id else productId,
      slug := slug,
      name := name,
      price := EffectivePrice(basePrice, selected),
      image := if images != [] then images[0].url else "",
      quantity := 1,
      selectedSize := if selected.Some? then selected.value.size else None,
      selectedMaterial := if selected.Some? then Some(selected.value.material) else None)
  }

  /**
   * Whenever "Add to Bag" adds, a variant is selected, so the line carries the
   * variant's own id, size and material (the product-id fallback is never
   * used), and the bag's count grows by exactly one.
   */
  lemma AddToBagLine(items: seq<CartItem>, productId: string, slug: string, name: string, basePrice: int,
                     selected: Option<Variant>, images: seq<ProductImage>)
    requires IsInStock(selected)
    ensures var line := CartLine(productId, slug, name, basePrice, selected, images);
      && line.id == selected.value.id
      && line.Key() == LineKey(selected.value.id, selected.value.size, Some(selected.value.material))
      && line.price == basePrice + selected.value.priceAdjustment
      && Count(WithItem(items, line)) == Count(items) + 1
  {
    AddSums(items, CartLine(productId, slug, name, basePrice, selected, images));
  }

  // ---------------------------------------------------------------------------
  // The panel's state

  class ProductView {
    const productId: string
    const productName: string
    const productSlug: string
    const basePrice: int
    const variants: seq<Variant>
    const images: seq<ProductImage>

    var selectedVariant: Option<Variant>
    var activeImage: int
    var addedToCart: bool

    /** The selection is always one of the variants (or none when there are none); the image index is in range. */
    ghost predicate Valid()
      reads this
    {
      && (selectedVariant.Some? ==> selectedVariant.value in variants)
      && (variants != [] ==> selectedVariant.Some?)
      && (images != [] ==> 0 <= activeImage < |images|)
    }

    /** The panel as first rendered: the first variant and the first image. */
    constructor (productId: string, productName: string, productSlug: string, basePrice: int,
                 variants: seq<Variant>, images: seq<ProductImage>)
      ensures Valid()
      ensures this.productId == productId && this.productName == productName
      ensures this.productSlug == productSlug && this.basePrice == basePrice
      ensures this.variants == variants && this.images == images
      ensures selectedVariant == (if variants == [] then None else Some(variants[0]))
      ensures activeImage == 0 && !addedToCart
    {
      this.productId := productId;
      this.productName := productName;
      this.productSlug := productSlug;
      this.basePrice := basePrice;
      this.variants := variants;
      this.images := images;
      selectedVariant := if variants == [] then None else Some(variants[0]);
      activeImage := 0;
      addedToCart := false;
    }

    /** `handleMaterialSelect`. */
    method SelectMaterial(material: string)
      requires Valid()
      modifies this`selectedVariant
      ensures Valid()
      ensures selectedVariant == MaterialChoice(variants, old(selectedVariant), material)
    {
      selectedVariant := MaterialChoice(variants, selectedVariant, material);
    }

    /** `handleSizeSelect`; it reads the selected variant's material, so one must be selected. */
    method SelectSize(size: string)
      requires Valid() && selectedVariant.Some?
      modifies this`selectedVariant
      ensures Valid()
      ensures selectedVariant == SizeChoice(variants, old(selectedVariant), size)
      ensures selectedVariant.value.material == old(selectedVariant.value.material)
    {
      selectedVariant := SizeChoice(variants, selectedVariant, size);
    }

    /** A thumbnail click. */
    method SelectImage(i: int)
      requires Valid() && 0 <= i < |images|
      modifies this`activeImage
      ensures Valid() && activeImage == i
    {
      activeImage := i;
    }

    /** `nextImage`. */
    method ShowNextImage()
      requires Valid() && |images| > 0
      modifies this`activeImage
      ensures Valid()
      ensures activeImage == NextImage(old(activeImage), |images|)
    {
      activeImage := NextImage(activeImage, |images|);
    }

    /** `prevImage`. */
    method ShowPrevImage()
      requires Valid() && |images| > 0
      modifies this`activeImage
      ensures Valid()
      ensures activeImage == PrevImage(old(activeImage), |images|)
    {
      activeImage := PrevImage(activeImage, |images|);
    }

    /** `handleAddToCart`: nothing when out of stock, else one line of quantity 1 into the bag. */
    method AddToCart(cart: Cart)
      requires Valid() && cart.Valid()
      modifies cart, this`addedToCart
      ensures cart.Valid()
      ensures cart.items == if IsInStock(selectedVariant)
        then WithItem(old(cart.items), CartLine(productId, productSlug, productName, basePrice, selectedVariant, images))
        else old(cart.items)
      ensures addedToCart == (IsInStock(selectedVariant) || old(addedToCart))
    {
      if !IsInStock(selectedVariant) {
        return;
      }
      cart.AddItem(CartLine(productId, productSlug, productName, basePrice, selectedVariant, images));
      addedToCart := true;
    }
  
    /** The timer callback two seconds after adding: the "added" acknowledgement goes away. */
    method AddedAcknowledgementExpired()
      modifies this`addedToCart
      ensures !addedToCart
    {
      addedToCart := false;
    }
  }
}
