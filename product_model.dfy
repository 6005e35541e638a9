/** The product document (server/models/Product.js): craft categories, availability,
    price with its minimum, defaults, and what creation and field updates yield. */
module ProductModel {
  import opened Common
  import opened Text

  datatype Category = Pottery | Textiles | Woodwork | Jewelry | Paintings
                    | Sculpture | Metalwork | Leather | Glass | OtherCategory

  function CategoryName(c: Category): string {
    match c
    case Pottery => "Pottery"
    case Textiles => "Textiles"
    case Woodwork => "Woodwork"
    case Jewelry => "Jewelry"
    case Paintings => "Paintings"
    case Sculpture => "Sculpture"
    case Metalwork => "Metalwork"
    case Leather => "Leather"
    case Glass => "Glass"
    case OtherCategory => "Other"
  }

  /** The enum validator of `category`. */
  function ParseCategory(name: string): (r: Option<Category>)
    ensures r.Some? ==> CategoryName(r.value) == name
  {
    if name == "Pottery" then Some(Pottery)
    else if name == "Textiles" then Some(Textiles)
    else if name == "Woodwork" then Some(Woodwork)
    else if name == "Jewelry" then Some(Jewelry)
    else if name == "Paintings" then Some(Paintings)
    else if name == "Sculpture" then Some(Sculpture)
    else if name == "Metalwork" then Some(Metalwork)
    else if name == "Leather" then Some(Leather)
    else if name == "Glass" then Some(Glass)
    else if name == "Other" then Some(OtherCategory)
    else None
  }

  datatype Availability = InStock | MadeToOrder | OutOfStock

  function AvailabilityName(a: Availability): string {
    match a
    case InStock => "in-stock"
    case MadeToOrder => "made-to-order"
    case OutOfStock => "out-of-stock"
  }

  /** The enum validator of `availability`. */
  function ParseAvailability(name: string): (r: Option<Availability>)
    ensures r.Some? ==> AvailabilityName(r.value) == name
  {
    if name == "in-stock" then Some(InStock)
    else if name == "made-to-order" then Some(MadeToOrder)
    else if name == "out-of-stock" then Some(OutOfStock)
    else None
  }

  /** Exactly the listed names are accepted, each naming its own value. */
  lemma ProductEnumsExact(c: Category, a: Availability, name: string)
    ensures ParseCategory(CategoryName(c)) == Some(c)
    ensures ParseAvailability(AvailabilityName(a)) == Some(a)
    ensures ParseCategory(name).Some? <==>
      name in {"Pottery", "Textiles", "Woodwork", "Jewelry", "Paintings",
               "Sculpture", "Metalwork", "Leather", "Glass", "Other"}
    ensures ParseAvailability(name).Some? <==> name in {"in-stock", "made-to-order", "out-of-stock"}
  {
  }

  const DefaultCurrency := "USD"
  const DefaultProductionTime := "Immediate"
  const MaxDescription := 2000

  datatype Price = Price(amount: int, currency: string, negotiable: bool)

  datatype Image = Image(url: string, caption: string)

  datatype Specifications = Specifications(dimensions: Option<string>, weight: Option<string>,
                                           materials: seq<string>, customizable: Option<bool>)

  const NoSpecifications := Specifications(None, None, [], None)

  datatype Product = Product(
    id: Id,
    artisan: Id,
    name: string,
    description: string,
    category: Category,
    price: Price,
    images: seq<Image>,
    specifications: Specifications,
    availability: Availability,
    productionTime: string,
    tags: seq<string>,
    views: int,
    isActive: bool,
    createdAt: nat)

  /** What the schema guarantees of every stored product. */
  predicate ValidProduct(p: Product) {
    && p.name != "" && IsTrimmed(p.name)
    && p.description != "" && JsLength(p.description) <= MaxDescription
    && p.price.amount >= 0
    && (forall t :: t in p.tags ==> IsTrimmed(t))
  }

  datatype PriceInput = PriceInput(amount: Option<int>, currency: Option<string>, negotiable: Option<bool>)

  /** The fields of a creation payload, once the controller has set `artisan`. */
  datatype ProductInput = ProductInput(
    artisan: Option<Id>,
    name: Option<string>,
    description: Option<string>,
    category: Option<string>,
    price: Option<PriceInput>,
    images: Option<seq<Image>>,
    specifications: Option<Specifications>,
    availability: Option<string>,
    productionTime: Option<string>,
    tags: Option<seq<string>>,
    views: Option<int>,
    isActive: Option<bool>)

  /** The validators a new product must pass. */
  predicate AcceptableInput(p: ProductInput) {
    && p.artisan.Some?
    && p.name.Some? && Trim(p.name.value) != ""
    && p.description.Some? && p.description.value != "" && JsLength(p.description.value) <= MaxDescription
    && p.category.Some? && ParseCategory(p.category.value).Some?
    && p.price.Some? && p.price.value.amount.Some? && p.price.value.amount.value >= 0
    && (p.availability.Some? ==> ParseAvailability(p.availability.value).Some?)
  }

  /** The `trim` setter of the `tags` array elements. */
  function TrimmedTags(ts: seq<string>): (r: seq<string>)
    ensures |r| == |ts| && forall t :: t in r ==> IsTrimmed(t)
  {
    TrimEachTrimmed(ts);
    TrimEach(ts)
  }

  /** `Product.create(data)` with the given id and creation time. */
  function CreateDocument(p: ProductInput, id: Id, now: nat): (r: Outcome<Product>)
    ensures r.Ok? || r.Invalid?
    ensures r.Ok? ==> ValidProduct(r.value) && r.value.id == id
  {
    if !AcceptableInput(p) then Invalid
    else
      TrimSpec(p.name.value);
      var price := p.price.value;
      Ok(Product(
        id := id,
        artisan := p.artisan.value,
        name := Trim(p.name.value),
        description := p.description.value,
        category := ParseCategory(p.category.value).value,
        price := Price(price.amount.value, price.currency.GetOr(DefaultCurrency), price.negotiable.GetOr(false)),
        images := p.images.GetOr([]),
        specifications := p.specifications.GetOr(NoSpecifications),
        availability := if p.availability.Some? then ParseAvailability(p.availability.value).value else InStock,
        productionTime := p.productionTime.GetOr(DefaultProductionTime),
        tags := TrimmedTags(p.tags.GetOr([])),
        views := p.views.GetOr(0),
        isActive := p.isActive.GetOr(true),
        createdAt := now))
  }

  /** Creation succeeds exactly when the validators accept the payload; every supplied field is
      stored (the name and tags trimmed, the category and availability being the values their
      names denote), and omitted fields take their defaults: in-stock, USD, not negotiable,
      "Immediate", 0 views, active. */
  lemma CreateDocumentSpec(p: ProductInput, id: Id, now: nat)
    ensures CreateDocument(p, id, now).Ok? <==> AcceptableInput(p)
    ensures var r := CreateDocument(p, id, now); r.Ok? ==>
      && r.value.artisan == p.artisan.value
      && r.value.name == Trim(p.name.value)
      && r.value.price.amount == p.price.value.amount.value
      && r.value.createdAt == now
      && (p.availability.None? ==> r.value.availability == InStock)
      && (p.price.value.currency.None? ==> r.value.price.currency == "USD")
      && (p.price.value.negotiable.None? ==> !r.value.price.negotiable)
      && (p.productionTime.None? ==> r.value.productionTime == "Immediate")
      && (p.views.None? ==> r.value.views == 0)
      && (p.isActive.None? ==> r.value.isActive)
      && (p.images.Some? ==> r.value.images == p.images.value)
      && (p.images.None? ==> r.value.images == [])
      && r.value.description == p.description.value
      && CategoryName(r.value.category) == p.category.value
      && r.value.tags == TrimEach(p.tags.GetOr([]))
      && r.value.specifications == p.specifications.GetOr(NoSpecifications)
      && (p.availability.Some? ==> AvailabilityName(r.value.availability) == p.availability.value)
      && (p.price.value.currency.Some? ==> r.value.price.currency == p.price.value.currency.value)
      && (p.price.value.negotiable.Some? ==> r.value.price.negotiable == p.price.value.negotiable.value)
      && (p.productionTime.Some? ==> r.value.productionTime == p.productionTime.value)
      && (p.views.Some? ==> r.value.views == p.views.value)
      && (p.isActive.Some? ==> r.value.isActive == p.isActive.value)
  {
  }

  /** A negative or missing amount, or an unknown category, makes creation fail. */
  lemma CreateRejectsBadPrice(p: ProductInput, id: Id, now: nat)
    requires || p.price.None? || p.price.value.amount.None? || p.price.value.amount.value < 0
             || p.category.None? || ParseCategory(p.category.value).None?
    ensures CreateDocument(p, id, now) == Invalid
  {
  }

  /** The fields of an update body (`findByIdAndUpdate(id, req.body)`); each replaces the
      stored field when present. */
  datatype ProductPatch = ProductPatch(
    artisan: Option<Id>,
    name: Option<string>,
    description: Option<string>,
    category: Option<string>,
    price: Option<Price>,
    images: Option<seq<Image>>,
    specifications: Option<Specifications>,
    availability: Option<string>,
    productionTime: Option<string>,
    tags: Option<seq<string>>,
    views: Option<int>,
    isActive: Option<bool>)

  /** The update validators (`runValidators: true`) run on the fields the body sets. */
  predicate AcceptablePatch(u: ProductPatch) {
    && (u.name.Some? ==> Trim(u.name.value) != "")
    && (u.description.Some? ==> u.description.value != "" && JsLength(u.description.value) <= MaxDescription)
    && (u.category.Some? ==> ParseCategory(u.category.value).Some?)
    && (u.price.Some? ==> u.price.value.amount >= 0)
    && (u.availability.Some? ==> ParseAvailability(u.availability.value).Some?)
  }

  function ApplyPatch(p: Product, u: ProductPatch): Product
    requires AcceptablePatch(u)
  {
    p.(artisan := u.artisan.GetOr(p.artisan),
       name := if u.name.Some? then Trim(u.name.value) else p.name,
       description := u.description.GetOr(p.description),
       category := if u.category.Some? then ParseCategory(u.category.value).value else p.category,
       price := u.price.GetOr(p.price),
       images := u.images.GetOr(p.images),
       specifications := u.specifications.GetOr(p.specifications),
       availability := if u.availability.Some? then ParseAvailability(u.availability.value).value else p.availability,
       productionTime := u.productionTime.GetOr(p.productionTime),
       tags := if u.tags.Some? then TrimmedTags(u.tags.value) else p.tags,
       views := u.views.GetOr(p.views),
       isActive := u.isActive.GetOr(p.isActive))
  }

  /** An accepted update keeps the schema's guarantees, id and creation time; a body without
      fields changes nothing. */
  lemma ApplyPatchSpec(p: Product, u: ProductPatch)
    requires ValidProduct(p) && AcceptablePatch(u)
    ensures var q := ApplyPatch(p, u);
      && ValidProduct(q)
      && q.id == p.id && q.createdAt == p.createdAt
      && (u == ProductPatch(None, None, None, None, None, None, None, None, None, None, None, None) ==> q == p)
  {
    if u.name.Some? {
      TrimSpec(u.name.value);
    }
  }

  /** Field by field: a field the body sets is replaced (the name trimmed, the category and
      availability being the values their given names denote, the tags trimmed); a field it
      omits keeps its stored value. */
  lemma ApplyPatchFields(p: Product, u: ProductPatch)
    requires AcceptablePatch(u)
    ensures var q := ApplyPatch(p, u);
      && (u.artisan.Some? ==> q.artisan == u.artisan.value) && (u.artisan.None? ==> q.artisan == p.artisan)
      && (u.name.Some? ==> q.name == Trim(u.name.value)) && (u.name.None? ==> q.name == p.name)
      && (u.description.Some? ==> q.description == u.description.value)
      && (u.description.None? ==> q.description == p.description)
      && (u.category.Some? ==> CategoryName(q.category) == u.category.value)
      && (u.category.None? ==> q.category == p.category)
      && (u.price.Some? ==> q.price == u.price.value) && (u.price.None? ==> q.price == p.price)
      && (u.images.Some? ==> q.images == u.images.value) && (u.images.None? ==> q.images == p.images)
      && (u.specifications.Some? ==> q.specifications == u.specifications.value)
      && (u.specifications.None? ==> q.specifications == p.specifications)
      && (u.availability.Some? ==> AvailabilityName(q.availability) == u.availability.value)
      && (u.availability.None? ==> q.availability == p.availability)
      && (u.productionTime.Some? ==> q.productionTime == u.productionTime.value)
      && (u.productionTime.None? ==> q.productionTime == p.productionTime)
      && (u.tags.Some? ==> q.tags == TrimEach(u.tags.value)) && (u.tags.None? ==> q.tags == p.tags)
      && (u.views.Some? ==> q.views == u.views.value) && (u.views.None? ==> q.views == p.views)
      && (u.isActive.Some? ==> q.isActive == u.isActive.value) && (u.isActive.None? ==> q.isActive == p.isActive)
  {
  }
}
