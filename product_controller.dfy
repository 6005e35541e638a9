/** The product handlers (server/controllers/productController.js) over an in-memory product
    collection: the filtered catalogue, the view counter, creation with the caller as
    artisan and uploaded images, owner-only update and owner-or-admin deletion. */
module ProductController {
  import opened Common
  import opened Ordering
  import opened ProductModel

  /** The catalogue query string. A price bound is Some when the parameter is non-empty
      (its `Number(...)` value); category and search follow `if (x)` truthiness. */
  datatype ProductQuery = ProductQuery(category: Option<string>, artisan: Option<Id>,
                                       search: Option<string>, minPrice: Option<int>, maxPrice: Option<int>)

  /** The Mongo query `getProducts` builds; `textMatch` stands for the `$text` index search. */
  predicate MatchesProduct(q: ProductQuery, textMatch: (string, Product) -> bool, p: Product) {
    && p.isActive
    && (Given(q.category) ==> CategoryName(p.category) == q.category.value)
    && (q.artisan.Some? ==> p.artisan == q.artisan.value)
    && (q.minPrice.Some? ==> p.price.amount >= q.minPrice.value)
    && (q.maxPrice.Some? ==> p.price.amount <= q.maxPrice.value)
    && (Given(q.search) ==> textMatch(q.search.value, p))
  }

  /** The per-artisan listing's query. */
  predicate ByArtisan(artisan: Id, p: Product) {
    p.artisan == artisan && p.isActive
  }

  /** The per-artisan listing selects what the catalogue selects for that artisan alone. */
  lemma ArtisanListingIsCatalogueFilter(artisan: Id, textMatch: (string, Product) -> bool, p: Product)
    ensures ByArtisan(artisan, p) <==> MatchesProduct(ProductQuery(None, Some(artisan), None, None, None), textMatch, p)
  {
  }

  /** An empty query lists exactly the active products; inactive ones are never listed. */
  lemma CatalogueOnlyActive(q: ProductQuery, textMatch: (string, Product) -> bool, p: Product)
    ensures MatchesProduct(q, textMatch, p) ==> p.isActive
    ensures MatchesProduct(ProductQuery(None, None, None, None, None), textMatch, p) <==> p.isActive
  {
  }

  /** `.sort({createdAt: -1})`. */
  predicate NewestFirst(a: Product, b: Product) {
    a.createdAt >= b.createdAt
  }

  lemma NewestFirstIsTotalPreorder()
    ensures TotalPreorder(NewestFirst)
  {
  }

  /** `req.files.map(...)`: one image per uploaded file, in upload order. */
  function UploadedImages(files: seq<string>): (r: seq<Image>)
    ensures |r| == |files|
    ensures forall i :: 0 <= i < |r| ==> r[i].url == "/uploads/" + files[i] && r[i].caption == ""
  {
    if files == [] then [] else [Image("/uploads/" + files[0], "")] + UploadedImages(files[1..])
  }

  /** The creation payload: the body with artisan set to the caller, and the uploaded files
      replacing any `images` of the body when there is at least one. */
  function CreationData(caller: Caller, body: ProductInput, files: seq<string>): (d: ProductInput)
    ensures d.artisan == Some(caller.id)
    ensures |files| > 0 ==> d.images == Some(UploadedImages(files))
    ensures |files| == 0 ==> d.images == body.images
    ensures d.(artisan := body.artisan, images := body.images) == body
  {
    var data := body.(artisan := Some(caller.id));
    if |files| > 0 then data.(images := Some(UploadedImages(files))) else data
  }

  /** The update validators run on the body before the owner's product is replaced. */
  function UpdateOutcome(p: Product, caller: Caller, u: ProductPatch): (o: Outcome<Product>)
    requires ValidProduct(p)
    ensures o.Ok? || o.Forbidden? || o.Invalid?
    ensures o.Forbidden? <==> p.artisan != caller.id
    ensures o.Invalid? <==> p.artisan == caller.id && !AcceptablePatch(u)
    ensures o.Ok? ==> o.value == ApplyPatch(p, u) && ValidProduct(o.value)
  {
    if p.artisan != caller.id then Forbidden
    else if !AcceptablePatch(u) then Invalid
    else
      ApplyPatchSpec(p, u);
      Ok(ApplyPatch(p, u))
  }

  /** Ownership decides update: an admin that does not own the product is refused, and a
      refused update leaves the product as it was; delete lets that admin through. */
  lemma AdminNotExemptFromUpdate(p: Product, admin: Caller, u: ProductPatch)
    requires ValidProduct(p) && admin.role == Admin && p.artisan != admin.id
    ensures UpdateOutcome(p, admin, u) == Forbidden
    ensures CanDeleteProduct(admin, p)
  {
  }

  /** Who may delete a product: its artisan or an admin. */
  predicate CanDeleteProduct(caller: Caller, p: Product) {
    p.artisan == caller.id || caller.role == Admin
  }

  ghost predicate WellFormed(m: map<Id, Product>, nextId: Id) {
    forall k :: k in m ==> m[k].id == k && k < nextId && ValidProduct(m[k])
  }

  lemma WellFormedInsert(m: map<Id, Product>, nextId: Id, doc: Product)
    requires WellFormed(m, nextId) && doc.id == nextId && ValidProduct(doc)
    ensures WellFormed(m[nextId := doc], nextId + 1)
  {
  }

  lemma WellFormedReplace(m: map<Id, Product>, nextId: Id, id: Id, doc: Product)
    requires WellFormed(m, nextId) && id in m && doc.id == id && ValidProduct(doc)
    ensures WellFormed(m[id := doc], nextId)
  {
  }

  /** The product collection, with the id and clock the next creation uses. */
  class ProductStore {
    var products: map<Id, Product>
    var nextId: Id
    var clock: nat

    ghost predicate Valid()
      reads this
    {
      WellFormed(products, nextId)
    }

    constructor ()
      ensures Valid() && products == map[] && nextId == 0 && clock == 0
    {
      products := map[];
      nextId := 0;
      clock := 0;
    }

    /** getProducts: the matching products, newest first. */
    method GetProducts(q: ProductQuery, textMatch: (string, Product) -> bool) returns (r: seq<Product>)
      requires Valid()
      ensures SortedBy(r, NewestFirst) && NoDup(r)
      ensures forall k :: k in products ==> (products[k] in r <==> MatchesProduct(q, textMatch, products[k]))
      ensures forall x :: x in r ==> x.id in products && products[x.id] == x
    {
      NewestFirstIsTotalPreorder();
      r := SelectSorted(products, x => MatchesProduct(q, textMatch, x), NewestFirst, (x: Product) => x.id);
    }

    /** getArtisanProducts: that artisan's active products, newest first. */
    method GetArtisanProducts(artisan: Id) returns (r: seq<Product>)
      requires Valid()
      ensures SortedBy(r, NewestFirst) && NoDup(r)
      ensures forall k :: k in products ==> (products[k] in r <==> ByArtisan(artisan, products[k]))
      ensures forall x :: x in r ==> x.id in products && products[x.id] == x
    {
      NewestFirstIsTotalPreorder();
      r := SelectSorted(products, x => ByArtisan(artisan, x), NewestFirst, (x: Product) => x.id);
    }

    /** getProductById: every successful fetch, of an active product or not, counts one view. */
    method GetProductById(id: Id) returns (o: Outcome<Product>)
      requires Valid()
      modifies this
      ensures Valid() && nextId == old(nextId) && clock == old(clock)
      ensures id !in old(products) ==> o == NotFound && products == old(products)
      ensures id in old(products) ==> o == Ok(old(products)[id].(views := old(products)[id].views + 1))
      ensures o.Ok? ==> products == old(products)[id := o.value]
    {
      if id !in products {
        return NotFound;
      }
      var product := products[id];
      product := product.(views := product.views + 1);
      WellFormedReplace(products, nextId, id, product);
      products := products[id := product];
      o := Ok(product);
    }

    /** createProduct: called only by an artisan (the route's guard), with `files` the names
        the upload middleware gave the uploaded images. */
    method CreateProduct(caller: Caller, body: ProductInput, files: seq<string>) returns (o: Outcome<Product>)
      requires Valid()
      modifies this
      ensures Valid()
      ensures o == CreateDocument(CreationData(caller, body, files), old(nextId), old(clock))
      ensures o.Ok? ==> o.value.artisan == caller.id
      ensures o.Ok? && |files| > 0 ==> o.value.images == UploadedImages(files)
      ensures o.Ok? ==> products == old(products)[old(nextId) := o.value]
      ensures o.Ok? ==> nextId == old(nextId) + 1 && clock == old(clock) + 1
      ensures o.Invalid? ==> unchanged(this)
    {
      var productData := body.(artisan := Some(caller.id));
      if |files| > 0 {
        productData := productData.(images := Some(UploadedImages(files)));
      }
      assert productData == CreationData(caller, body, files);
      var doc := CreateDocument(productData, nextId, clock);
      CreateDocumentSpec(productData, nextId, clock);
      if doc.Ok? {
        Store(doc.value);
      }
      o := doc;
    }

    /** Saves a new product under the next id. */
    method Store(doc: Product)
      requires Valid() && doc.id == nextId && ValidProduct(doc)
      modifies this
      ensures Valid()
      ensures products == old(products)[old(nextId) := doc]
      ensures nextId == old(nextId) + 1 && clock == old(clock) + 1
    {
      WellFormedInsert(products, nextId, doc);
      products, nextId, clock := products[nextId := doc], nextId + 1, clock + 1;
    }

    /** updateProduct: NotFound, then the ownership check, then `findByIdAndUpdate` with the
        update validators. */
    method UpdateProduct(id: Id, caller: Caller, u: ProductPatch) returns (o: Outcome<Product>)
      requires Valid()
      modifies this
      ensures Valid() && nextId == old(nextId) && clock == old(clock)
      ensures id !in old(products) ==> o == NotFound
      ensures id in old(products) ==> o == UpdateOutcome(old(products)[id], caller, u)
      ensures o.Ok? ==> products == old(products)[id := o.value]
      ensures !o.Ok? ==> products == old(products)
    {
      if id !in products {
        return NotFound;
      }
      var product := products[id];
      if product.artisan != caller.id {
        return Forbidden;
      }
      if !AcceptablePatch(u) {
        return Invalid;
      }
      ApplyPatchSpec(product, u);
      var updated := ApplyPatch(product, u);
      WellFormedReplace(products, nextId, id, updated);
      products := products[id := updated];
      o := Ok(updated);
    }

    /** deleteProduct: the owner or an admin removes the product. */
    method DeleteProduct(id: Id, caller: Caller) returns (o: Outcome<()>)
      requires Valid()
      modifies this
      ensures Valid() && nextId == old(nextId) && clock == old(clock)
      ensures id !in old(products) ==> o == NotFound
      ensures id in old(products) && !CanDeleteProduct(caller, old(products)[id]) ==> o == Forbidden
      ensures id in old(products) && CanDeleteProduct(caller, old(products)[id]) ==> o == Ok(())
      ensures o.Ok? ==> products == old(products) - {id}
      ensures !o.Ok? ==> products == old(products)
    {
      if id !in products {
        return NotFound;
      }
      var product := products[id];
      if product.artisan != caller.id && caller.role != Admin {
        return Forbidden;
      }
      products := products - {id};
      o := Ok(());
    }
  }
}
