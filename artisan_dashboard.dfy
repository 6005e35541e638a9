/** The artisan's dashboard (client/src/pages/ArtisanDashboard.js): product and request
    figures and the most recent products and requests. */
module ArtisanDashboard {
  import opened Common
  import opened Ordering
  import opened RequestModel
  import opened ProductModel
  import ProductController
  import RequestRoutes

  datatype ArtisanStats = ArtisanStats(totalProducts: nat, totalRequests: nat,
                                       pendingRequests: nat, totalViews: int)

  /** `products.reduce((sum, product) => sum + (product.views || 0), 0)`. */
  function TotalViews(products: seq<Product>): int {
    if products == [] then 0 else TotalViews(products[..|products| - 1]) + products[|products| - 1].views
  }

  /** The sum splits over concatenation, is 0 for no products, and never negative when no
      product has negative views. */
  lemma {:induction false} TotalViewsAppend(a: seq<Product>, b: seq<Product>)
    ensures TotalViews(a + b) == TotalViews(a) + TotalViews(b)
    decreases |b|
  {
    if b != [] {
      var b' := b[..|b| - 1];
      assert (a + b)[..|a + b| - 1] == a + b';
      TotalViewsAppend(a, b');
    } else {
      assert a + b == a;
    }
  }

  lemma {:induction false} TotalViewsNonNegative(products: seq<Product>)
    requires forall p :: p in products ==> p.views >= 0
    ensures TotalViews(products) >= 0
  {
    if products != [] {
      var init := products[..|products| - 1];
      forall p | p in init ensures p.views >= 0 {
        assert p in products;
      }
      TotalViewsNonNegative(init);
      assert products[|products| - 1] in products;
    }
  }

  predicate IsPending(r: Request) { r.status == Pending }

  /** The `setStats` figures. */
  function Stats(products: seq<Product>, requests: seq<Request>): (s: ArtisanStats)
    ensures s.totalProducts == |products| && s.totalRequests == |requests|
    ensures s.pendingRequests <= s.totalRequests
  {
    ArtisanStats(|products|, |requests|, Count(requests, IsPending), TotalViews(products))
  }

  /** One more product adds one to the product total and its views to the view total; one more
      request adds one to the request total, and one to the pending count exactly when it is
      pending. Each step leaves the other figures alone. */
  lemma StatsTally(products: seq<Product>, requests: seq<Request>, p: Product, r: Request)
    ensures var before := Stats(products, requests);
      var after := Stats(products + [p], requests);
      && after.totalProducts == before.totalProducts + 1
      && after.totalViews == before.totalViews + p.views
      && after.totalRequests == before.totalRequests
      && after.pendingRequests == before.pendingRequests
    ensures var before := Stats(products, requests);
      var after := Stats(products, requests + [r]);
      && after.totalRequests == before.totalRequests + 1
      && after.pendingRequests == before.pendingRequests + (if r.status == Pending then 1 else 0)
      && after.totalProducts == before.totalProducts
      && after.totalViews == before.totalViews
  {
    CountSnoc(requests, r, IsPending);
    assert (products + [p])[..|products + [p]| - 1] == products;
  }

  /** No products give no views and no requests no pending ones. */
  lemma StatsEmpty()
    ensures Stats([], []) == ArtisanStats(0, 0, 0, 0)
  {
  }

  /** `slice(0, 4)` of the products and `slice(0, 5)` of the requests. */
  function Recent(products: seq<Product>, requests: seq<Request>): (r: (seq<Product>, seq<Request>))
    ensures |r.0| == (if |products| < 4 then |products| else 4) && r.0 <= products
    ensures |r.1| == (if |requests| < 5 then |requests| else 5) && r.1 <= requests
  {
    (Take(products, 4), Take(requests, 5))
  }

  /** Both lists come newest first from the server, so the recent ones are the newest. */
  lemma RecentAreNewest(products: seq<Product>, requests: seq<Request>, i: nat, j: nat)
    requires SortedBy(products, ProductController.NewestFirst)
    requires SortedBy(requests, RequestRoutes.NewestFirst)
    ensures i < |Recent(products, requests).0| <= j < |products| ==>
      Recent(products, requests).0[i].createdAt >= products[j].createdAt
    ensures i < |Recent(products, requests).1| <= j < |requests| ==>
      Recent(products, requests).1[i].createdAt >= requests[j].createdAt
  {
    if i < |Recent(products, requests).0| <= j < |products| {
      PrefixPrecedesRest(products, ProductController.NewestFirst, 4, i, j);
    }
    if i < |Recent(products, requests).1| <= j < |requests| {
      PrefixPrecedesRest(requests, RequestRoutes.NewestFirst, 5, i, j);
    }
  }
}
