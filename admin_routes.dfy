/** The admin console API (server/routes/admin.js): every route requires the admin role. User
    listing with role and flag filters, user flags set one at a time, user deletion, system
    statistics as counts over the collections, recent-activity lists and the full request list. */
module AdminRoutes {
  import opened Common
  import opened Ordering
  import opened Users
  import opened RequestModel
  import opened ProductModel
  import opened ResourceModel
  import RequestRoutes

  /** The query-string parameters of the user listing. */
  datatype UserParams = UserParams(role: Option<string>, verified: Option<string>, active: Option<string>)

  /** The role filter applies when the parameter is non-empty; a flag filter applies whenever the
      parameter is present at all, and then asks for `flag == (param == "true")`. */
  predicate MatchesUser(p: UserParams, u: User) {
    && (Given(p.role) ==> RoleName(u.role) == p.role.value)
    && (p.verified.Some? ==> u.isVerified == (p.verified.value == "true"))
    && (p.active.Some? ==> u.isActive == (p.active.value == "true"))
  }

  /** Any present value other than "true", including "" and "1", selects the users whose flag is off. */
  lemma FlagFilter(p: UserParams, u: User)
    ensures p.verified.Some? && p.verified.value != "true" && MatchesUser(p, u) ==> !u.isVerified
    ensures p.active.Some? && p.active.value != "true" && MatchesUser(p, u) ==> !u.isActive
    ensures p == UserParams(None, None, None) ==> MatchesUser(p, u)
  {
  }

  predicate UserNewestFirst(a: User, b: User) {
    a.createdAt >= b.createdAt
  }

  predicate ProductNewestFirst(a: Product, b: Product) {
    a.createdAt >= b.createdAt
  }

  predicate RequestNewestFirst(a: Request, b: Request) {
    a.createdAt >= b.createdAt
  }

  lemma NewestFirstOrders()
    ensures TotalPreorder(UserNewestFirst)
    ensures TotalPreorder(ProductNewestFirst)
    ensures TotalPreorder(RequestNewestFirst)
  {
  }

  /** GET /users. */
  method ListUsers(t: UserTable, caller: Caller, p: UserParams) returns (o: Outcome<seq<User>>)
    requires t.Valid()
    ensures caller.role != Admin <==> o == Forbidden
    ensures o.Ok? || o.Forbidden?
    ensures o.Ok? ==> SortedBy(o.value, UserNewestFirst) && NoDup(o.value)
    ensures o.Ok? ==> forall k :: k in t.users ==> (t.users[k] in o.value <==> MatchesUser(p, t.users[k]))
    ensures o.Ok? ==> forall x :: x in o.value ==> x.id in t.users && t.users[x.id] == x
  {
    if caller.role != Admin {
      return Forbidden;
    }
    NewestFirstOrders();
    var users := SelectSorted(t.users, x => MatchesUser(p, x), UserNewestFirst, (x: User) => x.id);
    o := Ok(users);
  }

  /** GET /users/:id. */
  method GetUser(t: UserTable, caller: Caller, id: Id) returns (o: Outcome<User>)
    ensures caller.role != Admin ==> o == Forbidden
    ensures caller.role == Admin && id !in t.users ==> o == NotFound
    ensures caller.role == Admin && id in t.users ==> o == Ok(t.users[id])
  {
    if caller.role != Admin {
      return Forbidden;
    }
    if id !in t.users {
      return NotFound;
    }
    o := Ok(t.users[id]);
  }

  /** PUT /users/:id/verify: sets isVerified and nothing else, whatever the user's role. */
  method SetVerified(t: UserTable, caller: Caller, id: Id, isVerified: bool) returns (o: Outcome<User>)
    requires t.Valid()
    modifies t
    ensures t.Valid()
    ensures caller.role != Admin ==> o == Forbidden
    ensures caller.role == Admin && id !in old(t.users) ==> o == NotFound
    ensures caller.role == Admin && id in old(t.users) ==> o == Ok(old(t.users)[id].(isVerified := isVerified))
    ensures o.Ok? ==> t.users == old(t.users)[id := o.value]
    ensures !o.Ok? ==> t.users == old(t.users)
  {
    if caller.role != Admin {
      return Forbidden;
    }
    if id !in t.users {
      return NotFound;
    }
    var user := t.users[id];
    user := user.(isVerified := isVerified);
    t.Put(user);
    o := Ok(user);
  }

  /** PUT /users/:id/status: sets isActive and nothing else. */
  method SetActive(t: UserTable, caller: Caller, id: Id, isActive: bool) returns (o: Outcome<User>)
    requires t.Valid()
    modifies t
    ensures t.Valid()
    ensures caller.role != Admin ==> o == Forbidden
    ensures caller.role == Admin && id !in old(t.users) ==> o == NotFound
    ensures caller.role == Admin && id in old(t.users) ==> o == Ok(old(t.users)[id].(isActive := isActive))
    ensures o.Ok? ==> t.users == old(t.users)[id := o.value]
    ensures !o.Ok? ==> t.users == old(t.users)
  {
    if caller.role != Admin {
      return Forbidden;
    }
    if id !in t.users {
      return NotFound;
    }
    var user := t.users[id];
    user := user.(isActive := isActive);
    t.Put(user);
    o := Ok(user);
  }

  /** DELETE /users/:id: removes that user only. */
  method DeleteUser(t: UserTable, caller: Caller, id: Id) returns (o: Outcome<()>)
    requires t.Valid()
    modifies t
    ensures t.Valid()
    ensures caller.role != Admin ==> o == Forbidden
    ensures caller.role == Admin && id !in old(t.users) ==> o == NotFound
    ensures caller.role == Admin && id in old(t.users) ==> o == Ok(())
    ensures o.Ok? ==> t.users == old(t.users) - {id}
    ensures !o.Ok? ==> t.users == old(t.users)
  {
    if caller.role != Admin {
      return Forbidden;
    }
    if id !in t.users {
      return NotFound;
    }
    t.Remove(id);
    o := Ok(());
  }

  datatype Statistics = Statistics(
    totalUsers: nat,
    totalArtisans: nat,
    totalBuyers: nat,
    verifiedArtisans: nat,
    totalProducts: nat,
    totalRequests: nat,
    pendingRequests: nat,
    completedRequests: nat,
    totalResources: nat)

  predicate IsArtisan(u: User) { u.role == Artisan }
  predicate IsBuyer(u: User) { u.role == Buyer }
  predicate IsVerifiedArtisan(u: User) { u.role == Artisan && u.isVerified }
  predicate IsActiveProduct(p: Product) { p.isActive }
  predicate IsPending(r: Request) { r.status == Pending }
  predicate IsCompleted(r: Request) { r.status == Completed }
  predicate IsActiveResource(r: Resource) { r.isActive }

  /** The `countDocuments` figures of GET /stats over the four collections. */
  function Stats(users: seq<User>, products: seq<Product>, requests: seq<Request>, resources: seq<Resource>)
    : (s: Statistics)
    ensures s.totalUsers == |users| && s.totalRequests == |requests|
    ensures s.verifiedArtisans <= s.totalArtisans
    ensures s.totalArtisans + s.totalBuyers <= s.totalUsers
    ensures s.pendingRequests + s.completedRequests <= s.totalRequests
    ensures s.totalProducts <= |products| && s.totalResources <= |resources|
  {
    CountMono(users, IsVerifiedArtisan, IsArtisan);
    CountDisjoint(users, IsArtisan, IsBuyer);
    CountDisjoint(requests, IsPending, IsCompleted);
    Statistics(
      totalUsers := |users|,
      totalArtisans := Count(users, IsArtisan),
      totalBuyers := Count(users, IsBuyer),
      verifiedArtisans := Count(users, IsVerifiedArtisan),
      totalProducts := Count(products, IsActiveProduct),
      totalRequests := |requests|,
      pendingRequests := Count(requests, IsPending),
      completedRequests := Count(requests, IsCompleted),
      totalResources := Count(resources, IsActiveResource))
  }

  /** Empty collections give all-zero figures. */
  lemma StatsEmpty()
    ensures Stats([], [], [], []) == Statistics(0, 0, 0, 0, 0, 0, 0, 0, 0)
  {
  }

  /** One more user adds one user, and one artisan, buyer or verified artisan exactly when it is
      one; the product, request and resource figures stay. */
  lemma StatsTallyUser(users: seq<User>, products: seq<Product>, requests: seq<Request>,
                       resources: seq<Resource>, u: User)
    ensures var before := Stats(users, products, requests, resources);
      var after := Stats(users + [u], products, requests, resources);
      && after.totalUsers == before.totalUsers + 1
      && after.totalArtisans == before.totalArtisans + (if u.role == Artisan then 1 else 0)
      && after.totalBuyers == before.totalBuyers + (if u.role == Buyer then 1 else 0)
      && after.verifiedArtisans == before.verifiedArtisans + (if u.role == Artisan && u.isVerified then 1 else 0)
      && after.totalProducts == before.totalProducts && after.totalRequests == before.totalRequests
      && after.pendingRequests == before.pendingRequests && after.completedRequests == before.completedRequests
      && after.totalResources == before.totalResources
  {
    CountSnoc(users, u, IsArtisan);
    CountSnoc(users, u, IsBuyer);
    CountSnoc(users, u, IsVerifiedArtisan);
  }

  /** One more product adds one product exactly when it is active; nothing else changes. */
  lemma StatsTallyProduct(users: seq<User>, products: seq<Product>, requests: seq<Request>,
                          resources: seq<Resource>, p: Product)
    ensures var before := Stats(users, products, requests, resources);
      var after := Stats(users, products + [p], requests, resources);
      after == before.(totalProducts := before.totalProducts + (if p.isActive then 1 else 0))
  {
    CountSnoc(products, p, IsActiveProduct);
  }

  /** One more request adds one request, and one pending or completed request exactly when it
      has that status; nothing else changes. */
  lemma StatsTallyRequest(users: seq<User>, products: seq<Product>, requests: seq<Request>,
                          resources: seq<Resource>, r: Request)
    ensures var before := Stats(users, products, requests, resources);
      var after := Stats(users, products, requests + [r], resources);
      after == before.(totalRequests := before.totalRequests + 1,
                       pendingRequests := before.pendingRequests + (if r.status == Pending then 1 else 0),
                       completedRequests := before.completedRequests + (if r.status == Completed then 1 else 0))
  {
    CountSnoc(requests, r, IsPending);
    CountSnoc(requests, r, IsCompleted);
  }

  /** One more resource adds one resource exactly when it is active; nothing else changes. */
  lemma StatsTallyResource(users: seq<User>, products: seq<Product>, requests: seq<Request>,
                           resources: seq<Resource>, x: Resource)
    ensures var before := Stats(users, products, requests, resources);
      var after := Stats(users, products, requests, resources + [x]);
      after == before.(totalResources := before.totalResources + (if x.isActive then 1 else 0))
  {
    CountSnoc(resources, x, IsActiveResource);
  }

  datatype RecentActivities = RecentActivities(users: seq<User>, products: seq<Product>, requests: seq<Request>)

  /** `find().sort({createdAt: -1}).limit(5)` on users, products (active or not) and requests:
      the five newest of each, or all when there are fewer; none left out is newer. */
  function Recent(users: seq<User>, products: seq<Product>, requests: seq<Request>): (r: RecentActivities)
    ensures |r.users| <= 5 && |r.products| <= 5 && |r.requests| <= 5
    ensures SortedBy(r.users, UserNewestFirst) && (forall u :: u in r.users ==> u in users)
    ensures SortedBy(r.products, ProductNewestFirst) && (forall p :: p in r.products ==> p in products)
    ensures SortedBy(r.requests, RequestNewestFirst) && (forall q :: q in r.requests ==> q in requests)
    ensures multiset(r.users) <= multiset(users)
    ensures multiset(r.products) <= multiset(products)
    ensures multiset(r.requests) <= multiset(requests)
    ensures |r.users| == if |users| < 5 then |users| else 5
    ensures |r.products| == if |products| < 5 then |products| else 5
    ensures |r.requests| == if |requests| < 5 then |requests| else 5
    ensures forall u, v :: u in r.users && v in multiset(users) - multiset(r.users) ==> UserNewestFirst(u, v)
    ensures forall p, q :: p in r.products && q in multiset(products) - multiset(r.products) ==> ProductNewestFirst(p, q)
    ensures forall a, b :: a in r.requests && b in multiset(requests) - multiset(r.requests) ==> RequestNewestFirst(a, b)
  {
    NewestFirstOrders();
    RecentActivities(Newest(users, UserNewestFirst, 5), Newest(products, ProductNewestFirst, 5),
                     Newest(requests, RequestNewestFirst, 5))
  }

  /** GET /stats. */
  function StatsRoute(caller: Caller, users: seq<User>, products: seq<Product>, requests: seq<Request>,
                      resources: seq<Resource>): (o: Outcome<(Statistics, RecentActivities)>)
    ensures o.Ok? || o.Forbidden?
    ensures o.Ok? <==> caller.role == Admin
    ensures o.Ok? ==> o.value.0 == Stats(users, products, requests, resources)
    ensures o.Ok? ==> o.value.1 == Recent(users, products, requests)
  {
    if caller.role != Admin then Forbidden
    else Ok((Stats(users, products, requests, resources), Recent(users, products, requests)))
  }

  /** GET /requests: every request, newest first. */
  method ListAllRequests(store: RequestRoutes.RequestStore, caller: Caller) returns (o: Outcome<seq<Request>>)
    requires store.Valid()
    ensures caller.role != Admin <==> o == Forbidden
    ensures o.Ok? || o.Forbidden?
    ensures o.Ok? ==> SortedBy(o.value, RequestNewestFirst) && NoDup(o.value)
    ensures o.Ok? ==> forall k :: k in store.requests ==> store.requests[k] in o.value
    ensures o.Ok? ==> forall x :: x in o.value ==> x.id in store.requests && store.requests[x.id] == x
  {
    if caller.role != Admin {
      return Forbidden;
    }
    NewestFirstOrders();
    var all := SelectSorted(store.requests, (x: Request) => true, RequestNewestFirst, (x: Request) => x.id);
    o := Ok(all);
  }
}
