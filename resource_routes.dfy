/** The learning-resource API (server/routes/resource.js): public filtered listing with a
    search over title, description and tags, a view counter on each fetch, and admin-only
    creation, update and deletion. */
module ResourceRoutes {
  import opened Common
  import opened Ordering
  import opened ResourceModel

  /** The list query string; each filter applies when its parameter is non-empty. */
  datatype ResourceQuery = ResourceQuery(category: Option<string>, kind: Option<string>,
                                         level: Option<string>, search: Option<string>)

  /** `new RegExp(search, 'i')` matched against one field: `textMatch(pattern, text)`. A tag
      array matches when one of its tags does. */
  predicate SearchHit(textMatch: (string, string) -> bool, term: string, r: Resource) {
    || textMatch(term, r.title)
    || textMatch(term, r.description)
    || (exists t :: t in r.tags && textMatch(term, t))
  }

  predicate MatchesResource(q: ResourceQuery, textMatch: (string, string) -> bool, r: Resource) {
    && r.isActive
    && (Given(q.category) ==> ResourceCategoryName(r.category) == q.category.value)
    && (Given(q.kind) ==> ResourceTypeName(r.kind) == q.kind.value)
    && (Given(q.level) ==> LevelName(r.level) == q.level.value)
    && (Given(q.search) ==> SearchHit(textMatch, q.search.value, r))
  }

  /** With only a search term, an active resource is listed exactly when the term matches its
      title, its description or one of its tags; a match on a tag alone suffices. */
  lemma SearchOnly(term: string, textMatch: (string, string) -> bool, r: Resource, i: nat)
    requires term != ""
    ensures var q := ResourceQuery(None, None, None, Some(term));
      MatchesResource(q, textMatch, r) <==>
        r.isActive && (textMatch(term, r.title) || textMatch(term, r.description)
                       || exists t :: t in r.tags && textMatch(term, t))
    ensures r.isActive && i < |r.tags| && textMatch(term, r.tags[i]) ==>
      MatchesResource(ResourceQuery(None, None, None, Some(term)), textMatch, r)
  {
    if r.isActive && i < |r.tags| && textMatch(term, r.tags[i]) {
      assert r.tags[i] in r.tags;
    }
  }

  /** Filters only narrow the list: every listed resource is active and of the requested
      category, type and level. */
  lemma FiltersNarrow(q: ResourceQuery, textMatch: (string, string) -> bool, r: Resource)
    requires MatchesResource(q, textMatch, r)
    ensures r.isActive
    ensures Given(q.category) ==> ParseResourceCategory(q.category.value) == Some(r.category)
    ensures Given(q.kind) ==> ParseResourceType(q.kind.value) == Some(r.kind)
    ensures Given(q.level) ==> ParseLevel(q.level.value) == Some(r.level)
  {
    ResourceEnumsExact(r.category, r.kind, r.level, "");
  }

  predicate NewestFirst(a: Resource, b: Resource) {
    a.createdAt >= b.createdAt
  }

  lemma NewestFirstIsTotalPreorder()
    ensures TotalPreorder(NewestFirst)
  {
  }

  ghost predicate WellFormed(m: map<Id, Resource>, nextId: Id) {
    forall k :: k in m ==> m[k].id == k && k < nextId && ValidResource(m[k])
  }

  lemma WellFormedInsert(m: map<Id, Resource>, nextId: Id, doc: Resource)
    requires WellFormed(m, nextId) && doc.id == nextId && ValidResource(doc)
    ensures WellFormed(m[nextId := doc], nextId + 1)
  {
  }

  lemma WellFormedReplace(m: map<Id, Resource>, nextId: Id, id: Id, doc: Resource)
    requires WellFormed(m, nextId) && id in m && doc.id == id && ValidResource(doc)
    ensures WellFormed(m[id := doc], nextId)
  {
  }

  /** The resource collection, with the id and clock the next creation uses. */
  class ResourceStore {
    var resources: map<Id, Resource>
    var nextId: Id
    var clock: nat

    ghost predicate Valid()
      reads this
    {
      WellFormed(resources, nextId)
    }

    constructor ()
      ensures Valid() && resources == map[] && nextId == 0 && clock == 0
    {
      resources := map[];
      nextId := 0;
      clock := 0;
    }

    /** GET /: the matching resources, newest first. */
    method List(q: ResourceQuery, textMatch: (string, string) -> bool) returns (r: seq<Resource>)
      requires Valid()
      ensures SortedBy(r, NewestFirst) && NoDup(r)
      ensures forall k :: k in resources ==> (resources[k] in r <==> MatchesResource(q, textMatch, resources[k]))
      ensures forall x :: x in r ==> x.id in resources && resources[x.id] == x
    {
      NewestFirstIsTotalPreorder();
      r := SelectSorted(resources, x => MatchesResource(q, textMatch, x), NewestFirst, (x: Resource) => x.id);
    }

    /** GET /:id: each successful fetch counts one view. */
    method Get(id: Id) returns (o: Outcome<Resource>)
      requires Valid()
      modifies this
      ensures Valid() && nextId == old(nextId) && clock == old(clock)
      ensures id !in old(resources) ==> o == NotFound && resources == old(resources)
      ensures id in old(resources) ==> o == Ok(old(resources)[id].(views := old(resources)[id].views + 1))
      ensures o.Ok? ==> resources == old(resources)[id := o.value]
    {
      if id !in resources {
        return NotFound;
      }
      var resource := resources[id];
      resource := resource.(views := resource.views + 1);
      WellFormedReplace(resources, nextId, id, resource);
      resources := resources[id := resource];
      o := Ok(resource);
    }

    /** POST / (admin only): the body with `addedBy` set to the caller. */
    method Create(caller: Caller, body: ResourceInput) returns (o: Outcome<Resource>)
      requires Valid()
      modifies this
      ensures Valid()
      ensures caller.role != Admin ==> o == Forbidden
      ensures caller.role == Admin ==> o == CreateDocument(body.(addedBy := Some(caller.id)), old(nextId), old(clock))
      ensures o.Ok? ==> o.value.addedBy == Some(caller.id)
      ensures o.Ok? ==> resources == old(resources)[old(nextId) := o.value]
      ensures o.Ok? ==> nextId == old(nextId) + 1 && clock == old(clock) + 1
      ensures !o.Ok? ==> unchanged(this)
    {
      if caller.role != Admin {
        return Forbidden;
      }
      var resourceData := body.(addedBy := Some(caller.id));
      var doc := CreateDocument(resourceData, nextId, clock);
      CreateDocumentSpec(resourceData, nextId, clock);
      if doc.Ok? {
        Store(doc.value);
      }
      o := doc;
    }

    /** Saves a new document under the next id. */
    method Store(doc: Resource)
      requires Valid() && doc.id == nextId && ValidResource(doc)
      modifies this
      ensures Valid()
      ensures resources == old(resources)[old(nextId) := doc]
      ensures nextId == old(nextId) + 1 && clock == old(clock) + 1
    {
      WellFormedInsert(resources, nextId, doc);
      resources, nextId, clock := resources[nextId := doc], nextId + 1, clock + 1;
    }

    /** PUT /:id (admin only): `findByIdAndUpdate` with the update validators, which reject a
        bad body before the document is looked up. */
    method Update(id: Id, caller: Caller, u: ResourcePatch) returns (o: Outcome<Resource>)
      requires Valid()
      modifies this
      ensures Valid() && nextId == old(nextId) && clock == old(clock)
      ensures caller.role != Admin ==> o == Forbidden
      ensures caller.role == Admin && !AcceptablePatch(u) ==> o == Invalid
      ensures caller.role == Admin && AcceptablePatch(u) && id !in old(resources) ==> o == NotFound
      ensures caller.role == Admin && AcceptablePatch(u) && id in old(resources) ==>
        o == Ok(ApplyPatch(old(resources)[id], u))
      ensures o.Ok? ==> resources == old(resources)[id := o.value]
      ensures !o.Ok? ==> resources == old(resources)
    {
      if caller.role != Admin {
        return Forbidden;
      }
      if !AcceptablePatch(u) {
        return Invalid;
      }
      if id !in resources {
        return NotFound;
      }
      ApplyPatchSpec(resources[id], u);
      var resource := ApplyPatch(resources[id], u);
      WellFormedReplace(resources, nextId, id, resource);
      resources := resources[id := resource];
      o := Ok(resource);
    }

    /** DELETE /:id (admin only). */
    method Delete(id: Id, caller: Caller) returns (o: Outcome<()>)
      requires Valid()
      modifies this
      ensures Valid() && nextId == old(nextId) && clock == old(clock)
      ensures caller.role != Admin ==> o == Forbidden
      ensures caller.role == Admin && id !in old(resources) ==> o == NotFound
      ensures caller.role == Admin && id in old(resources) ==> o == Ok(())
      ensures o.Ok? ==> resources == old(resources) - {id}
      ensures !o.Ok? ==> resources == old(resources)
    {
      if caller.role != Admin {
        return Forbidden;
      }
      if id !in resources {
        return NotFound;
      }
      resources := resources - {id};
      o := Ok(());
    }
  }
}
