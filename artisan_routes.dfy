/** The artisan directory (server/routes/artisan.js): the search query assembled clause by
    clause, its ordering, the public profile fetch, and the self-or-admin profile update. */
module ArtisanRoutes {
  import opened Common
  import opened Ordering
  import opened Users

  /** The query-string parameters of the directory search. */
  datatype ArtisanParams = ArtisanParams(skill: Option<string>, location: Option<string>,
                                         search: Option<string>, verified: Option<string>)

  /** The single `$or` clause the query can hold. */
  datatype AnyOf = NearLocation(pattern: string) | Mentions(pattern: string)

  /** The query beyond its fixed part `{role: 'artisan', isActive: true}`. */
  datatype ArtisanQuery = ArtisanQuery(skill: Option<string>, anyOf: Option<AnyOf>, verifiedOnly: bool)

  /** The query the handler ends up with: a later `$or` replaces an earlier one, so a search term
      wins over a location, and only the exact text "true" asks for verified artisans. */
  function QueryFor(p: ArtisanParams): ArtisanQuery {
    ArtisanQuery(
      skill := if Given(p.skill) then p.skill else None,
      anyOf := if Given(p.search) then Some(Mentions(p.search.value))
               else if Given(p.location) then Some(NearLocation(p.location.value))
               else None,
      verifiedOnly := p.verified == Some("true"))
  }

  /** Builds the query as the handler does, one `if` after the other. */
  method BuildQuery(p: ArtisanParams) returns (q: ArtisanQuery)
    ensures q == QueryFor(p)
  {
    q := ArtisanQuery(None, None, false);
    if Given(p.skill) {
      q := q.(skill := p.skill);
    }
    if Given(p.location) {
      q := q.(anyOf := Some(NearLocation(p.location.value)));
    }
    if Given(p.search) {
      q := q.(anyOf := Some(Mentions(p.search.value)));
    }
    if p.verified == Some("true") {
      q := q.(verifiedOnly := true);
    }
  }

  /** Given a search term, the location parameter makes no difference; an unusual spelling of
      "true" (or "false", or "1") does not restrict to verified artisans. */
  lemma SearchOverridesLocation(p: ArtisanParams)
    ensures Given(p.search) ==> QueryFor(p) == QueryFor(p.(location := None))
    ensures Given(p.location) && !Given(p.search) ==> QueryFor(p).anyOf == Some(NearLocation(p.location.value))
    ensures QueryFor(p).verifiedOnly <==> p.verified == Some("true")
  {
  }

  /** A regular-expression match of a case-insensitive pattern against a text:
      `textMatch(pattern, text)`. An optional field that is missing matches nothing. */
  predicate FieldHit(textMatch: (string, string) -> bool, pattern: string, field: Option<string>) {
    field.Some? && textMatch(pattern, field.value)
  }

  predicate SkillHit(textMatch: (string, string) -> bool, pattern: string, skills: seq<string>) {
    exists s :: s in skills && textMatch(pattern, s)
  }

  predicate ClauseHolds(c: AnyOf, textMatch: (string, string) -> bool, u: User) {
    match c
    case NearLocation(p) =>
      u.location.Some? &&
      (FieldHit(textMatch, p, u.location.value.city) || FieldHit(textMatch, p, u.location.value.state)
       || FieldHit(textMatch, p, u.location.value.country))
    case Mentions(p) =>
      textMatch(p, u.name) || SkillHit(textMatch, p, u.skills) || FieldHit(textMatch, p, u.bio)
  }

  predicate MatchesArtisan(q: ArtisanQuery, textMatch: (string, string) -> bool, u: User) {
    && u.role == Artisan && u.isActive
    && (q.skill.Some? ==> SkillHit(textMatch, q.skill.value, u.skills))
    && (q.anyOf.Some? ==> ClauseHolds(q.anyOf.value, textMatch, u))
    && (q.verifiedOnly ==> u.isVerified)
  }

  /** Every listed user is an active artisan; with a skill filter, one of its skills matches;
      with verified=true it is verified. */
  lemma DirectoryListsActiveArtisans(p: ArtisanParams, textMatch: (string, string) -> bool, u: User)
    requires MatchesArtisan(QueryFor(p), textMatch, u)
    ensures u.role == Artisan && u.isActive
    ensures Given(p.skill) ==> exists s :: s in u.skills && textMatch(p.skill.value, s)
    ensures p.verified == Some("true") ==> u.isVerified
  {
  }

  /** `.sort({isVerified: -1, rating: -1, createdAt: -1})`. */
  predicate DirectoryOrder(a: User, b: User) {
    || (a.isVerified && !b.isVerified)
    || (a.isVerified == b.isVerified && a.rating > b.rating)
    || (a.isVerified == b.isVerified && a.rating == b.rating && a.createdAt >= b.createdAt)
  }

  lemma DirectoryOrderIsTotalPreorder()
    ensures TotalPreorder(DirectoryOrder)
  {
  }

  /** In a sorted directory listing, verified artisans come first, then higher ratings, then
      newer accounts. */
  lemma DirectoryOrderMeaning(r: seq<User>, i: nat, j: nat)
    requires SortedBy(r, DirectoryOrder) && i < j < |r|
    ensures r[j].isVerified ==> r[i].isVerified
    ensures r[i].isVerified == r[j].isVerified ==> r[i].rating >= r[j].rating
    ensures r[i].isVerified == r[j].isVerified && r[i].rating == r[j].rating ==> r[i].createdAt >= r[j].createdAt
  {
    assert DirectoryOrder(r[i], r[j]);
  }

  /** GET /: the matching artisans in directory order. */
  method ListArtisans(t: UserTable, p: ArtisanParams, textMatch: (string, string) -> bool) returns (r: seq<User>)
    requires t.Valid()
    ensures SortedBy(r, DirectoryOrder) && NoDup(r)
    ensures forall k :: k in t.users ==> (t.users[k] in r <==> MatchesArtisan(QueryFor(p), textMatch, t.users[k]))
    ensures forall x :: x in r ==> x.id in t.users && t.users[x.id] == x
  {
    var query := BuildQuery(p);
    DirectoryOrderIsTotalPreorder();
    r := SelectSorted(t.users, x => MatchesArtisan(query, textMatch, x), DirectoryOrder, (x: User) => x.id);
  }

  /** GET /:id: a user that exists but is not an artisan is reported as not found. */
  method GetArtisan(t: UserTable, id: Id) returns (o: Outcome<User>)
    ensures o.Ok? || o.NotFound?
    ensures o.Ok? <==> id in t.users && t.users[id].role == Artisan
    ensures o.Ok? ==> o.value == t.users[id]
  {
    if id !in t.users || t.users[id].role != Artisan {
      return NotFound;
    }
    o := Ok(t.users[id]);
  }

  /** The fields of an update body; each replaces the stored field when present. Nothing stops
      the body from setting `role` or `isVerified`. */
  datatype UserPatch = UserPatch(
    name: Option<string>,
    email: Option<string>,
    phone: Option<string>,
    role: Option<Role>,
    isActive: Option<bool>,
    isVerified: Option<bool>,
    skills: Option<seq<string>>,
    bio: Option<string>,
    location: Option<Location>,
    experience: Option<int>,
    rating: Option<int>)

  /** `findByIdAndUpdate(id, req.body)`: every field the body gives replaces the stored one. */
  function ApplyUserPatch(u: User, b: UserPatch): User
  {
    u.(name := b.name.GetOr(u.name),
       email := b.email.GetOr(u.email),
       phone := if b.phone.Some? then b.phone else u.phone,
       role := b.role.GetOr(u.role),
       isActive := b.isActive.GetOr(u.isActive),
       isVerified := b.isVerified.GetOr(u.isVerified),
       skills := b.skills.GetOr(u.skills),
       bio := if b.bio.Some? then b.bio else u.bio,
       location := if b.location.Some? then b.location else u.location,
       experience := if b.experience.Some? then b.experience else u.experience,
       rating := b.rating.GetOr(u.rating))
  }

  /** The user after the update: each field the body gives, each other field as stored; id
      and creation time never change, and an empty body changes nothing. */
  lemma ApplyUserPatchSpec(u: User, b: UserPatch)
    ensures ApplyUserPatch(u, b).id == u.id && ApplyUserPatch(u, b).createdAt == u.createdAt
    ensures b.name.Some? ==> ApplyUserPatch(u, b).name == b.name.value
    ensures b.name.None? ==> ApplyUserPatch(u, b).name == u.name
    ensures b.email.Some? ==> ApplyUserPatch(u, b).email == b.email.value
    ensures b.email.None? ==> ApplyUserPatch(u, b).email == u.email
    ensures b.phone.Some? ==> ApplyUserPatch(u, b).phone == b.phone
    ensures b.phone.None? ==> ApplyUserPatch(u, b).phone == u.phone
    ensures b.isActive.Some? ==> ApplyUserPatch(u, b).isActive == b.isActive.value
    ensures b.isActive.None? ==> ApplyUserPatch(u, b).isActive == u.isActive
    ensures b.skills.Some? ==> ApplyUserPatch(u, b).skills == b.skills.value
    ensures b.skills.None? ==> ApplyUserPatch(u, b).skills == u.skills
    ensures b.bio.Some? ==> ApplyUserPatch(u, b).bio == b.bio
    ensures b.bio.None? ==> ApplyUserPatch(u, b).bio == u.bio
    ensures b.location.Some? ==> ApplyUserPatch(u, b).location == b.location
    ensures b.location.None? ==> ApplyUserPatch(u, b).location == u.location
    ensures b.experience.Some? ==> ApplyUserPatch(u, b).experience == b.experience
    ensures b.experience.None? ==> ApplyUserPatch(u, b).experience == u.experience
    ensures b.rating.Some? ==> ApplyUserPatch(u, b).rating == b.rating.value
    ensures b.rating.None? ==> ApplyUserPatch(u, b).rating == u.rating
    ensures b.role.Some? ==> ApplyUserPatch(u, b).role == b.role.value
    ensures b.role.None? ==> ApplyUserPatch(u, b).role == u.role
    ensures b.isVerified.Some? ==> ApplyUserPatch(u, b).isVerified == b.isVerified.value
    ensures b.isVerified.None? ==> ApplyUserPatch(u, b).isVerified == u.isVerified
    ensures b == UserPatch(None, None, None, None, None, None, None, None, None, None, None) ==> ApplyUserPatch(u, b) == u
  {
  }

  /** Who may update a profile: its owner or an admin. */
  predicate MayUpdateProfile(caller: Caller, id: Id) {
    caller.id == id || caller.role == Admin
  }

  /** A signed-in user may mark itself verified, or make itself an admin, through its own
      profile update, since the body is applied as given. */
  lemma SelfVerification(u: User, caller: Caller)
    requires caller.id == u.id
    ensures MayUpdateProfile(caller, u.id)
    ensures ApplyUserPatch(u, UserPatch(None, None, None, Some(Admin), None, Some(true), None, None, None, None, None))
            == u.(role := Admin, isVerified := true)
  {
  }

  /** PUT /:id: the authorization check comes before the lookup, so an unauthorized caller is
      refused even for an id that does not exist; the target need not be an artisan. */
  method UpdateArtisan(t: UserTable, id: Id, caller: Caller, b: UserPatch) returns (o: Outcome<User>)
    requires t.Valid()
    modifies t
    ensures t.Valid()
    ensures !MayUpdateProfile(caller, id) ==> o == Forbidden
    ensures MayUpdateProfile(caller, id) && id !in old(t.users) ==> o == NotFound
    ensures MayUpdateProfile(caller, id) && id in old(t.users) ==> o == Ok(ApplyUserPatch(old(t.users)[id], b))
    ensures o.Ok? ==> t.users == old(t.users)[id := o.value]
    ensures !o.Ok? ==> t.users == old(t.users)
  {
    if caller.id != id && caller.role != Admin {
      return Forbidden;
    }
    if id !in t.users {
      return NotFound;
    }
    var artisan := ApplyUserPatch(t.users[id], b);
    t.Put(artisan);
    o := Ok(artisan);
  }
}
