/** The commission-request API (server/routes/request.js): role-filtered listing, the
    participant-or-admin check, creation with the caller as buyer, the in-place update of
    status, quotation and message thread, and buyer-or-admin deletion. */
module RequestRoutes {
  import opened Common
  import opened Text
  import opened RequestModel
  import opened Ordering

  /** The list query: a required buyer, a required artisan, or neither. */
  datatype RequestQuery = RequestQuery(buyer: Option<Id>, artisan: Option<Id>)

  /** Builds the list query from the caller's role; a role outside the three known ones
      leaves the query empty. */
  function ListQuery(caller: Caller): (q: RequestQuery)
    ensures caller.role == Buyer ==> q == RequestQuery(Some(caller.id), None)
    ensures caller.role == Artisan ==> q == RequestQuery(None, Some(caller.id))
    ensures caller.role != Buyer && caller.role != Artisan ==> q == RequestQuery(None, None)
  {
    var q := RequestQuery(None, None);
    if caller.role == Buyer then q.(buyer := Some(caller.id))
    else if caller.role == Artisan then q.(artisan := Some(caller.id))
    else if caller.role == Admin then RequestQuery(None, None)
    else q
  }

  predicate MatchesQuery(q: RequestQuery, r: Request) {
    && (q.buyer.Some? ==> r.buyer == q.buyer.value)
    && (q.artisan.Some? ==> r.artisan == q.artisan.value)
  }

  /** Which requests a caller's listing contains: a buyer exactly its own, an artisan exactly
      those addressed to it, an admin (and any unknown role) all of them. */
  lemma ListVisibility(caller: Caller, r: Request)
    ensures caller.role == Buyer ==> (MatchesQuery(ListQuery(caller), r) <==> r.buyer == caller.id)
    ensures caller.role == Artisan ==> (MatchesQuery(ListQuery(caller), r) <==> r.artisan == caller.id)
    ensures caller.role.Admin? || caller.role.OtherRole? ==> MatchesQuery(ListQuery(caller), r)
  {
  }

  /** `.sort({createdAt: -1})`. */
  predicate NewestFirst(a: Request, b: Request) {
    a.createdAt >= b.createdAt
  }

  lemma NewestFirstIsTotalPreorder()
    ensures TotalPreorder(NewestFirst)
  {
  }

  /** Who may read or update a request: its buyer, its artisan, or an admin. */
  predicate CanAccess(caller: Caller, r: Request) {
    r.buyer == caller.id || r.artisan == caller.id || caller.role == Admin
  }

  /** Who may delete a request: its buyer or an admin. */
  predicate CanDelete(caller: Caller, r: Request) {
    r.buyer == caller.id || caller.role == Admin
  }

  /** The artisan of a request who is neither its buyer nor an admin may read and update it,
      but not delete it. */
  lemma ArtisanMayNotDelete(caller: Caller, r: Request)
    requires r.artisan == caller.id && r.buyer != caller.id && caller.role != Admin
    ensures CanAccess(caller, r) && !CanDelete(caller, r)
  {
  }

  /** Deleting is a narrower right than reading. */
  lemma DeleteImpliesAccess(caller: Caller, r: Request)
    ensures CanDelete(caller, r) ==> CanAccess(caller, r)
  {
  }

  /** Nothing on the server stops a user from addressing a request to itself: the stored
      request then has the same buyer and artisan. */
  lemma SelfAddressedRequest(caller: Caller, body: RequestInput, id: Id, now: nat)
    requires body.artisan == Some(caller.id)
    requires AcceptableInput(body.(buyer := Some(caller.id)))
    ensures var o := CreateDocument(body.(buyer := Some(caller.id)), id, now);
      o.Ok? && o.value.buyer == o.value.artisan == caller.id
  {
    CreateDocumentSpec(body.(buyer := Some(caller.id)), id, now);
  }

  /** A client-supplied status in the creation payload survives, since the payload is spread
      before `buyer` is set. */
  lemma CreateKeepsClientStatus(caller: Caller, body: RequestInput, s: Status, id: Id, now: nat)
    requires body.status == Some(StatusName(s))
    requires AcceptableInput(body.(buyer := Some(caller.id)))
    ensures var o := CreateDocument(body.(buyer := Some(caller.id)), id, now);
      o.Ok? && o.value.status == s
  {
    NamesRoundTrip(Inquiry, s);
    CreateDocumentSpec(body.(buyer := Some(caller.id)), id, now);
    CreateDefaults(body.(buyer := Some(caller.id)), id, now);
  }

  /** A thread in the creation payload is stored as given, entries from any sender included;
      only a missing timestamp is filled in. */
  lemma CreateKeepsClientThread(caller: Caller, body: RequestInput, ms: seq<MessageInput>, id: Id, now: nat)
    requires body.messages == Some(ms)
    requires AcceptableInput(body.(buyer := Some(caller.id)))
    ensures var o := CreateDocument(body.(buyer := Some(caller.id)), id, now);
      && o.Ok? && |o.value.messages| == |ms|
      && (forall i :: 0 <= i < |ms| ==>
            o.value.messages[i].sender == ms[i].sender && o.value.messages[i].message == ms[i].message)
  {
    CreateDocumentSpec(body.(buyer := Some(caller.id)), id, now);
  }

  /** The body of an update: each field optional. */
  datatype UpdateBody = UpdateBody(status: Option<string>, quotation: Option<Quotation>, message: Option<string>)

  /** The status an update body asks for: none when absent or empty (`if (req.body.status)`),
      Invalid when it names no status (the save's enum validator rejects it). */
  function RequestedStatus(body: UpdateBody): (r: Outcome<Option<Status>>)
    ensures r.Ok? || r.Invalid?
    ensures r.Invalid? <==> Given(body.status) && ParseStatus(body.status.value).None?
    ensures r.Ok? && r.value.Some? ==> Given(body.status) && StatusName(r.value.value) == body.status.value
    ensures r.Ok? && r.value.None? ==> !Given(body.status)
  {
    if !Given(body.status) then Ok(None)
    else
      match ParseStatus(body.status.value)
      case Some(s) => Ok(Some(s))
      case None => Invalid
  }

  /** The thread after the update: a non-empty message is added at the end. */
  function Thread(messages: seq<Message>, sender: Id, text: Option<string>, now: nat): (r: seq<Message>)
    ensures Given(text) ==> r == messages + [Message(Some(sender), Some(text.value), now)]
    ensures !Given(text) ==> r == messages
  {
    if Given(text) then messages + [Message(Some(sender), Some(text.value), now)] else messages
  }

  /** The request after a permitted update with a valid body. */
  function Updated(r: Request, sender: Id, status: Option<Status>, body: UpdateBody, now: nat): Request {
    r.(status := if status.Some? then status.value else r.status,
       quotation := if body.quotation.Some? then body.quotation else r.quotation,
       messages := Thread(r.messages, sender, body.message, now))
  }

  /** An update overwrites status only when one is given and quotation only when one is given,
      keeps earlier messages in order, and touches nothing else. */
  lemma UpdatedFields(r: Request, sender: Id, status: Option<Status>, body: UpdateBody, now: nat)
    ensures var u := Updated(r, sender, status, body, now);
      && u.status == (if status.Some? then status.value else r.status)
      && u.quotation == (if body.quotation.Some? then body.quotation else r.quotation)
      && u.messages[..|r.messages|] == r.messages
      && |u.messages| == |r.messages| + (if Given(body.message) then 1 else 0)
      && (Given(body.message) ==> u.messages[|r.messages|] == Message(Some(sender), Some(body.message.value), now))
      && u.(status := r.status, quotation := r.quotation, messages := r.messages) == r
  {
  }

  /** There is no transition check: whatever the current status, a participant can set any
      status, including leaving a terminal one. */
  lemma AnyTransitionAllowed(r: Request, caller: Caller, target: Status, now: nat)
    requires CanAccess(caller, r)
    ensures var body := UpdateBody(Some(StatusName(target)), None, None);
      && RequestedStatus(body) == Ok(Some(target))
      && Updated(r, caller.id, Some(target), body, now).status == target
  {
    NamesRoundTrip(Inquiry, target);
  }

  /** Updates keep the schema's guarantees. */
  lemma UpdatedValid(r: Request, sender: Id, status: Option<Status>, body: UpdateBody, now: nat)
    requires ValidRequest(r)
    ensures ValidRequest(Updated(r, sender, status, body, now))
  {
  }

  /** Every stored request sits under its own id, below the next id to hand out, and
      satisfies the schema. */
  ghost predicate WellFormed(m: map<Id, Request>, nextId: Id) {
    forall k :: k in m ==> m[k].id == k && k < nextId && ValidRequest(m[k])
  }

  lemma WellFormedInsert(m: map<Id, Request>, nextId: Id, doc: Request)
    requires WellFormed(m, nextId) && doc.id == nextId && ValidRequest(doc)
    ensures WellFormed(m[nextId := doc], nextId + 1)
  {
  }

  /** The request documents, keyed by id, with the id and clock the next creation uses. */
  class RequestStore {
    var requests: map<Id, Request>
    var nextId: Id
    var clock: nat

    ghost predicate Valid()
      reads this
    {
      WellFormed(requests, nextId)
    }

    constructor ()
      ensures Valid() && requests == map[] && nextId == 0 && clock == 0
    {
      requests := map[];
      nextId := 0;
      clock := 0;
    }

    /** GET /: the caller's requests, newest first. */
    method List(caller: Caller) returns (r: seq<Request>)
      requires Valid()
      ensures SortedBy(r, NewestFirst) && NoDup(r)
      ensures forall k :: k in requests ==>
        (requests[k] in r <==> MatchesQuery(ListQuery(caller), requests[k]))
      ensures forall x :: x in r ==> x.id in requests && requests[x.id] == x
    {
      var query := ListQuery(caller);
      NewestFirstIsTotalPreorder();
      r := SelectSorted(requests, x => MatchesQuery(query, x), NewestFirst, (x: Request) => x.id);
    }

    /** GET /:id. */
    method Get(id: Id, caller: Caller) returns (o: Outcome<Request>)
      ensures id !in requests ==> o == NotFound
      ensures id in requests && !CanAccess(caller, requests[id]) ==> o == Forbidden
      ensures id in requests && CanAccess(caller, requests[id]) ==> o == Ok(requests[id])
    {
      if id !in requests {
        return NotFound;
      }
      var request := requests[id];
      if request.buyer != caller.id && request.artisan != caller.id && caller.role != Admin {
        return Forbidden;
      }
      o := Ok(request);
    }

    /** POST /: the payload with `buyer` set to the caller, stored under a fresh id. */
    method Create(caller: Caller, body: RequestInput) returns (o: Outcome<Request>)
      requires Valid()
      modifies this
      ensures Valid()
      ensures o == CreateDocument(body.(buyer := Some(caller.id)), old(nextId), old(clock))
      ensures o.Ok? ==> o.value.buyer == caller.id
      ensures o.Ok? ==> requests == old(requests)[old(nextId) := o.value]
      ensures o.Ok? ==> nextId == old(nextId) + 1 && clock == old(clock) + 1
      ensures o.Invalid? ==> unchanged(this)
    {
      var data := body.(buyer := Some(caller.id));
      var doc := CreateDocument(data, nextId, clock);
      CreateDocumentSpec(data, nextId, clock);
      if doc.Ok? {
        WellFormedInsert(requests, nextId, doc.value);
        requests, nextId, clock := requests[nextId := doc.value], nextId + 1, clock + 1;
      }
      o := doc;
    }

    /** PUT /:id: the record is fetched, checked, changed field by field and saved. */
    method Update(id: Id, caller: Caller, body: UpdateBody) returns (o: Outcome<Request>)
      requires Valid()
      modifies this
      ensures Valid() && nextId == old(nextId)
      ensures id !in old(requests) ==> o == NotFound
      ensures id in old(requests) && !CanAccess(caller, old(requests)[id]) ==> o == Forbidden
      ensures id in old(requests) && CanAccess(caller, old(requests)[id]) && RequestedStatus(body).Invalid?
              ==> o == Invalid
      ensures id in old(requests) && CanAccess(caller, old(requests)[id]) && RequestedStatus(body).Ok?
              ==> o == Ok(Updated(old(requests)[id], caller.id, RequestedStatus(body).value, body, old(clock)))
      ensures o.Ok? ==> requests == old(requests)[id := o.value] && clock == old(clock) + 1
      ensures !o.Ok? ==> requests == old(requests) && clock == old(clock)
    {
      if id !in requests {
        return NotFound;
      }
      var request := requests[id];
      var isArtisan := request.artisan == caller.id;
      var isBuyer := request.buyer == caller.id;
      var isAdmin := caller.role == Admin;
      if !isArtisan && !isBuyer && !isAdmin {
        return Forbidden;
      }
      var status := RequestedStatus(body);
      if status.Invalid? {
        return Invalid;
      }
      if status.value.Some? {
        request := request.(status := status.value.value);
      }
      if body.quotation.Some? {
        request := request.(quotation := body.quotation);
      }
      if Given(body.message) {
        request := request.(messages := request.messages + [Message(Some(caller.id), Some(body.message.value), clock)]);
      }
      requests := requests[id := request];
      clock := clock + 1;
      o := Ok(request);
    }

    /** DELETE /:id. */
    method Delete(id: Id, caller: Caller) returns (o: Outcome<()>)
      requires Valid()
      modifies this
      ensures Valid() && nextId == old(nextId) && clock == old(clock)
      ensures id !in old(requests) ==> o == NotFound
      ensures id in old(requests) && !CanDelete(caller, old(requests)[id]) ==> o == Forbidden
      ensures id in old(requests) && CanDelete(caller, old(requests)[id]) ==> o == Ok(())
      ensures o.Ok? ==> requests == old(requests) - {id}
      ensures !o.Ok? ==> requests == old(requests)
    {
      if id !in requests {
        return NotFound;
      }
      var request := requests[id];
      if request.buyer != caller.id && caller.role != Admin {
        return Forbidden;
      }
      requests := requests - {id};
      o := Ok(());
    }
  }
}
