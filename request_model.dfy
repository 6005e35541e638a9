/** The commission-request document (server/models/Request.js): its enumerations,
    defaults and required fields, and what creating a document from a payload yields. */
module RequestModel {
  import opened Common
  import opened Text

  datatype RequestType = Commission | Inquiry | Quote

  datatype Status = Pending | Reviewing | Accepted | Rejected | Completed | Cancelled

  function TypeName(t: RequestType): string {
    match t
    case Commission => "commission"
    case Inquiry => "inquiry"
    case Quote => "quote"
  }

  /** The enum validator of `type`: only the three listed names are accepted. */
  function ParseType(name: string): (r: Option<RequestType>)
    ensures r.Some? <==> name in {"commission", "inquiry", "quote"}
    ensures r.Some? ==> TypeName(r.value) == name
  {
    if name == "commission" then Some(Commission)
    else if name == "inquiry" then Some(Inquiry)
    else if name == "quote" then Some(Quote)
    else None
  }

  function StatusName(s: Status): string {
    match s
    case Pending => "pending"
    case Reviewing => "reviewing"
    case Accepted => "accepted"
    case Rejected => "rejected"
    case Completed => "completed"
    case Cancelled => "cancelled"
  }

  /** The enum validator of `status`: only the six listed names are accepted. */
  function ParseStatus(name: string): (r: Option<Status>)
    ensures r.Some? <==> name in {"pending", "reviewing", "accepted", "rejected", "completed", "cancelled"}
    ensures r.Some? ==> StatusName(r.value) == name
  {
    if name == "pending" then Some(Pending)
    else if name == "reviewing" then Some(Reviewing)
    else if name == "accepted" then Some(Accepted)
    else if name == "rejected" then Some(Rejected)
    else if name == "completed" then Some(Completed)
    else if name == "cancelled" then Some(Cancelled)
    else None
  }

  /** Each enumeration name reads back as the value it names. */
  lemma NamesRoundTrip(t: RequestType, s: Status)
    ensures ParseType(TypeName(t)) == Some(t)
    ensures ParseStatus(StatusName(s)) == Some(s)
  {
  }

  const DefaultCurrency := "USD"
  const MaxDescription := 2000

  datatype Budget = Budget(min: Option<int>, max: Option<int>, currency: string)

  datatype Quotation = Quotation(amount: Option<int>, currency: Option<string>,
                                 details: Option<string>, validUntil: Option<nat>)

  /** One entry of the message thread; `timestamp` is the time the entry was added. The schema
      requires neither a sender nor a message. */
  datatype Message = Message(sender: Option<Id>, message: Option<string>, timestamp: nat)

  /** A thread entry as a creation payload may carry it; a missing timestamp takes the default
      `Date.now`, the creation time. */
  datatype MessageInput = MessageInput(sender: Option<Id>, message: Option<string>, timestamp: Option<nat>)

  /** The stored thread of a payload's entries: same entries, same order, timestamps defaulted. */
  function StoredThread(ms: seq<MessageInput>, now: nat): (r: seq<Message>)
    ensures |r| == |ms|
    ensures forall i :: 0 <= i < |r| ==>
      && r[i].sender == ms[i].sender && r[i].message == ms[i].message
      && r[i].timestamp == ms[i].timestamp.GetOr(now)
  {
    seq(|ms|, i requires 0 <= i < |ms| => Message(ms[i].sender, ms[i].message, ms[i].timestamp.GetOr(now)))
  }

  datatype Request = Request(
    id: Id,
    buyer: Id,
    artisan: Id,
    product: Option<Id>,
    kind: RequestType,
    title: string,
    description: string,
    budget: Budget,
    deadline: Option<nat>,
    status: Status,
    messages: seq<Message>,
    quotation: Option<Quotation>,
    createdAt: nat)

  /** What the schema guarantees of every stored request. */
  predicate ValidRequest(r: Request) {
    && r.title != "" && IsTrimmed(r.title)
    && r.description != "" && JsLength(r.description) <= MaxDescription
  }

  datatype BudgetInput = BudgetInput(min: Option<int>, max: Option<int>, currency: Option<string>)

  /** The fields of a creation payload (the request body once the handler has set `buyer`). */
  datatype RequestInput = RequestInput(
    buyer: Option<Id>,
    artisan: Option<Id>,
    product: Option<Id>,
    kind: Option<string>,
    title: Option<string>,
    description: Option<string>,
    budget: Option<BudgetInput>,
    deadline: Option<nat>,
    status: Option<string>,
    messages: Option<seq<MessageInput>>,
    quotation: Option<Quotation>)

  /** The validators a new document must pass: required buyer, artisan, title (after trimming)
      and description, description length, and the two enumerations. */
  predicate AcceptableInput(p: RequestInput) {
    && p.buyer.Some? && p.artisan.Some?
    && p.title.Some? && Trim(p.title.value) != ""
    && p.description.Some? && p.description.value != "" && JsLength(p.description.value) <= MaxDescription
    && (p.kind.Some? ==> ParseType(p.kind.value).Some?)
    && (p.status.Some? ==> ParseStatus(p.status.value).Some?)
  }

  /** The nested `budget` sub-document: the given bounds and currency, USD by default. */
  function BudgetOf(b: Option<BudgetInput>): (r: Budget)
    ensures b.None? || b.value.currency.None? ==> r.currency == DefaultCurrency
    ensures b.None? ==> r.min.None? && r.max.None?
    ensures b.Some? ==> r.min == b.value.min && r.max == b.value.max
    ensures b.Some? && b.value.currency.Some? ==> r.currency == b.value.currency.value
  {
    match b
    case None => Budget(None, None, DefaultCurrency)
    case Some(bi) => Budget(bi.min, bi.max, bi.currency.GetOr(DefaultCurrency))
  }

  /** `Request.create(data)` with the given id and creation time: the document, with defaults
      filled in, or Invalid when a validator rejects the payload. */
  function CreateDocument(p: RequestInput, id: Id, now: nat): (r: Outcome<Request>)
    ensures r.Ok? || r.Invalid?
    ensures r.Ok? ==> ValidRequest(r.value) && r.value.id == id
  {
    if !AcceptableInput(p) then Invalid
    else
      TrimSpec(p.title.value);
      Ok(Request(
        id := id,
        buyer := p.buyer.value,
        artisan := p.artisan.value,
        product := p.product,
        kind := if p.kind.Some? then ParseType(p.kind.value).value else Inquiry,
        title := Trim(p.title.value),
        description := p.description.value,
        budget := BudgetOf(p.budget),
        deadline := p.deadline,
        status := if p.status.Some? then ParseStatus(p.status.value).value else Pending,
        messages := StoredThread(p.messages.GetOr([]), now),
        quotation := p.quotation,
        createdAt := now))
  }

  /** Creation succeeds exactly when the validators accept the payload; the stored document
      takes buyer, artisan, the trimmed title, description, budget, product, deadline, quotation
      and thread from the payload (no thread gives an empty one) and records its creation time. */
  lemma CreateDocumentSpec(p: RequestInput, id: Id, now: nat)
    ensures CreateDocument(p, id, now).Ok? <==> AcceptableInput(p)
    ensures var r := CreateDocument(p, id, now); r.Ok? ==>
      && r.value.buyer == p.buyer.value && r.value.artisan == p.artisan.value
      && r.value.title == Trim(p.title.value) && r.value.description == p.description.value
      && r.value.messages == StoredThread(p.messages.GetOr([]), now)
      && (p.messages.None? ==> r.value.messages == [])
      && r.value.budget == BudgetOf(p.budget)
      && r.value.product == p.product
      && r.value.deadline == p.deadline && r.value.quotation == p.quotation
      && r.value.createdAt == now
  {
  }

  /** Status defaults to pending, type to inquiry and the budget currency to USD; a supplied
      status or type is kept. */
  lemma CreateDefaults(p: RequestInput, id: Id, now: nat)
    requires AcceptableInput(p)
    ensures var r := CreateDocument(p, id, now).value;
      && r.status == (if p.status.None? then Pending else ParseStatus(p.status.value).value)
      && r.kind == (if p.kind.None? then Inquiry else ParseType(p.kind.value).value)
      && (p.budget.None? ==> r.budget == Budget(None, None, "USD"))
  {
  }

  /** Any status or type outside the enumerations makes creation fail. */
  lemma CreateRejectsUnknownEnum(p: RequestInput, id: Id, now: nat)
    requires (p.status.Some? && ParseStatus(p.status.value).None?)
          || (p.kind.Some? && ParseType(p.kind.value).None?)
    ensures CreateDocument(p, id, now) == Invalid
  {
  }

  /** A missing buyer, artisan, title or description, a blank title, or an over-long
      description makes creation fail. */
  lemma CreateRequiresFields(p: RequestInput, id: Id, now: nat)
    requires || p.buyer.None? || p.artisan.None? || p.title.None? || p.description.None?
             || (p.title.Some? && Trim(p.title.value) == "")
             || (p.description.Some? && JsLength(p.description.value) > MaxDescription)
    ensures CreateDocument(p, id, now) == Invalid
  {
  }
}
