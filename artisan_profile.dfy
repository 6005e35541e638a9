/** The public artisan profile page (client/src/pages/ArtisanProfile.js): the commission
    request form, its submission, and when the send button shows. */
module ArtisanProfile {
  import opened Common
  import opened Forms
  import RequestModel
  import RequestRoutes

  /** The request form as the page first shows it and resets it. */
  const InitialRequestForm: Form := map[
    "type" := Text("inquiry"),
    "title" := Text(""),
    "description" := Text(""),
    "budget" := Group(map["min" := Text(""), "max" := Text("")]),
    "deadline" := Text("")]

  /** `handleRequestChange`: the shared name-or-`parent.child` update with the control's value. */
  function RequestChange(form: Form, name: string, value: string): Form {
    SetField(form, name, Text(value))
  }

  /** Changing the budget's minimum touches only that field of the budget. */
  lemma BudgetChange(form: Form, value: string)
    ensures RequestChange(form, "budget.min", value)
         == form["budget" := Group(Fields(form, "budget")["min" := Text(value)])]
  {
    assert '.' !in "budget" && '.' !in "min";
    assert "budget.min" == "budget" + "." + "min";
    DottedName("budget", "min", form, Text(value));
  }

  /** The body of `POST /requests`: the form with `artisan` set to the profile's id, whatever
      the form held. */
  function RequestPayload(form: Form, profileId: Id): (p: Form)
    ensures "artisan" in p && p["artisan"] == Ref(profileId)
    ensures p.Keys == form.Keys + {"artisan"}
    ensures forall k :: k in form && k != "artisan" ==> p[k] == form[k]
  {
    form["artisan" := Ref(profileId)]
  }

  /** The send button: only for a signed-in user on someone else's profile. */
  predicate SendButtonShown(user: Option<Caller>, profileId: Id) {
    user.Some? && user.value.id != profileId
  }

  /** Only the page keeps users from requesting work from themselves: the button is hidden on
      one's own profile and for visitors who are not signed in, while the server stores a
      self-addressed request like any other. */
  lemma OnlyThePageStopsSelfRequests(c: Caller, body: RequestModel.RequestInput, id: Id, now: nat)
    requires body.artisan == Some(c.id)
    requires RequestModel.AcceptableInput(body.(buyer := Some(c.id)))
    ensures !SendButtonShown(Some(c), c.id) && !SendButtonShown(None, c.id)
    ensures RequestModel.CreateDocument(body.(buyer := Some(c.id)), id, now).Ok?
  {
    RequestRoutes.SelfAddressedRequest(c, body, id, now);
  }

  /** The page state that `handleSubmitRequest` reads and resets. */
  class ArtisanProfilePage {
    var requestData: Form
    var showRequestModal: bool

    constructor ()
      ensures requestData == InitialRequestForm && !showRequestModal
    {
      requestData := InitialRequestForm;
      showRequestModal := false;
    }

    /** `handleRequestChange`. */
    method HandleRequestChange(name: string, value: string)
      modifies this
      ensures requestData == RequestChange(old(requestData), name, value)
      ensures showRequestModal == old(showRequestModal)
    {
      requestData := RequestChange(requestData, name, value);
    }

    /** `handleSubmitRequest`: without a signed-in user nothing is sent; otherwise the payload is
        sent, and only when the server accepts it (`delivered`) is the dialog closed and the form
        reset. */
    method HandleSubmitRequest(user: Option<Caller>, profileId: Id, delivered: bool) returns (sent: Option<Form>)
      modifies this
      ensures user.None? ==> sent == None && unchanged(this)
      ensures user.Some? ==> sent == Some(RequestPayload(old(requestData), profileId))
      ensures user.Some? && delivered ==> requestData == InitialRequestForm && !showRequestModal
      ensures user.Some? && !delivered ==> unchanged(this)
    {
      if user.None? {
        return None;
      }
      sent := Some(RequestPayload(requestData, profileId));
      if delivered {
        showRequestModal := false;
        requestData := InitialRequestForm;
      }
    }
  }
}
