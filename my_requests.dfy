/** The buyer's and artisan's request page (client/src/pages/MyRequests.js): the status badge
    colours, when the update panel shows, what it offers, and the update submission. */
module MyRequests {
  import opened Common
  import opened RequestModel
  import RequestRoutes

  datatype Badge = Warning | Success | Danger | InfoBadge | Secondary

  /** `getStatusColor`. */
  function StatusColor(status: string): (b: Badge)
    ensures b == Warning <==> status == "pending"
    ensures b == Success <==> status == "accepted"
    ensures b == Danger <==> status == "rejected"
    ensures b == InfoBadge <==> status == "completed"
    ensures b == Secondary <==> status !in {"pending", "accepted", "rejected", "completed"}
  {
    if status == "pending" then Warning
    else if status == "accepted" then Success
    else if status == "rejected" then Danger
    else if status == "completed" then InfoBadge
    else Secondary
  }

  /** Of the six stored statuses, reviewing and cancelled share the neutral badge. */
  lemma StatusBadges(s: Status)
    ensures StatusColor(StatusName(s)) == Secondary <==> s == Reviewing || s == Cancelled
  {
  }

  /** The update panel: only an artisan looking at a pending request sees it. */
  predicate UpdatePanelShown(viewer: Role, status: Status) {
    viewer == Artisan && status == Pending
  }

  /** The values of the status selector; "" is the placeholder. */
  const StatusOptions: seq<string> := ["", "accepted", "rejected"]

  /** The body `handleUpdateStatus` sends: the selected status and the message, empty or not. */
  function UpdateBodyOf(statusUpdate: string, message: string): RequestRoutes.UpdateBody {
    RequestRoutes.UpdateBody(Some(statusUpdate), None, Some(message))
  }

  /** Whatever the panel sends the server accepts: a chosen option asks for exactly accepted or
      rejected, an empty message adds nothing to the thread, and the status is the only field
      besides the thread that changes. */
  lemma PanelUpdatesAccepted(choice: string, message: string, r: Request, sender: Id, now: nat)
    requires choice in StatusOptions && choice != ""
    ensures var body := UpdateBodyOf(choice, message);
      && RequestRoutes.RequestedStatus(body).Ok?
      && RequestRoutes.RequestedStatus(body).value in {Some(Accepted), Some(Rejected)}
      && (message == "" ==> RequestRoutes.Updated(r, sender, RequestRoutes.RequestedStatus(body).value, body, now).messages == r.messages)
      && RequestRoutes.Updated(r, sender, RequestRoutes.RequestedStatus(body).value, body, now).quotation == r.quotation
  {
  }

  /** The panel only ever moves a pending request, seen by an artisan, to accepted or rejected. */
  lemma PanelTransitions(viewer: Role, r: Request, choice: string, message: string, sender: Id, now: nat)
    requires UpdatePanelShown(viewer, r.status)
    requires choice in StatusOptions && choice != ""
    ensures var body := UpdateBodyOf(choice, message);
      var after := RequestRoutes.Updated(r, sender, RequestRoutes.RequestedStatus(body).value, body, now);
      after.status in {Accepted, Rejected} && after.status != r.status
  {
    PanelUpdatesAccepted(choice, message, r, sender, now);
  }

  /** The page state: the request whose details are open, the dialog flag, and the update form
      that `handleUpdateStatus` reads and resets. */
  class MyRequestsPage {
    var selected: Option<Request>
    var showModal: bool
    var statusUpdate: string
    var message: string

    constructor ()
      ensures selected == None && !showModal && statusUpdate == "" && message == ""
    {
      selected := None;
      showModal := false;
      statusUpdate := "";
      message := "";
    }

    /** The update panel is on screen: the dialog is open on a request and the panel's condition
        holds for it. */
    predicate PanelOnScreen(viewer: Role)
      reads this
    {
      showModal && selected.Some? && UpdatePanelShown(viewer, selected.value.status)
    }

    /** `handleViewDetails(request)`: opens the dialog on that request; the panel then shows
        exactly to an artisan when the request is pending. */
    method ViewDetails(r: Request)
      modifies this
      ensures selected == Some(r) && showModal
      ensures statusUpdate == old(statusUpdate) && message == old(message)
      ensures forall v :: PanelOnScreen(v) <==> v == Artisan && r.status == Pending
    {
      selected := Some(r);
      showModal := true;
    }

    /** The overlay or the close button: hides the dialog and keeps everything else. */
    method CloseModal()
      modifies this
      ensures !showModal
      ensures selected == old(selected) && statusUpdate == old(statusUpdate) && message == old(message)
      ensures forall v :: !PanelOnScreen(v)
    {
      showModal := false;
    }

    /** `handleUpdateStatus(requestId)`: without a selected status nothing is sent; otherwise the
        update is sent, and only when the server accepts it (`delivered`) is the form closed and
        reset. */
    method HandleUpdateStatus(requestId: Id, delivered: bool) returns (sent: Option<(Id, RequestRoutes.UpdateBody)>)
      modifies this
      ensures old(statusUpdate) == "" ==> sent == None && unchanged(this)
      ensures old(statusUpdate) != "" ==> sent == Some((requestId, UpdateBodyOf(old(statusUpdate), old(message))))
      ensures old(statusUpdate) != "" && delivered ==>
        statusUpdate == "" && message == "" && !showModal && selected == old(selected)
      ensures old(statusUpdate) != "" && !delivered ==> unchanged(this)
    {
      if statusUpdate == "" {
        return None;
      }
      sent := Some((requestId, UpdateBodyOf(statusUpdate, message)));
      if delivered {
        showModal := false;
        statusUpdate := "";
        message := "";
      }
    }
  }
}
