/** The decision logic of the blood "receive request" card: which action
    buttons and which notice rows the card shows for a request, and the
    state of its reject dialog. Rendering, styling and navigation are not
    modelled; what is kept is, for each button and each row, the condition
    under which the card renders it. */
module ReceiveRequestCard {
  import opened Seqs

  datatype Option<T> = None | Some(value: T)

  /** The request's `componentId` as the card receives it: missing (null or
      undefined), a bare identifier string, or a populated component object
      (the card reads its `name`). */
  datatype ComponentRef =
    | NoComponent
    | IdString(id: string)
    | Populated(name: string)

  /** The fields of a request snapshot the card's rules read. `id` is the
      request's `_id`. Fields the card only displays (user, blood group,
      quantity, dates, patient) are not part of the snapshot. */
  datatype Request = Request(
    id: string,
    status: string,
    componentId: ComponentRef,
    isUrgent: bool,
    needsSupport: bool,
    isFullfill: bool,
    reason: Option<string>,
    reasonRejected: Option<string>
  )

  /** The action buttons of the card. */
  datatype Action = ViewDetails | Approve | Reject | SelectComponent | StartDistribution

  /** The informational rows of the card that appear only under a condition. */
  datatype Notice = UnknownComponent | Urgent | SupportCampaign | Fulfilled | Reason | RejectedReason

  /** The two status values the card compares against (exact string equality). */
  const PendingApproval: string := "pending_approval"
  const Approved: string := "approved"

  /** JavaScript truthiness of a `componentId`: null, undefined and the empty
      string are falsy; every other string and every object is truthy. */
  predicate ComponentTruthy(c: ComponentRef)
  {
    match c
    case NoComponent => false
    case IdString(s) => s != ""
    case Populated(_) => true
  }

  /** JavaScript truthiness of an optional text field. */
  predicate TextTruthy(t: Option<string>)
  {
    t.Some? && t.value != ""
  }

  /** `!componentId || componentId === ""`, as the card derives it. The
      second disjunct never decides anything: the empty string is already
      falsy. */
  predicate IsUnknownComponent(c: ComponentRef)
    ensures IsUnknownComponent(c) <==> c == NoComponent || c == IdString("")
    ensures IsUnknownComponent(c) <==> !ComponentTruthy(c)
  {
    !ComponentTruthy(c) || c == IdString("")
  }

  /** The action buttons in the order the card lays them out. */
  function ActionButtons(r: Request): (bs: seq<Action>)
    ensures |bs| > 0 && bs[0] == ViewDetails
    ensures Distinct(bs)
  {
    var pending := r.status == PendingApproval;
    var unknown := IsUnknownComponent(r.componentId);
    [ViewDetails]
    + (if pending && !unknown then [Approve, Reject] else [])
    + (if pending && unknown then [SelectComponent] else [])
    + (if r.status == Approved && !r.isFullfill then [StartDistribution] else [])
  }

  /** The actions the card offers for `r`. */
  function Actions(r: Request): (acts: set<Action>)
    ensures ViewDetails in acts
    ensures Approve in acts <==> r.status == PendingApproval && !IsUnknownComponent(r.componentId)
    ensures Reject in acts <==> r.status == PendingApproval && !IsUnknownComponent(r.componentId)
    ensures SelectComponent in acts <==> r.status == PendingApproval && IsUnknownComponent(r.componentId)
    ensures StartDistribution in acts <==> r.status == Approved && !r.isFullfill
  {
    Elements(ActionButtons(r))
  }

  /** The conditional rows in the order the card lays them out (the
      unconditional date, patient and phone rows sit between Fulfilled and
      Reason and are omitted). */
  function NoticeRows(r: Request): (ns: seq<Notice>)
    ensures Distinct(ns)
  {
    var s0 := AppendIf([], IsUnknownComponent(r.componentId), UnknownComponent);
    assert Distinct(s0);
    var s1 := AppendIf(s0, r.isUrgent, Urgent);
    assert Distinct(s1);
    var s2 := AppendIf(s1, r.needsSupport, SupportCampaign);
    assert Distinct(s2);
    var s3 := AppendIf(s2, r.isFullfill, Fulfilled);
    assert Distinct(s3);
    var s4 := AppendIf(s3, TextTruthy(r.reason), Reason);
    assert Distinct(s4);
    AppendIf(s4, TextTruthy(r.reasonRejected), RejectedReason)
  }

  /** The notices the card shows for `r`. */
  function Notices(r: Request): (ns: set<Notice>)
    ensures UnknownComponent in ns <==> r.componentId == NoComponent || r.componentId == IdString("")
    ensures Urgent in ns <==> r.isUrgent
    ensures SupportCampaign in ns <==> r.needsSupport
    ensures Fulfilled in ns <==> r.isFullfill
    ensures Reason in ns <==> r.reason.Some? && r.reason.value != ""
    ensures RejectedReason in ns <==> r.reasonRejected.Some? && r.reasonRejected.value != ""
  {
    Elements(NoticeRows(r))
  }

  /** One call the card makes to its `handleReject` callback. */
  datatype RejectCall = RejectCall(requestId: string, note: string)

  /** The card's reject-dialog state: whether the dialog is open and the
      note typed into it. `rejectCalls` records, in order, every call the
      card has forwarded to `handleReject`. */
  class RejectDialog {
    var showRejectModal: bool
    var rejectNote: string
    ghost var rejectCalls: seq<RejectCall>

    /** Both cells start at their initial values and nothing is forwarded yet. */
    constructor ()
      ensures !showRejectModal && rejectNote == "" && rejectCalls == []
    {
      showRejectModal := false;
      rejectNote := "";
      rejectCalls := [];
    }

    /** Pressing the Reject button, which the card renders only when the
        request offers Reject: opens the dialog and keeps the note. */
    method Open(r: Request)
      requires Reject in Actions(r)
      modifies this
      ensures showRejectModal
      ensures rejectNote == old(rejectNote) && rejectCalls == old(rejectCalls)
    {
      showRejectModal := true;
    }

    /** Closing the dialog without rejecting: the note typed so far survives. */
    method Close()
      modifies this
      ensures !showRejectModal
      ensures rejectNote == old(rejectNote) && rejectCalls == old(rejectCalls)
    {
      showRejectModal := false;
    }

    /** The dialog's text input replacing the note. */
    method SetNote(note: string)
      modifies this
      ensures rejectNote == note
      ensures showRejectModal == old(showRejectModal) && rejectCalls == old(rejectCalls)
    {
      rejectNote := note;
    }

    /** Confirming the rejection: closes the dialog, forwards exactly one call
        with the request's id and the note as it stood (empty or not), then
        clears the note. The callback is taken to return normally. */
    method OnReject(r: Request)
      modifies this
      ensures !showRejectModal
      ensures rejectCalls == old(rejectCalls) + [RejectCall(r.id, old(rejectNote))]
      ensures rejectNote == ""
    {
      showRejectModal := false;
      rejectCalls := rejectCalls + [RejectCall(r.id, rejectNote)];
      rejectNote := "";
    }
  }
}
