/** Properties of the card's visibility rules that relate several requests
    or the whole action and notice sets. */
module CardProperties {
  import opened Seqs
  import opened ReceiveRequestCard

  /** The action set takes one of four shapes, decided by the status, whether
      the component is known and whether the request is fulfilled. Any status
      other than "pending_approval" or "approved" offers only View details. */
  lemma ActionShapes(r: Request)
    ensures (r.status == PendingApproval && !IsUnknownComponent(r.componentId))
      ==> Actions(r) == {ViewDetails, Approve, Reject}
    ensures (r.status == PendingApproval && IsUnknownComponent(r.componentId))
      ==> Actions(r) == {ViewDetails, SelectComponent}
    ensures r.status == Approved && !r.isFullfill ==> Actions(r) == {ViewDetails, StartDistribution}
    ensures r.status == Approved && r.isFullfill ==> Actions(r) == {ViewDetails}
    ensures r.status != PendingApproval && r.status != Approved ==> Actions(r) == {ViewDetails}
  {
  }

  /** Select component never appears together with Approve or Reject, and the
      pending-approval actions never appear together with Start distribution. */
  lemma ActionsExclusive(r: Request)
    ensures SelectComponent in Actions(r) ==> Approve !in Actions(r) && Reject !in Actions(r)
    ensures StartDistribution in Actions(r) ==>
      Approve !in Actions(r) && Reject !in Actions(r) && SelectComponent !in Actions(r)
  {
  }

  /** The card renders one button per offered action, and at most three. */
  lemma ActionCount(r: Request)
    ensures |Actions(r)| == |ActionButtons(r)|
    ensures 1 <= |Actions(r)| <= 3
  {
    DistinctElementsCard(ActionButtons(r));
  }

  /** The card renders one row per shown notice. */
  lemma NoticeCount(r: Request)
    ensures |Notices(r)| == |NoticeRows(r)| <= 6
  {
    DistinctElementsCard(NoticeRows(r));
  }

  /** The urgent, support-campaign and reason fields change what the card
      shows, never what it offers; neither does the request's id. */
  lemma FlagsNeverChangeActions(r: Request, id: string, urgent: bool, support: bool,
                                reason: Option<string>, rejected: Option<string>)
    ensures Actions(r.(id := id, isUrgent := urgent, needsSupport := support,
                       reason := reason, reasonRejected := rejected)) == Actions(r)
  {
  }

  /** The notices do not depend on the status: in particular the
      unknown-component warning is shown whatever the status is. */
  lemma NoticesIgnoreStatus(r: Request, status: string)
    ensures Notices(r.(status := status)) == Notices(r)
  {
  }

  /** Whether the unknown-component warning shows is decided by the
      component alone. */
  lemma UnknownWarningOnlyByComponent(r1: Request, r2: Request)
    requires r1.componentId == r2.componentId
    ensures UnknownComponent in Notices(r1) <==> UnknownComponent in Notices(r2)
    ensures UnknownComponent in Notices(r1) <==> IsUnknownComponent(r1.componentId)
  {
  }
}
