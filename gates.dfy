/**
 * The three decisions the proposals controller's before-filters make:
 * whether new proposals are accepted, whether the current user may alter a
 * proposal, and whether the requested proposal and its event exist. Each
 * either lets the request through or names the failure flash and the
 * redirect.
 */
module Gates {
  import opened Wrappers
  import opened Records
  import Decimal

  /** Where a redirect goes. */
  datatype Route =
    | ProposalsIndex                 // proposals_path, or :action => :index
    | EventProposals(eventId: int)   // event_proposals_path(event)
    | ProposalPage(proposalId: int)  // proposal_path(proposal)
    | NewSession                     // the login page

  /** A flash message: literal text, or a named snippet whose text lives elsewhere. */
  datatype Message = Text(text: string) | Snippet(name: string)

  /** A filter's decision: let the request through, or redirect (with a failure flash, if any). */
  datatype Gate = Allow | Deny(failure: Option<Message>, to: Route)

  const ProposalsNotAccepted: Message := Snippet("proposals_not_accepted_error")
  const NoPermission: Message := Text("You do not have permission to alter this proposal.")
  const DeadlinePassed: Message := Text("You cannot edit proposals after the submission deadline.")
  const ProposalMissing: Message := Text("Sorry, that presentation proposal doesn't exist or has been deleted.")

  function NoEventFor(proposalId: int): Message {
    Text("Sorry, no event was associated with proposal #" + Decimal.IntToString(proposalId))
  }

  /** The proposals index of the event, or of all events when there is none. */
  function IndexFor(event: Option<Event>): (r: Route)
    ensures r.EventProposals? <==> event.Some?
    ensures event.Some? ==> r.eventId == event.value.id
    ensures event.None? ==> r == ProposalsIndex
  {
    if event.Some? then EventProposals(event.value.id) else ProposalsIndex
  }

  /**
   * `assert_accepting_proposals`, guarding new and create: it has no
   * exemption for admins.
   */
  function AssertAcceptingProposals(accepting: bool, event: Option<Event>): (g: Gate)
    ensures g == Allow <==> accepting
    ensures !accepting ==> g == Deny(Some(ProposalsNotAccepted), IndexFor(event))
  {
    if !accepting then Deny(Some(ProposalsNotAccepted), IndexFor(event)) else Allow
  }

  /**
   * `assert_proposal_ownership`, guarding edit, update and destroy. An admin
   * always passes; anyone else needs the event to accept proposals and then
   * needs `can_edit?`.
   */
  function AssertProposalOwnership(isAdmin: bool, accepting: bool, canEdit: bool,
                                   event: Option<Event>, proposalId: int): (g: Gate)
    ensures isAdmin ==> g == Allow
    ensures g == Allow <==> isAdmin || (accepting && canEdit)
    ensures !isAdmin && !accepting ==> g == Deny(Some(DeadlinePassed), IndexFor(event))
    ensures !isAdmin && accepting && !canEdit ==> g == Deny(Some(NoPermission), ProposalPage(proposalId))
  {
    if isAdmin then
      Allow
    else if accepting then
      if canEdit then Allow else Deny(Some(NoPermission), ProposalPage(proposalId))
    else
      Deny(Some(DeadlinePassed), IndexFor(event))
  }

  /** What `Proposal.lookup` did: returned a proposal or nil, or raised. */
  datatype Lookup = Returns(result: Option<Proposal>) | Raises

  /** The three outcomes of `assign_proposal_and_event`. */
  datatype Resolution =
    | NotFound
    | NoEvent(proposal: Proposal)
    | Found(proposal: Proposal, event: Event)

  /** `assign_proposal_and_event`: a lookup that raises counts as nil (`rescue nil`). */
  function AssignProposalAndEvent(lookup: Lookup): (r: Resolution)
    ensures r.NotFound? <==> lookup == Raises || lookup == Returns(None)
    ensures r.NoEvent? ==> lookup == Returns(Some(r.proposal)) && r.proposal.event == None
    ensures r.Found? ==> lookup == Returns(Some(r.proposal)) && r.proposal.event == Some(r.event)
  {
    var found := if lookup.Returns? then lookup.result else None;
    match found
    case None => NotFound
    case Some(p) =>
      match p.event
      case None => NoEvent(p)
      case Some(e) => Found(p, e)
  }

  /** The flash and redirect of each failed resolution; both go to the index. */
  function ResolutionGate(r: Resolution): (g: Gate)
    ensures g == Allow <==> r.Found?
    ensures g.Deny? ==> g.to == ProposalsIndex && g.failure.Some?
    ensures r.NotFound? ==> g.failure == Some(ProposalMissing)
    ensures r.NoEvent? ==> g.failure == Some(NoEventFor(r.proposal.id))
  {
    match r
    case NotFound => Deny(Some(ProposalMissing), ProposalsIndex)
    case NoEvent(p) => Deny(Some(NoEventFor(p.id)), ProposalsIndex)
    case Found(_, _) => Allow
  }

  /** A proposal without an event is reported differently from a missing one. */
  lemma ResolutionFailuresDiffer(proposalId: int)
    ensures ProposalMissing != NoEventFor(proposalId)
  {
    var missing, noEvent := ProposalMissing.text, NoEventFor(proposalId).text;
    assert missing[|missing| - 1] == '.';
    assert Decimal.IsDigit(noEvent[|noEvent| - 1]);
  }

  /** The two refusals of the ownership gate carry different messages. */
  lemma OwnershipFailuresDiffer()
    ensures DeadlinePassed != NoPermission
  {
    assert |DeadlinePassed.text| != |NoPermission.text|;
  }
}
