/**
 * The proposals controller's request handling: the before-filters run in
 * their declared order, each only for the actions it names, and the first
 * one that redirects ends the request; the action itself runs only when
 * every filter let the request through.
 *
 * What the persistence layer, the session and the helpers of the
 * application controller return is part of the request record.
 */
module Controller {
  import opened Wrappers
  import opened Records
  import opened Gates
  import CacheKey
  import CsvExport

  datatype Action = Index | Show | New | Edit | Create | Update | Destroy

  datatype Format = Html | Xml | Json | Atom | Csv

  /** The formats whose index reads the event from the parameters rather than the session. */
  predicate FeedFormat(f: Format) {
    f in {Atom, Json, Xml}
  }

  /**
   * What the index's `params[:event_id] ? Event.lookup(...) : nil` gives: an
   * event or nil, or an exception, which nothing rescues.
   */
  datatype EventLookup = EventReturns(result: Option<Event>) | EventRaises

  /** Everything a request brings in from outside the controller. */
  datatype Request = Request(
    format: Format,                // the requested format (index only)
    currentUser: Option<User>,     // current_user; logged in when present
    currentEmail: string,          // current_email
    isAdmin: bool,                 // admin?
    acceptingProposals: bool,      // accepting_proposals? for the request's event
    canEdit: bool,                 // can_edit? for the request's proposal
    currentEvent: Option<Event>,   // the event assign_current_event assigns
    paramEvent: EventLookup,       // Event.lookup(params[:event_id]), or nil without the parameter
    lookup: Lookup,                // Proposal.lookup(params[:id].to_i)
    proposals: seq<Proposal>,      // the proposals the index lists
    submitted: Proposal,           // Proposal.new(params[:proposal])
    createdId: Option<int>,        // save: the new record's id, or nil when invalid
    updateSucceeds: bool)          // update_attributes(params[:proposal])

  /** The before-filters, in the order of their declarations. */
  datatype Filter =
    | LoginRequired
    | AssignCurrentEvent
    | AcceptingFilter       // assert_accepting_proposals
    | ResolutionFilter      // assign_proposal_and_event
    | OwnershipFilter       // assert_proposal_ownership
    | AssignProposalsBreadcrumb

  /** The filters in the order they are declared. */
  const Chain: seq<Filter> := [
    LoginRequired, AssignCurrentEvent, AcceptingFilter,
    ResolutionFilter, OwnershipFilter, AssignProposalsBreadcrumb]

  /** The `:only` list of each filter; the breadcrumb filter has none and runs for every action. */
  predicate AppliesTo(f: Filter, a: Action) {
    match f
    case LoginRequired => a in {Edit, Update, Destroy}
    case AssignCurrentEvent => a in {New, Create}
    case AcceptingFilter => a in {New, Create}
    case ResolutionFilter => a in {Show, Edit, Update, Destroy}
    case OwnershipFilter => a in {Edit, Update, Destroy}
    case AssignProposalsBreadcrumb => true
  }

  /** The instance variables the filters and actions assign: @proposal and @event. */
  datatype Assigns = Assigns(proposal: Option<Proposal>, event: Option<Event>)

  const NoAssigns := Assigns(None, None)

  /**
   * The result of running a filter: go on, redirect (ending the request), or
   * raise because the filter used a nil @proposal.
   */
  datatype Step =
    | Continue(vars: Assigns)
    | Halt(vars: Assigns, failure: Option<Message>, to: Route)
    | Raise(vars: Assigns)

  function Apply(v: Assigns, g: Gate): Step {
    match g
    case Allow => Continue(v)
    case Deny(failure, to) => Halt(v, failure, to)
  }

  /**
   * The instance variables after `assign_proposal_and_event`: @proposal is
   * assigned (nil when not found) and, when a proposal was found, @event too.
   */
  function Resolved(r: Resolution, v: Assigns): Assigns {
    match r
    case NotFound => v.(proposal := None)
    case NoEvent(p) => Assigns(Some(p), None)
    case Found(p, e) => Assigns(Some(p), Some(e))
  }

  /** One filter, run on the current instance variables. */
  function RunFilter(f: Filter, req: Request, v: Assigns): Step {
    match f
    case LoginRequired =>
      if req.currentUser.Some? then Continue(v) else Halt(v, None, NewSession)
    case AssignCurrentEvent =>
      Continue(v.(event := req.currentEvent))
    case AcceptingFilter =>
      Apply(v, AssertAcceptingProposals(req.acceptingProposals, v.event))
    case ResolutionFilter =>
      var r := AssignProposalAndEvent(req.lookup);
      Apply(Resolved(r, v), ResolutionGate(r))
    case OwnershipFilter =>
      (match v.proposal
       case None => Raise(v)
       case Some(p) =>
         Apply(v, AssertProposalOwnership(req.isAdmin, req.acceptingProposals, req.canEdit, v.event, p.id)))
    case AssignProposalsBreadcrumb =>
      Continue(v)
  }

  /** Runs the filters of `fs` that apply to `a`, in order, until one does not continue. */
  function RunChain(fs: seq<Filter>, a: Action, req: Request, v: Assigns): Step
    decreases |fs|, 1
  {
    if fs == [] then Continue(v) else RunFirst(fs[0], fs[1..], a, req, v)
  }

  /** Runs `f` when it applies to `a`, then, if it continued, the filters of `rest`. */
  function RunFirst(f: Filter, rest: seq<Filter>, a: Action, req: Request, v: Assigns): Step
    decreases |rest| + 1, 0
  {
    if !AppliesTo(f, a) then RunChain(rest, a, req, v)
    else
      match RunFilter(f, req, v)
      case Continue(next) => RunChain(rest, a, req, next)
      case stop => stop
  }

  /** Running two lists of filters one after the other is running the first, then, if it continued, the second. */
  lemma {:induction false} RunChainAppend(pre: seq<Filter>, post: seq<Filter>, a: Action, req: Request, v: Assigns)
    ensures RunChain(pre + post, a, req, v) ==
      match RunChain(pre, a, req, v)
      case Continue(next) => RunChain(post, a, req, next)
      case stop => stop
  {
    if pre != [] {
      assert (pre + post)[0] == pre[0];
      assert (pre + post)[1..] == pre[1..] + post;
      if !AppliesTo(pre[0], a) {
        RunChainAppend(pre[1..], post, a, req, v);
      } else if RunFilter(pre[0], req, v).Continue? {
        RunChainAppend(pre[1..], post, a, req, RunFilter(pre[0], req, v).vars);
      }
    } else {
      assert pre + post == post;
    }
  }

  /** The first filter that redirects decides the request: no later filter runs. */
  lemma FirstRedirectWins(pre: seq<Filter>, f: Filter, post: seq<Filter>, a: Action, req: Request, v: Assigns)
    requires RunChain(pre, a, req, v).Continue?
    requires AppliesTo(f, a)
    requires RunFilter(f, req, RunChain(pre, a, req, v).vars).Halt?
    ensures RunChain(pre + [f] + post, a, req, v) == RunFilter(f, req, RunChain(pre, a, req, v).vars)
  {
    RunChainAppend(pre, [f] + post, a, req, v);
    assert pre + [f] + post == pre + ([f] + post);
  }

  /** What the declared chain amounts to for each action, written out. */
  function ExpectedFilters(a: Action, req: Request): Step {
    match a
    case Index => Continue(NoAssigns)
    case New | Create =>
      Apply(Assigns(None, req.currentEvent), AssertAcceptingProposals(req.acceptingProposals, req.currentEvent))
    case Show =>
      (match AssignProposalAndEvent(req.lookup)
       case NotFound => Halt(NoAssigns, Some(ProposalMissing), ProposalsIndex)
       case NoEvent(p) => Halt(Assigns(Some(p), None), Some(NoEventFor(p.id)), ProposalsIndex)
       case Found(p, e) => Continue(Assigns(Some(p), Some(e))))
    case Edit | Update | Destroy =>
      if req.currentUser.None? then Halt(NoAssigns, None, NewSession)
      else
        match AssignProposalAndEvent(req.lookup)
        case NotFound => Halt(NoAssigns, Some(ProposalMissing), ProposalsIndex)
        case NoEvent(p) => Halt(Assigns(Some(p), None), Some(NoEventFor(p.id)), ProposalsIndex)
        case Found(p, e) =>
          Apply(Assigns(Some(p), Some(e)),
                AssertProposalOwnership(req.isAdmin, req.acceptingProposals, req.canEdit, Some(e), p.id))
  }

  const Breadcrumb := [AssignProposalsBreadcrumb]
  const FromOwnership := [OwnershipFilter] + Breadcrumb
  const FromResolution := [ResolutionFilter] + FromOwnership
  const FromAccepting := [AcceptingFilter] + FromResolution

  /** The declared chain, one filter at a time. */
  lemma ChainUnfolds(a: Action, req: Request)
    ensures RunChain(Chain, a, req, NoAssigns) ==
      RunFirst(LoginRequired, [AssignCurrentEvent] + FromAccepting, a, req, NoAssigns)
    ensures forall v :: RunChain([AssignCurrentEvent] + FromAccepting, a, req, v) == RunFirst(AssignCurrentEvent, FromAccepting, a, req, v)
    ensures forall v :: RunChain(FromAccepting, a, req, v) == RunFirst(AcceptingFilter, FromResolution, a, req, v)
    ensures forall v :: RunChain(FromResolution, a, req, v) == RunFirst(ResolutionFilter, FromOwnership, a, req, v)
    ensures forall v :: RunChain(FromOwnership, a, req, v) == (if AppliesTo(OwnershipFilter, a) then RunFilter(OwnershipFilter, req, v) else Continue(v))
  {
    assert Chain[1..] == [AssignCurrentEvent] + FromAccepting;
    assert ([AssignCurrentEvent] + FromAccepting)[1..] == FromAccepting;
    assert FromAccepting[1..] == FromResolution;
    assert FromResolution[1..] == FromOwnership;
    assert FromOwnership[1..] == Breadcrumb;
    forall v ensures RunChain(Breadcrumb, a, req, v) == Continue(v) {
      assert Breadcrumb[1..] == [];
    }
  }

  /** The declared chain does, for every action, what `ExpectedFilters` writes out. */
  lemma ChainMatchesExpected(a: Action, req: Request)
    ensures RunChain(Chain, a, req, NoAssigns) == ExpectedFilters(a, req)
  {
    ChainUnfolds(a, req);
  }

  /** The response: none yet, a redirect, a page, the CSV rows, or an exception. */
  datatype View = IndexView(format: Format) | ShowView | NewView | EditView

  datatype Response =
    | Pending
    | Redirect(to: Route)
    | Render(view: View)
    | RenderCsv(rows: seq<seq<CsvExport.Cell>>)
    | Raised

  /**
   * What handling a request leaves behind: the instance variables, the
   * failure and success flashes, the response, whether `destroy` was called
   * on the proposal, and the index's fragment-cache key.
   */
  datatype Outcome = Outcome(
    vars: Assigns,
    failure: Option<Message>,
    success: Option<Message>,
    response: Response,
    destroyed: bool,
    cacheKey: Option<string>)

  const Untouched := Outcome(NoAssigns, None, None, Pending, false, None)

  const EditLike := {Edit, Update, Destroy}

  /** The form of the new action: a blank proposal with the user's name and e-mail filled in. */
  function NewForm(req: Request): Proposal {
    var p := if req.currentUser.Some? then Blank.(presenter := req.currentUser.value.fullname) else Blank;
    p.(email := req.currentEmail)
  }

  /** The proposal create builds from the form, tied to the event and to the user when logged in. */
  function Submission(req: Request, event: Option<Event>): Proposal {
    var p := req.submitted.(event := event);
    if req.currentUser.Some? then p.(userId := Some(req.currentUser.value.id)) else p
  }

  /** The event the index lists: from the parameters for feeds and exports, else the current one. */
  function IndexEvent(req: Request): Option<Event> {
    if FeedFormat(req.format) then
      (match req.paramEvent
       case EventReturns(e) => e
       case EventRaises => None)
    else req.currentEvent
  }

  /**
   * The action itself, run on the instance variables the filters left. A
   * nil @proposal raises, and so does new without an event, whose breadcrumb
   * path needs one.
   */
  function Body(a: Action, req: Request, v: Assigns): Outcome {
    match a
    case Index =>
      if FeedFormat(req.format) && req.paramEvent.EventRaises? then Outcome(v, None, None, Raised, false, None)
      else
        var event := IndexEvent(req);
        var response := if req.format == Csv then RenderCsv(CsvExport.CsvRows(req.proposals, req.isAdmin)) else Render(IndexView(req.format));
        Outcome(v.(event := event), None, None, response, false, Some(CacheKey.IndexCacheKeyFor(event, req.isAdmin)))
    case Show =>
      Outcome(v, None, None, Render(ShowView), false, None)
    case New =>
      if v.event.None? then Outcome(v, None, None, Raised, false, None)
      else Outcome(v.(proposal := Some(NewForm(req))), None, None, Render(NewView), false, None)
    case Edit =>
      (match v.proposal
       case None => Outcome(v, None, None, Raised, false, None)
       case Some(p) => Outcome(v.(event := p.event), None, None, Render(EditView), false, None))
    case Create =>
      var p := Submission(req, v.event);
      (match req.createdId
       case Some(id) =>
         Outcome(v.(proposal := Some(p.(id := id))), None, Some(Text("Proposal created.")), Redirect(ProposalPage(id)), false, None)
       case None =>
         Outcome(v.(proposal := Some(p)), None, None, Render(NewView), false, None))
    case Update =>
      (match v.proposal
       case None => Outcome(v, None, None, Raised, false, None)
       case Some(p) =>
         if req.updateSucceeds then
           Outcome(v, None, Some(Text("Proposal was successfully updated.")), Redirect(ProposalPage(p.id)), false, None)
         else
           Outcome(v, None, None, Render(EditView), false, None))
    case Destroy =>
      (match v.proposal
       case None => Outcome(v, None, None, Raised, false, None)
       case Some(p) =>
         var success := Some(Text("Destroyed proposal: " + p.title));
         match p.event
         case None => Outcome(v, None, success, Raised, true, None)
         case Some(e) => Outcome(v, None, success, Redirect(EventProposals(e.id)), true, None))
  }

  /** A whole request: the filter chain, then the action only when every filter continued. */
  function Handle(a: Action, req: Request): Outcome {
    match RunChain(Chain, a, req, NoAssigns)
    case Halt(v, failure, to) => Outcome(v, failure, None, Redirect(to), false, None)
    case Raise(v) => Outcome(v, None, None, Raised, false, None)
    case Continue(v) => Body(a, req, v)
  }

  /** The controller instance that handles one request. */
  class ProposalsController {
    var proposal: Option<Proposal>
    var event: Option<Event>
    var failure: Option<Message>
    var success: Option<Message>
    var response: Response
    var cacheKey: Option<string>
    ghost var destroyCalled: bool

    ghost function Snapshot(): Outcome
      reads this
    {
      Outcome(Assigns(proposal, event), failure, success, response, destroyCalled, cacheKey)
    }

    constructor ()
      ensures Snapshot() == Untouched
    {
      proposal, event := None, None;
      failure, success := None, None;
      response := Pending;
      cacheKey := None;
      destroyCalled := false;
    }

    /** Handles one request: runs the filters in order, stopping at the first that does not continue, then the action. */
    method Process(action: Action, req: Request)
      requires Snapshot() == Untouched
      modifies this
      ensures Snapshot() == Handle(action, req)
    {
      var i := 0;
      var stopped := false;
      while i < |Chain| && !stopped
        invariant 0 <= i <= |Chain|
        invariant !stopped ==> failure == None && success == None && response == Pending && !destroyCalled && cacheKey == None
        invariant !stopped ==> RunChain(Chain, action, req, NoAssigns) == RunChain(Chain[i..], action, req, Assigns(proposal, event))
        invariant stopped ==> Snapshot() == Handle(action, req)
      {
        assert Chain[i..][1..] == Chain[i + 1..];
        if AppliesTo(Chain[i], action) {
          var step := RunFilter(Chain[i], req, Assigns(proposal, event));
          proposal, event := step.vars.proposal, step.vars.event;
          match step {
            case Continue(_) =>
            case Halt(_, flash, to) =>
              failure := flash;
              response := Redirect(to);
              stopped := true;
            case Raise(_) =>
              response := Raised;
              stopped := true;
          }
        }
        i := i + 1;
      }
      if stopped {
        return;
      }
      assert Chain[i..] == [];
      match action {
        case Index =>
          if FeedFormat(req.format) {
            if req.paramEvent.EventRaises? {
              response := Raised;
              return;
            }
            event := req.paramEvent.result;
          } else {
            event := req.currentEvent;
          }
          cacheKey := Some(CacheKey.IndexCacheKeyFor(event, req.isAdmin));
          if req.format == Csv {
            var rows := CsvExport.ExportCsv(req.proposals, req.isAdmin);
            response := RenderCsv(rows);
          } else {
            response := Render(IndexView(req.format));
          }
        case Show =>
          response := Render(ShowView);
        case New =>
          if event.None? {
            response := Raised;
            return;
          }
          var p := Blank;
          if req.currentUser.Some? {
            p := p.(presenter := req.currentUser.value.fullname);
          }
          p := p.(email := req.currentEmail);
          proposal := Some(p);
          response := Render(NewView);
        case Edit =>
          if proposal.None? {
            response := Raised;
            return;
          }
          event := proposal.value.event;
          response := Render(EditView);
        case Create =>
          var p := req.submitted.(event := event);
          if req.currentUser.Some? {
            p := p.(userId := Some(req.currentUser.value.id));
          }
          proposal := Some(p);
          if req.createdId.Some? {
            proposal := Some(p.(id := req.createdId.value));
            success := Some(Text("Proposal created."));
            response := Redirect(ProposalPage(req.createdId.value));
          } else {
            response := Render(NewView);
          }
        case Update =>
          if proposal.None? {
            response := Raised;
            return;
          }
          if req.updateSucceeds {
            success := Some(Text("Proposal was successfully updated."));
            response := Redirect(ProposalPage(proposal.value.id));
          } else {
            response := Render(EditView);
          }
        case Destroy =>
          if proposal.None? {
            response := Raised;
            return;
          }
          destroyCalled := true;
          success := Some(Text("Destroyed proposal: " + proposal.value.title));
          if proposal.value.event.None? {
            response := Raised;
            return;
          }
          response := Redirect(EventProposals(proposal.value.event.value.id));
      }
    }
  }

  /** The proposal and event `assign_proposal_and_event` finds for the request. */
  function ResolutionOf(req: Request): Resolution {
    AssignProposalAndEvent(req.lookup)
  }

  /** Whenever a filter redirects, the action does not run: no success flash, no destroy, no cache key. */
  lemma RedirectSkipsAction(a: Action, req: Request)
    requires RunChain(Chain, a, req, NoAssigns).Halt?
    ensures Handle(a, req).response == Redirect(RunChain(Chain, a, req, NoAssigns).to)
    ensures Handle(a, req).success == None && !Handle(a, req).destroyed && Handle(a, req).cacheKey == None
  {
  }

  /**
   * No filter raises. A request raises in exactly two cases: new on an open
   * request without a current event, whose breadcrumb path needs one, and
   * a feed or export index whose event lookup raises. Every other action
   * finds @proposal and @event set before it uses them.
   */
  lemma NoRequestRaises(a: Action, req: Request)
    ensures !RunChain(Chain, a, req, NoAssigns).Raise?
    ensures Handle(a, req).response == Raised <==>
      || (a == New && req.acceptingProposals && req.currentEvent.None?)
      || (a == Index && FeedFormat(req.format) && req.paramEvent.EventRaises?)
  {
    ChainMatchesExpected(a, req);
  }

  /** Edit, update and destroy send an anonymous user to the login page before anything else. */
  lemma AnonymousSentToLogin(a: Action, req: Request)
    requires a in EditLike && req.currentUser.None?
    ensures Handle(a, req).response == Redirect(NewSession)
    ensures !Handle(a, req).destroyed && Handle(a, req).success == None
  {
    ChainMatchesExpected(a, req);
  }

  /**
   * `destroy` is called exactly when the user is logged in, the proposal and
   * its event exist, and the user is an admin or may edit the proposal while
   * the event accepts proposals.
   */
  lemma DestroyOnlyWhenPermitted(req: Request)
    ensures Handle(Destroy, req).destroyed <==>
      && req.currentUser.Some?
      && ResolutionOf(req).Found?
      && (req.isAdmin || (req.acceptingProposals && req.canEdit))
  {
    ChainMatchesExpected(Destroy, req);
  }

  /** A missing proposal, or one without an event, sends show, edit, update and destroy back to the index, each with its own message. */
  lemma UnresolvedProposalGoesToIndex(a: Action, req: Request)
    requires a == Show || (a in EditLike && req.currentUser.Some?)
    requires !ResolutionOf(req).Found?
    ensures Handle(a, req).response == Redirect(ProposalsIndex)
    ensures ResolutionOf(req).NotFound? ==> Handle(a, req).failure == Some(ProposalMissing)
    ensures ResolutionOf(req).NoEvent? ==> Handle(a, req).failure == Some(NoEventFor(ResolutionOf(req).proposal.id))
    ensures !Handle(a, req).destroyed
  {
    ChainMatchesExpected(a, req);
  }

  /** Show displays a proposal that exists and has an event, with both assigned. */
  lemma ShowFoundProposal(req: Request)
    requires ResolutionOf(req).Found?
    ensures Handle(Show, req).response == Render(ShowView) && Handle(Show, req).failure == None
    ensures Handle(Show, req).vars == Assigns(Some(ResolutionOf(req).proposal), Some(ResolutionOf(req).event))
  {
    ChainMatchesExpected(Show, req);
  }

  /** An admin passes the ownership check whatever the event's state and whoever owns the proposal. */
  lemma AdminPassesOwnership(a: Action, req: Request)
    requires a in EditLike && req.currentUser.Some? && req.isAdmin && ResolutionOf(req).Found?
    ensures Handle(a, req).failure == None
    ensures a == Edit ==> Handle(a, req).response == Render(EditView)
    ensures a == Update && req.updateSucceeds ==> Handle(a, req).response == Redirect(ProposalPage(ResolutionOf(req).proposal.id))
    ensures a == Update && !req.updateSucceeds ==> Handle(a, req).response == Render(EditView)
    ensures a == Destroy ==> Handle(a, req).destroyed
  {
    ChainMatchesExpected(a, req);
  }

  /** While the event is open, a user who may edit the proposal reaches the action. */
  lemma EditorPassesOwnership(a: Action, req: Request)
    requires a in EditLike && req.currentUser.Some? && req.acceptingProposals && req.canEdit && ResolutionOf(req).Found?
    ensures Handle(a, req).failure == None
    ensures a == Edit ==> Handle(a, req).response == Render(EditView)
    ensures a == Update && req.updateSucceeds ==> Handle(a, req).response == Redirect(ProposalPage(ResolutionOf(req).proposal.id))
    ensures a == Destroy ==> Handle(a, req).destroyed && Handle(a, req).response == Redirect(EventProposals(ResolutionOf(req).event.id))
  {
    ChainMatchesExpected(a, req);
  }

  /** Past the event's deadline, a user who is not an admin is sent back to the event's proposals, never to the global index. */
  lemma DeadlineRefusesNonAdmin(a: Action, req: Request)
    requires a in EditLike && req.currentUser.Some? && !req.isAdmin && !req.acceptingProposals
    requires ResolutionOf(req).Found?
    ensures Handle(a, req).failure == Some(DeadlinePassed)
    ensures Handle(a, req).response == Redirect(EventProposals(ResolutionOf(req).event.id))
    ensures !Handle(a, req).destroyed
  {
    ChainMatchesExpected(a, req);
  }

  /** While the event is open, a user who is not an admin and may not edit the proposal is sent to the proposal's page. */
  lemma NoPermissionRefusesNonOwner(a: Action, req: Request)
    requires a in EditLike && req.currentUser.Some? && !req.isAdmin && req.acceptingProposals && !req.canEdit
    requires ResolutionOf(req).Found?
    ensures Handle(a, req).failure == Some(NoPermission)
    ensures Handle(a, req).response == Redirect(ProposalPage(ResolutionOf(req).proposal.id))
    ensures !Handle(a, req).destroyed
  {
    ChainMatchesExpected(a, req);
  }

  /** New and create on an event that does not accept proposals redirect before the action runs, admins included. */
  lemma ClosedEventRefusesSubmission(a: Action, req: Request)
    requires a in {New, Create} && !req.acceptingProposals
    ensures Handle(a, req).failure == Some(ProposalsNotAccepted)
    ensures Handle(a, req).response == Redirect(IndexFor(req.currentEvent))
    ensures Handle(a, req).vars.proposal == None && Handle(a, req).success == None
  {
    ChainMatchesExpected(a, req);
  }

  /** On an open current event, new shows the form; its presenter is the user's full name when logged in and blank otherwise. */
  lemma OpenEventShowsForm(req: Request)
    requires req.acceptingProposals && req.currentEvent.Some?
    ensures Handle(New, req).response == Render(NewView) && Handle(New, req).failure == None
    ensures Handle(New, req).vars.proposal.Some?
    ensures Handle(New, req).vars.proposal.value.presenter ==
      if req.currentUser.Some? then req.currentUser.value.fullname else ""
    ensures Handle(New, req).vars.proposal.value.email == req.currentEmail
  {
    ChainMatchesExpected(New, req);
  }

  /**
   * On an open event, create saves the proposal under the current event and
   * user: a saved one is shown with a success flash, an invalid one gets the
   * form again.
   */
  lemma OpenEventCreates(req: Request)
    requires req.acceptingProposals
    ensures Handle(Create, req).failure == None
    ensures Handle(Create, req).vars.proposal.Some?
    ensures Handle(Create, req).vars.proposal.value.event == req.currentEvent
    ensures req.currentUser.Some? ==> Handle(Create, req).vars.proposal.value.userId == Some(req.currentUser.value.id)
    ensures req.createdId.Some? ==>
      Handle(Create, req).response == Redirect(ProposalPage(req.createdId.value)) &&
      Handle(Create, req).success == Some(Text("Proposal created."))
    ensures req.createdId.None? ==> Handle(Create, req).response == Render(NewView) && Handle(Create, req).success == None
  {
    ChainMatchesExpected(Create, req);
  }

  /** Unless its event lookup raises, the index lists the scoped event's proposals, caches under that event and the admin flag, and exports the CSV rows. */
  lemma IndexKeyAndExport(req: Request)
    ensures Handle(Index, req).response == Raised <==> FeedFormat(req.format) && req.paramEvent.EventRaises?
    ensures Handle(Index, req).response != Raised ==>
      Handle(Index, req).cacheKey == Some(CacheKey.IndexCacheKeyFor(IndexEvent(req), req.isAdmin))
    ensures Handle(Index, req).response != Raised ==> Handle(Index, req).vars.event == IndexEvent(req)
    ensures req.format == Csv ==> Handle(Index, req).response == RenderCsv(CsvExport.CsvRows(req.proposals, req.isAdmin))
  {
    ChainMatchesExpected(Index, req);
  }
}
