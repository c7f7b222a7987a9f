# Proposals controller of openproposals, in Dafny

This project models the decision and string-building logic of
`ProposalsController`, the Rails controller that handles conference talk
proposals. It covers these parts:

- **Fragment-cache key.** The index action's cache key is built from the
  optional event (its id and accepting state) and the admin flag
  (`index_cache_key_for`). A parser reads keys back. The round trip shows
  that the key records exactly those inputs.
- **The three filter decisions.** `assert_accepting_proposals` guards new and
  create, and has no admin exemption. `assert_proposal_ownership` guards
  edit, update and destroy: admins always pass; anyone else is stopped first
  by a closed event, then by `can_edit?`. `assign_proposal_and_event` has
  three outcomes (not found, found without an event, found with one), and
  the two failures carry different messages.
- **The before-filter chain.** The filters are a list in declared order, and
  each filter has an `:only` list of actions. `RunChain` runs the filters
  that apply and stops at the first one that redirects. `Handle` is the whole
  request: the chain, then the action only when every filter continued.
  `ProposalsController.Process` is the controller object. It mutates
  `@proposal`, `@event`, the flash and the response in a loop over the chain,
  and it is proved to leave exactly what `Handle` describes. Whether the
  proposal's `destroy` was called is a ghost field.
- **CSV export.** The field list has eight public columns plus three private
  ones for admins. The header row comes first, then one row per proposal.
  `ExportCsv` grows the field list and appends rows in a loop, as the index
  action does. It is proved equal to the specification `CsvRows`.

Inputs from outside the controller are fields of a `Request` record:

- what the persistence layer returns (`Proposal.lookup` returns a record,
  returns nil, or raises; the new id after `save`; the result of
  `update_attributes`);
- the session (`current_user`, `current_email`);
- the helpers of the application controller (`admin?`,
  `accepting_proposals?`, `can_edit?`, the event `assign_current_event`
  assigns).

A nil `@proposal` that the Ruby code would dereference is modelled as a raised
exception. So is a `new` with no current event, because its breadcrumb path
`new_event_proposal_path(@event)` needs one. An atom, JSON or XML index whose
`Event.lookup` raises also raises, because nothing rescues that lookup.
`NoRequestRaises` shows that these two are the only requests that raise.

Notes on the code's behaviour:

- For a user who is not an admin, the ownership gate checks the deadline
  before ownership. A non-owner editing a proposal of a closed event is
  therefore sent to the event's proposals list, not to the proposal page.
- The gate asks `can_edit?`, not "is the owner".
- `submitted_at` is exported raw. Only `created_at` would be reformatted, and
  it is never a column.

## Model

| member | source | states |
|---|---|---|
| `Decimal.IntToStringRoundTrip` | app/controllers/proposals_controller.rb:229 | the decimal text interpolated for an id reads back to the same integer, negative ones included |
| `Decimal.IntToStringInjective` | app/controllers/proposals_controller.rb:229 | two ids give the same text exactly when they are equal |
| `CacheKey.IndexCacheKeyFor` | app/controllers/proposals_controller.rb:226-233 | builds the key from the prefix, the event's id and accepting state (or all_proposals) and the admin flag; no ensures of its own, pinned down by `ParseInvertsKey` and `KeyDeterminedByScopeAndAdmin` |
| `CacheKey.ParseInvertsKey` | app/controllers/proposals_controller.rb:226-233 | parsing a key gives back the event's id and accepting state (or "all proposals") and the admin flag |
| `CacheKey.KeyDeterminedByScopeAndAdmin` | app/controllers/proposals_controller.rb:226-233 | two keys are equal iff the event ids, the accepting states and the admin flags agree (or both have no event); nothing else, such as the event's title, affects the key |
| `CacheKey.AdminKeysDiffer` | app/controllers/proposals_controller.rb:231 | an admin's key never equals a non-admin's key, whatever the events |
| `CacheKey.KnownEventKey` | spec/controllers/proposals_controller_spec.rb:405-409 | event 1, accepting, admin gives "proposals_index,event_1,accepting_true,admin_true" |
| `CacheKey.KnownAllProposalsKeys` | spec/controllers/proposals_controller_spec.rb:411-417 | no event gives "proposals_index,all_proposals,admin_true" / "...,admin_false" |
| `Gates.AssertAcceptingProposals` | app/controllers/proposals_controller.rb:172-177 | passes iff proposals are accepted; otherwise the not-accepted snippet is flashed and the redirect goes to the event's or the global index; no admin input exists |
| `Gates.AssertProposalOwnership` | app/controllers/proposals_controller.rb:180-196 | an admin always passes; passes iff admin or (accepting and `can_edit?`); a non-admin past the deadline gets the deadline message and the event's index; an open-event non-editor gets the permission message and the proposal's page |
| `Gates.AssignProposalAndEvent` | app/controllers/proposals_controller.rb:199-203 | not found iff the lookup raised or returned nil; found without an event only for a proposal whose event is nil; found both only when the proposal's event is that event |
| `Gates.ResolutionGate` | app/controllers/proposals_controller.rb:204-209 | passes iff both were found; each failure flashes its own message and redirects to the index |
| `Gates.ResolutionFailuresDiffer` | app/controllers/proposals_controller.rb:204-208 | the "no event" message differs from the "doesn't exist" message for every proposal id |
| `Gates.OwnershipFailuresDiffer` | app/controllers/proposals_controller.rb:188-192 | the permission message differs from the deadline message |
| `CsvExport.Columns` | app/controllers/proposals_controller.rb:42-56 | the columns start with the eight public fields in order; there are 11 for admins, ending with email, note_to_organizers, comments_text, else 8 |
| `CsvExport.ExportCsv` | app/controllers/proposals_controller.rb:40-61 | the rows written equal `CsvRows`: the header of the field names, then one row per proposal, in order |
| `CsvExport.RowsMatchHeader` | app/controllers/proposals_controller.rb:57-60 | one row per proposal after the header, and every row as wide as the header |
| `CsvExport.RowHoldsRawValues` | app/controllers/proposals_controller.rb:59 | cell j of data row i is proposal i's raw value of column j |
| `CsvExport.NoCellIsReformatted` | app/controllers/proposals_controller.rb:42-59 | `created_at` is never a column, so no cell is ever converted to local time |
| `CsvExport.HeaderShowsPrivateColumnsIffAdmin` | app/controllers/proposals_controller.rb:52-57 | the header always names presenter, and names email, note_to_organizers and comments_text iff the user is an admin |
| `Controller.RunFilter` | app/controllers/proposals_controller.rb:3-211 | one before-filter on the instance variables; no ensures of its own, pinned down per action by `ChainMatchesExpected` |
| `Controller.Body` | app/controllers/proposals_controller.rb:14-167 | the action bodies; no ensures of their own, pinned down by `Process` (equal to `Handle`) and the request lemmas below |
| `Controller.RunChainAppend` | app/controllers/proposals_controller.rb:3-8 | running two filter lists in sequence is running the first and, only if it continued, the second |
| `Controller.FirstRedirectWins` | app/controllers/proposals_controller.rb:3-8 | once a filter redirects, the chain's result is that redirect, whatever filters follow |
| `Controller.ChainMatchesExpected` | app/controllers/proposals_controller.rb:3-8 | the declared chain amounts, per action, to: nothing for index; the accepting check on the current event for new/create; resolution for show; login, then resolution, then ownership for edit/update/destroy |
| `Controller.ProposalsController.Process` | app/controllers/proposals_controller.rb:1-167 | after one request, the instance variables, the flashes, the response, the cache key and whether destroy was called are what `Handle` gives |
| `Controller.RedirectSkipsAction` | app/controllers/proposals_controller.rb:3-8 | when a filter redirects, the response is that redirect, with no success flash, no destroy and no cache key |
| `Controller.NoRequestRaises` | app/controllers/proposals_controller.rb:3-89 | no filter ever raises; a request raises iff it is new with proposals accepted and no current event (the breadcrumb path at line 89 needs an event), or an atom/json/xml index whose unrescued `Event.lookup` at line 17 raises; no other action reaches a nil proposal or event |
| `Controller.AnonymousSentToLogin` | app/controllers/proposals_controller.rb:3 | edit, update and destroy send an anonymous user to the login page and never destroy |
| `Controller.DestroyOnlyWhenPermitted` | app/controllers/proposals_controller.rb:156-159 | destroy is called iff the user is logged in, the proposal and its event exist, and the user is an admin or may edit while the event accepts proposals |
| `Controller.UnresolvedProposalGoesToIndex` | app/controllers/proposals_controller.rb:199-211 | for show, and for edit/update/destroy once logged in, a missing proposal or one without an event redirects to the index with its own message, and nothing is destroyed |
| `Controller.ShowFoundProposal` | app/controllers/proposals_controller.rb:70-83 | show renders a found proposal with @proposal and @event assigned and no failure |
| `Controller.AdminPassesOwnership` | app/controllers/proposals_controller.rb:181-182 | a logged-in admin reaches edit, update and destroy of an existing proposal with no failure flash, open event or not |
| `Controller.EditorPassesOwnership` | app/controllers/proposals_controller.rb:184-186 | on an open event, a user who may edit reaches the action; destroy then redirects to the event's proposals |
| `Controller.DeadlineRefusesNonAdmin` | app/controllers/proposals_controller.rb:191-194 | past the deadline a non-admin gets the deadline message and the event's proposals list; within the chain the event is always present, so the global-index branch never runs |
| `Controller.NoPermissionRefusesNonOwner` | app/controllers/proposals_controller.rb:184-190 | on an open event, a non-admin who may not edit gets the permission message and the proposal's page, and nothing is destroyed |
| `Controller.ClosedEventRefusesSubmission` | app/controllers/proposals_controller.rb:4-5 | new and create on a closed event flash the not-accepted snippet and redirect to the event's (or global) index before the action runs, admins included |
| `Controller.OpenEventShowsForm` | app/controllers/proposals_controller.rb:88-101 | when there is a current event and it accepts proposals, the form is shown; its presenter is the user's full name when logged in and blank otherwise; its e-mail is the current e-mail |
| `Controller.OpenEventCreates` | app/controllers/proposals_controller.rb:114-131 | on an open event the new proposal belongs to the current event and, when logged in, to the user; a saved one redirects to its page with "Proposal created.", an invalid one re-renders the form |
| `Controller.IndexKeyAndExport` | app/controllers/proposals_controller.rb:14-66 | the index raises iff it is atom/json/xml and the event lookup raises; otherwise it uses the parameter's event for atom/json/xml and the current event otherwise, caches under that event and the admin flag, and answers CSV with `CsvRows` |

## Left out

- Persistence: `Proposal.lookup`, `Event.lookup`, `lookup_proposals`, `save`, `update_attributes` and `destroy` are not modelled. Their results are request inputs, and destroy is a ghost flag. Each of the two lookups may also raise. The attribute changes `update_attributes` makes are not modelled.
- `public_attributes`, the XML/JSON projection, is defined in the Proposal model, which is not part of this model. Index and show responses in those formats are only named by their format.
- The Atom feed and `MAX_FEED_ITEMS` (line 10): the 20-item cap is applied in a template that is not part of this model.
- The helpers of the application controller (`accepting_proposals?`, `can_edit?`, `admin?`, `logged_in?`, `current_user`, `current_email`, `login_required`, `assign_current_event`) are not part of this model. The request gives their answers. `assign_current_event` is taken never to redirect. `login_required` redirects an anonymous user to the login page and sets no flash.
- Rendering, `respond_to` format negotiation for actions other than index, breadcrumbs (`add_breadcrumb*` and the breadcrumb filter, which has no effect here), `Snippet.content_for` text (the snippet is named, not expanded), the comment form of show, and `Defer`.
- `CsvExport.CellFor`: the `localtime.to_s(:date_time12)` formatting is not computed; such a cell is tagged `LocalTime`. Turning the rows into CSV text (quoting, line ends) is also left out.
- `Controller.RunFilter`: with no `@proposal`, the ownership filter is taken to raise in every branch. The source raises only when it builds `proposal_path`. The declared chain never runs it without a proposal (`NoRequestRaises`).
- `accepting_proposals?` is the request's `acceptingProposals` input. The helper is not part of this model. So the model does not tie that input to `Event.acceptingProposals` of the current event or of the proposal's event, which only the cache key reads (`event.accepting_proposals?`, line 229). The model therefore does not promise that editing a proposal whose event record accepts proposals passes the deadline check, nor that `new` without a current event is refused.
- `Controller.NoRequestRaises` covers the controller's own code and the two lookups. Exceptions raised inside `save`, `update_attributes`, `destroy`, the helpers or the templates are not modelled.
- Ids are unbounded integers. An unsaved `Proposal.new` has id 0 in place of nil.
- `config/deploy/igniteportland.rb` is deployment settings with no logic.
