/**
 * The records the proposals controller reads: events, proposals and the
 * signed-in user. Their persistence (lookup, save, destroy) is not part of
 * this model; the controller receives their results as inputs.
 */
module Records {
  import opened Wrappers

  /** A point in time, as stored; its formatting is not modelled. */
  datatype Timestamp = Timestamp(seconds: int)

  /** An event; `acceptingProposals` is the value of `accepting_proposals?`. */
  datatype Event = Event(id: int, title: string, acceptingProposals: bool)

  /** A signed-in user (`current_user`). */
  datatype User = User(id: int, fullname: string)

  /** A proposal with the attributes the controller reads or writes. */
  datatype Proposal = Proposal(
    id: int,
    submittedAt: Timestamp,
    createdAt: Timestamp,
    presenter: string,
    affiliation: string,
    url: string,
    bio: string,
    title: string,
    description: string,
    email: string,
    noteToOrganizers: string,
    commentsText: string,
    event: Option<Event>,
    userId: Option<int>)

  /** `Proposal.new`: every attribute blank; the unsaved record's id is 0. */
  const Blank: Proposal :=
    Proposal(0, Timestamp(0), Timestamp(0), "", "", "", "", "", "", "", "", "", None, None)
}
