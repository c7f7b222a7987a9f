/**
 * The CSV export of the proposals index: a header row naming the fields,
 * then one row per proposal with each field's value. Admins get three
 * private columns more. The CSV text encoding itself is not modelled; the
 * export is the sequence of rows handed to the CSV writer.
 */
module CsvExport {
  import opened Records

  /** The proposal attributes a CSV column can name. */
  datatype Field =
    | Id | SubmittedAt | CreatedAt | Presenter | Affiliation | Url | Bio
    | Title | Description | Email | NoteToOrganizers | CommentsText

  /** `Symbol#to_s` of each field. */
  function Name(f: Field): string {
    match f
    case Id => "id"
    case SubmittedAt => "submitted_at"
    case CreatedAt => "created_at"
    case Presenter => "presenter"
    case Affiliation => "affiliation"
    case Url => "url"
    case Bio => "bio"
    case Title => "title"
    case Description => "description"
    case Email => "email"
    case NoteToOrganizers => "note_to_organizers"
    case CommentsText => "comments_text"
  }

  /** An attribute value as the proposal returns it. */
  datatype Value = Int(i: int) | Str(s: string) | Time(t: Timestamp)

  /** `proposal.send(field)`. */
  function Send(p: Proposal, f: Field): Value {
    match f
    case Id => Int(p.id)
    case SubmittedAt => Time(p.submittedAt)
    case CreatedAt => Time(p.createdAt)
    case Presenter => Str(p.presenter)
    case Affiliation => Str(p.affiliation)
    case Url => Str(p.url)
    case Bio => Str(p.bio)
    case Title => Str(p.title)
    case Description => Str(p.description)
    case Email => Str(p.email)
    case NoteToOrganizers => Str(p.noteToOrganizers)
    case CommentsText => Str(p.commentsText)
  }

  /**
   * A cell handed to the CSV writer: the raw value, or the value converted
   * to local time and formatted as `date_time12` (the formatting itself is
   * not modelled).
   */
  datatype Cell = Raw(value: Value) | LocalTime(value: Value)

  const PublicColumns: seq<Field> := [Id, SubmittedAt, Presenter, Affiliation, Url, Bio, Title, Description]
  const PrivateColumns: seq<Field> := [Email, NoteToOrganizers, CommentsText]

  /** The columns of the export, in order: the public ones, then the private ones for admins. */
  function Columns(isAdmin: bool): (cols: seq<Field>)
    ensures |cols| == if isAdmin then 11 else 8
    ensures cols[..8] == PublicColumns
    ensures isAdmin ==> cols[8..] == PrivateColumns
  {
    if isAdmin then PublicColumns + PrivateColumns else PublicColumns
  }

  /** One cell of a data row; only `created_at` would be reformatted. */
  function CellFor(p: Proposal, f: Field): Cell {
    var value := Send(p, f);
    if f == CreatedAt then LocalTime(value) else Raw(value)
  }

  /** The header row: `fields.map { |field| field.to_s }`. */
  function Header(fields: seq<Field>): seq<Cell> {
    seq(|fields|, j requires 0 <= j < |fields| => Raw(Str(Name(fields[j]))))
  }

  /** The data row of one proposal: one cell per field. */
  function Row(p: Proposal, fields: seq<Field>): seq<Cell> {
    seq(|fields|, j requires 0 <= j < |fields| => CellFor(p, fields[j]))
  }

  /** The rows the export writes: the header, then one row per proposal in order. */
  function CsvRows(proposals: seq<Proposal>, isAdmin: bool): seq<seq<Cell>> {
    var fields := Columns(isAdmin);
    [Header(fields)] + seq(|proposals|, i requires 0 <= i < |proposals| => Row(proposals[i], fields))
  }

  /**
   * The `format.csv` block of the index action: builds the field list,
   * growing it for admins, writes the header, then one row per proposal.
   */
  method ExportCsv(proposals: seq<Proposal>, isAdmin: bool) returns (rows: seq<seq<Cell>>)
    ensures rows == CsvRows(proposals, isAdmin)
  {
    var fields := [Id, SubmittedAt, Presenter, Affiliation, Url, Bio, Title, Description];
    if isAdmin {
      fields := fields + [Email];
      fields := fields + [NoteToOrganizers];
      fields := fields + [CommentsText];
    }
    rows := [Header(fields)];
    for i := 0 to |proposals|
      invariant |rows| == i + 1
      invariant rows[0] == Header(Columns(isAdmin))
      invariant forall k :: 0 <= k < i ==> rows[k + 1] == Row(proposals[k], Columns(isAdmin))
    {
      rows := rows + [Row(proposals[i], fields)];
    }
  }

  /** There is a header row and then exactly one row per proposal, each as wide as the header. */
  lemma RowsMatchHeader(proposals: seq<Proposal>, isAdmin: bool)
    ensures |CsvRows(proposals, isAdmin)| == |proposals| + 1
    ensures forall r :: r in CsvRows(proposals, isAdmin) ==> |r| == |CsvRows(proposals, isAdmin)[0]|
  {
  }

  /** Data row i holds proposal i's raw value of each column, in column order. */
  lemma RowHoldsRawValues(proposals: seq<Proposal>, isAdmin: bool, i: nat, j: nat)
    requires i < |proposals| && j < |Columns(isAdmin)|
    ensures CsvRows(proposals, isAdmin)[i + 1][j] == Raw(Send(proposals[i], Columns(isAdmin)[j]))
  {
    assert Columns(isAdmin)[j] != CreatedAt;
  }

  /** `created_at` is never a column, so no cell is ever reformatted. */
  lemma NoCellIsReformatted(proposals: seq<Proposal>, isAdmin: bool)
    ensures CreatedAt !in Columns(isAdmin)
    ensures forall r, c :: r in CsvRows(proposals, isAdmin) && c in r ==> c.Raw?
  {
  }

  /** The header names a private column exactly when the user is an admin; "presenter" always. */
  lemma HeaderShowsPrivateColumnsIffAdmin(proposals: seq<Proposal>, isAdmin: bool)
    ensures Raw(Str("presenter")) in CsvRows(proposals, isAdmin)[0]
    ensures Raw(Str("email")) in CsvRows(proposals, isAdmin)[0] <==> isAdmin
    ensures Raw(Str("note_to_organizers")) in CsvRows(proposals, isAdmin)[0] <==> isAdmin
    ensures Raw(Str("comments_text")) in CsvRows(proposals, isAdmin)[0] <==> isAdmin
  {
    var header := CsvRows(proposals, isAdmin)[0];
    assert header[2] == Raw(Str("presenter"));
    if isAdmin {
      assert header[8] == Raw(Str("email"));
      assert header[9] == Raw(Str("note_to_organizers"));
      assert header[10] == Raw(Str("comments_text"));
    }
  }
}
