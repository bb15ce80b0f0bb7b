/**
 * Participant records and how one fetch of the sheet range
 * `'Form Responses 1'!A2:J` is turned into the cache's map from ticket id
 * to record (services/sheetsService.js, loadParticipantsCache).
 */
module Participants {

  /** One spreadsheet row as the Sheets API returns it: trailing empty cells are absent. */
  type Row = seq<string>
  type Rows = seq<Row>

  /** The two statuses with a defined meaning; every other value is "not issued". */
  const CheckedIn := "Checked In"
  const TicketSent := "Ticket Sent"

  /** The fetched range starts at sheet row 2 (row 1 is the header). */
  const FirstDataRow := 2

  // 0-based column positions inside a fetched row (A = 0).
  const EmailColumn := 1            // B
  const RrnColumn := 2              // C
  const NameColumn := 3             // D
  const DegreeAndBranchColumn := 4  // E
  const PhoneColumn := 5            // F
  const StatusColumn := 8           // I
  const TicketIdColumn := 9         // J

  datatype Participant = Participant(
    name: string,
    email: string,
    phone: string,
    status: string,
    ticketId: string,
    rrn: string,
    degreeAndBranch: string,
    row: int)

  /** `row[k]`, reading a cell past the end of a short row as the empty string. */
  function Cell(row: Row, k: nat): string {
    if k < |row| then row[k] else ""
  }

  /** JavaScript's `s || d` on a string cell: the empty string is falsy. */
  function OrElse(s: string, d: string): string {
    if s == "" then d else s
  }

  /** The record built from the row at 0-based position `i` of a fetch. */
  function MakeParticipant(row: Row, i: nat): (p: Participant)
    ensures p.ticketId == Cell(row, TicketIdColumn)
    ensures p.row == i + FirstDataRow
    ensures p.name != ""
    ensures Cell(row, NameColumn) != "" ==> p.name == row[NameColumn]
    ensures Cell(row, NameColumn) == "" ==> p.name == "Unknown"
    ensures p.email == Cell(row, EmailColumn) && p.phone == Cell(row, PhoneColumn)
    ensures p.status == Cell(row, StatusColumn) && p.rrn == Cell(row, RrnColumn)
    ensures p.degreeAndBranch == Cell(row, DegreeAndBranchColumn)
  {
    Participant(
      name := OrElse(Cell(row, NameColumn), "Unknown"),
      email := OrElse(Cell(row, EmailColumn), ""),
      phone := OrElse(Cell(row, PhoneColumn), ""),
      status := OrElse(Cell(row, StatusColumn), ""),
      ticketId := OrElse(Cell(row, TicketIdColumn), ""),
      rrn := OrElse(Cell(row, RrnColumn), ""),
      degreeAndBranch := OrElse(Cell(row, DegreeAndBranchColumn), ""),
      row := i + FirstDataRow)
  }

  /** Every key is a non-empty ticket id and names the record stored under it. */
  ghost predicate WellKeyed(m: map<string, Participant>) {
    forall k :: k in m ==> k != "" && m[k].ticketId == k
  }

  /**
   * The map a reload builds from the fetched rows: rows are visited in order,
   * rows with an empty ticket-id cell are skipped, and a later row with the
   * same id overwrites an earlier one.
   */
  function BuildCache(rows: Rows): (m: map<string, Participant>)
    ensures WellKeyed(m)
    ensures forall k :: k in m ==> FirstDataRow <= m[k].row < |rows| + FirstDataRow
    decreases |rows|
  {
    if rows == [] then map[]
    else
      var n := |rows| - 1;
      var earlier := BuildCache(rows[..n]);
      var id := Cell(rows[n], TicketIdColumn);
      if id != "" then earlier[id := MakeParticipant(rows[n], n)] else earlier
  }

  /** The keys of a rebuilt map are exactly the non-empty ticket-id cells of the rows. */
  lemma {:induction false} BuildCacheKeys(rows: Rows, k: string)
    ensures k in BuildCache(rows) <==>
      k != "" && exists i :: 0 <= i < |rows| && Cell(rows[i], TicketIdColumn) == k
    decreases |rows|
  {
    if rows != [] {
      var n := |rows| - 1;
      var prefix := rows[..n];
      BuildCacheKeys(prefix, k);
      if k in BuildCache(rows) && Cell(rows[n], TicketIdColumn) != k {
        var i :| 0 <= i < |prefix| && Cell(prefix[i], TicketIdColumn) == k;
        assert prefix[i] == rows[i];
      }
      if k != "" && (exists i :: 0 <= i < |rows| && Cell(rows[i], TicketIdColumn) == k) {
        var i :| 0 <= i < |rows| && Cell(rows[i], TicketIdColumn) == k;
        if i < n {
          assert prefix[i] == rows[i];
        }
      }
    }
  }

  /**
   * The record stored under an id is the one built from the LAST row carrying
   * that id, with that row's own position.
   */
  lemma {:induction false} BuildCacheLastWins(rows: Rows, i: nat)
    requires i < |rows| && Cell(rows[i], TicketIdColumn) != ""
    requires forall j :: i < j < |rows| ==> Cell(rows[j], TicketIdColumn) != Cell(rows[i], TicketIdColumn)
    ensures Cell(rows[i], TicketIdColumn) in BuildCache(rows)
    ensures BuildCache(rows)[Cell(rows[i], TicketIdColumn)] == MakeParticipant(rows[i], i)
    decreases |rows|
  {
    var n := |rows| - 1;
    if i < n {
      var prefix := rows[..n];
      assert prefix[i] == rows[i];
      forall j | i < j < |prefix|
        ensures Cell(prefix[j], TicketIdColumn) != Cell(prefix[i], TicketIdColumn)
      {
        assert prefix[j] == rows[j];
      }
      BuildCacheLastWins(prefix, i);
    }
  }
}
