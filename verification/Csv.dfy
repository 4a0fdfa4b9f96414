/** The attendee export, and a reader that follows section 2 of RFC 4180. */
module Csv {
  import opened Tables

  const CRLF: string := "\r\n"

  predicate IsFormulaStart(c: char) {
    c in {'=', '+', '-', '@', '\t', '\r'}
  }

  predicate IsSpecial(c: char) {
    c in {'"', ',', '\r', '\n'}
  }

  /** A value a spreadsheet would run as a formula is marked as text. */
  function Guard(value: string): string {
    if value != "" && IsFormulaStart(value[0]) then "'" + value else value
  }

  function Doubled(s: string): string {
    if s == "" then "" else (if s[0] == '"' then "\"\"" else [s[0]]) + Doubled(s[1..])
  }

  predicate NeedsQuotes(s: string) {
    exists k :: 0 <= k < |s| && IsSpecial(s[k])
  }

  function Cell(value: string): string {
    var guarded := Guard(value);
    if NeedsQuotes(guarded) then "\"" + Doubled(guarded) + "\"" else guarded
  }

  function Line(row: seq<string>): string {
    if row == [] then ""
    else if |row| == 1 then Cell(row[0])
    else Cell(row[0]) + "," + Line(row[1..])
  }

  /** Lines joined by CRLF, with a CRLF after the last. */
  function Export(rows: seq<seq<string>>): string {
    if rows == [] then "" else Line(rows[0]) + CRLF + Export(rows[1..])
  }

  datatype Attendee = Attendee(name: string, email: string, tier: string, seat: Option<string>, status: string,
                               checkedInAt: Option<string>)

  const HEADER: seq<string> := ["Name", "Email", "Ticket Type", "Seat", "Status", "Checked In At"]

  function Row(a: Attendee): seq<string> {
    [a.name, a.email, a.tier, match a.seat case Some(s) => s case None => "", a.status,
     match a.checkedInAt case Some(t) => t case None => ""]
  }

  function Rows(attendees: seq<Attendee>): seq<seq<string>> {
    [HEADER] + seq(|attendees|, (k: nat) requires k < |attendees| => Row(attendees[k]))
  }

  function AttendeesCsv(attendees: seq<Attendee>): string {
    Export(Rows(attendees))
  }

  // ---- RFC 4180 ----

  /** Inside double quotes: a doubled quote stands for one, a single one closes the field. */
  function ReadQuoted(s: string): (r: Option<(string, string)>)
    ensures r.Some? ==> |r.value.1| < |s|
  {
    if s == "" then None
    else if s[0] == '"' then
      if |s| > 1 && s[1] == '"' then Prepend('"', ReadQuoted(s[2..])) else Some(("", s[1..]))
    else Prepend(s[0], ReadQuoted(s[1..]))
  }

  function Prepend(c: char, r: Option<(string, string)>): Option<(string, string)> {
    match r case None => None case Some((field, rest)) => Some(([c] + field, rest))
  }

  /** Outside quotes a field runs up to a comma, a quote or a line break. */
  function ReadBare(s: string): (r: (string, string))
    ensures |r.1| <= |s|
  {
    if s == "" || IsSpecial(s[0]) then ("", s)
    else var (field, rest) := ReadBare(s[1..]); ([s[0]] + field, rest)
  }

  function ReadField(s: string): (r: Option<(string, string)>)
    ensures r.Some? ==> |r.value.1| <= |s|
  {
    if s != "" && s[0] == '"' then ReadQuoted(s[1..]) else Some(ReadBare(s))
  }

  function ReadRecord(s: string): (r: Option<(seq<string>, string)>)
    ensures r.Some? ==> |r.value.1| <= |s|
    decreases |s|
  {
    match ReadField(s)
    case None => None
    case Some((field, rest)) =>
      if rest == "" || rest[0] != ',' then Some(([field], rest))
      else
        match ReadRecord(rest[1..])
        case None => None
        case Some((fields, rest2)) => Some(([field] + fields, rest2))
  }

  /** Records end with CRLF; the last one may end with the file. */
  function ReadFile(s: string): Option<seq<seq<string>>>
    decreases |s|
  {
    if s == "" then Some([])
    else
      match ReadRecord(s)
      case None => None
      case Some((record, rest)) =>
        if rest == "" then Some([record])
        else if |rest| < 2 || rest[..2] != CRLF then None
        else
          match ReadFile(rest[2..])
          case None => None
          case Some(records) => Some([record] + records)
  }

  // ---- the round trip ----

  function GuardRow(row: seq<string>): seq<string> {
    seq(|row|, (k: nat) requires k < |row| => Guard(row[k]))
  }

  function GuardRows(rows: seq<seq<string>>): seq<seq<string>> {
    seq(|rows|, (k: nat) requires k < |rows| => GuardRow(rows[k]))
  }

  /** What follows a cell in an export: a comma, or a line break. */
  predicate Follows(rest: string) {
    rest != "" && (rest[0] == ',' || rest[0] == '\r')
  }

  lemma {:induction false} QuotedBack(g: string, rest: string)
    requires Follows(rest)
    ensures ReadQuoted(Doubled(g) + "\"" + rest) == Some((g, rest))
  {
    var s := Doubled(g) + "\"" + rest;
    if g == "" {
      assert s == "\"" + rest;
      assert s[1..] == rest;
    } else {
      QuotedBack(g[1..], rest);
      var tail := Doubled(g[1..]) + "\"" + rest;
      if g[0] == '"' {
        assert s == "\"\"" + tail;
        assert s[2..] == tail;
      } else {
        assert s == [g[0]] + tail;
        assert s[1..] == tail;
      }
      assert [g[0]] + g[1..] == g;
    }
  }

  lemma {:induction false} BareBack(g: string, rest: string)
    requires Follows(rest) && !NeedsQuotes(g)
    ensures ReadBare(g + rest) == (g, rest)
  {
    if g == "" {
      assert g + rest == rest;
    } else {
      assert !IsSpecial(g[0]);
      assert !NeedsQuotes(g[1..]) by {
        assert forall k | 0 <= k < |g[1..]| :: g[1..][k] == g[k + 1];
      }
      BareBack(g[1..], rest);
      assert (g + rest)[1..] == g[1..] + rest;
      assert [g[0]] + g[1..] == g;
    }
  }

  lemma CellBack(value: string, rest: string)
    requires Follows(rest)
    ensures ReadField(Cell(value) + rest) == Some((Guard(value), rest))
  {
    hide ReadQuoted, Doubled, ReadBare, Guard;
    var g := Guard(value);
    var s := Cell(value) + rest;
    if NeedsQuotes(g) {
      assert s[1..] == Doubled(g) + "\"" + rest;
      QuotedBack(g, rest);
    } else {
      BareBack(g, rest);
      if g != "" {
        assert !IsSpecial(g[0]);
        assert s[0] == g[0];
      }
    }
  }

  lemma {:induction false} LineBack(row: seq<string>, rest: string)
    requires row != [] && rest != "" && rest[0] == '\r'
    ensures ReadRecord(Line(row) + rest) == Some((GuardRow(row), rest))
  {
    hide Cell, ReadField, Guard;
    if |row| == 1 {
      CellBack(row[0], rest);
      assert GuardRow(row) == [Guard(row[0])];
    } else {
      var more := Line(row[1..]) + rest;
      LineBack(row[1..], rest);
      LineSplit(row, rest);
      hide Line;
      CellBack(row[0], "," + more);
      assert ("," + more)[1..] == more;
      assert GuardRow(row) == [Guard(row[0])] + GuardRow(row[1..]);
    }
  }

  lemma LineSplit(row: seq<string>, rest: string)
    requires |row| > 1
    ensures Line(row) + rest == Cell(row[0]) + ("," + (Line(row[1..]) + rest))
  {
    hide Cell;
  }

  /** A reader of the export recovers exactly the rows with their guarded cells: no comma, quote or line
      break inside a cell moves a field or a row boundary. */
  lemma {:induction false} ExportReadsBack(rows: seq<seq<string>>)
    requires forall k | 0 <= k < |rows| :: rows[k] != []
    ensures ReadFile(Export(rows)) == Some(GuardRows(rows))
  {
    hide Line, GuardRow, ReadRecord;
    if rows != [] {
      var s, tail := Export(rows), CRLF + Export(rows[1..]);
      assert s == Line(rows[0]) + tail;
      LineBack(rows[0], tail);
      assert forall k | 0 <= k < |rows[1..]| :: rows[1..][k] == rows[k + 1];
      ExportReadsBack(rows[1..]);
      assert tail[..2] == CRLF && tail[2..] == Export(rows[1..]);
      assert GuardRows(rows) == [GuardRow(rows[0])] + GuardRows(rows[1..]);
    }
  }

  /** The export of any attendees is one header record and one record of six fields for each of them. */
  lemma AttendeesReadBack(attendees: seq<Attendee>)
    ensures ReadFile(AttendeesCsv(attendees)) == Some(GuardRows(Rows(attendees)))
    ensures GuardRows(Rows(attendees))[0] == HEADER && |GuardRows(Rows(attendees))| == |attendees| + 1
    ensures forall k | 0 <= k < |attendees| ::
      |GuardRows(Rows(attendees))[k + 1]| == 6 && GuardRows(Rows(attendees))[k + 1] == GuardRow(Row(attendees[k]))
  {
    hide ReadFile, Export, Guard, Row;
    forall k | 0 <= k < |attendees| ensures |Row(attendees[k])| == 6 {
      SixFields(attendees[k]);
    }
    forall k | 0 <= k < |attendees| ensures GuardRows(Rows(attendees))[k + 1] == GuardRow(Row(attendees[k])) {
      assert Rows(attendees)[k + 1] == Row(attendees[k]);
    }
    forall k | 0 <= k < |Rows(attendees)| ensures Rows(attendees)[k] != [] {
      assert k == 0 || Rows(attendees)[k] == Row(attendees[k - 1]);
    }
    ExportReadsBack(Rows(attendees));
    HeaderIsPlain();
  }

  /** The header names the columns and every record gives its attendee's cells in their order. */
  lemma ColumnsInOrder(attendees: seq<Attendee>, k: nat)
    requires k < |attendees|
    ensures var rows, a := GuardRows(Rows(attendees)), attendees[k];
      && rows[0] == ["Name", "Email", "Ticket Type", "Seat", "Status", "Checked In At"]
      && rows[k + 1] == [Guard(a.name), Guard(a.email), Guard(a.tier), Guard(if a.seat.Some? then a.seat.value else ""),
                         Guard(a.status), Guard(if a.checkedInAt.Some? then a.checkedInAt.value else "")]
  {
    hide Guard;
    assert Rows(attendees)[k + 1] == Row(attendees[k]);
    HeaderIsPlain();
  }

  /** Exactly the cells with a quote, a comma or a line break in them are quoted. */
  lemma QuotedIffSpecial(value: string)
    ensures Cell(value) != Guard(value) <==> exists k :: 0 <= k < |Guard(value)| && Guard(value)[k] in {'"', ',', '\r', '\n'}
  {
    hide Guard;
    if NeedsQuotes(Guard(value)) {
      DoubledGrows(Guard(value));
      assert |Cell(value)| > |Guard(value)|;
    }
  }

  lemma {:induction false} DoubledGrows(s: string)
    ensures |Doubled(s)| >= |s|
  {
    if s != "" {
      DoubledGrows(s[1..]);
    }
  }

  lemma SixFields(a: Attendee)
    ensures |Row(a)| == 6
  {
  }

  lemma HeaderIsPlain()
    ensures GuardRow(HEADER) == HEADER
  {
  }

  predicate Safe(field: string) {
    field != "" ==> field[0] !in {'=', '+', '-', '@', '\t', '\r'}
  }

  /** Whatever was put into the rows, no field a reader finds in the file starts a formula. */
  lemma ExportIsSafe(rows: seq<seq<string>>)
    requires forall k | 0 <= k < |rows| :: rows[k] != []
    ensures var back := ReadFile(Export(rows));
      back.Some? && forall k, j | 0 <= k < |back.value| && 0 <= j < |back.value[k]| :: Safe(back.value[k][j])
  {
    ExportReadsBack(rows);
    hide ReadFile, Export, Guard, Safe;
    forall k, j | 0 <= k < |rows| && 0 <= j < |rows[k]| ensures Safe(GuardRows(rows)[k][j]) {
      GuardedIsSafe(rows[k][j]);
    }
  }

  lemma GuardedIsSafe(value: string)
    ensures Safe(Guard(value))
    ensures Guard(value) == if Safe(value) then value else "'" + value
  {
  }

  /** The guard is not reversible: two values share a guarded cell exactly when they are equal or one is
      a formula and the other that formula behind an apostrophe. */
  lemma GuardCollides(a: string, b: string)
    ensures Guard(a) == Guard(b) <==>
      a == b || (a == "'" + b && Guard(b) != b) || (b == "'" + a && Guard(a) != a)
  {
    if Guard(a) == Guard(b) && Guard(a) != a && Guard(b) != b {
      assert Guard(a)[1..] == a && Guard(b)[1..] == b;
    }
  }
}
