// The code export: cells guarded against formulas and quoted, rows read page
// by page with the last id as the cursor, and a reader of the format of
// section 2 of RFC 4180 that gets every cell back.
module CsvExport {
  import opened Wrappers
  import opened Numbers

  type Id = nat

  /******* Printing *******/

  predicate IsFormula(text: string) {
    text != "" && (text[0] == '=' || text[0] == '+' || text[0] == '-' || text[0] == '@')
  }

  // What a reader is meant to see.
  function Guarded(text: string): string {
    if IsFormula(text) then "'" + text else text
  }

  predicate IsSpecial(c: char) {
    c == '"' || c == ',' || c == '\r' || c == '\n'
  }

  predicate NeedsQuotes(text: string) {
    exists i :: 0 <= i < |text| && IsSpecial(text[i])
  }

  function Doubled(text: string): string {
    if text == "" then ""
    else (if text[0] == '"' then "\"\"" else [text[0]]) + Doubled(text[1..])
  }

  function CsvCell(value: Option<string>): string {
    var text := Guarded(if value.None? then "" else value.value);
    if NeedsQuotes(text) then "\"" + Doubled(text) + "\"" else text
  }

  // Cells joined by commas, and the line ending.
  function Line(cells: seq<Option<string>>): string
    requires cells != []
  {
    if |cells| == 1 then CsvCell(cells[0]) + "\r\n" else CsvCell(cells[0]) + "," + Line(cells[1..])
  }

  /******* Reading *******/

  // What may stand outside quotes: neither a comma, a quote nor a line break.
  predicate IsTextData(c: char) {
    c !in ",\"\r\n"
  }

  datatype Field = Field(text: string, rest: string)
  datatype Record = Record(fields: seq<string>, rest: string)

  function ReadPlain(s: string): (f: Field)
    ensures |f.rest| <= |s|
  {
    if s == "" || !IsTextData(s[0]) then Field("", s)
    else var tail := ReadPlain(s[1..]); Field([s[0]] + tail.text, tail.rest)
  }

  // After the opening quote: two quotes stand for one, a single one ends.
  function ReadQuoted(s: string): (f: Option<Field>)
    ensures f.Some? ==> |f.value.rest| <= |s|
    decreases |s|
  {
    if s == "" then None
    else if s[0] != '"' then
      var tail := ReadQuoted(s[1..]);
      if tail.None? then None else Some(Field([s[0]] + tail.value.text, tail.value.rest))
    else if |s| >= 2 && s[1] == '"' then
      var tail := ReadQuoted(s[2..]);
      if tail.None? then None else Some(Field("\"" + tail.value.text, tail.value.rest))
    else Some(Field("", s[1..]))
  }

  function ReadField(s: string): (f: Option<Field>)
    ensures f.Some? ==> |f.value.rest| <= |s|
  {
    if s != "" && s[0] == '"' then ReadQuoted(s[1..]) else Some(ReadPlain(s))
  }

  function ReadRecord(s: string): (r: Option<Record>)
    ensures r.Some? ==> |r.value.rest| < |s|
    decreases |s|
  {
    var field := ReadField(s);
    if field.None? then None else
    var rest := field.value.rest;
    if rest != "" && rest[0] == ',' then
      var tail := ReadRecord(rest[1..]);
      if tail.None? then None else Some(Record([field.value.text] + tail.value.fields, tail.value.rest))
    else if |rest| >= 2 && rest[0] == '\r' && rest[1] == '\n' then Some(Record([field.value.text], rest[2..]))
    else None
  }

  function ReadRecords(s: string): Option<seq<seq<string>>>
    decreases |s|
  {
    if s == "" then Some([]) else
    var record := ReadRecord(s);
    if record.None? then None else
    var tail := ReadRecords(record.value.rest);
    if tail.None? then None else Some([record.value.fields] + tail.value)
  }

  /******* Round trip *******/

  lemma {:induction false} ReadsPlain(text: string, rest: string)
    requires !NeedsQuotes(text) && rest != "" && !IsTextData(rest[0])
    ensures ReadPlain(text + rest) == Field(text, rest)
    decreases |text|
  {
    if text == "" {
      assert text + rest == rest;
    } else {
      assert !IsSpecial(text[0]);
      assert (text + rest)[1..] == text[1..] + rest;
      forall i | 0 <= i < |text[1..]| ensures !IsSpecial(text[1..][i]) { assert !IsSpecial(text[i + 1]); }
      ReadsPlain(text[1..], rest);
    }
  }

  // The three ways a quoted text goes on.
  lemma QuotedEnds(rest: string)
    requires rest != "" && rest[0] != '"'
    ensures ReadQuoted("\"" + rest) == Some(Field("", rest))
  {
    assert ("\"" + rest)[1..] == rest;
  }

  lemma QuotedQuote(tail: string, field: Field)
    requires ReadQuoted(tail) == Some(field)
    ensures ReadQuoted("\"\"" + tail) == Some(Field("\"" + field.text, field.rest))
  {
    assert ("\"\"" + tail)[2..] == tail;
  }

  lemma QuotedOther(c: char, tail: string, field: Field)
    requires c != '"' && ReadQuoted(tail) == Some(field)
    ensures ReadQuoted([c] + tail) == Some(Field([c] + field.text, field.rest))
  {
    assert ([c] + tail)[1..] == tail;
  }

  lemma {:induction false} ReadsQuoted(text: string, rest: string)
    requires rest != "" && rest[0] != '"'
    ensures ReadQuoted(Doubled(text) + "\"" + rest) == Some(Field(text, rest))
    decreases |text|
  {
    hide ReadQuoted;
    var s := Doubled(text) + "\"" + rest;
    if text == "" {
      assert s == "\"" + rest;
      QuotedEnds(rest);
    } else {
      var tail := Doubled(text[1..]) + "\"" + rest;
      ReadsQuoted(text[1..], rest);
      assert [text[0]] + text[1..] == text;
      if text[0] == '"' {
        assert s == "\"\"" + tail;
        QuotedQuote(tail, Field(text[1..], rest));
      } else {
        assert s == [text[0]] + tail;
        QuotedOther(text[0], tail, Field(text[1..], rest));
      }
    }
  }

  predicate EndsCell(rest: string) {
    rest != "" && (rest[0] == ',' || rest[0] == '\r')
  }

  function Seen(value: Option<string>): string {
    Guarded(if value.None? then "" else value.value)
  }

  lemma ReadsCell(value: Option<string>, rest: string)
    requires EndsCell(rest)
    ensures ReadField(CsvCell(value) + rest) == Some(Field(Seen(value), rest))
  {
    hide Guarded;
    var text := Seen(value);
    if NeedsQuotes(text) {
      var s := "\"" + Doubled(text) + "\"" + rest;
      assert CsvCell(value) + rest == s;
      assert s[1..] == Doubled(text) + "\"" + rest;
      ReadsQuoted(text, rest);
    } else {
      ReadsPlain(text, rest);
      if text != "" {
        assert !IsSpecial(text[0]);
        assert (text + rest)[0] == text[0];
      } else {
        assert text + rest == rest;
      }
    }
  }

  // A cell is quoted exactly when its text has a comma, a quote or a line
  // break in it; otherwise it is written as it is seen.
  lemma QuotedIffNeeded(value: Option<string>)
    ensures (exists i :: 0 <= i < |Seen(value)| && Seen(value)[i] in ",\"\r\n") <==> CsvCell(value) != "" && CsvCell(value)[0] == '"'
    ensures (forall i :: 0 <= i < |Seen(value)| ==> Seen(value)[i] !in ",\"\r\n") <==> CsvCell(value) == Seen(value)
  {
    hide Guarded, Doubled;
    var text := Seen(value);
    forall i | 0 <= i < |text| ensures IsSpecial(text[i]) <==> text[i] in ",\"\r\n" {}
    if NeedsQuotes(text) {
      DoubledIsLonger(text);
    } else if text != "" {
      assert !IsSpecial(text[0]);
    }
  }

  lemma {:induction false} DoubledIsLonger(text: string)
    ensures |Doubled(text)| >= |text|
    decreases |text|
  {
    if text != "" { DoubledIsLonger(text[1..]); }
  }

  function SeenCells(cells: seq<Option<string>>): seq<string> {
    seq(|cells|, i requires 0 <= i < |cells| => Seen(cells[i]))
  }

  lemma {:induction false} ReadsLine(cells: seq<Option<string>>, rest: string)
    requires cells != []
    ensures ReadRecord(Line(cells) + rest) == Some(Record(SeenCells(cells), rest))
    decreases |cells|
  {
    hide ReadField, CsvCell, Seen;
    if |cells| == 1 {
      var tail := "\r\n" + rest;
      assert Line(cells) + rest == CsvCell(cells[0]) + tail;
      ReadsCell(cells[0], tail);
      assert tail[2..] == rest;
      assert SeenCells(cells) == [Seen(cells[0])];
    } else {
      var tail := "," + (Line(cells[1..]) + rest);
      assert Line(cells) + rest == CsvCell(cells[0]) + tail;
      ReadsCell(cells[0], tail);
      assert tail[1..] == Line(cells[1..]) + rest;
      ReadsLine(cells[1..], rest);
      assert SeenCells(cells) == [Seen(cells[0])] + SeenCells(cells[1..]);
    }
  }

  function Lines(rows: seq<seq<Option<string>>>): string
    requires forall i :: 0 <= i < |rows| ==> rows[i] != []
  {
    if rows == [] then "" else Line(rows[0]) + Lines(rows[1..])
  }

  function SeenRows(rows: seq<seq<Option<string>>>): seq<seq<string>> {
    seq(|rows|, i requires 0 <= i < |rows| => SeenCells(rows[i]))
  }

  // Whatever the cells contain, the reader gets them back as guarded.
  lemma {:induction false} ReadsLines(rows: seq<seq<Option<string>>>)
    requires forall i :: 0 <= i < |rows| ==> rows[i] != []
    ensures ReadRecords(Lines(rows)) == Some(SeenRows(rows))
    decreases |rows|
  {
    hide ReadRecord, Line, SeenCells;
    if rows == [] {
      assert SeenRows(rows) == [];
    } else {
      ReadsLine(rows[0], Lines(rows[1..]));
      ReadsLines(rows[1..]);
      assert SeenRows(rows) == [SeenCells(rows[0])] + SeenRows(rows[1..]);
    }
  }

  /******* Pages *******/

  datatype Item = Item(code: string, level: string, lot: Option<string>, productId: string, createdAt: string)

  const PAGE: nat := 5000

  function Cells(item: Item): (cells: seq<Option<string>>)
    ensures cells != []
  {
    [Some(item.code), Some(item.level), item.lot, Some(item.productId), Some(item.createdAt)]
  }

  function Above(table: map<Id, Item>, after: Option<Id>): set<Id> {
    set id | id in table && (after.None? || id > after.value)
  }

  lemma AboveShrinks(table: map<Id, Item>, after: Option<Id>, id: Id)
    requires id in Above(table, after)
    ensures Above(table, Some(id)) < Above(table, after)
  {
    assert id !in Above(table, Some(id));
  }

  // Every id above the cursor, in order.
  function Ascending(table: map<Id, Item>, after: Option<Id>): (ids: seq<Id>)
    ensures forall i :: 0 <= i < |ids| ==> ids[i] in Above(table, after)
    decreases Above(table, after)
  {
    var above := Above(table, after);
    if above == {} then [] else
    var least := Least(above);
    AboveShrinks(table, after, least);
    [least] + Ascending(table, Some(least))
  }

  // SELECT ... WHERE id > after ORDER BY id LIMIT n, as ids.
  function Page(table: map<Id, Item>, after: Option<Id>, n: nat): (ids: seq<Id>)
    ensures |ids| <= n && forall i :: 0 <= i < |ids| ==> ids[i] in table
    decreases n
  {
    var above := Above(table, after);
    if n == 0 || above == {} then []
    else [Least(above)] + Page(table, Some(Least(above)), n - 1)
  }

  function Last(after: Option<Id>, ids: seq<Id>): Option<Id> {
    if ids == [] then after else Some(ids[|ids| - 1])
  }

  lemma PageFirst(table: map<Id, Item>, after: Option<Id>, n: nat)
    requires n > 0 && Above(table, after) != {}
    ensures var least := Least(Above(table, after));
      && Page(table, after, n) == [least] + Page(table, Some(least), n - 1)
      && Ascending(table, after) == [least] + Ascending(table, Some(least))
  {
    hide Least, Above;
  }

  lemma LastBehind(after: Option<Id>, first: Id, ids: seq<Id>)
    ensures Last(after, [first] + ids) == Last(Some(first), ids)
  {
  }

  // A page and what follows its last id are all ids above the cursor; a page
  // that is not full is the last one.
  lemma {:induction false} PageThenRest(table: map<Id, Item>, after: Option<Id>, n: nat)
    ensures var page := Page(table, after, n);
      && Ascending(table, after) == page + Ascending(table, Last(after, page))
      && (|page| < n ==> Ascending(table, Last(after, page)) == [])
    decreases n
  {
    var above := Above(table, after);
    if n > 0 && above != {} {
      hide Least, Above, Page, Ascending, Last;
      var least := Least(above);
      PageFirst(table, after, n);
      PageThenRest(table, Some(least), n - 1);
      LastBehind(after, least, Page(table, Some(least), n - 1));
    }
  }

  lemma {:induction false} AscendingInOrder(table: map<Id, Item>, after: Option<Id>, i: nat, j: nat)
    requires i < j < |Ascending(table, after)|
    ensures Ascending(table, after)[i] < Ascending(table, after)[j]
    decreases j
  {
    var least := Least(Above(table, after));
    var rest := Ascending(table, Some(least));
    assert Ascending(table, after) == [least] + rest;
    if i > 0 {
      AscendingInOrder(table, Some(least), i - 1, j - 1);
    } else {
      assert rest[j - 1] in Above(table, Some(least));
    }
  }

  lemma {:induction false} AscendingComplete(table: map<Id, Item>, after: Option<Id>, id: Id)
    requires id in Above(table, after)
    ensures id in Ascending(table, after)
    decreases Above(table, after)
  {
    var least := Least(Above(table, after));
    assert Ascending(table, after) == [least] + Ascending(table, Some(least));
    if id != least {
      AboveShrinks(table, after, least);
      AscendingComplete(table, Some(least), id);
    }
  }

  // The listing holds exactly the ids above the cursor, each once, in order.
  lemma AscendingIsAll(table: map<Id, Item>, after: Option<Id>)
    ensures var ids := Ascending(table, after);
      && (forall i, j :: 0 <= i < j < |ids| ==> ids[i] < ids[j])
      && (forall id :: id in ids <==> id in Above(table, after))
  {
    hide Ascending, Above;
    var ids := Ascending(table, after);
    forall i, j | 0 <= i < j < |ids| ensures ids[i] < ids[j] { AscendingInOrder(table, after, i, j); }
    forall id | id in Above(table, after) ensures id in ids { AscendingComplete(table, after, id); }
  }

  function Rows(table: map<Id, Item>, ids: seq<Id>): (rows: seq<seq<Option<string>>>)
    requires forall i :: 0 <= i < |ids| ==> ids[i] in table
    ensures |rows| == |ids| && forall i :: 0 <= i < |rows| ==> rows[i] != []
  {
    seq(|ids|, i requires 0 <= i < |ids| => Cells(table[ids[i]]))
  }

  const HEADER: seq<Option<string>> :=
    [Some("code"), Some("level"), Some("lot"), Some("product_id"), Some("created_at")]
  const BOM: char := '\U{FEFF}'

  lemma {:induction false} LinesJoin(a: seq<seq<Option<string>>>, b: seq<seq<Option<string>>>)
    requires forall i :: 0 <= i < |a| ==> a[i] != []
    requires forall i :: 0 <= i < |b| ==> b[i] != []
    ensures forall i :: 0 <= i < |a + b| ==> (a + b)[i] != []
    ensures Lines(a + b) == Lines(a) + Lines(b)
    decreases |a|
  {
    hide Line;
    if a == [] {
      assert a + b == b;
    } else {
      assert (a + b)[1..] == a[1..] + b;
      LinesJoin(a[1..], b);
    }
  }

  lemma RowsJoin(table: map<Id, Item>, a: seq<Id>, b: seq<Id>)
    requires forall i :: 0 <= i < |a| ==> a[i] in table
    requires forall i :: 0 <= i < |b| ==> b[i] in table
    ensures forall i :: 0 <= i < |a + b| ==> (a + b)[i] in table
    ensures Lines(Rows(table, a + b)) == Lines(Rows(table, a)) + Lines(Rows(table, b))
  {
    hide Lines;
    assert Rows(table, a + b) == Rows(table, a) + Rows(table, b);
    LinesJoin(Rows(table, a), Rows(table, b));
  }

  /******* The program *******/

  // The lines of one page.
  method WritePage(table: map<Id, Item>, ids: seq<Id>) returns (text: string)
    requires forall i :: 0 <= i < |ids| ==> ids[i] in table
    ensures text == Lines(Rows(table, ids))
  {
    hide Line, Lines;
    text := "";
    assert Lines(Rows(table, [])) == "" by { NoLines(table); }
    for i := 0 to |ids|
      invariant text == Lines(Rows(table, ids[..i]))
    {
      assert ids[..i + 1] == ids[..i] + [ids[i]];
      RowsJoin(table, ids[..i], [ids[i]]);
      OneLine(table, ids[i]);
      text := text + Line(Cells(table[ids[i]]));
    }
    assert ids[..|ids|] == ids;
  }

  lemma NoLines(table: map<Id, Item>)
    ensures Lines(Rows(table, [])) == ""
  {
  }

  lemma OneLine(table: map<Id, Item>, id: Id)
    requires id in table
    ensures Lines(Rows(table, [id])) == Line(Cells(table[id]))
  {
    hide Line;
    assert Rows(table, [id])[1..] == [];
  }

  /******* What the export says *******/

  // The column of an item that a header names.
  function FieldNamed(item: Item, name: string): Option<string> {
    if name == "code" then Some(item.code)
    else if name == "level" then Some(item.level)
    else if name == "lot" then item.lot
    else if name == "product_id" then Some(item.productId)
    else if name == "created_at" then Some(item.createdAt)
    else None
  }

  // A cell that a spreadsheet would take for a formula is shown behind an
  // apostrophe, any other as it is, a missing one empty.
  predicate Shows(cell: string, value: Option<string>) {
    var text := if value.Some? then value.value else "";
    && (cell != "" ==> cell[0] !in "=+-@")
    && (if text != "" && text[0] in "=+-@" then cell == "'" + text else cell == text)
  }

  lemma SeenShows(value: Option<string>)
    ensures Shows(Seen(value), value)
  {
  }

  // A header line with the five names, then one line for each row of the
  // batch in ascending order of ids, every cell under the name of its column.
  ghost predicate Exports(table: map<Id, Item>, ids: seq<Id>, text: string) {
    && (forall id :: id in ids <==> id in table)
    && (forall i, j :: 0 <= i < j < |ids| ==> ids[i] < ids[j])
    && text != "" && text[0] == '\U{FEFF}'
    && var read := ReadRecords(text[1..]);
    && read.Some? && |read.value| == 1 + |ids|
    && read.value[0] == ["code", "level", "lot", "product_id", "created_at"]
    && forall i :: 0 <= i < |ids| ==> RowShows(read.value[0], read.value[1 + i], table, ids[i])
  }

  ghost predicate RowShows(names: seq<string>, cells: seq<string>, table: map<Id, Item>, id: Id) {
    && id in table && |cells| == |names|
    && forall k :: 0 <= k < |names| ==> Shows(cells[k], FieldNamed(table[id], names[k]))
  }

  lemma CellsAreNamed(table: map<Id, Item>, id: Id)
    requires id in table
    ensures RowShows(["code", "level", "lot", "product_id", "created_at"], SeenCells(Cells(table[id])), table, id)
  {
    var item := table[id];
    var names := ["code", "level", "lot", "product_id", "created_at"];
    DistinctNames();
    hide Seen, Shows;
    SeenShows(Some(item.code));
    SeenShows(Some(item.level));
    SeenShows(item.lot);
    SeenShows(Some(item.productId));
    SeenShows(Some(item.createdAt));
    forall k | 0 <= k < |names| ensures Shows(SeenCells(Cells(item))[k], FieldNamed(item, names[k])) {
      assert k == 0 || k == 1 || k == 2 || k == 3 || k == 4;
    }
  }

  lemma DistinctNames()
    ensures "code" != "level" && "code" != "lot" && "code" != "product_id" && "code" != "created_at"
    ensures "level" != "lot" && "level" != "product_id" && "level" != "created_at"
    ensures "lot" != "product_id" && "lot" != "created_at" && "product_id" != "created_at"
  {
    assert "code"[1] == 'o' && "created_at"[1] == 'r' && "level"[0] == 'l' && "level"[1] == 'e';
    assert |"code"| == 4 && |"level"| == 5 && |"lot"| == 3 && |"product_id"| == 10 && |"created_at"| == 10;
    assert "product_id"[0] == 'p' && "created_at"[0] == 'c';
  }

  lemma HeaderIsSeen()
    ensures SeenCells(HEADER) == ["code", "level", "lot", "product_id", "created_at"]
  {
    assert forall i :: 0 <= i < 5 ==> !IsFormula(HEADER[i].value);
  }

  lemma ExportSays(table: map<Id, Item>, ids: seq<Id>, text: string)
    requires ids == Ascending(table, None) && (forall i :: 0 <= i < |ids| ==> ids[i] in table)
    requires text != "" && text[0] == BOM && ReadRecords(text[1..]) == Some([SeenCells(HEADER)] + SeenRows(Rows(table, ids)))
    ensures Exports(table, ids, text)
  {
    AscendingIsAll(table, None);
    HeaderIsSeen();
    hide Ascending, SeenCells, ReadRecords, RowShows;
    forall i | 0 <= i < |ids| ensures RowShows(SeenCells(HEADER), SeenRows(Rows(table, ids))[i], table, ids[i]) {
      CellsAreNamed(table, ids[i]);
    }
  }

  // Every row of the batch, in ascending order of ids, each once; a reader of
  // the text gets every guarded cell back under its header.
  method WriteExport(table: map<Id, Item>) returns (text: string)
    ensures text == [BOM] + Line(HEADER) + Lines(Rows(table, Ascending(table, None)))
    ensures ReadRecords(text[1..]) == Some([SeenCells(HEADER)] + SeenRows(Rows(table, Ascending(table, None))))
    ensures exists ids :: Exports(table, ids, text)
  {
    hide Line, Lines, Rows, ReadRecords, SeenCells, Page, Ascending;
    text := [BOM] + Line(HEADER);
    NoLines(table);
    ghost var ids: seq<Id> := [];
    var after: Option<Id> := None;
    while true
      invariant forall i :: 0 <= i < |ids| ==> ids[i] in table
      invariant ids + Ascending(table, after) == Ascending(table, None)
      invariant text == [BOM] + Line(HEADER) + Lines(Rows(table, ids))
      decreases Above(table, after)
    {
      var page := Page(table, after, PAGE);
      PageThenRest(table, after, PAGE);
      if page == [] { break; }
      PageAdvances(table, after, page);
      RowsJoin(table, ids, page);
      assert ids + (page + Ascending(table, Last(after, page))) == (ids + page) + Ascending(table, Last(after, page));
      var lines := WritePage(table, page);
      text := text + lines;
      ids := ids + page;
      after := Some(page[|page| - 1]);
      if |page| < PAGE { break; }
    }
    assert ids + [] == ids;
    ReadsExport(table, ids);
    assert text == [BOM] + Line(HEADER) + Lines(Rows(table, ids));
    ExportSays(table, ids, text);
  }

  lemma PageAdvances(table: map<Id, Item>, after: Option<Id>, page: seq<Id>)
    requires page == Page(table, after, PAGE) && page != []
    ensures Above(table, Some(page[|page| - 1])) < Above(table, after)
  {
    PageThenRest(table, after, PAGE);
    var last := page[|page| - 1];
    assert last == Ascending(table, after)[|page| - 1];
    AboveShrinks(table, after, last);
  }

  lemma ReadsExport(table: map<Id, Item>, ids: seq<Id>)
    requires forall i :: 0 <= i < |ids| ==> ids[i] in table
    ensures ReadRecords(([BOM] + Line(HEADER) + Lines(Rows(table, ids)))[1..])
         == Some([SeenCells(HEADER)] + SeenRows(Rows(table, ids)))
  {
    hide Line, Rows, SeenCells, ReadRecord;
    var rows := Rows(table, ids);
    var all := [HEADER] + rows;
    ReadsLines(all);
    assert all[1..] == rows;
    assert ([BOM] + Line(HEADER) + Lines(rows))[1..] == Line(HEADER) + Lines(rows) == Lines(all);
    assert SeenRows(all) == [SeenCells(HEADER)] + SeenRows(rows);
  }

  // The first line is the one the program writes out.
  lemma HeaderLine()
    ensures Line(HEADER) == "code" + "," + "level" + "," + "lot" + "," + "product_id" + "," + "created_at" + "\r\n"
  {
    PlainCell("code");
    PlainCell("level");
    PlainCell("lot");
    PlainCell("product_id");
    PlainCell("created_at");
    FiveCells(HEADER);
    hide Line, CsvCell;
  }

  lemma FirstCell(cells: seq<Option<string>>)
    requires |cells| > 1
    ensures Line(cells) == CsvCell(cells[0]) + "," + Line(cells[1..])
  {
    hide CsvCell;
  }

  lemma ConcatAssociates(a: string, b: string, c: string)
    ensures (a + b) + c == a + (b + c)
  {
  }

  // A line behind some text, one cell at a time.
  lemma NextCell(text: string, cells: seq<Option<string>>)
    requires |cells| > 1
    ensures text + Line(cells) == text + CsvCell(cells[0]) + "," + Line(cells[1..])
  {
    FirstCell(cells);
    hide Line, CsvCell;
    ConcatAssociates(text, CsvCell(cells[0]) + ",", Line(cells[1..]));
    ConcatAssociates(text, CsvCell(cells[0]), ",");
  }

  lemma LastCell(text: string, cell: Option<string>)
    ensures text + Line([cell]) == text + CsvCell(cell) + "\r\n"
  {
    hide CsvCell;
    ConcatAssociates(text, CsvCell(cell), "\r\n");
  }

  lemma FiveCells(cells: seq<Option<string>>)
    requires |cells| == 5
    ensures Line(cells) == CsvCell(cells[0]) + "," + CsvCell(cells[1]) + "," + CsvCell(cells[2]) + ","
                         + CsvCell(cells[3]) + "," + CsvCell(cells[4]) + "\r\n"
  {
    hide Line, CsvCell;
    var first := CsvCell(cells[0]) + ",";
    var second := first + CsvCell(cells[1]) + ",";
    var third := second + CsvCell(cells[2]) + ",";
    var fourth := third + CsvCell(cells[3]) + ",";
    assert Line(cells) == first + Line(cells[1..]) by { FirstCell(cells); }
    NextCell(first, cells[1..]);
    assert cells[1..][1..] == cells[2..];
    NextCell(second, cells[2..]);
    assert cells[2..][1..] == cells[3..];
    NextCell(third, cells[3..]);
    assert cells[3..][1..] == [cells[4]];
    LastCell(fourth, cells[4]);
  }

  lemma PlainCell(text: string)
    requires !IsFormula(text) && !NeedsQuotes(text)
    ensures CsvCell(Some(text)) == text
  {
  }
}
