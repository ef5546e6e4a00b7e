/**
 * The materials spreadsheet import and the component export: a sheet,
 * read as rows of cells, is scanned row by row; a row whose first cell
 * names a cabinet ("шкаф" and "мм") opens a new cabinet, and the part rows
 * after it are collected into that cabinet. Sizes "NxM" are split into a
 * width and a height. Reading the workbook file and writing one are not
 * part of this model: the rows are the input and the component rows the
 * output.
 */
module Spreadsheet {
  import opened Wrappers
  import opened Text

  /** A cell as the sheet-to-array conversion hands it over; Blank is a missing cell. */
  datatype Cell = Str(s: string) | Num(n: int) | Bool(b: bool) | Blank

  type Row = seq<Cell>

  /** `row[k]`: undefined past the end of the row. */
  function At(row: Row, k: nat): Cell {
    if k < |row| then row[k] else Blank
  }

  /** JavaScript truthiness of a cell. */
  predicate Truthy(c: Cell) {
    match c
    case Str(s) => s != ""
    case Num(n) => n != 0
    case Bool(b) => b
    case Blank => false
  }

  /** `String(c)` / `c.toString()`. */
  function CellText(c: Cell): string {
    match c
    case Str(s) => s
    case Num(n) => IntToString(n)
    case Bool(b) => if b then "true" else "false"
    case Blank => "undefined"
  }

  // ------------------------------------------------------------------ sizes

  /** The pattern `(\d+)x(\d+)` matches at position i: a digit run, a Latin 'x', a digit. */
  predicate MatchAt(s: string, i: int) {
    0 <= i <= |s| &&
    var n := DigitRun(s[i..]);
    n > 0 && i + n + 1 < |s| && s[i + n] == 'x' && IsDigit(s[i + n + 1])
  }

  /** The leftmost match at or after `from`. */
  function FirstMatch(s: string, from: nat): (r: Option<nat>)
    ensures r.Some? ==> from <= r.value <= |s| && MatchAt(s, r.value)
    ensures r.Some? ==> forall j :: from <= j < r.value ==> !MatchAt(s, j)
    ensures r.None? ==> forall j :: from <= j ==> !MatchAt(s, j)
    decreases |s| - from
  {
    if from > |s| then None
    else if MatchAt(s, from) then Some(from)
    else FirstMatch(s, from + 1)
  }

  /** The two captured numbers of the first match; the greedy `\d+` takes whole digit runs. */
  function Dimensions(s: string): Option<(nat, nat)> {
    match FirstMatch(s, 0)
    case None => None
    case Some(i) =>
      var n := DigitRun(s[i..]);
      var j := i + n + 1;
      var m := DigitRun(s[j..]);
      Some((DecimalValue(s[i..i + n]), DecimalValue(s[j..j + m])))
  }

  /** extractWidth: the first number of the first match, or 0. */
  function ExtractWidth(size: string): (w: nat)
    ensures (forall i :: 0 <= i <= |size| ==> !MatchAt(size, i)) ==> w == 0
  {
    match Dimensions(size)
    case Some(d) => d.0
    case None => 0
  }

  /** extractHeight: the second number of the first match, or 0. */
  function ExtractHeight(size: string): (h: nat)
    ensures (forall i :: 0 <= i <= |size| ==> !MatchAt(size, i)) ==> h == 0
  {
    match Dimensions(size)
    case Some(d) => d.1
    case None => 0
  }

  lemma {:induction false} DigitRunAppend(d: string, t: string)
    requires forall k :: 0 <= k < |d| ==> IsDigit(d[k])
    ensures DigitRun(d + t) == |d| + DigitRun(t)
  {
    if d == [] {
      assert d + t == t;
    } else {
      assert (d + t)[0] == d[0];
      assert (d + t)[1..] == d[1..] + t;
      DigitRunAppend(d[1..], t);
    }
  }

  /** Digits, an 'x', digits and a tail that does not start with a digit: the two runs are read. */
  lemma ReadsDigits(da: string, db: string, suffix: string)
    requires da != [] && forall k :: 0 <= k < |da| ==> IsDigit(da[k])
    requires db != [] && forall k :: 0 <= k < |db| ==> IsDigit(db[k])
    requires suffix == [] || !IsDigit(suffix[0])
    ensures Dimensions(da + "x" + db + suffix) == Some((DecimalValue(da), DecimalValue(db)))
  {
    var size := da + "x" + db + suffix;
    var n := |da|;
    var m := |db|;
    SizeSlices(da, db, suffix);
    LeadingRun(da, "x" + db + suffix);
    LeadingRun(db, suffix);
    MatchStart(size, n, m);
  }

  lemma SizeSlices(da: string, db: string, suffix: string)
    ensures var size := da + "x" + db + suffix;
      size[0..] == da + ("x" + db + suffix) && size[0..|da|] == da && size[|da|] == 'x' &&
      size[|da| + 1..] == db + suffix && size[|da| + 1..|da| + 1 + |db|] == db
  {
  }

  /** A match at the start: Dimensions reads the two runs around the 'x'. */
  lemma MatchStart(s: string, n: nat, m: nat)
    requires n > 0 && m > 0 && n + 1 + m <= |s| && s[n] == 'x'
    requires DigitRun(s[0..]) == n && DigitRun(s[n + 1..]) == m
    ensures Dimensions(s) == Some((DecimalValue(s[0..n]), DecimalValue(s[n + 1..n + 1 + m])))
  {
    assert MatchAt(s, 0);
  }

  /** A digit run followed by a non-digit: the run is exactly its length. */
  lemma LeadingRun(d: string, t: string)
    requires d != [] && forall k :: 0 <= k < |d| ==> IsDigit(d[k])
    requires t == [] || !IsDigit(t[0])
    ensures DigitRun(d + t) == |d| && (d + t)[..|d|] == d && (d + t)[|d|..] == t
  {
    DigitRunAppend(d, t);
    if t != [] {
      assert DigitRun(t) == 0;
    }
  }

  /** A size written as "<a>x<b>" followed by a non-digit reads back as a and b. */
  lemma SizeReadsBack(a: nat, b: nat, suffix: string)
    requires suffix == [] || !IsDigit(suffix[0])
    ensures var size := IntToString(a) + "x" + IntToString(b) + suffix;
      ExtractWidth(size) == a && ExtractHeight(size) == b
  {
    ReadsDigits(NatToString(a), NatToString(b), suffix);
    DecimalOfNatToString(a);
    DecimalOfNatToString(b);
  }

  // -------------------------------------------------------------- part rows

  /** `parseInt(row[1]) || 1`: NaN and 0 fall back to 1. */
  function Quantity(c: Cell): (q: int)
    ensures q != 0
  {
    match ParseInt(CellText(c))
    case Some(v) => if v == 0 then 1 else v
    case None => 1
  }

  /** parsePartRow: the quantity and the trimmed size text ('' for a falsy cell). */
  function ParsePartRow(row: Row): (int, string) {
    (Quantity(At(row, 1)), if Truthy(At(row, 2)) then Trim(CellText(At(row, 2))) else "")
  }

  /** A whole number of pieces is read as given; text without a number counts one piece. */
  lemma QuantityRead(n: nat, word: string)
    requires n != 0
    requires word == [] || (!IsSpace(word[0]) && !IsDigit(word[0]) && word[0] != '-' && word[0] != '+')
    ensures Quantity(Num(n)) == n && Quantity(Str(NatToString(n))) == n
    ensures Quantity(Str(word)) == 1
  {
    ParseIntOfNatToString(n);
    assert TrimStart(word) == word;
    if |word| >= 2 {
      assert word[0] != '0';
    }
  }

  /** The quantity is never 0, so a part is kept or dropped on its size alone. */
  lemma PartRowKeptOnSize(row: Row)
    ensures ParsePartRow(row).0 != 0
    ensures ParsePartRow(row).1 != "" ==> Truthy(At(row, 2))
  {
  }

  datatype Part = Part(name: string, quantity: int, size: string, width: nat, height: nat)

  datatype SheetCabinet = SheetCabinet(name: string, parts: seq<Part>)

  /** The first cell is truthy but not a string: `.includes` is not a function and the scan throws. */
  predicate Throws(row: Row) {
    Truthy(At(row, 0)) && !At(row, 0).Str?
  }

  /** A cabinet header: a first cell containing "шкаф" and "мм". */
  predicate IsHeader(row: Row) {
    At(row, 0).Str? && Includes(At(row, 0).s, "шкаф") && Includes(At(row, 0).s, "мм")
  }

  /** The part a non-header row contributes to an open cabinet, if any. */
  function PartOf(row: Row): Option<Part> {
    if !At(row, 0).Str? || At(row, 0).s == "" || IsHeader(row) then None
    else if !Truthy(At(row, 1)) || !Truthy(At(row, 2)) then None
    else
      var (quantity, size) := ParsePartRow(row);
      if size == "" then None
      else Some(Part(Trim(At(row, 0).s), quantity, size, ExtractWidth(size), ExtractHeight(size)))
  }

  // ------------------------------------------------------------ the scan

  /** The scan's variables: the closed cabinets and the open one; or the thrown TypeError. */
  datatype Scan = Scanning(materials: seq<SheetCabinet>, current: Option<SheetCabinet>) | Thrown

  /** One iteration of the loop over the rows. */
  function Step(st: Scan, row: Row): Scan {
    match st
    case Thrown => Thrown
    case Scanning(materials, current) =>
      if !Truthy(At(row, 0)) then st
      else if Throws(row) then Thrown
      else if IsHeader(row) then Scanning(materials + Closed(current), Some(SheetCabinet(Trim(At(row, 0).s), [])))
      else if current.Some? && Truthy(At(row, 1)) && Truthy(At(row, 2)) then
        Scanning(materials, Some(current.value.(parts := current.value.parts + Listed(PartOf(row)))))
      else st
  }

  function Closed(current: Option<SheetCabinet>): seq<SheetCabinet> {
    if current.Some? then [current.value] else []
  }

  function Listed(p: Option<Part>): seq<Part> {
    if p.Some? then [p.value] else []
  }

  function ScanFrom(st: Scan, rows: seq<Row>): Scan {
    if rows == [] then st else Step(ScanFrom(st, rows[..|rows| - 1]), rows[|rows| - 1])
  }

  datatype Imported = Parsed(cabinets: seq<SheetCabinet>) | TypeError

  /** What parseExcelStructure returns or throws for the rows. */
  function ParseSheet(rows: seq<Row>): Imported {
    match ScanFrom(Scanning([], None), rows)
    case Thrown => TypeError
    case Scanning(materials, current) => Parsed(materials + Closed(current))
  }

  /** parseExcelStructure: the loop over the rows, then the last open cabinet. */
  method ParseExcelStructure(rows: seq<Row>) returns (r: Imported)
    ensures r == ParseSheet(rows)
  {
    var materials: seq<SheetCabinet> := [];
    var current: Option<SheetCabinet> := None;
    for i := 0 to |rows|
      invariant ScanFrom(Scanning([], None), rows[..i]) == Scanning(materials, current)
    {
      assert rows[..i + 1][..i] == rows[..i];
      var threw;
      materials, current, threw := ScanRow(materials, current, rows[i]);
      if threw {
        ThrownSticks(Scanning([], None), rows[..i + 1], rows[i + 1..]);
        assert rows[..i + 1] + rows[i + 1..] == rows;
        return TypeError;
      }
    }
    assert rows[..|rows|] == rows;
    if current.Some? {
      materials := materials + [current.value];
    }
    return Parsed(materials);
  }

  /** The body of the loop for one row. */
  method ScanRow(materials: seq<SheetCabinet>, current: Option<SheetCabinet>, row: Row)
    returns (materials': seq<SheetCabinet>, current': Option<SheetCabinet>, threw: bool)
    ensures Step(Scanning(materials, current), row) == if threw then Thrown else Scanning(materials', current')
  {
    materials', current', threw := materials, current, false;
    if !Truthy(At(row, 0)) {
      return;
    }
    if !At(row, 0).Str? {
      threw := true;
      return;
    }
    var first := At(row, 0).s;
    if Includes(first, "шкаф") && Includes(first, "мм") {
      if current.Some? {
        materials' := materials + [current.value];
      }
      current' := Some(SheetCabinet(Trim(first), []));
    } else if current.Some? && Truthy(At(row, 1)) && Truthy(At(row, 2)) {
      var (quantity, size) := ParsePartRow(row);
      if size != "" {
        var part := Part(Trim(first), quantity, size, ExtractWidth(size), ExtractHeight(size));
        current' := Some(current.value.(parts := current.value.parts + [part]));
      } else {
        assert current.value.parts + [] == current.value.parts;
      }
    }
  }

  lemma {:induction false} ScanAppend(st: Scan, a: seq<Row>, b: seq<Row>)
    ensures ScanFrom(st, a + b) == ScanFrom(ScanFrom(st, a), b)
  {
    if b == [] {
      assert a + b == a;
    } else {
      assert (a + b)[..|a + b| - 1] == a + b[..|b| - 1];
      assert (a + b)[|a + b| - 1] == b[|b| - 1];
      ScanAppend(st, a, b[..|b| - 1]);
    }
  }

  lemma {:induction false} ThrownSticks(st: Scan, a: seq<Row>, b: seq<Row>)
    requires ScanFrom(st, a) == Thrown
    ensures ScanFrom(st, a + b) == Thrown
  {
    ScanAppend(st, a, b);
    ThrownStays(b);
  }

  lemma {:induction false} ThrownStays(rows: seq<Row>)
    ensures ScanFrom(Thrown, rows) == Thrown
  {
    if rows != [] {
      ThrownStays(rows[..|rows| - 1]);
    }
  }

  /** The import throws exactly when some row's first cell is truthy and not text. */
  lemma {:induction false} ThrowsIff(rows: seq<Row>)
    ensures ParseSheet(rows).TypeError? <==> exists i :: 0 <= i < |rows| && Throws(rows[i])
  {
    ScanThrowsIff(Scanning([], None), rows);
  }

  lemma {:induction false} ScanThrowsIff(st: Scan, rows: seq<Row>)
    requires st.Scanning?
    ensures ScanFrom(st, rows).Thrown? <==> exists i :: 0 <= i < |rows| && Throws(rows[i])
  {
    if rows != [] {
      var front := rows[..|rows| - 1];
      ScanThrowsIff(st, front);
      if exists i :: 0 <= i < |front| && Throws(front[i]) {
        var i :| 0 <= i < |front| && Throws(front[i]);
        assert Throws(rows[i]);
      }
      if exists i :: 0 <= i < |rows| && Throws(rows[i]) {
        var i :| 0 <= i < |rows| && Throws(rows[i]);
        if i < |front| {
          assert Throws(front[i]);
        }
      }
    }
  }

  /** A row with an empty first cell can be removed without changing the import. */
  lemma BlankRowSkipped(a: seq<Row>, row: Row, b: seq<Row>)
    requires !Truthy(At(row, 0))
    ensures ParseSheet(a + [row] + b) == ParseSheet(a + b)
  {
    var st := ScanFrom(Scanning([], None), a);
    ScanAppend(Scanning([], None), a + [row], b);
    ScanAppend(Scanning([], None), a, [row]);
    assert ScanFrom(st, [row]) == Step(ScanFrom(st, []), row);
    ScanAppend(Scanning([], None), a, b);
  }

  /** Rows before the first header, part rows included, produce nothing. */
  lemma {:induction false} NothingBeforeHeader(rows: seq<Row>)
    requires forall i :: 0 <= i < |rows| ==> !IsHeader(rows[i]) && !Throws(rows[i])
    ensures ScanFrom(Scanning([], None), rows) == Scanning([], None)
    ensures ParseSheet(rows) == Parsed([])
  {
    if rows != [] {
      NothingBeforeHeader(rows[..|rows| - 1]);
    }
  }

  /** The parts the rows of one cabinet's body contribute, in row order. */
  function PartsOf(body: seq<Row>): seq<Part> {
    if body == [] then [] else PartsOf(body[..|body| - 1]) + Listed(PartOf(body[|body| - 1]))
  }

  /** After a header, the open cabinet collects exactly the parts of the following rows. */
  lemma {:induction false} BodyCollects(materials: seq<SheetCabinet>, name: string, body: seq<Row>)
    requires forall i :: 0 <= i < |body| ==> !IsHeader(body[i]) && !Throws(body[i])
    ensures ScanFrom(Scanning(materials, Some(SheetCabinet(name, []))), body)
            == Scanning(materials, Some(SheetCabinet(name, PartsOf(body))))
  {
    if body != [] {
      var front := body[..|body| - 1];
      BodyCollects(materials, name, front);
      var row := body[|body| - 1];
      assert !IsHeader(row) && !Throws(row);
      var parts := PartsOf(front);
      assert PartsOf(body) == parts + Listed(PartOf(row));
      if !Truthy(At(row, 0)) || !(Truthy(At(row, 1)) && Truthy(At(row, 2))) {
        assert PartOf(row) == None;
        assert parts + [] == parts;
      }
    }
  }

  /**
   * A header closes the open cabinet and opens its own, which receives the
   * parts of the rows up to the next header; at the end the open cabinet is
   * appended after the closed ones, so the cabinets come in sheet order.
   */
  lemma HeaderOpensCabinet(pre: seq<Row>, header: Row, body: seq<Row>, cabinets: seq<SheetCabinet>)
    requires ParseSheet(pre) == Parsed(cabinets)
    requires IsHeader(header)
    requires forall i :: 0 <= i < |body| ==> !IsHeader(body[i]) && !Throws(body[i])
    ensures ParseSheet(pre + [header] + body)
            == Parsed(cabinets + [SheetCabinet(Trim(At(header, 0).s), PartsOf(body))])
  {
    var start := Scanning([], None);
    var st := ScanFrom(start, pre);
    ScanAppend(start, pre + [header], body);
    ScanAppend(start, pre, [header]);
    assert ScanFrom(st, [header]) == Step(ScanFrom(st, []), header);
    var name := Trim(At(header, 0).s);
    BodyCollects(cabinets, name, body);
  }

  // ---------------------------------------------------------- components

  /** The cabinet fields the component export reads. */
  datatype ExportedCabinet = ExportedCabinet(width: int, height: int, depth: int, shelfCount: int)

  datatype Component = Component(name: string, count: int, size: string)

  /** A `${a}x${b}mm` size. */
  function SizeText(a: int, b: int): string {
    IntToString(a) + "x" + IntToString(b) + "mm"
  }

  /** extractCabinetComponents: bottom, two sides, top and the shelves. */
  function ExtractCabinetComponents(c: ExportedCabinet): seq<Component> {
    [Component("Дъно", 1, SizeText(c.width, c.depth)),
     Component("Страници", 2, SizeText(c.height, c.depth)),
     Component("Капак", 1, SizeText(c.width, c.depth)),
     Component("Рафт", c.shelfCount, SizeText(c.width - 50, c.depth - 30))]
  }

  /**
   * Four rows; the shelf row counts the shelves and is 50 narrower and 30
   * shallower than the cabinet; and every size the export writes reads back
   * through the import's size parser when its numbers are not negative.
   */
  lemma ComponentsReadBack(c: ExportedCabinet)
    requires c.width >= 50 && c.height >= 0 && c.depth >= 30
    ensures var r := ExtractCabinetComponents(c);
      |r| == 4 && r[3].count == c.shelfCount && r[1].count == 2
      && ExtractWidth(r[0].size) == c.width && ExtractHeight(r[0].size) == c.depth
      && ExtractWidth(r[1].size) == c.height && ExtractHeight(r[1].size) == c.depth
      && r[2].size == r[0].size
      && ExtractWidth(r[3].size) == c.width - 50 && ExtractHeight(r[3].size) == c.depth - 30
  {
    SizeReadsBack(c.width, c.depth, "mm");
    SizeReadsBack(c.height, c.depth, "mm");
    SizeReadsBack(c.width - 50, c.depth - 30, "mm");
  }
}
