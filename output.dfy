/**
 * The output formatters (internal/output): a formatter is chosen by the
 * output format name and turns a value into text. Table-shaped data has
 * headers and rows; any other value is represented by its `%v` text.
 *
 * JSON encoding and the styled terminal table and error prefix are library
 * renderings; they are the `Renderers` a caller supplies. The writer is a
 * `Sink` whose text grows with every write.
 */
module Output {
  import opened Common

  const FormatJson: string := "json"
  const FormatTable: string := "table"
  const FormatPlain: string := "plain"

  /** An io.Writer. */
  datatype Writer = Stdout | Stderr | Other(name: string)

  /** Options; a writer of None stands for nil. */
  datatype Options = Options(format: string, noColor: bool, quiet: bool, verbose: bool, writer: Option<Writer>)

  datatype Kind = JsonKind | PlainKind | TableKind

  datatype Formatter = Formatter(kind: Kind, opts: Options)

  /** What a formatter formats: a table (TableData), or any other value by its `%v` text. */
  datatype Data = TableData(headers: seq<string>, rows: seq<seq<string>>) | Value(text: string)

  /**
   * The library renderings: indented JSON of a value (which can fail), the
   * terminal table of headers and rows (styled or not), the styled "Error: "
   * prefix, and the JSON error object for a message.
   */
  datatype Renderers = Renderers(
    json: Data -> Result<string>,
    table: (seq<string>, seq<seq<string>>, bool) -> string,
    errorPrefix: string -> string,
    jsonError: string -> string)

  /** NewFormatter: json and plain by name, a table formatter for every other name; a nil writer becomes stdout. */
  function NewFormatter(opts: Options): (f: Formatter)
    ensures f.opts == opts.(writer := if opts.writer.None? then Some(Stdout) else opts.writer)
    ensures f.opts.writer.Some?
    ensures f.kind == JsonKind <==> opts.format == FormatJson
    ensures f.kind == PlainKind <==> opts.format == FormatPlain
    ensures f.kind == TableKind <==> opts.format != FormatJson && opts.format != FormatPlain
  {
    var o := if opts.writer.None? then opts.(writer := Some(Stdout)) else opts;
    if o.format == FormatJson then Formatter(JsonKind, o)
    else if o.format == FormatPlain then Formatter(PlainKind, o)
    else Formatter(TableKind, o)
  }

  /** The formatter test's table: "json", "table" and "plain" by name, and the empty name gives a table. */
  lemma NewFormatterFixtures(w: Option<Writer>)
    ensures NewFormatter(Options("json", false, false, false, w)).kind == JsonKind
    ensures NewFormatter(Options("table", false, false, false, w)).kind == TableKind
    ensures NewFormatter(Options("plain", false, false, false, w)).kind == PlainKind
    ensures NewFormatter(Options("", false, false, false, w)).kind == TableKind
  {
  }

  // ---------------------------------------------------------------- the plain formatter

  /** The rows of a table, each joined by "|". */
  function RowLines(rows: seq<seq<string>>): (lines: seq<string>)
    ensures |lines| == |rows|
    ensures forall i :: 0 <= i < |rows| ==> lines[i] == Join(rows[i], "|")
  {
    seq(|rows|, i requires 0 <= i < |rows| => Join(rows[i], "|"))
  }

  /** Plain text: rows joined by "|" and lines by "\n", without headers and without a final newline. */
  function PlainText(data: Data): string
  {
    match data
    case TableData(_, rows) => Join(RowLines(rows), "\n")
    case Value(text) => text
  }

  /** PlainFormatter.Format: the loop that joins each row, then the join of the lines. */
  method PlainFormat(data: Data) returns (s: string)
    ensures s == PlainText(data)
  {
    if data.Value? {
      return data.text;
    }
    var rows := data.rows;
    var lines: seq<string> := [];
    var i := 0;
    while i < |rows|
      invariant 0 <= i <= |rows|
      invariant lines == RowLines(rows[..i])
    {
      lines := lines + [Join(rows[i], "|")];
      i := i + 1;
    }
    assert rows[..i] == rows;
    s := Join(lines, "\n");
  }

  /** A join of strings none of which holds `c`, with a separator without `c`, does not hold `c`. */
  lemma {:induction false} JoinAvoids(xs: seq<string>, sep: string, c: char)
    requires c !in sep
    requires forall k :: 0 <= k < |xs| ==> c !in xs[k]
    ensures c !in Join(xs, sep)
    decreases |xs|
  {
    if |xs| > 1 {
      JoinAvoids(xs[1..], sep, c);
    }
  }

  /**
   * The plain text of a non-empty table gives its rows back: splitting it at
   * newlines gives one line per row, and splitting a line at "|" gives the
   * row's cells, as long as no cell holds a "|" or a newline.
   */
  lemma PlainTextRoundTrip(headers: seq<string>, rows: seq<seq<string>>)
    requires |rows| >= 1
    requires forall i :: 0 <= i < |rows| ==> |rows[i]| >= 1
    requires forall i, k :: 0 <= i < |rows| && 0 <= k < |rows[i]| ==> '|' !in rows[i][k] && '\n' !in rows[i][k]
    ensures var lines := Split(PlainText(TableData(headers, rows)), '\n');
      |lines| == |rows| && forall i :: 0 <= i < |rows| ==> Split(lines[i], '|') == rows[i]
  {
    var lines := RowLines(rows);
    forall i | 0 <= i < |lines| ensures '\n' !in lines[i] {
      JoinAvoids(rows[i], "|", '\n');
    }
    SplitJoin(lines, '\n');
    forall i | 0 <= i < |rows| ensures Split(lines[i], '|') == rows[i] {
      SplitJoin(rows[i], '|');
    }
  }

  /** The formatter test's table renders as "1|First\n2|Second"; no rows give "". */
  lemma PlainTextFixtures(headers: seq<string>)
    ensures PlainText(TableData(headers, [["1", "First"], ["2", "Second"]])) == "1|First\n2|Second"
    ensures PlainText(TableData(headers, [])) == ""
  {
    var r1, r2 := ["1", "First"], ["2", "Second"];
    assert r1[1..] == ["First"] && r2[1..] == ["Second"];
    assert Join(r1, "|") == "1|First";
    assert Join(r2, "|") == "2|Second";
    var lines := RowLines([r1, r2]);
    assert lines == ["1|First", "2|Second"];
    assert lines[1..] == ["2|Second"];
    assert Join(lines, "\n") == "1|First" + "\n" + "2|Second";
  }

  // ---------------------------------------------------------------- the table formatter

  datatype RowStyle = HeaderStyle | EvenRowStyle | OddRowStyle

  /**
   * styleFunc: row -1 is the header, other rows alternate by parity. Go's
   * remainder has the sign of the dividend, but it is zero exactly when
   * Dafny's is, so `row % 2 == 0` means the same in both.
   */
  function StyleOf(row: int): RowStyle
  {
    if row == -1 then HeaderStyle else if row % 2 == 0 then EvenRowStyle else OddRowStyle
  }

  /** The header row has its own style and neighbouring data rows never share one. */
  lemma StylesAlternate(row: nat)
    ensures StyleOf(-1) == HeaderStyle
    ensures StyleOf(row) != HeaderStyle && StyleOf(row) != StyleOf(row + 1)
  {
  }

  // ---------------------------------------------------------------- formatting and printing

  /** Format for each kind; the table formatter falls back to JSON for data that is not a table. */
  function Format(f: Formatter, data: Data, r: Renderers): Result<string>
  {
    match f.kind
    case JsonKind => r.json(data)
    case PlainKind => Ok(PlainText(data))
    case TableKind =>
      if data.TableData? then Ok(r.table(data.headers, data.rows, !f.opts.noColor)) else r.json(data)
  }

  /** A plain or table formatter never fails on table data; on other data the table formatter is the JSON formatter. */
  lemma FormatProperties(f: Formatter, data: Data, r: Renderers)
    ensures f.kind == PlainKind ==> Format(f, data, r) == Ok(PlainText(data))
    ensures f.kind == TableKind && data.TableData? ==> Format(f, data, r) == Ok(r.table(data.headers, data.rows, !f.opts.noColor))
    ensures f.kind == TableKind && data.Value? ==> Format(f, data, r) == Format(NewFormatter(f.opts.(format := FormatJson)), data, r)
    ensures f.kind == PlainKind && data.Value? ==> Format(f, data, r) == Ok(data.text)
  {
  }

  /** FormatError: "error: " for plain, "Error: " without colour for the table, the JSON error object for JSON. */
  function FormatError(f: Formatter, msg: string, r: Renderers): (s: string)
    ensures f.kind == PlainKind ==> s == "error: " + msg
    ensures f.kind == TableKind && f.opts.noColor ==> s == "Error: " + msg
    ensures f.kind == TableKind && !f.opts.noColor ==> s == r.errorPrefix("Error: ") + msg
  {
    match f.kind
    case JsonKind => r.jsonError(msg)
    case PlainKind => "error: " + msg
    case TableKind => if f.opts.noColor then "Error: " + msg else r.errorPrefix("Error: ") + msg
  }

  /** A writer, by everything written to it so far. */
  class Sink {
    var text: string

    constructor ()
      ensures text == ""
    {
      text := "";
    }

    method WriteString(s: string)
      modifies this
      ensures text == old(text) + s
    {
      text := text + s;
    }
  }

  /** Print: the formatted text and one newline, or the format error and nothing written. */
  method Print(f: Formatter, data: Data, r: Renderers, w: Sink) returns (err: Option<string>)
    modifies w
    ensures Format(f, data, r).Ok? ==> err.None? && w.text == old(w.text) + Format(f, data, r).value + "\n"
    ensures Format(f, data, r).Err? ==> err == Some(Format(f, data, r).msg) && w.text == old(w.text)
  {
    var out := Format(f, data, r);
    if out.Err? {
      return Some(out.msg);
    }
    w.WriteString(out.value + "\n");
    return None;
  }

  /** PrintError: the formatted error and one newline on the error stream. */
  method PrintError(f: Formatter, msg: string, r: Renderers, stderr: Sink)
    modifies stderr
    ensures stderr.text == old(stderr.text) + FormatError(f, msg, r) + "\n"
  {
    stderr.WriteString(FormatError(f, msg, r) + "\n");
  }

  // ---------------------------------------------------------------- SimpleTable

  /** A table built row by row. */
  class SimpleTable {
    var headers: seq<string>
    var rows: seq<seq<string>>

    /** NewSimpleTable: the given headers and no rows. */
    constructor NewSimpleTable(h: seq<string>)
      ensures headers == h && rows == []
    {
      headers := h;
      rows := [];
    }

    /** AddRow: one row more, at the end; the headers and the earlier rows stay. */
    method AddRow(row: seq<string>)
      modifies this
      ensures headers == old(headers)
      ensures rows == old(rows) + [row]
    {
      rows := rows + [row];
    }

    function Data(): Data
      reads this
    {
      TableData(headers, rows)
    }
  }

  /** The SimpleTable test: two AddRow calls keep the headers and give the two rows in order. */
  method AddRowFixture() returns (t: SimpleTable)
    ensures t.headers == ["Col1", "Col2"]
    ensures t.rows == [["a", "b"], ["c", "d"]]
  {
    t := new SimpleTable.NewSimpleTable(["Col1", "Col2"]);
    t.AddRow(["a", "b"]);
    t.AddRow(["c", "d"]);
  }
}
