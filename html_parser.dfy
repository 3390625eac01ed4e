/**
 * Ticket extraction from the bug tracker's HTML export (src/html_parser.py).
 *
 * BeautifulSoup is not modelled: a document arrives already split into its
 * table, body rows and cells, and each cell carries the renderings of it that
 * the parser reads (its stripped text, its markup, the text left once line
 * breaks and code blocks have been rewritten, and its node tree).
 */
module HtmlParser {
  import opened Wrappers
  import opened Text
  import opened Timestamps
  import opened Seqs

  // ---------------------------------------------------------------------
  // Data model
  // ---------------------------------------------------------------------

  datatype Action = Opened | Assigned | Edited | Resolved | Closed

  /** The upper-case keyword as it appears in a header and in message bodies. */
  function ActionName(a: Action): string
  {
    match a
    case Opened => "OPENED"
    case Assigned => "ASSIGNED"
    case Edited => "EDITED"
    case Resolved => "RESOLVED"
    case Closed => "CLOSED"
  }

  /** The alternation `OPENED|ASSIGNED|EDITED|RESOLVED|CLOSED`, in the order the regex tries it. */
  const Actions: seq<Action> := [Opened, Assigned, Edited, Resolved, Closed]

  datatype TimelineEntry = TimelineEntry(timestamp: DateTime, action: Action, user: string, content: string)

  /** The tag of a markup node; `TextNode` is a bare string (BeautifulSoup gives it the name None). */
  datatype Kind = Bold | Br | Div | P | Span | Pre | Code | OtherTag | TextNode

  /**
   * A node of a parsed cell: `text` is `get_text()`, `strippedText` is
   * `get_text(strip=True)`, `children` its child nodes in document order.
   */
  datatype Node = Node(kind: Kind, text: string, strippedText: string, children: seq<Node>)

  /** A `<td>` cell: `text` is `get_text(strip=True)`, `markup` is `str(cell)`,
   *  `flattened` the text BeautifulSoup yields once `br`/`p`/`li` became newlines and
   *  `pre`/`code` became fenced blocks, `nodes` the tree parsed from `markup`. */
  datatype Cell = Cell(text: string, markup: string, flattened: string, nodes: seq<Node>)

  datatype Row = Row(cells: seq<Cell>)

  /** The export: possibly no `<table>`, possibly a table without `<tbody>`. */
  datatype Document = NoTable | Table(body: Option<seq<Row>>)

  datatype Ticket = Ticket(
    ticketId: string, title: string, area: string,
    openedAt: DateTime, closedAt: Option<DateTime>,
    priority: string, kind: string, importance: string, linkedTo: string,
    details: string, rawHtml: string, tree: seq<Node>)

  /** The ValueErrors the parser raises. */
  datatype ParseError =
    | NoTableFound
    | NoBodyFound
    | UnexpectedRow(cellCount: nat)
    | UnparseableDate(text: string)

  // ---------------------------------------------------------------------
  // _parse_datetime
  // ---------------------------------------------------------------------

  const Formats: seq<DateFormat> := [SlashMinute, SlashDate, DashSecond]

  /** The position of the first format from `k` on that `strptime` accepts for `s`, or `|fs|`. */
  function FirstFormat(s: string, strptime: Strptime, fs: seq<DateFormat>, k: nat): (i: nat)
    requires k <= |fs|
    ensures k <= i <= |fs|
    ensures i < |fs| ==> strptime(s, fs[i]).Some?
    ensures forall j :: k <= j < i ==> strptime(s, fs[j]).None?
    decreases |fs| - k
  {
    if k == |fs| || strptime(s, fs[k]).Some? then k else FirstFormat(s, strptime, fs, k + 1)
  }

  /** The result of the first format in `fs` that `strptime` accepts for `s`. */
  function FirstParse(s: string, strptime: Strptime, fs: seq<DateFormat>): (r: Option<DateTime>)
    ensures r.None? <==> forall i :: 0 <= i < |fs| ==> strptime(s, fs[i]).None?
    ensures r.Some? ==> exists i :: 0 <= i < |fs| && strptime(s, fs[i]) == r
                                    && forall j :: 0 <= j < i ==> strptime(s, fs[j]).None?
  {
    var i := FirstFormat(s, strptime, fs, 0);
    if i < |fs| then strptime(s, fs[i]) else None
  }

  /** What `_parse_datetime(s)` returns or raises. */
  function DatetimeOf(s: string, strptime: Strptime): Result<DateTime, ParseError>
  {
    match FirstParse(s, strptime, Formats)
    case Some(d) => Ok(d)
    case None => Err(UnparseableDate(s))
  }

  /** `_parse_datetime`: try each format in turn, the first that parses wins. */
  method ParseDatetime(s: string, strptime: Strptime) returns (r: Result<DateTime, ParseError>)
    ensures r.Err? <==> forall i :: 0 <= i < |Formats| ==> strptime(s, Formats[i]).None?
    ensures r.Err? ==> r.error == UnparseableDate(s)
    ensures r.Ok? ==> exists i :: 0 <= i < |Formats| && strptime(s, Formats[i]) == Some(r.value)
                                  && forall j :: 0 <= j < i ==> strptime(s, Formats[j]).None?
    ensures r == DatetimeOf(s, strptime)
  {
    for k := 0 to |Formats|
      invariant forall j :: 0 <= j < k ==> strptime(s, Formats[j]).None?
    {
      var parsed := strptime(s, Formats[k]);
      if parsed.Some? {
        return Ok(parsed.value);
      }
    }
    return Err(UnparseableDate(s));
  }

  // ---------------------------------------------------------------------
  // _clean_details_html, the text post-processing
  // ---------------------------------------------------------------------

  /** Length of the run of '\n' at the start of `s`. */
  function NewlineRun(s: string): (k: nat)
    ensures k <= |s|
    ensures forall i :: 0 <= i < k ==> s[i] == '\n'
    ensures k < |s| ==> s[k] != '\n'
  {
    if s == [] || s[0] != '\n' then 0 else 1 + NewlineRun(s[1..])
  }

  /** `re.sub(r"\n{3,}", "\n\n", s)`: every maximal run of three or more newlines becomes two. */
  function CollapseNewlines(s: string): (r: string)
    decreases |s|
  {
    if s == [] then []
    else if s[0] != '\n' then [s[0]] + CollapseNewlines(s[1..])
    else
      var k := NewlineRun(s);
      (if k >= 3 then "\n\n" else s[..k]) + CollapseNewlines(s[k..])
  }

  /** `"\n".join(line.rstrip() for line in s.split("\n"))` */
  function RStripLines(s: string): string
  {
    Join("\n", RStripEach(Split(s, '\n')))
  }

  function RStripEach(lines: seq<string>): (r: seq<string>)
    ensures |r| == |lines|
    ensures forall k :: 0 <= k < |r| ==> r[k] == RStrip(lines[k])
  {
    if lines == [] then [] else [RStrip(lines[0])] + RStripEach(lines[1..])
  }

  /** The text post-processing of `_clean_details_html`: collapse first, then trim each line. */
  function CleanDetails(flattened: string): string
  {
    RStripLines(CollapseNewlines(flattened))
  }

  /** "\n\n\n" occurs in `s` at position `i`. */
  predicate TripleNewlineAt(s: string, i: int)
  {
    0 <= i && i + 3 <= |s| && s[i] == '\n' && s[i + 1] == '\n' && s[i + 2] == '\n'
  }

  /** The characters other than newlines, in order. */
  function NonNewlines(s: string): string
  {
    if s == [] then [] else (if s[0] == '\n' then [] else [s[0]]) + NonNewlines(s[1..])
  }

  lemma {:induction false} NonNewlinesAppend(a: string, b: string)
    ensures NonNewlines(a + b) == NonNewlines(a) + NonNewlines(b)
  {
    if a != [] {
      assert (a + b)[0] == a[0];
      assert (a + b)[1..] == a[1..] + b;
      NonNewlinesAppend(a[1..], b);
      calc {
        NonNewlines(a + b);
        (if a[0] == '\n' then [] else [a[0]]) + NonNewlines(a[1..] + b);
        (if a[0] == '\n' then [] else [a[0]]) + NonNewlines(a[1..]) + NonNewlines(b);
      }
    } else {
      assert a + b == b;
    }
  }

  lemma {:induction false} NonNewlinesOfNewlines(s: string)
    requires forall i :: 0 <= i < |s| ==> s[i] == '\n'
    ensures NonNewlines(s) == []
  {
    if s != [] {
      NonNewlinesOfNewlines(s[1..]);
    }
  }

  /** Collapsing never leaves three newlines in a row, and only ever removes newlines. */
  lemma {:induction false} CollapseNewlinesSound(s: string)
    ensures forall i :: !TripleNewlineAt(CollapseNewlines(s), i)
    ensures NonNewlines(CollapseNewlines(s)) == NonNewlines(s)
    ensures s != [] && s[0] != '\n' ==> CollapseNewlines(s) != [] && CollapseNewlines(s)[0] == s[0]
    decreases |s|
  {
    if s == [] {
    } else if s[0] != '\n' {
      CollapseNewlinesSound(s[1..]);
      assert s == [s[0]] + s[1..];
      KeptCharSound(s[0], s[1..], CollapseNewlines(s[1..]));
    } else {
      var k := NewlineRun(s);
      var head: string := if k >= 3 then "\n\n" else s[..k];
      CollapseNewlinesSound(s[k..]);
      assert s == s[..k] + s[k..];
      CollapsedRunSound(head, s[..k], s[k..], CollapseNewlines(s[k..]));
    }
  }

  /** The step of `CollapseNewlines` that keeps a character other than a newline. */
  lemma KeptCharSound(c: char, tail: string, rest: string)
    requires c != '\n'
    requires forall i :: !TripleNewlineAt(rest, i)
    requires NonNewlines(rest) == NonNewlines(tail)
    ensures forall i :: !TripleNewlineAt([c] + rest, i)
    ensures NonNewlines([c] + rest) == NonNewlines([c] + tail)
  {
    forall i ensures !TripleNewlineAt([c] + rest, i) {
      if i >= 1 {
        assert !TripleNewlineAt(rest, i - 1);
      }
    }
    NonNewlinesAppend([c], rest);
    NonNewlinesAppend([c], tail);
  }

  /** The step of `CollapseNewlines` that replaces a run of newlines by at most two. */
  lemma CollapsedRunSound(head: string, run: string, tail: string, rest: string)
    requires |head| <= 2 && forall j :: 0 <= j < |head| ==> head[j] == '\n'
    requires forall j :: 0 <= j < |run| ==> run[j] == '\n'
    requires forall i :: !TripleNewlineAt(rest, i)
    requires rest != [] ==> rest[0] != '\n'
    requires NonNewlines(rest) == NonNewlines(tail)
    ensures forall i :: !TripleNewlineAt(head + rest, i)
    ensures NonNewlines(head + rest) == NonNewlines(run + tail)
  {
    forall i ensures !TripleNewlineAt(head + rest, i) {
      if i >= |head| {
        assert !TripleNewlineAt(rest, i - |head|);
      } else if 0 <= i && i + 3 <= |head + rest| {
        assert (head + rest)[|head|] == rest[0];
      }
    }
    NonNewlinesAppend(head, rest);
    NonNewlinesOfNewlines(head);
    NonNewlinesAppend(run, tail);
    NonNewlinesOfNewlines(run);
  }

  /** `k` newlines. */
  function Newlines(k: nat): string
  {
    seq(k, _ => '\n')
  }

  /** What `re.sub(r"\n{3,}", "\n\n", ...)` writes for a maximal run of `k` newlines. */
  function RunOf(k: nat): string
  {
    if k >= 3 then "\n\n" else Newlines(k)
  }

  /** A run of `k` newlines followed by something else is a run of length `k`. */
  lemma {:induction false} NewlineRunOfRun(k: nat, post: string)
    requires post == [] || post[0] != '\n'
    ensures NewlineRun(Newlines(k) + post) == k
  {
    if k > 0 {
      assert (Newlines(k) + post)[1..] == Newlines(k - 1) + post;
      NewlineRunOfRun(k - 1, post);
    } else {
      assert Newlines(k) + post == post;
    }
  }

  /** A leading run that ends inside `a` is not lengthened by what follows `a`. */
  lemma {:induction false} NewlineRunAppend(a: string, b: string)
    requires NewlineRun(a) < |a|
    ensures NewlineRun(a + b) == NewlineRun(a)
  {
    if a[0] == '\n' {
      assert (a + b)[1..] == a[1..] + b;
      NewlineRunAppend(a[1..], b);
    }
  }

  /** A run of `k` newlines at the start collapses to two newlines when `k >= 3` and is kept otherwise. */
  lemma CollapseLeadingRun(k: nat, post: string)
    requires post == [] || post[0] != '\n'
    ensures CollapseNewlines(Newlines(k) + post) == RunOf(k) + CollapseNewlines(post)
  {
    var s := Newlines(k) + post;
    if k == 0 {
      assert s == post;
    } else {
      NewlineRunOfRun(k, post);
      assert s[..k] == Newlines(k);
      assert s[k..] == post;
    }
  }

  lemma Regroup(h: string, a: string, r: string, b: string)
    ensures h + (a + r + b) == (h + a) + r + b
  {
  }

  /** A first character other than a newline is kept, and the rest is collapsed after it. */
  lemma CollapseKeptFirst(a: string, b: string)
    requires a != [] && a[0] != '\n'
    ensures CollapseNewlines(a + b) == [a[0]] + CollapseNewlines(a[1..] + b)
    ensures CollapseNewlines(a) == [a[0]] + CollapseNewlines(a[1..])
  {
    assert (a + b)[1..] == a[1..] + b;
  }

  /** A leading run of newlines that ends inside `a` is collapsed before what follows it. */
  lemma CollapseRunInside(a: string, b: string)
    requires a != [] && a[0] == '\n' && NewlineRun(a) < |a|
    ensures CollapseNewlines(a + b)
            == (if NewlineRun(a) >= 3 then "\n\n" else a[..NewlineRun(a)]) + CollapseNewlines(a[NewlineRun(a)..] + b)
    ensures CollapseNewlines(a)
            == (if NewlineRun(a) >= 3 then "\n\n" else a[..NewlineRun(a)]) + CollapseNewlines(a[NewlineRun(a)..])
  {
    var m := NewlineRun(a);
    NewlineRunAppend(a, b);
    assert (a + b)[..m] == a[..m];
    assert (a + b)[m..] == a[m..] + b;
  }

  /**
   * Each maximal run of newlines is rewritten on its own: a run of `k`
   * newlines between text that does not end and text that does not start
   * with a newline becomes "\n\n" when `k >= 3` and stays as it is otherwise,
   * and the text on either side is collapsed independently.
   */
  lemma {:induction false} CollapseRun(pre: string, k: nat, post: string)
    requires pre == [] || pre[|pre| - 1] != '\n'
    requires post == [] || post[0] != '\n'
    ensures CollapseNewlines(pre + (Newlines(k) + post)) == CollapseNewlines(pre) + RunOf(k) + CollapseNewlines(post)
    decreases |pre|, 1
  {
    if pre == [] {
      CollapseAfterEmpty(pre, Newlines(k) + post);
      CollapseLeadingRun(k, post);
    } else if pre[0] != '\n' {
      CollapseRunKept(pre, k, post);
    } else {
      CollapseRunLeading(pre, k, post);
    }
  }

  /** With nothing before it, text collapses as it would alone. */
  lemma CollapseAfterEmpty(pre: string, x: string)
    requires pre == []
    ensures CollapseNewlines(pre + x) == CollapseNewlines(x) && CollapseNewlines(pre) == []
  {
    assert pre + x == x;
  }

  /** `CollapseRun` for text that starts with a kept character. */
  lemma {:induction false} CollapseRunKept(pre: string, k: nat, post: string)
    requires pre != [] && pre[0] != '\n' && pre[|pre| - 1] != '\n'
    requires post == [] || post[0] != '\n'
    ensures CollapseNewlines(pre + (Newlines(k) + post)) == CollapseNewlines(pre) + RunOf(k) + CollapseNewlines(post)
    decreases |pre|, 0
  {
    CollapseRun(pre[1..], k, post);
    CollapseKeptFirst(pre, Newlines(k) + post);
    Regroup([pre[0]], CollapseNewlines(pre[1..]), RunOf(k), CollapseNewlines(post));
  }

  /** `CollapseRun` for text that starts with a run of newlines. */
  lemma {:induction false} CollapseRunLeading(pre: string, k: nat, post: string)
    requires pre != [] && pre[0] == '\n' && pre[|pre| - 1] != '\n'
    requires post == [] || post[0] != '\n'
    ensures CollapseNewlines(pre + (Newlines(k) + post)) == CollapseNewlines(pre) + RunOf(k) + CollapseNewlines(post)
    decreases |pre|, 0
  {
    var m := NewlineRun(pre);
    CollapseRun(pre[m..], k, post);
    CollapseRunInside(pre, Newlines(k) + post);
    Regroup(if m >= 3 then "\n\n" else pre[..m], CollapseNewlines(pre[m..]), RunOf(k), CollapseNewlines(post));
  }


  /** `s.split("\n")` undoes `"\n".join(lines)` when no line holds a newline. */
  lemma {:induction false} SplitJoin(lines: seq<string>)
    requires lines != []
    requires forall k :: 0 <= k < |lines| ==> '\n' !in lines[k]
    ensures Split(Join("\n", lines), '\n') == lines
  {
    if |lines| > 1 {
      var rest := Join("\n", lines[1..]);
      assert Join("\n", lines) == lines[0] + ['\n'] + rest;
      SplitCons(lines[0], rest, '\n');
      SplitJoin(lines[1..]);
      assert lines == [lines[0]] + lines[1..];
    }
  }

  /** After cleaning, no line of the details text ends in whitespace. */
  lemma CleanDetailsLinesTrimmed(flattened: string)
    ensures forall line :: line in Split(CleanDetails(flattened), '\n') ==>
              line == [] || !IsSpace(line[|line| - 1])
  {
    var src := Split(CollapseNewlines(flattened), '\n');
    var lines := RStripEach(src);
    forall k | 0 <= k < |lines| ensures '\n' !in lines[k] {
      RStripKeepsOut(src[k], '\n');
    }
    SplitJoin(lines);
    assert Split(CleanDetails(flattened), '\n') == lines;
  }

  /** Trimming adds no character. */
  lemma RStripKeepsOut(s: string, c: char)
    requires c !in s
    ensures c !in RStrip(s)
  {
    var r := RStrip(s);
    forall j | 0 <= j < |r| ensures r[j] != c {
      assert r[j] == s[j];
    }
  }

  /** The trim runs after the collapse, so whitespace-only lines can leave three newlines in a row. */
  lemma CleanDetailsMayKeepTripleNewline()
    ensures CleanDetails("a\n \n\nb") == "a\n\n\nb"
  {
    CollapseExample();
    SplitExample();
    TrimExample();
  }

  lemma SplitExample()
    ensures Split("a\n \n\nb", '\n') == ["a", " ", "", "b"]
  {
    var lines := ["a", " ", "", "b"];
    assert forall k :: 0 <= k < |lines| ==> '\n' !in lines[k];
    SplitJoin(lines);
    JoinExample();
  }

  lemma JoinExample()
    ensures Join("\n", ["a", " ", "", "b"]) == "a\n \n\nb"
  {
    assert Join("\n", ["b"]) == "b";
    assert Join("\n", ["", "b"]) == "\nb";
    assert Join("\n", [" ", "", "b"]) == " \n\nb";
  }

  lemma TrimExample()
    ensures Join("\n", RStripEach(["a", " ", "", "b"])) == "a\n\n\nb"
  {
    TrimmedExampleLines();
    assert Join("\n", ["b"]) == "b";
    assert Join("\n", ["", "b"]) == "\nb";
    assert Join("\n", ["", "", "b"]) == "\n\nb";
  }

  lemma TrimmedExampleLines()
    ensures RStripEach(["a", " ", "", "b"]) == ["a", "", "", "b"]
  {
    var lines := ["a", " ", "", "b"];
    assert SpaceRunBack(" ", 1) == 1;
    assert SpaceRunBack("a", 1) == 0 && SpaceRunBack("b", 1) == 0;
    var r := RStripEach(lines);
    assert r[0] == "a" && r[1] == "" && r[2] == "" && r[3] == "b";
  }

  lemma CollapseExample()
    ensures CollapseNewlines("a\n \n\nb") == "a\n \n\nb"
  {
    assert NewlineRun("\n \n\nb") == 1;
    assert NewlineRun("\n\nb") == 2;
    assert CollapseNewlines("b") == "b";
    assert CollapseNewlines("\n\nb") == "\n\nb";
    assert CollapseNewlines(" \n\nb") == " \n\nb";
    assert CollapseNewlines("\n \n\nb") == "\n \n\nb";
  }

  // ---------------------------------------------------------------------
  // _parse_row and parse_all_tickets
  // ---------------------------------------------------------------------

  /** `_parse_row`: ten ordered cells, the opened date mandatory, the closed date only when its cell is not empty. */
  function ParseRow(row: Row, strptime: Strptime): (r: Result<Ticket, ParseError>)
    ensures |row.cells| < 10 ==> r == Err(UnexpectedRow(|row.cells|))
    ensures |row.cells| >= 10 ==>
              (r.Err? <==> DatetimeOf(row.cells[3].text, strptime).Err?
                           || (row.cells[4].text != [] && DatetimeOf(row.cells[4].text, strptime).Err?))
    ensures |row.cells| >= 10 && DatetimeOf(row.cells[3].text, strptime).Err? ==>
              r == Err(UnparseableDate(row.cells[3].text))
    ensures r.Ok? ==> |row.cells| >= 10
                      && r.value.openedAt == DatetimeOf(row.cells[3].text, strptime).value
                      && (r.value.closedAt.None? <==> row.cells[4].text == [])
                      && (r.value.closedAt.Some? ==> Ok(r.value.closedAt.value) == DatetimeOf(row.cells[4].text, strptime))
    ensures r.Ok? ==> r.value.ticketId == row.cells[0].text && r.value.title == row.cells[1].text
                      && r.value.details == CleanDetails(row.cells[9].flattened)
                      && r.value.rawHtml == row.cells[9].markup && r.value.tree == row.cells[9].nodes
    ensures r.Ok? ==> r.value.area == row.cells[2].text && r.value.priority == row.cells[5].text
                      && r.value.kind == row.cells[6].text && r.value.importance == row.cells[7].text
                      && r.value.linkedTo == row.cells[8].text
  {
    var cells := row.cells;
    if |cells| < 10 then Err(UnexpectedRow(|cells|))
    else
      match DatetimeOf(cells[3].text, strptime)
      case Err(e) => Err(e)
      case Ok(openedDt) =>
        var closed: Result<Option<DateTime>, ParseError> :=
          if cells[4].text == [] then Ok(None)
          else match DatetimeOf(cells[4].text, strptime)
               case Ok(d) => Ok(Some(d))
               case Err(e) => Err(e);
        match closed
        case Err(e) => Err(e)
        case Ok(closedAt) =>
          Ok(Ticket(cells[0].text, cells[1].text, cells[2].text, openedDt, closedAt,
                    cells[5].text, cells[6].text, cells[7].text, cells[8].text,
                    CleanDetails(cells[9].flattened), cells[9].markup, cells[9].nodes))
  }

  /** `_parse_row` as a function value, with the strptime oracle fixed. */
  function RowParser(strptime: Strptime): Row -> Result<Ticket, ParseError>
  {
    row => ParseRow(row, strptime)
  }

  /** `[self._parse_row(row) for row in rows]` */
  function ParseRows(rows: seq<Row>, strptime: Strptime): Result<seq<Ticket>, ParseError>
  {
    MapUntilError(rows, RowParser(strptime))
  }

  /**
   * The parse succeeds with one ticket per row, in order, exactly when every
   * row parses; otherwise it fails with the error of the first failing row.
   */
  lemma ParseRowsSpec(rows: seq<Row>, strptime: Strptime)
    ensures ParseRows(rows, strptime).Ok? <==> forall i :: 0 <= i < |rows| ==> ParseRow(rows[i], strptime).Ok?
    ensures ParseRows(rows, strptime).Ok? ==>
              |ParseRows(rows, strptime).value| == |rows|
              && forall i :: 0 <= i < |rows| ==> ParseRow(rows[i], strptime) == Ok(ParseRows(rows, strptime).value[i])
    ensures forall i :: 0 <= i < |rows| && ParseRow(rows[i], strptime).Err?
                        && (forall j :: 0 <= j < i ==> ParseRow(rows[j], strptime).Ok?) ==>
              ParseRows(rows, strptime) == Err(ParseRow(rows[i], strptime).error)
  {
    var f := RowParser(strptime);
    MapUntilErrorOk(rows, f);
    forall i | 0 <= i < |rows| && ParseRow(rows[i], strptime).Err?
               && (forall j :: 0 <= j < i ==> ParseRow(rows[j], strptime).Ok?)
      ensures ParseRows(rows, strptime) == Err(ParseRow(rows[i], strptime).error)
    {
      MapUntilErrorFirst(rows, i, f);
    }
  }

  /** What `parse_all_tickets` returns or raises on a fresh parser. */
  function ParseDocument(document: Document, strptime: Strptime): Result<seq<Ticket>, ParseError>
  {
    match document
    case NoTable => Err(NoTableFound)
    case Table(body) =>
      match body
      case None => Err(NoBodyFound)
      case Some(rows) => ParseRows(rows, strptime)
  }

  /** The first ticket carrying the id is the one found. */
  lemma {:induction false} FindByIdAt(tickets: seq<Ticket>, ticketId: string, i: nat)
    requires i < |tickets| && tickets[i].ticketId == ticketId
    requires forall j :: 0 <= j < i ==> tickets[j].ticketId != ticketId
    ensures FindById(tickets, ticketId) == Some(tickets[i])
  {
    if i > 0 {
      assert tickets[0].ticketId != ticketId;
      FindByIdAt(tickets[1..], ticketId, i - 1);
    }
  }

  /** The first ticket whose id is `ticketId`. */
  function FindById(tickets: seq<Ticket>, ticketId: string): (r: Option<Ticket>)
    ensures r.None? <==> forall i :: 0 <= i < |tickets| ==> tickets[i].ticketId != ticketId
    ensures r.Some? ==> exists i :: 0 <= i < |tickets| && tickets[i] == r.value && r.value.ticketId == ticketId
                                    && forall j :: 0 <= j < i ==> tickets[j].ticketId != ticketId
  {
    if tickets == [] then None
    else if tickets[0].ticketId == ticketId then Some(tickets[0])
    else
      var r := FindById(tickets[1..], ticketId);
      assert forall j :: 1 <= j < |tickets| ==> tickets[j] == tickets[1..][j - 1];
      r
  }

  // ---------------------------------------------------------------------
  // extract_timeline: the header regex
  //   (\d{4}/\d{2}/\d{2}\s+\d{2}:\d{2})\s+(OPENED|ASSIGNED|EDITED|RESOLVED|CLOSED)\s+by\s+([^\n<]+)
  // ---------------------------------------------------------------------

  /** `\d{n}` at `i` */
  predicate DigitsAt(t: string, i: nat, n: nat)
    decreases n
  {
    i + n <= |t| && (n == 0 || (IsDecimal(t[i]) && DigitsAt(t, i + 1, n - 1)))
  }

  /** `\d{4}/\d{2}/\d{2}` at `i` */
  predicate DateShapeAt(t: string, i: nat)
  {
    i + 10 <= |t| && DigitsAt(t, i, 4) && t[i + 4] == '/' && DigitsAt(t, i + 5, 2)
    && t[i + 7] == '/' && DigitsAt(t, i + 8, 2)
  }

  /** `\d{2}:\d{2}` at `i` */
  predicate TimeShapeAt(t: string, i: nat)
  {
    i + 5 <= |t| && DigitsAt(t, i, 2) && t[i + 2] == ':' && DigitsAt(t, i + 3, 2)
  }

  /** The first alternative of `OPENED|ASSIGNED|EDITED|RESOLVED|CLOSED` found at `i`. */
  function ActionAt(t: string, i: nat, candidates: seq<Action>): (r: Option<Action>)
    ensures r.Some? ==> r.value in candidates && OccursAt(t, ActionName(r.value), i)
    ensures r.None? ==> forall a :: a in candidates ==> !OccursAt(t, ActionName(a), i)
  {
    if candidates == [] then None
    else if OccursAt(t, ActionName(candidates[0]), i) then Some(candidates[0])
    else ActionAt(t, i, candidates[1..])
  }

  /** Length of the run of characters matched by `[^\n<]` from `i`. */
  function ActorRun(t: string, i: nat): (k: nat)
    requires i <= |t|
    ensures i + k <= |t|
    ensures forall j :: i <= j < i + k ==> t[j] != '\n' && t[j] != '<'
    ensures i + k < |t| ==> t[i + k] == '\n' || t[i + k] == '<'
    decreases |t| - i
  {
    if i < |t| && t[i] != '\n' && t[i] != '<' then 1 + ActorRun(t, i + 1) else 0
  }

  /** Giving back whitespace to `[^\n<]+`: the last position in `q+1..q+j0` that holds no newline. */
  function GiveBack(t: string, q: nat, j0: nat): (r: Option<nat>)
    requires q + j0 < |t|
    ensures r.Some? ==> q < r.value <= q + j0 && t[r.value] != '\n'
    ensures r.None? ==> forall i :: q < i <= q + j0 ==> t[i] == '\n'
  {
    if j0 == 0 then None
    else if t[q + j0] != '\n' then Some(q + j0)
    else GiveBack(t, q, j0 - 1)
  }

  /**
   * Where group 3 starts once `by` and its whitespace run (at `q`, of length
   * `w`) have matched: right after the run when a `[^\n<]` character follows
   * it, otherwise the regex backtracks into the run.
   */
  function ActorStart(t: string, q: nat, w: nat): (r: Option<nat>)
    requires q <= |t| && 1 <= w == SpaceRun(t, q)
    ensures r.Some? ==> q < r.value < |t| && t[r.value] != '\n' && t[r.value] != '<'
  {
    if q + w < |t| && t[q + w] != '<' then Some(q + w)
    else
      var g := GiveBack(t, q, w - 1);
      assert g.Some? ==> IsSpace(t[g.value]);
      g
  }

  /** The tail of the header after the action keyword: `\s+by\s+([^\n<]+)`, giving group 3 stripped. */
  function ActorAfter(t: string, q: nat): (r: Option<string>)
    requires q <= |t|
  {
    var w3 := SpaceRun(t, q);
    if w3 == 0 || !OccursAt(t, "by", q + w3) then None
    else
      match ActorGroup(t, q + w3 + 2)
      case None => None
      case Some(group) => Some(Strip(group))
  }

  /** `\s+([^\n<]+)` after `by` (which ends at `q`): group 3 as matched. */
  function ActorGroup(t: string, q: nat): (r: Option<string>)
    requires q <= |t|
  {
    var w4 := SpaceRun(t, q);
    if w4 == 0 then None
    else
      match ActorStart(t, q, w4)
      case None => None
      case Some(g) => Some(t[g..g + ActorRun(t, g)])
  }

  /** A recognised header: the timestamp text (group 1), the action (group 2), the stripped actor (group 3). */
  datatype Header = Header(stamp: string, action: Action, actor: string)

  /** The header after group 1 (which spans `p..e`): `\s+(OPENED|...)` and the actor. */
  function AfterStamp(t: string, p: nat, e: nat): (r: Option<Header>)
    requires p <= e <= |t|
  {
    var w2 := SpaceRun(t, e);
    if w2 == 0 then None
    else
      match ActionAt(t, e + w2, Actions)
      case None => None
      case Some(a) =>
        match ActorAfter(t, e + w2 + |ActionName(a)|)
        case None => None
        case Some(actor) => Some(Header(t[p..e], a, actor))
  }

  /** The header regex anchored at position `p`. */
  function HeaderAt(t: string, p: nat): (r: Option<Header>)
    requires p <= |t|
    ensures r.Some? ==> DateShapeAt(t, p)
  {
    if !DateShapeAt(t, p) then None
    else
      var w1 := SpaceRun(t, p + 10);
      if w1 == 0 || !TimeShapeAt(t, p + 10 + w1) then None
      else AfterStamp(t, p, p + 10 + w1 + 5)
  }

  /**
   * `pattern.search` in positions: the leftmost position from `p` at which the
   * header matches, or `|t| + 1` when there is none.
   */
  function HeaderPos(t: string, p: nat): (i: nat)
    requires p <= |t|
    ensures p <= i <= |t| + 1
    ensures i <= |t| ==> HeaderAt(t, i).Some?
  {
    First(HeaderFinder(t), p, |t|)
  }

  /** Whether the header matches at a position, as a function value. */
  function HeaderFinder(t: string): nat -> bool
  {
    (j: nat) => j <= |t| && HeaderAt(t, j).Some?
  }

  /** The header matches at no position `HeaderPos` passes over. */
  lemma HeaderPosMisses(t: string, p: nat, j: nat)
    requires p <= j <= |t| && j < HeaderPos(t, p)
    ensures HeaderAt(t, j).None?
  {
    assert !HeaderFinder(t)(j);
  }

  /** A search that starts where the header matches stops there. */
  lemma HeaderPosAt(t: string, p: nat)
    requires p <= |t| && HeaderAt(t, p).Some?
    ensures HeaderPos(t, p) == p
  {
    assert HeaderFinder(t)(p);
  }

  /** A text whose first character starts a header: the search returns that header. */
  lemma SearchHeaderStart(t: string)
    requires HeaderAt(t, 0).Some?
    ensures SearchHeader(t) == HeaderAt(t, 0)
  {
    HeaderPosAt(t, 0);
  }

  /** `HeaderPos` finds the leftmost match from `p` on. */
  lemma HeaderPosLeftmost(t: string, p: nat)
    requires p <= |t|
    ensures forall j :: p <= j < HeaderPos(t, p) && j <= |t| ==> HeaderAt(t, j).None?
  {
    forall j | p <= j < HeaderPos(t, p) && j <= |t| {
      HeaderPosMisses(t, p, j);
    }
  }

  /** `pattern.search(text)` */
  function SearchHeader(text: string): (r: Option<Header>)
    ensures r.None? <==> forall j :: 0 <= j <= |text| ==> HeaderAt(text, j).None?
  {
    var i := HeaderPos(text, 0);
    if i <= |text| then HeaderAt(text, i)
    else HeaderPosLeftmost(text, 0); None
  }

  // ---------------------------------------------------------------------
  // extract_timeline: the sibling walk and the entries
  // ---------------------------------------------------------------------

  /** The tags whose full text the walk keeps: div, p, span, pre and code. */
  predicate IsContainer(k: Kind)
  {
    k == Div || k == P || k == Span || k == Pre || k == Code
  }

  /** What one sibling adds to an entry's content (text nodes match no tag name and add nothing). */
  function Piece(n: Node): string
  {
    if n.kind == Br then "\n"
    else if IsContainer(n.kind) && !AllSpace(n.text) then n.text
    else ""
  }

  /**
   * Where the walk over the siblings stops: at the next `b`, or at an empty
   * text node (an empty string is falsy, which ends `while current`).
   */
  predicate StopsWalk(n: Node)
  {
    n.kind == Bold || (n.kind == TextNode && n.text == "")
  }

  /** The concatenated pieces of the siblings from position `k` up to where the walk stops. */
  function Walk(siblings: seq<Node>, k: nat): string
    requires k <= |siblings|
    decreases |siblings| - k
  {
    if k == |siblings| || StopsWalk(siblings[k]) then ""
    else Piece(siblings[k]) + Walk(siblings, k + 1)
  }

  /** `"".join(pieces)`, joined from the left as the pieces were appended. */
  function Concat(pieces: seq<string>): string
  {
    if pieces == [] then "" else Concat(pieces[..|pieces| - 1]) + pieces[|pieces| - 1]
  }

  /** One step of the walk: the piece of sibling `k`, appended or not, keeps the joined text on course. */
  lemma WalkStep(pieces: seq<string>, siblings: seq<Node>, k: nat)
    requires k < |siblings| && !StopsWalk(siblings[k])
    ensures Concat(pieces + [Piece(siblings[k])]) + Walk(siblings, k + 1) == Concat(pieces) + Walk(siblings, k)
    ensures Piece(siblings[k]) == "" ==> Concat(pieces) + Walk(siblings, k + 1) == Concat(pieces) + Walk(siblings, k)
  {
    var x := Piece(siblings[k]);
    assert (pieces + [x])[..|pieces|] == pieces;
    assert Concat(pieces + [x]) == Concat(pieces) + x;
    assert Walk(siblings, k) == x + Walk(siblings, k + 1);
  }

  /** The content loop of `extract_timeline`: walk the following siblings, joining the pieces. */
  method CollectContent(siblings: seq<Node>) returns (content: string)
    ensures content == Walk(siblings, 0)
  {
    var pieces: seq<string> := [];
    var k := 0;
    while k < |siblings| && !(siblings[k].kind == TextNode && siblings[k].text == "")
      invariant 0 <= k <= |siblings|
      invariant Concat(pieces) + Walk(siblings, k) == Walk(siblings, 0)
    {
      var current := siblings[k];
      if current.kind == Bold {
        break;
      }
      WalkStep(pieces, siblings, k);
      if current.kind == Br {
        pieces := pieces + ["\n"];
      } else if IsContainer(current.kind) {
        if !AllSpace(current.text) {
          pieces := pieces + [current.text];
        }
      }
      k := k + 1;
    }
    content := Concat(pieces);
  }

  /** Siblings from where the walk stops on are never read: two sibling lists that agree up to a stop give the same content. */
  lemma {:induction false} WalkReadsUpToStop(s: seq<Node>, t: seq<Node>, k: nat, j: nat)
    requires k <= j < |s| && j < |t| && StopsWalk(s[j]) && s[..j + 1] == t[..j + 1]
    ensures Walk(s, k) == Walk(t, k)
    decreases j - k
  {
    assert s[k] == s[..j + 1][k] == t[..j + 1][k] == t[k];
    if k < j && !StopsWalk(s[k]) {
      WalkReadsUpToStop(s, t, k + 1, j);
    }
  }

  /** A `b` found by `find_all("b")`, with its stripped text and the siblings that follow it. */
  datatype BoldSite = BoldSite(text: string, following: seq<Node>)

  /** `soup.find_all("b")`: every bold node of the tree, in document order. */
  function BoldSites(nodes: seq<Node>): seq<BoldSite>
    decreases nodes
  {
    if nodes == [] then []
    else
      (if nodes[0].kind == Bold then [BoldSite(nodes[0].strippedText, nodes[1..])] else [])
      + BoldSites(nodes[0].children) + BoldSites(nodes[1..])
  }

  /** What one bold node contributes: nothing, or the entry its header describes. */
  function SiteEntries(site: BoldSite, strptime: Strptime): seq<TimelineEntry>
  {
    match SearchHeader(site.text)
    case None => []
    case Some(h) =>
      match DatetimeOf(h.stamp, strptime)
      case Err(_) => []
      case Ok(ts) => [TimelineEntry(ts, h.action, h.actor, Strip(Walk(site.following, 0)))]
  }

  /** `SiteEntries` as a function value, with the strptime oracle fixed. */
  function SiteReader(strptime: Strptime): BoldSite -> seq<TimelineEntry>
  {
    site => SiteEntries(site, strptime)
  }

  /** The entries of a run of bold sites, in order. */
  function Timeline(sites: seq<BoldSite>, strptime: Strptime): seq<TimelineEntry>
  {
    FlatMap(sites, SiteReader(strptime))
  }

  /** `extract_timeline`: one entry per bold node with a header and a parseable timestamp. */
  method ExtractTimeline(ticket: Ticket, strptime: Strptime) returns (entries: seq<TimelineEntry>)
    ensures entries == Timeline(BoldSites(ticket.tree), strptime)
  {
    var sites := BoldSites(ticket.tree);
    entries := [];
    for i := 0 to |sites|
      invariant entries == Timeline(sites[..i], strptime)
    {
      FlatMapStep(sites, i, SiteReader(strptime));
      var site := sites[i];
      assert SiteReader(strptime)(site) == SiteEntries(site, strptime);
      var header := SearchHeader(site.text);
      if header.Some? {
        var timestamp := ParseDatetime(header.value.stamp, strptime);
        if timestamp.Ok? {
          var content := CollectContent(site.following);
          entries := entries + [TimelineEntry(timestamp.value, header.value.action, header.value.actor, Strip(content))];
        }
      }
    }
    assert sites[..|sites|] == sites;
  }

  /** One bold node adds at most one entry, exactly when its text holds a header with a parseable timestamp. */
  lemma SiteEntriesAtMostOne(site: BoldSite, strptime: Strptime)
    ensures |SiteEntries(site, strptime)| <= 1
    ensures |SiteEntries(site, strptime)| == 1 <==>
              SearchHeader(site.text).Some? && DatetimeOf(SearchHeader(site.text).value.stamp, strptime).Ok?
  {
  }

  /** The timeline of consecutive runs of bold nodes is the concatenation of their timelines. */
  lemma TimelineAppend(a: seq<BoldSite>, b: seq<BoldSite>, strptime: Strptime)
    ensures Timeline(a + b, strptime) == Timeline(a, strptime) + Timeline(b, strptime)
  {
    FlatMapAppend(a, b, SiteReader(strptime));
  }

  /** A bold node that yields no entry (no header, or a header whose timestamp is rejected) leaves the others untouched. */
  lemma SkippedSiteLeavesOthers(before: seq<BoldSite>, site: BoldSite, after: seq<BoldSite>, strptime: Strptime)
    requires SiteEntries(site, strptime) == []
    ensures Timeline(before + [site] + after, strptime) == Timeline(before, strptime) + Timeline(after, strptime)
  {
    assert SiteReader(strptime)(site) == [];
    FlatMapSkip(before, site, after, SiteReader(strptime));
  }

  /** There are never more entries than bold nodes. */
  lemma TimelineBounded(sites: seq<BoldSite>, strptime: Strptime)
    ensures |Timeline(sites, strptime)| <= |sites|
  {
    var f := SiteReader(strptime);
    forall site | site in sites
      ensures |f(site)| <= 1
    {
      SiteEntriesAtMostOne(site, strptime);
    }
    FlatMapBounded(sites, f);
  }

  // ---------------------------------------------------------------------
  // AsteriaHTMLParser: the parse cache
  // ---------------------------------------------------------------------

  /** The parser object: the export it reads and the ticket list it caches after the first successful parse. */
  class AsteriaHtmlParser {
    const document: Document
    const strptime: Strptime
    var tickets: Option<seq<Ticket>>

    /** A cached list is always the parse of the document. */
    ghost predicate Valid()
      reads this
    {
      tickets.Some? ==> ParseDocument(document, strptime) == Ok(tickets.value)
    }

    /** A parser over one export, nothing parsed yet. */
    constructor (document: Document, strptime: Strptime)
      ensures Valid()
      ensures this.document == document && this.strptime == strptime && tickets == None
    {
      this.document := document;
      this.strptime := strptime;
      tickets := None;
    }

    /** `parse_all_tickets`: parse once, then hand back the cached list. */
    method ParseAllTickets() returns (r: Result<seq<Ticket>, ParseError>)
      requires Valid()
      modifies this`tickets
      ensures Valid()
      ensures r == ParseDocument(document, strptime)
      ensures old(tickets).Some? ==> tickets == old(tickets) && r == Ok(old(tickets).value)
      ensures tickets == if r.Ok? then Some(r.value) else old(tickets)
    {
      if tickets.Some? {
        return Ok(tickets.value);
      }
      if document.NoTable? {
        return Err(NoTableFound);
      }
      if document.body.None? {
        return Err(NoBodyFound);
      }
      var rows := document.body.value;
      var parsed: seq<Ticket> := [];
      for i := 0 to |rows|
        invariant tickets == None
        invariant ParseRows(rows[..i], strptime) == Ok(parsed)
      {
        var ticket := ParseRow(rows[i], strptime);
        assert RowParser(strptime)(rows[i]) == ticket;
        MapUntilErrorStep(rows, i, parsed, RowParser(strptime));
        if ticket.Err? {
          return Err(ticket.error);
        }
        parsed := parsed + [ticket.value];
      }
      assert rows[..|rows|] == rows;
      tickets := Some(parsed);
      return Ok(parsed);
    }

    /** `get_ticket_by_id`: the first ticket with that id, or None. */
    method GetTicketById(ticketId: string) returns (r: Result<Option<Ticket>, ParseError>)
      requires Valid()
      modifies this`tickets
      ensures Valid()
      ensures r == match ParseDocument(document, strptime)
                   case Ok(ts) => Ok(FindById(ts, ticketId))
                   case Err(e) => Err(e)
      ensures tickets == if ParseDocument(document, strptime).Ok?
                         then Some(ParseDocument(document, strptime).value) else old(tickets)
    {
      var all := ParseAllTickets();
      if all.Err? {
        return Err(all.error);
      }
      var ts := all.value;
      for i := 0 to |ts|
        invariant forall j :: 0 <= j < i ==> ts[j].ticketId != ticketId
      {
        if ts[i].ticketId == ticketId {
          FindByIdAt(ts, ticketId, i);
          return Ok(Some(ts[i]));
        }
      }
      return Ok(None);
    }
  }

  // ---------------------------------------------------------------------
  // The header of the example ticket, scanned position by position
  // ---------------------------------------------------------------------

  /** A bold header as the export writes it. */
  const ExampleHeader: string := "2025/01/07 17:45 OPENED by Nao Oki"

  /** `\d{2}` at `i`. */
  lemma TwoDigits(t: string, i: nat)
    requires i + 2 <= |t| && IsDecimal(t[i]) && IsDecimal(t[i + 1])
    ensures DigitsAt(t, i, 2)
  {
    assert DigitsAt(t, i + 2, 0);
  }

  /** `\d{a}` followed by `\d{b}` is `\d{a+b}`. */
  lemma {:induction false} DigitsJoin(t: string, i: nat, a: nat, b: nat)
    requires DigitsAt(t, i, a) && DigitsAt(t, i + a, b)
    ensures DigitsAt(t, i, a + b)
    decreases a
  {
    if a > 0 {
      DigitsJoin(t, i + 1, a - 1, b);
    }
  }

  /** Two ASCII digits match `\d{2}`. */
  lemma TwoAsciiDigits(t: string, i: nat)
    requires i + 2 <= |t| && IsDigit(t[i]) && IsDigit(t[i + 1])
    ensures DigitsAt(t, i, 2)
  {
    AsciiDigitIsDecimal(t[i]);
    AsciiDigitIsDecimal(t[i + 1]);
    TwoDigits(t, i);
  }

  lemma ExampleYear()
    ensures DigitsAt(ExampleHeader, 0, 4)
  {
    TwoAsciiDigits(ExampleHeader, 0);
    TwoAsciiDigits(ExampleHeader, 2);
    DigitsJoin(ExampleHeader, 0, 2, 2);
  }

  lemma ExampleMonthDay()
    ensures DigitsAt(ExampleHeader, 5, 2) && DigitsAt(ExampleHeader, 8, 2)
  {
    TwoAsciiDigits(ExampleHeader, 5);
    TwoAsciiDigits(ExampleHeader, 8);
  }

  lemma ExampleDate()
    ensures DateShapeAt(ExampleHeader, 0)
  {
    ExampleYear();
    ExampleMonthDay();
    assert ExampleHeader[4] == '/' && ExampleHeader[7] == '/';
  }

  lemma ExampleGap()
    ensures SpaceRun(ExampleHeader, 10) == 1
  {
    SingleSpace(ExampleHeader, 10);
  }

  lemma ExampleClock()
    ensures TimeShapeAt(ExampleHeader, 11)
  {
    TwoAsciiDigits(ExampleHeader, 11);
    TwoAsciiDigits(ExampleHeader, 14);
    assert ExampleHeader[13] == ':';
  }

  lemma ExampleTime()
    ensures SpaceRun(ExampleHeader, 10) == 1 && TimeShapeAt(ExampleHeader, 11)
  {
    ExampleGap();
    ExampleClock();
  }

  lemma ExampleAction()
    ensures SpaceRun(ExampleHeader, 16) == 1 && ActionAt(ExampleHeader, 17, Actions) == Some(Opened)
  {
    SingleSpace(ExampleHeader, 16);
    assert OccursAt(ExampleHeader, "OPENED", 17);
  }

  lemma ExampleBy()
    ensures SpaceRun(ExampleHeader, 23) == 1 && OccursAt(ExampleHeader, "by", 24) && SpaceRun(ExampleHeader, 26) == 1
  {
    SingleSpace(ExampleHeader, 23);
    SingleSpace(ExampleHeader, 26);
    assert ExampleHeader[24..26] == "by";
  }

  lemma ExampleName()
    ensures ActorRun(ExampleHeader, 27) == 7 && ExampleHeader[27..34] == "Nao Oki"
  {
    assert ActorRun(ExampleHeader, 34) == 0;
  }

  lemma ExampleActor()
    ensures ActorAfter(ExampleHeader, 23) == Some("Nao Oki")
  {
    ExampleBy();
    ExampleGroup();
    ExampleActorStripped();
  }

  lemma ExampleGroup()
    ensures ActorGroup(ExampleHeader, 26) == Some("Nao Oki")
  {
    ExampleActorStart();
    ExampleName();
    ActorGroupAt(ExampleHeader, 26, 27);
  }

  lemma ExampleActorStart()
    ensures SpaceRun(ExampleHeader, 26) == 1 && ActorStart(ExampleHeader, 26, 1) == Some(27)
  {
    ExampleBy();
    assert ExampleHeader[27] == 'N';
  }

  lemma ExampleActorStripped()
    ensures Strip("Nao Oki") == "Nao Oki"
  {
    assert SpaceRunBack("Nao Oki", 7) == 0;
    assert SpaceRun("Nao Oki", 0) == 0;
  }

  /** A full-width digit is a decimal digit. */
  lemma FullWidthDigit(c: char)
    requires '０' <= c <= '９'
    ensures IsDecimal(c)
  {
    assert InDecimalRange(c, 36);
  }

  /** `\d` matches every decimal digit, full-width ones included: `２０２５/０１/０７` has the date shape. */
  lemma FullWidthDate()
    ensures DateShapeAt("２０２５/０１/０７", 0)
  {
    var t := "２０２５/０１/０７";
    forall i | 0 <= i < |t| && t[i] != '/'
      ensures IsDecimal(t[i])
    {
      FullWidthDigit(t[i]);
    }
    TwoDigits(t, 0);
    TwoDigits(t, 2);
    DigitsJoin(t, 0, 2, 2);
    TwoDigits(t, 5);
    TwoDigits(t, 8);
  }

  /** Group 3 once its start is known. */
  lemma ActorGroupAt(t: string, q: nat, g: nat)
    requires q <= |t| && SpaceRun(t, q) >= 1 && ActorStart(t, q, SpaceRun(t, q)) == Some(g)
    ensures ActorGroup(t, q) == Some(t[g..g + ActorRun(t, g)])
  {
  }

  /** The scanner splits the example header into its timestamp, action and actor. */
  lemma HeaderExample()
    ensures SearchHeader(ExampleHeader) == Some(Header("2025/01/07 17:45", Opened, "Nao Oki"))
  {
    HeaderAtExample();
    SearchHeaderStart(ExampleHeader);
  }

  /** The header regex matches at the start of the example. */
  lemma HeaderAtExample()
    ensures HeaderAt(ExampleHeader, 0) == Some(Header("2025/01/07 17:45", Opened, "Nao Oki"))
  {
    HeaderAtExampleStamp();
    AfterStampExample();
  }

  lemma HeaderAtExampleStamp()
    ensures HeaderAt(ExampleHeader, 0) == AfterStamp(ExampleHeader, 0, 16)
  {
    ExampleDate();
    ExampleTime();
  }

  lemma AfterStampExample()
    ensures AfterStamp(ExampleHeader, 0, 16) == Some(Header("2025/01/07 17:45", Opened, "Nao Oki"))
  {
    ExampleAction();
    ExampleActor();
    ExampleStamp();
  }

  lemma ExampleStamp()
    ensures ExampleHeader[0..16] == "2025/01/07 17:45"
  {
  }
}
