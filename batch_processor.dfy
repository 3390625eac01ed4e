/**
 * The batch job that runs the rule-based summarizer over every ticket of an
 * export and stores the summaries in the shared `summaries` table: tickets
 * already stored are skipped, a dry run writes nothing, and every ticket
 * ends up counted once as a success, a failure or a skip. The job also
 * carries a splitter that cuts a seven-section summary text back into its
 * sections.
 */
module BatchProcessor {
  import opened Wrappers
  import opened Text
  import opened Seqs
  import opened Json
  import opened Sections
  import opened Timestamps
  import opened HtmlParser
  import opened SummaryStore
  import opened AsteriaSummarizer

  // ---------------------------------------------------------------------
  // _parse_summary_sections
  // ---------------------------------------------------------------------

  /** The English and the Japanese name a heading line may use for a section. */
  function HeadingNames(s: Section): (string, string)
  {
    match s
    case Symptoms => ("Symptoms", "現象")
    case Environment => ("Environment", "環境")
    case ErrorCodes => ("Error codes", "エラーコード")
    case CustomerAsk => ("Customer ask", "顧客要望")
    case OurActions => ("Our actions", "対応内容")
    case Outcome => ("Outcome", "結果")
    case NextStep => ("Next step", "次のステップ")
  }

  /** The line contains one of the section's names anywhere. */
  predicate Mentions(line: string, s: Section)
  {
    Contains(line, HeadingNames(s).0) || Contains(line, HeadingNames(s).1)
  }

  /** The first section, from position `k` of the fixed order on, that the line mentions. */
  function HeadingFrom(line: string, k: nat): (r: Option<Section>)
    requires k <= |AllSections|
    ensures r.None? <==> forall j :: k <= j < |AllSections| ==> !Mentions(line, AllSections[j])
    ensures r.Some? ==> k <= Position(r.value) && Mentions(line, r.value)
    ensures r.Some? ==> forall j :: k <= j < Position(r.value) ==> !Mentions(line, AllSections[j])
    decreases |AllSections| - k
  {
    if k == |AllSections| then None
    else if Mentions(line, AllSections[k]) then Some(AllSections[k])
    else HeadingFrom(line, k + 1)
  }

  /** The section a heading line opens: the first in the fixed order whose name it contains. */
  function HeadingSection(line: string): Option<Section>
  {
    HeadingFrom(line, 0)
  }

  /** The line is a `## ` heading that opens section `s`. */
  predicate Opens(line: string, s: Section)
  {
    StartsWith(line, "## ") && HeadingSection(line) == Some(s)
  }

  /** The splitter's state: the sections so far, the open section and the lines gathered for it. */
  datatype Scan = Scan(sections: map<Section, string>, current: Option<Section>, content: seq<string>)

  /** Every section present, empty. */
  const Blank: map<Section, string> := map s: Section | s in AllSections :: ""

  const Start: Scan := Scan(Blank, None, [])

  /** The sections with the open one's gathered lines saved, joined and stripped. */
  function Saved(st: Scan): map<Section, string>
  {
    if st.current.Some? then st.sections[st.current.value := Strip(Join("\n", st.content))] else st.sections
  }

  /**
   * One line: a `## ` line saves the open section and opens the section it
   * names, and when it names none it is dropped with the open section left
   * open; any other line is gathered for the open section, or dropped when
   * none is open.
   */
  function ScanLine(st: Scan, line: string): Scan
  {
    if StartsWith(line, "## ") then
      match HeadingSection(line)
      case Some(s) => Scan(Saved(st), Some(s), [])
      case None => Scan(Saved(st), st.current, st.content)
    else if st.current.Some? then st.(content := st.content + [line])
    else st
  }

  /** The sections of a summary given as lines. */
  function SectionsOf(lines: seq<string>): map<Section, string>
  {
    Saved(Fold(ScanLine, Start, lines))
  }

  /** `_parse_summary_sections`: the sections of a summary text. */
  function SummarySections(text: string): map<Section, string>
  {
    SectionsOf(Split(text, '\n'))
  }

  /** Splitting keeps every section present. */
  lemma {:induction false} ScanKeepsKeys(lines: seq<string>)
    ensures forall s: Section :: s in Fold(ScanLine, Start, lines).sections
  {
    AllSectionsListed();
    if lines != [] {
      ScanKeepsKeys(lines[..|lines| - 1]);
    }
  }

  /** Every one of the seven sections is in the result, whatever the text. */
  lemma SectionsComplete(text: string)
    ensures forall s: Section :: s in SummarySections(text)
  {
    ScanKeepsKeys(Split(text, '\n'));
  }

  /** A line that does not open a closed section leaves it closed and unchanged. */
  lemma ClosedStep(st: Scan, line: string, s: Section)
    requires !Opens(line, s) && st.current != Some(s) && s in st.sections
    ensures ScanLine(st, line).current != Some(s)
    ensures s in ScanLine(st, line).sections && ScanLine(st, line).sections[s] == st.sections[s]
  {
  }

  /** Once a section is closed, only a heading that opens it again can change it. */
  lemma {:induction false} ClosedScan(st: Scan, lines: seq<string>, s: Section)
    requires st.current != Some(s) && s in st.sections
    requires forall i :: 0 <= i < |lines| ==> !Opens(lines[i], s)
    ensures Fold(ScanLine, st, lines).current != Some(s)
    ensures s in Fold(ScanLine, st, lines).sections && Fold(ScanLine, st, lines).sections[s] == st.sections[s]
  {
    if lines != [] {
      var init := lines[..|lines| - 1];
      ClosedScan(st, init, s);
      ClosedStep(Fold(ScanLine, st, init), lines[|lines| - 1], s);
    }
  }

  /** A section whose heading never appears comes out as the empty string. */
  lemma UnopenedEmpty(lines: seq<string>, s: Section)
    requires forall i :: 0 <= i < |lines| ==> !Opens(lines[i], s)
    ensures s in SectionsOf(lines) && SectionsOf(lines)[s] == ""
  {
    assert AllSections[Position(s)] == s;
    ClosedScan(Start, lines, s);
  }

  /** Lines before any heading that opens a section leave the splitter where it started. */
  lemma {:induction false} PreambleScan(pre: seq<string>)
    requires forall i :: 0 <= i < |pre| ==> !StartsWith(pre[i], "## ") || HeadingSection(pre[i]).None?
    ensures Fold(ScanLine, Start, pre) == Start
  {
    if pre != [] {
      PreambleScan(pre[..|pre| - 1]);
    }
  }

  /** Text before the first heading that opens a section is dropped. */
  lemma PreambleIgnored(pre: seq<string>, rest: seq<string>)
    requires forall i :: 0 <= i < |pre| ==> !StartsWith(pre[i], "## ") || HeadingSection(pre[i]).None?
    ensures SectionsOf(pre + rest) == SectionsOf(rest)
  {
    FoldAppend(ScanLine, Start, pre, rest);
    PreambleScan(pre);
  }

  /** Lines that are not headings are gathered, in order, for the open section. */
  lemma {:induction false} Gather(m: map<Section, string>, s: Section, c: seq<string>, body: seq<string>)
    requires forall i :: 0 <= i < |body| ==> !StartsWith(body[i], "## ")
    ensures Fold(ScanLine, Scan(m, Some(s), c), body) == Scan(m, Some(s), c + body)
  {
    if body == [] {
      assert c + body == c;
    } else {
      Gather(m, s, c, body[..|body| - 1]);
      AppendLast(c, body);
    }
  }

  /** A heading that opens `s` saves what came before it and leaves `s` open with nothing gathered. */
  lemma HeadingOpens(lines: seq<string>, h: string, s: Section)
    requires Opens(h, s)
    ensures Fold(ScanLine, Start, lines + [h]) == Scan(Saved(Fold(ScanLine, Start, lines)), Some(s), [])
  {
    FoldSnoc(ScanLine, Start, lines, h);
  }

  /** After a heading that opens `s` and the lines below it, `s` is open with those lines gathered. */
  lemma OpenWith(lines: seq<string>, h: string, body: seq<string>, s: Section)
    requires Opens(h, s)
    requires forall i :: 0 <= i < |body| ==> !StartsWith(body[i], "## ")
    ensures Fold(ScanLine, Start, lines + [h] + body) == Scan(Saved(Fold(ScanLine, Start, lines)), Some(s), body)
  {
    HeadingOpens(lines, h, s);
    FoldAppend(ScanLine, Start, lines + [h], body);
    Gather(Saved(Fold(ScanLine, Start, lines)), s, [], body);
    assert [] + body == body;
  }

  /** The last section's text is every line below its heading, joined and stripped. */
  lemma LastSection(lines: seq<string>, h: string, body: seq<string>, s: Section)
    requires Opens(h, s)
    requires forall i :: 0 <= i < |body| ==> !StartsWith(body[i], "## ")
    ensures s in SectionsOf(lines + [h] + body) && SectionsOf(lines + [h] + body)[s] == Strip(Join("\n", body))
  {
    OpenWith(lines, h, body, s);
  }

  /**
   * A section's text is the lines between its heading and the next heading
   * that opens another section, and it is kept unless a later heading
   * opens it again.
   */
  lemma SectionBeforeNext(pre: seq<string>, h: string, body: seq<string>, h2: string, post: seq<string>, s: Section)
    requires Opens(h, s)
    requires forall i :: 0 <= i < |body| ==> !StartsWith(body[i], "## ")
    requires StartsWith(h2, "## ") && HeadingSection(h2).Some? && HeadingSection(h2) != Some(s)
    requires forall i :: 0 <= i < |post| ==> !Opens(post[i], s)
    ensures var r := SectionsOf(pre + [h] + body + [h2] + post);
            s in r && r[s] == Strip(Join("\n", body))
  {
    var lines := pre + [h] + body;
    OpenWith(pre, h, body, s);
    FoldSnoc(ScanLine, Start, lines, h2);
    FoldAppend(ScanLine, Start, lines + [h2], post);
    ClosedScan(Fold(ScanLine, Start, lines + [h2]), post, s);
  }

  /**
   * A `## ` line that names no section neither closes the open section nor
   * enters its text: the lines on both sides of it are gathered together.
   */
  lemma UnknownHeadingSkipped(pre: seq<string>, h: string, a: seq<string>, u: string, b: seq<string>, s: Section)
    requires Opens(h, s)
    requires forall i :: 0 <= i < |a| ==> !StartsWith(a[i], "## ")
    requires StartsWith(u, "## ") && HeadingSection(u).None?
    requires forall i :: 0 <= i < |b| ==> !StartsWith(b[i], "## ")
    ensures var r := SectionsOf(pre + [h] + a + [u] + b);
            s in r && r[s] == Strip(Join("\n", a + b))
  {
    var lines := pre + [h] + a;
    OpenWith(pre, h, a, s);
    FoldSnoc(ScanLine, Start, lines, u);
    FoldAppend(ScanLine, Start, lines + [u], b);
    Gather(Saved(Fold(ScanLine, Start, lines)), s, a, b);
  }

  // ---------------------------------------------------------------------
  // _save_to_db
  // ---------------------------------------------------------------------

  /** The dictionary the summarizer's `process_ticket` returns, as a row writer reads it. */
  function Stored(cs: CaseSummary): SummaryRecord
  {
    SummaryRecord(cs.caseNumber, Some(JString(cs.summaryText)), map[Section.Outcome := JString(cs.outcome)],
                  Some(JObject(cs.metadata)))
  }

  /**
   * `_save_to_db`: the row written under the summary's `AST-` key, and the
   * summary as its holder sees it afterwards. A summary whose `symptoms` and
   * `environment` are both truthy fills the seven section columns; any other
   * is stored in the fallback form, its `summary_text` (the empty string
   * when missing) in the `symptoms` column. Both forms carry the metadata
   * tagged with the source.
   */
  function SaveRow(s: SummaryRecord, source: string): (r: Result<(TableRow, SummaryRecord), StoreError>)
    ensures r.Ok? <==> MetadataOrEmpty(s).JObject?
    ensures r.Ok? ==> (r.value.0.SectionRow? <==> Truthy(Column(s, Symptoms)) && Truthy(Column(s, Environment)))
    ensures r.Ok? ==> (r.value.0.metadata, r.value.1) == WithSource(s, source).value
    ensures r.Ok? && r.value.0.SectionRow? ==> forall sec: Section :: sec in r.value.0.columns && r.value.0.columns[sec] == Column(s, sec)
    ensures r.Ok? && r.value.0.TextRow? ==>
              r.value.0.symptoms == if s.summaryText.Some? then s.summaryText.value else JString("")
  {
    match WithSource(s, source)
    case Err(e) => Err(e)
    case Ok((metadata, updated)) =>
      if Truthy(Column(s, Symptoms)) && Truthy(Column(s, Environment)) then
        Ok((SectionRow(SectionColumns(s), metadata), updated))
      else
        Ok((TextRow(if s.summaryText.Some? then s.summaryText.value else JString(""), metadata), updated))
  }

  /**
   * A summarizer summary names no section but `outcome`, so it is stored in
   * the fallback form; its metadata already names `asteria` as the source,
   * so the tagging leaves the summary as it was.
   */
  lemma SummaryStoredAsText(cs: CaseSummary)
    requires "source" in cs.metadata && cs.metadata["source"] == JString("asteria")
    ensures SaveRow(Stored(cs), "asteria") == Ok((TextRow(JString(cs.summaryText), JObject(cs.metadata)), Stored(cs)))
  {
    WithSourceAlreadyTagged(Stored(cs), "asteria");
  }

  /**
   * Every summary `process_ticket` returns is for the ticket asked for,
   * takes the fallback form and comes back unchanged from the save.
   */
  lemma TicketSummaryStored(document: Document, strptime: Strptime, withSalesforce: bool, ticketId: string,
                            createdAt: string)
    ensures match TicketSummary(document, strptime, withSalesforce, ticketId, createdAt)
            case Ok(Some(cs)) =>
              && cs.caseNumber == ticketId
              && SaveRow(Stored(cs), "asteria") == Ok((TextRow(JString(cs.summaryText), JObject(cs.metadata)), Stored(cs)))
            case _ => true
  {
    match TicketSummary(document, strptime, withSalesforce, ticketId, createdAt)
    case Ok(Some(cs)) =>
      TicketSummaryCases(document, strptime, withSalesforce, ticketId, createdAt);
      var ticket := FindById(ParseDocument(document, strptime).value, ticketId).value;
      SummarizeFields(ticket, strptime, withSalesforce, createdAt);
      SummaryStoredAsText(cs);
    case _ =>
  }

  // ---------------------------------------------------------------------
  // process_all
  // ---------------------------------------------------------------------

  /** The results dictionary of a run, with the table as the run leaves it. */
  datatype Progress = Progress(
    rows: map<string, TableRow>,
    total: nat,
    success: nat,
    failed: nat,
    skipped: nat,
    summaries: seq<CaseSummary>)

  /** The results before the first ticket, over the table as it stood. */
  function Begin(rows: map<string, TableRow>, total: nat): Progress
  {
    Progress(rows, total, 0, 0, 0, [])
  }

  /**
   * One ticket: skipped when its `AST-` key is already stored; otherwise a
   * summary is a success, saved first unless the run is dry (its metadata is
   * an object, so the save cannot raise); no summary or an exception while
   * summarizing is a failure.
   */
  function Visit(p: Progress, ticketId: string, attempt: Attempt, dryRun: bool): Progress
  {
    if AsteriaKey(ticketId) in p.rows then p.(skipped := p.skipped + 1)
    else if !Succeeded(attempt) then p.(failed := p.failed + 1)
    else
      var cs := attempt.value.value;
      if dryRun then p.(success := p.success + 1, summaries := p.summaries + [cs])
      else
        var row := SaveRow(Stored(cs), "asteria").value.0;
        p.(rows := p.rows[AsteriaKey(cs.caseNumber) := row], success := p.success + 1, summaries := p.summaries + [cs])
  }

  /** The tickets visited in order, each with what processing it gave. */
  function VisitAll(p: Progress, tickets: seq<Ticket>, attempts: seq<Attempt>, dryRun: bool): Progress
    requires |tickets| == |attempts|
  {
    if tickets == [] then p
    else
      var n := |tickets| - 1;
      Visit(VisitAll(p, tickets[..n], attempts[..n], dryRun), tickets[n].ticketId, attempts[n], dryRun)
  }

  lemma VisitAllStep(p: Progress, tickets: seq<Ticket>, attempts: seq<Attempt>, dryRun: bool, i: nat)
    requires |tickets| == |attempts| && i < |tickets|
    ensures VisitAll(p, tickets[..i + 1], attempts[..i + 1], dryRun)
            == Visit(VisitAll(p, tickets[..i], attempts[..i], dryRun), tickets[i].ticketId, attempts[i], dryRun)
  {
    assert tickets[..i + 1][..i] == tickets[..i];
    assert attempts[..i + 1][..i] == attempts[..i];
  }

  /**
   * Every ticket is counted exactly once, as a success, a failure or a skip,
   * the total is left alone, and each success adds one summary.
   */
  lemma {:induction false} VisitAllCounts(p: Progress, tickets: seq<Ticket>, attempts: seq<Attempt>, dryRun: bool)
    requires |tickets| == |attempts|
    ensures var r := VisitAll(p, tickets, attempts, dryRun);
            && r.total == p.total
            && r.success + r.failed + r.skipped == p.success + p.failed + p.skipped + |tickets|
            && r.success >= p.success
            && |r.summaries| - |p.summaries| == r.success - p.success
  {
    if tickets != [] {
      var n := |tickets| - 1;
      VisitAllCounts(p, tickets[..n], attempts[..n], dryRun);
    }
  }

  /** The `AST-` keys of the summaries gathered. */
  function SummaryKeys(summaries: seq<CaseSummary>): set<string>
  {
    if summaries == [] then {}
    else SummaryKeys(summaries[..|summaries| - 1]) + {AsteriaKey(summaries[|summaries| - 1].caseNumber)}
  }

  /** The rows of `q` extend `base` by the keys of the summaries `q` gathered, or by none in a dry run. */
  predicate RowsExtend(q: Progress, base: map<string, TableRow>, dryRun: bool)
  {
    && (forall k :: k in base ==> k in q.rows && q.rows[k] == base[k])
    && q.rows.Keys == base.Keys + (if dryRun then {} else SummaryKeys(q.summaries))
  }

  /** Each summary is for the ticket it was asked for. */
  predicate SameCase(ticketId: string, attempt: Attempt)
  {
    Succeeded(attempt) ==> attempt.value.value.caseNumber == ticketId
  }

  /** Saving a summary under a key not yet stored extends the rows by its key. */
  lemma AddRow(q: Progress, base: map<string, TableRow>, cs: CaseSummary, row: TableRow)
    requires RowsExtend(q, base, false) && AsteriaKey(cs.caseNumber) !in q.rows
    ensures RowsExtend(q.(rows := q.rows[AsteriaKey(cs.caseNumber) := row], summaries := q.summaries + [cs]), base, false)
  {
    assert (q.summaries + [cs])[..|q.summaries|] == q.summaries;
  }

  lemma VisitRows(q: Progress, ticketId: string, attempt: Attempt, dryRun: bool, base: map<string, TableRow>)
    requires RowsExtend(q, base, dryRun) && SameCase(ticketId, attempt)
    ensures RowsExtend(Visit(q, ticketId, attempt, dryRun), base, dryRun)
  {
    if AsteriaKey(ticketId) !in q.rows && Succeeded(attempt) && !dryRun {
      var cs := attempt.value.value;
      AddRow(q, base, cs, SaveRow(Stored(cs), "asteria").value.0);
    }
  }

  /**
   * A row already stored is never overwritten, and the rows a run adds are
   * exactly those of the summaries it gathered: none in a dry run.
   */
  lemma {:induction false} VisitAllRows(p: Progress, tickets: seq<Ticket>, attempts: seq<Attempt>, dryRun: bool)
    requires |tickets| == |attempts| && p.summaries == []
    requires forall i :: 0 <= i < |tickets| ==> SameCase(tickets[i].ticketId, attempts[i])
    ensures var r := VisitAll(p, tickets, attempts, dryRun);
            && (forall k :: k in p.rows ==> k in r.rows && r.rows[k] == p.rows[k])
            && r.rows.Keys == p.rows.Keys + (if dryRun then {} else SummaryKeys(r.summaries))
  {
    if tickets != [] {
      var n := |tickets| - 1;
      VisitAllRows(p, tickets[..n], attempts[..n], dryRun);
      VisitRows(VisitAll(p, tickets[..n], attempts[..n], dryRun), tickets[n].ticketId, attempts[n], dryRun, p.rows);
    }
  }

  /** Whether a ticket's `AST-` key is stored. */
  function StoredIn(rows: map<string, TableRow>): Ticket -> bool
  {
    (t: Ticket) => AsteriaKey(t.ticketId) in rows
  }

  /** A dry run leaves the table as it was and skips exactly the tickets already stored. */
  lemma {:induction false} DryRun(p: Progress, tickets: seq<Ticket>, attempts: seq<Attempt>)
    requires |tickets| == |attempts|
    ensures var r := VisitAll(p, tickets, attempts, true);
            r.rows == p.rows && r.skipped == p.skipped + Count(tickets, StoredIn(p.rows))
  {
    if tickets != [] {
      var n := |tickets| - 1;
      DryRun(p, tickets[..n], attempts[..n]);
    }
  }

  /** `process_all`: a parse error propagates; otherwise the visit of the tickets left after the limit. */
  function BatchRun(document: Document, strptime: Strptime, withSalesforce: bool, rows: map<string, TableRow>,
                    limit: Option<int>, dryRun: bool, createdAt: string): Result<Progress, ParseError>
  {
    match ParseDocument(document, strptime)
    case Err(e) => Err(e)
    case Ok(all) =>
      var tickets := Limited(all, limit);
      Ok(VisitAll(Begin(rows, |tickets|), tickets, Attempts(document, strptime, withSalesforce, tickets, createdAt),
                  dryRun))
  }

  /** The summaries of a run are for the tickets they were asked for. */
  lemma AttemptsSameCase(document: Document, strptime: Strptime, withSalesforce: bool, tickets: seq<Ticket>,
                         createdAt: string)
    ensures var attempts := Attempts(document, strptime, withSalesforce, tickets, createdAt);
            forall i :: 0 <= i < |tickets| ==> SameCase(tickets[i].ticketId, attempts[i])
  {
    forall i | 0 <= i < |tickets|
      ensures SameCase(tickets[i].ticketId, Attempts(document, strptime, withSalesforce, tickets, createdAt)[i])
    {
      TicketSummaryStored(document, strptime, withSalesforce, tickets[i].ticketId, createdAt);
    }
  }

  /**
   * After a run every ticket left after the limit is counted once as a
   * success, a failure or a skip; no stored row is overwritten; the rows
   * added are those of the summaries gathered; and a dry run writes nothing
   * and skips exactly the tickets already stored.
   */
  lemma BatchRunResults(document: Document, strptime: Strptime, withSalesforce: bool, rows: map<string, TableRow>,
                        limit: Option<int>, dryRun: bool, createdAt: string)
    ensures BatchRun(document, strptime, withSalesforce, rows, limit, dryRun, createdAt).Err?
            <==> ParseDocument(document, strptime).Err?
    ensures match BatchRun(document, strptime, withSalesforce, rows, limit, dryRun, createdAt)
            case Ok(r) =>
              var tickets := Limited(ParseDocument(document, strptime).value, limit);
              && r.total == |tickets|
              && r.success + r.failed + r.skipped == r.total
              && |r.summaries| == r.success
              && (forall k :: k in rows ==> k in r.rows && r.rows[k] == rows[k])
              && r.rows.Keys == rows.Keys + (if dryRun then {} else SummaryKeys(r.summaries))
              && (dryRun ==> r.rows == rows && r.skipped == Count(tickets, StoredIn(rows)))
            case Err(_) => true
  {
    if ParseDocument(document, strptime).Ok? {
      var tickets := Limited(ParseDocument(document, strptime).value, limit);
      var attempts := Attempts(document, strptime, withSalesforce, tickets, createdAt);
      var start := Begin(rows, |tickets|);
      VisitAllCounts(start, tickets, attempts, dryRun);
      AttemptsSameCase(document, strptime, withSalesforce, tickets, createdAt);
      VisitAllRows(start, tickets, attempts, dryRun);
      if dryRun {
        DryRun(start, tickets, attempts);
      }
    }
  }

  class AsteriaBatchProcessor {
    const parser: AsteriaHtmlParser
    const summarizer: AsteriaSummarizer
    /** The `summaries` table, by case number. */
    var rows: map<string, TableRow>

    /** Both parsers keep their caches consistent with the same export, and are distinct objects. */
    ghost predicate Valid()
      reads this, parser, summarizer, summarizer.parser
    {
      && parser.Valid()
      && summarizer.Valid()
      && parser != summarizer.parser
      && summarizer.parser.document == parser.document
      && summarizer.parser.strptime == parser.strptime
    }

    /** A processor over one export, with its own parser and a summarizer over the same export. */
    constructor (document: Document, strptime: Strptime, withSalesforce: bool, rows: map<string, TableRow>)
      ensures Valid() && fresh(parser) && fresh(summarizer) && fresh(summarizer.parser)
      ensures parser.document == document && parser.strptime == strptime
      ensures summarizer.withSalesforce == withSalesforce && this.rows == rows
    {
      parser := new AsteriaHtmlParser(document, strptime);
      summarizer := new AsteriaSummarizer(document, strptime, withSalesforce);
      this.rows := rows;
    }

    /** `_exists_in_db`: whether the ticket's `AST-` key is stored. */
    method ExistsInDb(ticketId: string) returns (found: bool)
      ensures found <==> AsteriaKey(ticketId) in rows
    {
      found := AsteriaKey(ticketId) in rows;
    }

    /** `_save_to_db`: writes the row under the summary's `AST-` key, replacing any row there. */
    method SaveToDb(summary: SummaryRecord, source: string) returns (r: Result<SummaryRecord, StoreError>)
      modifies this`rows
      ensures r.Ok? <==> SaveRow(summary, source).Ok?
      ensures r.Ok? ==> r.value == SaveRow(summary, source).value.1
      ensures rows == if r.Ok? then old(rows)[AsteriaKey(summary.caseNumber) := SaveRow(summary, source).value.0]
                      else old(rows)
    {
      var caseNumber := AsteriaKey(summary.caseNumber);
      var metadata := if summary.metadata.Some? then summary.metadata.value else JObject(map[]);
      if !metadata.JObject? {
        return Err(MetadataNotObject);
      }
      metadata := JObject(metadata.fields["source" := JString(source)]);
      var updated := if summary.metadata.Some? then summary.(metadata := Some(metadata)) else summary;
      if Truthy(Column(summary, Symptoms)) && Truthy(Column(summary, Environment)) {
        rows := rows[caseNumber := SectionRow(SectionColumns(summary), metadata)];
      } else {
        var summaryText := if summary.summaryText.Some? then summary.summaryText.value else JString("");
        rows := rows[caseNumber := TextRow(summaryText, metadata)];
      }
      return Ok(updated);
    }

    /** `process_all`: parses the export, applies the limit and visits every ticket left. */
    method ProcessAll(limit: Option<int>, dryRun: bool, createdAt: string) returns (r: Result<Progress, ParseError>)
      requires Valid()
      modifies this`rows, parser`tickets, summarizer.parser`tickets
      ensures Valid()
      ensures r == BatchRun(parser.document, parser.strptime, summarizer.withSalesforce, old(rows), limit, dryRun,
                            createdAt)
      ensures rows == if r.Ok? then r.value.rows else old(rows)
    {
      var all := parser.ParseAllTickets();
      if all.Err? {
        return Err(all.error);
      }
      var tickets := all.value;
      if limit.Some? && limit.value != 0 {
        tickets := tickets[..SliceStop(|tickets|, limit.value)];
      }
      var results := ProcessTickets(tickets, dryRun, createdAt);
      return Ok(results);
    }

    /** The loop of `process_all`, updating the results dictionary ticket by ticket. */
    method ProcessTickets(tickets: seq<Ticket>, dryRun: bool, createdAt: string) returns (results: Progress)
      requires Valid()
      modifies this`rows, summarizer.parser`tickets
      ensures Valid()
      ensures results == VisitAll(Begin(old(rows), |tickets|), tickets,
                                  Attempts(parser.document, parser.strptime, summarizer.withSalesforce, tickets,
                                           createdAt),
                                  dryRun)
      ensures rows == results.rows
    {
      ghost var attempts := Attempts(parser.document, parser.strptime, summarizer.withSalesforce, tickets, createdAt);
      results := Begin(rows, |tickets|);
      ghost var start := results;
      for i := 0 to |tickets|
        invariant Valid() && rows == results.rows
        invariant VisitAll(start, tickets[..i], attempts[..i], dryRun) == results
      {
        VisitAllStep(start, tickets, attempts, dryRun, i);
        results := ProcessOne(results, tickets[i].ticketId, dryRun, createdAt);
      }
      assert tickets[..|tickets|] == tickets && attempts[..|tickets|] == attempts;
    }

    /** One ticket of `process_all`: skipped, or summarized and counted. */
    method ProcessOne(results: Progress, ticketId: string, dryRun: bool, createdAt: string) returns (next: Progress)
      requires Valid() && rows == results.rows
      modifies this`rows, summarizer.parser`tickets
      ensures Valid() && rows == next.rows
      ensures next == Visit(results, ticketId,
                            TicketSummary(parser.document, parser.strptime, summarizer.withSalesforce, ticketId,
                                          createdAt),
                            dryRun)
    {
      var stored := ExistsInDb(ticketId);
      if stored {
        return results.(skipped := results.skipped + 1);
      }
      var summary := summarizer.ProcessTicket(ticketId, createdAt);
      next := Record(results, ticketId, summary, dryRun);
    }

    /** What `process_all` does with the summarizer's answer for a ticket not stored yet. */
    method Record(results: Progress, ticketId: string, summary: Attempt, dryRun: bool) returns (next: Progress)
      requires rows == results.rows && AsteriaKey(ticketId) !in rows
      modifies this`rows
      ensures rows == next.rows && next == Visit(results, ticketId, summary, dryRun)
    {
      if !(summary.Ok? && summary.value.Some?) {
        return results.(failed := results.failed + 1);
      }
      var cs := summary.value.value;
      if !dryRun {
        var _ := SaveToDb(Stored(cs), "asteria");
      }
      return results.(rows := rows, success := results.success + 1, summaries := results.summaries + [cs]);
    }

    /** The heading search of `_parse_summary_sections`: the first section the line names, in the fixed order. */
    method FindHeading(line: string) returns (found: Option<Section>)
      ensures found == HeadingSection(line)
    {
      found := None;
      var k := 0;
      while k < |AllSections|
        invariant k <= |AllSections| && HeadingFrom(line, k) == HeadingSection(line)
      {
        var names := HeadingNames(AllSections[k]);
        if Contains(line, names.0) || Contains(line, names.1) {
          found := Some(AllSections[k]);
          break;
        }
        k := k + 1;
      }
    }

    /** `_parse_summary_sections`: cuts a summary text into its seven sections. */
    method ParseSummarySections(summaryText: string) returns (sections: map<Section, string>)
      ensures sections == SummarySections(summaryText)
    {
      sections := Blank;
      var lines := Split(summaryText, '\n');
      var current: Option<Section> := None;
      var content: seq<string> := [];
      for i := 0 to |lines|
        invariant Scan(sections, current, content) == Fold(ScanLine, Start, lines[..i])
      {
        var line := lines[i];
        FoldStep(ScanLine, Start, lines, i);
        if StartsWith(line, "## ") {
          if current.Some? {
            sections := sections[current.value := Strip(Join("\n", content))];
          }
          var found := FindHeading(line);
          if found.Some? {
            current := found;
            content := [];
          }
        } else if current.Some? {
          content := content + [line];
        }
      }
      assert lines[..|lines|] == lines;
      if current.Some? {
        sections := sections[current.value := Strip(Join("\n", content))];
      }
    }
  }
}
