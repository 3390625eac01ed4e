/**
 * The re-processing script (batch_reprocess.py): every ticket of an export
 * is summarized again by the model client and written to the `summaries`
 * table in the seven-column form under its `AST-` key, replacing any row
 * there. The client keeps its rate-limit state from one ticket to the next,
 * so the run threads the client's session through the tickets; what the
 * service, the clock and the random jitter do for a ticket comes in as an
 * `Env`.
 */
module BatchReprocess {
  import opened Wrappers
  import opened Text
  import opened Seqs
  import opened Json
  import opened Sections
  import opened Timestamps
  import opened HtmlParser
  import opened AsteriaFetcher
  import opened LlmSummarizer
  import opened SummaryStore
  import AsteriaSummarizer

  // ---------------------------------------------------------------------
  // _merge_emails
  // ---------------------------------------------------------------------

  /** A message's header line: its direction tag and minute, without the sender. */
  function MessageHeader(e: EmailMessage): string
  {
    AsteriaSummarizer.DirectionTag(e.isIncoming) + " " + MinuteText(e.messageDate)
  }

  /** The three lines a message contributes: header, body, blank. */
  function MessageLines(e: EmailMessage): seq<string>
  {
    [MessageHeader(e), e.textBody, ""]
  }

  /** The lines of the thread handed to the model, message after message. */
  function ThreadLines(emails: seq<EmailMessage>): seq<string>
  {
    FlatMap(emails, MessageLines)
  }

  /** Each message takes three lines, in order: its header, its body and a blank line. */
  lemma ThreadLayout(emails: seq<EmailMessage>)
    ensures |ThreadLines(emails)| == 3 * |emails|
    ensures forall k :: 0 <= k < |emails| ==>
              && ThreadLines(emails)[3 * k] == MessageHeader(emails[k])
              && ThreadLines(emails)[3 * k + 1] == emails[k].textBody
              && ThreadLines(emails)[3 * k + 2] == ""
  {
    FlatMapTriples(emails, MessageLines);
    var lines := ThreadLines(emails);
    forall k | 0 <= k < |emails|
      ensures lines[3 * k] == MessageHeader(emails[k]) && lines[3 * k + 1] == emails[k].textBody
      ensures lines[3 * k + 2] == ""
    {
      var m := MessageLines(emails[k]);
      assert lines[3 * k] == m[0] && lines[3 * k + 1] == m[1] && lines[3 * k + 2] == m[2];
    }
  }

  /** The summarizer's header of a message is this header followed by the sender. */
  lemma HeaderWithoutSender(e: EmailMessage)
    ensures AsteriaSummarizer.MessageHeader(e) == MessageHeader(e) + " " + e.fromAddress
  {
  }

  /** `_merge_emails` */
  method MergeEmails(emails: seq<EmailMessage>) returns (text: string)
    ensures text == Join("\n", ThreadLines(emails))
  {
    var parts: seq<string> := [];
    for i := 0 to |emails|
      invariant parts == FlatMap(emails[..i], MessageLines)
    {
      var e := emails[i];
      ghost var before := parts;
      var direction := AsteriaSummarizer.DirectionTag(e.isIncoming);
      var timestamp := MinuteText(e.messageDate);
      var header := direction + " " + timestamp;
      parts := parts + [header];
      parts := parts + [e.textBody];
      parts := parts + [""];
      AppendThree(before, header, e.textBody, "");
      FlatMapStep(emails, i, MessageLines);
    }
    assert emails[..|emails|] == emails;
    text := Join("\n", parts);
  }

  // ---------------------------------------------------------------------
  // process_ticket
  // ---------------------------------------------------------------------

  /** The dictionary `process_ticket` returns. */
  datatype Reprocessed = Reprocessed(
    caseNumber: string,
    summaryText: string,
    sections: map<Section, Json>,
    metadata: Json,
    emailCount: nat,
    dateRange: string,
    createdAt: string)

  /** `parsed.get(key)` for a section: its text, or `None` when the reply had no such section. */
  function SectionValue(p: Summary, s: Section): Json
  {
    if s in p.sections then JString(p.sections[s]) else JNull
  }

  /** All seven section entries of the dictionary. */
  function SectionValues(p: Summary): (r: map<Section, Json>)
    ensures forall s: Section :: s in r && r[s] == SectionValue(p, s)
  {
    AllSectionsListed();
    map s: Section | s in AllSections :: SectionValue(p, s)
  }

  /** The dictionary for a ticket, its messages and the model's reply. */
  function Record(ticket: Ticket, emails: seq<EmailMessage>, reply: Reply, createdAt: string): Reprocessed
    requires emails != []
  {
    Reprocessed(ticket.ticketId, Join("\n", SummaryLines(reply.parsed)), SectionValues(reply.parsed),
                reply.parsed.metadata, |emails|, AsteriaSummarizer.DateRange(emails), createdAt)
  }

  /** An exception `process_ticket` lets through. */
  datatype Failure = ParseFailed(parseError: ParseError) | ModelFailed(message: string)

  type Outcome = Result<Option<Reprocessed>, Failure>

  /** What the outside world does for one ticket: the model service and the clock. */
  datatype Env = Env(world: World, createdAt: string)

  /** The timeline of a ticket and the messages merged from it. */
  function TicketEmails(ticket: Ticket, strptime: Strptime): seq<EmailMessage>
  {
    Emails(ticket, Timeline(BoldSites(ticket.tree), strptime))
  }

  /** `process_ticket` once the ticket is found: none without messages, otherwise the model is asked. */
  function ReprocessFound(ticket: Ticket, strptime: Strptime, decode: Decoder, env: Env, st: Session): (Outcome, Session)
    requires Complete(env.world)
  {
    var emails := TicketEmails(ticket, strptime);
    if emails == [] then (Ok(None), st)
    else
      var (r, next) := Generate(env.world, decode, ticket.ticketId, DefaultInterval, st);
      match r
      case Err(e) => (Err(ModelFailed(e)), next)
      case Ok(reply) => (Ok(Some(Record(ticket, emails, reply, env.createdAt))), next)
  }

  /**
   * `process_ticket`: a parse error propagates and a missing ticket gives no
   * summary, both leaving the client alone; a found ticket is re-processed.
   */
  function ReprocessTicket(document: Document, strptime: Strptime, decode: Decoder, ticketId: string, env: Env,
                           st: Session): (Outcome, Session)
    requires Complete(env.world)
  {
    match ParseDocument(document, strptime)
    case Err(e) => (Err(ParseFailed(e)), st)
    case Ok(tickets) =>
      match FindById(tickets, ticketId)
      case None => (Ok(None), st)
      case Some(ticket) => ReprocessFound(ticket, strptime, decode, env, st)
  }

  /** A found ticket is the one asked for; a parse error or a missing ticket leaves the client alone. */
  lemma ReprocessTicketCases(document: Document, strptime: Strptime, decode: Decoder, ticketId: string, env: Env,
                             st: Session)
    requires Complete(env.world)
    ensures ParseDocument(document, strptime).Err? ==>
              ReprocessTicket(document, strptime, decode, ticketId, env, st)
              == (Err(ParseFailed(ParseDocument(document, strptime).error)), st)
    ensures ParseDocument(document, strptime).Ok? && FindById(ParseDocument(document, strptime).value, ticketId).None?
            ==> ReprocessTicket(document, strptime, decode, ticketId, env, st) == (Ok(None), st)
    ensures ParseDocument(document, strptime).Ok? && FindById(ParseDocument(document, strptime).value, ticketId).Some?
            ==> var ticket := FindById(ParseDocument(document, strptime).value, ticketId).value;
                ticket.ticketId == ticketId
                && ReprocessTicket(document, strptime, decode, ticketId, env, st)
                   == ReprocessFound(ticket, strptime, decode, env, st)
  {
  }

  /**
   * A summary is for the ticket, counts its messages, spans their dates,
   * renders the parsed reply and gives every section its parsed text or
   * `None`; a ticket without messages leaves the client alone.
   */
  lemma ReprocessFoundFields(ticket: Ticket, strptime: Strptime, decode: Decoder, env: Env, st: Session)
    requires Complete(env.world)
    ensures var (r, next) := ReprocessFound(ticket, strptime, decode, env, st);
            var emails := TicketEmails(ticket, strptime);
            && (r == Ok(None) <==> emails == [])
            && (r == Ok(None) ==> next == st)
            && (r.Err? ==> Generate(env.world, decode, ticket.ticketId, DefaultInterval, st).0.Err?)
            && (r.Ok? && r.value.Some? ==>
                  var s := r.value.value;
                  var reply := Generate(env.world, decode, ticket.ticketId, DefaultInterval, st).0.value;
                  && s.caseNumber == ticket.ticketId
                  && s.emailCount == |emails| >= 1
                  && s.dateRange == AsteriaSummarizer.DateRange(emails)
                  && s.summaryText == Join("\n", SummaryLines(reply.parsed))
                  && (forall sec: Section :: sec in s.sections && s.sections[sec] == SectionValue(reply.parsed, sec))
                  && s.metadata == reply.parsed.metadata)
  {
  }

  // ---------------------------------------------------------------------
  // save_to_db
  // ---------------------------------------------------------------------

  /** The dictionary as a row writer reads it. */
  function AsRecord(s: Reprocessed): SummaryRecord
  {
    SummaryRecord(s.caseNumber, Some(JString(s.summaryText)), s.sections, Some(s.metadata))
  }

  /**
   * `save_to_db`: always the seven-column form, with the metadata tagged
   * `asteria`; a metadata value that is not an object makes the tagging raise.
   */
  function SaveSections(s: SummaryRecord): (r: Result<TableRow, StoreError>)
    ensures r.Ok? <==> MetadataOrEmpty(s).JObject?
    ensures r.Ok? ==> r.value.SectionRow? && forall sec: Section :: sec in r.value.columns && r.value.columns[sec] == Column(s, sec)
    ensures r.Ok? ==> r.value.metadata.JObject? && "source" in r.value.metadata.fields
    ensures r.Ok? ==> r.value.metadata.fields["source"] == JString("asteria")
  {
    match WithSource(s, "asteria")
    case Err(e) => Err(e)
    case Ok((metadata, _)) => Ok(SectionRow(SectionColumns(s), metadata))
  }

  /**
   * The row of a re-processed ticket holds each section the reply had in
   * its column and `None` in the others; it can be written exactly when the
   * reply's metadata is an object.
   */
  lemma ReplySaved(ticket: Ticket, emails: seq<EmailMessage>, reply: Reply, createdAt: string)
    requires emails != []
    ensures var row := SaveSections(AsRecord(Record(ticket, emails, reply, createdAt)));
            && (row.Ok? <==> reply.parsed.metadata.JObject?)
            && (row.Ok? ==> forall sec: Section :: row.value.columns[sec] == SectionValue(reply.parsed, sec))
  {
    var s := AsRecord(Record(ticket, emails, reply, createdAt));
    assert forall sec: Section :: Column(s, sec) == SectionValue(reply.parsed, sec);
  }

  // ---------------------------------------------------------------------
  // process_all
  // ---------------------------------------------------------------------

  /** The results dictionary of a run, with the table and the client's session as the run leaves them. */
  datatype Run = Run(rows: map<string, TableRow>, session: Session, total: nat, success: nat, failed: nat)

  /** Before the first ticket. */
  function Begin(rows: map<string, TableRow>, session: Session, total: nat): Run
  {
    Run(rows, session, total, 0, 0)
  }

  /**
   * What one ticket's outcome does to the run: a summary is saved and
   * counted a success; no summary, an exception while summarizing or a
   * save that raises is a failure.
   */
  function Settled(run: Run, outcome: Outcome, session: Session): Run
  {
    var next := run.(session := session);
    match outcome
    case Ok(Some(s)) =>
      (match SaveSections(AsRecord(s))
       case Ok(row) => next.(rows := next.rows[AsteriaKey(s.caseNumber) := row], success := next.success + 1)
       case Err(_) => next.(failed := next.failed + 1))
    case _ => next.(failed := next.failed + 1)
  }

  /** Every ticket of the run has a complete world. */
  predicate Provided(tickets: seq<Ticket>, envs: nat -> Env)
  {
    forall i :: 0 <= i < |tickets| ==> Complete(envs(i).world)
  }

  /** The tickets processed in order, the `i`-th in the world `envs(i)`. */
  function StepAll(run: Run, document: Document, strptime: Strptime, decode: Decoder, tickets: seq<Ticket>,
                   envs: nat -> Env): Run
    requires Provided(tickets, envs)
  {
    if tickets == [] then run
    else
      var n := |tickets| - 1;
      var before := StepAll(run, document, strptime, decode, tickets[..n], envs);
      var (outcome, session) := ReprocessTicket(document, strptime, decode, tickets[n].ticketId, envs(n), before.session);
      Settled(before, outcome, session)
  }

  lemma StepAllStep(run: Run, document: Document, strptime: Strptime, decode: Decoder, tickets: seq<Ticket>,
                    envs: nat -> Env, i: nat)
    requires Provided(tickets, envs) && i < |tickets|
    ensures var before := StepAll(run, document, strptime, decode, tickets[..i], envs);
            var (outcome, session) := ReprocessTicket(document, strptime, decode, tickets[i].ticketId, envs(i),
                                                      before.session);
            StepAll(run, document, strptime, decode, tickets[..i + 1], envs) == Settled(before, outcome, session)
  {
    assert tickets[..i + 1][..i] == tickets[..i];
  }

  /** Every ticket is counted exactly once, as a success or a failure, and the total is left alone. */
  lemma {:induction false} StepAllCounts(run: Run, document: Document, strptime: Strptime, decode: Decoder,
                                         tickets: seq<Ticket>, envs: nat -> Env)
    requires Provided(tickets, envs)
    ensures var r := StepAll(run, document, strptime, decode, tickets, envs);
            r.total == run.total && r.success + r.failed == run.success + run.failed + |tickets|
  {
    if tickets != [] {
      StepAllCounts(run, document, strptime, decode, tickets[..|tickets| - 1], envs);
    }
  }

  /** A row the script writes: the seven-column form, its metadata naming `asteria` as the source. */
  predicate Written(row: TableRow)
  {
    row.SectionRow? && row.metadata.JObject? && "source" in row.metadata.fields
    && row.metadata.fields["source"] == JString("asteria")
  }

  /** The rows outside `keys` are those of `base`, and every row that is not as in `base` is under a key of `keys` and was written by the script. */
  predicate RowsFrom(rows: map<string, TableRow>, base: map<string, TableRow>, keys: set<string>)
  {
    && (forall k :: k in base && k !in keys ==> k in rows && rows[k] == base[k])
    && (forall k :: k in rows ==> (k in base && rows[k] == base[k]) || (k in keys && Written(rows[k])))
  }

  /** Settling an outcome for ticket `ticketId` writes at most its own row. */
  lemma SettledRows(run: Run, outcome: Outcome, session: Session, ticketId: string, base: map<string, TableRow>,
                    keys: set<string>)
    requires RowsFrom(run.rows, base, keys) && AsteriaKey(ticketId) in keys
    requires outcome.Ok? && outcome.value.Some? ==> outcome.value.value.caseNumber == ticketId
    ensures RowsFrom(Settled(run, outcome, session).rows, base, keys)
  {
  }

  /** A summary from `process_ticket` is for the ticket asked for. */
  lemma ReprocessTicketCase(document: Document, strptime: Strptime, decode: Decoder, ticketId: string, env: Env,
                            st: Session)
    requires Complete(env.world)
    ensures var r := ReprocessTicket(document, strptime, decode, ticketId, env, st).0;
            r.Ok? && r.value.Some? ==> r.value.value.caseNumber == ticketId
  {
    ReprocessTicketCases(document, strptime, decode, ticketId, env, st);
    if ParseDocument(document, strptime).Ok? && FindById(ParseDocument(document, strptime).value, ticketId).Some? {
      var ticket := FindById(ParseDocument(document, strptime).value, ticketId).value;
      ReprocessFoundFields(ticket, strptime, decode, env, st);
    }
  }

  /** The `AST-` keys of the tickets. */
  function TicketKeys(tickets: seq<Ticket>): set<string>
  {
    set i | 0 <= i < |tickets| :: AsteriaKey(tickets[i].ticketId)
  }

  /** A run writes only the rows of its own tickets, always in the seven-column form tagged `asteria`. */
  lemma {:induction false} StepAllRows(run: Run, document: Document, strptime: Strptime, decode: Decoder,
                                       tickets: seq<Ticket>, envs: nat -> Env, keys: set<string>)
    requires Provided(tickets, envs) && RowsFrom(run.rows, run.rows, keys)
    requires forall i :: 0 <= i < |tickets| ==> AsteriaKey(tickets[i].ticketId) in keys
    ensures RowsFrom(StepAll(run, document, strptime, decode, tickets, envs).rows, run.rows, keys)
  {
    if tickets != [] {
      var n := |tickets| - 1;
      StepAllRows(run, document, strptime, decode, tickets[..n], envs, keys);
      var before := StepAll(run, document, strptime, decode, tickets[..n], envs);
      var (outcome, session) := ReprocessTicket(document, strptime, decode, tickets[n].ticketId, envs(n), before.session);
      ReprocessTicketCase(document, strptime, decode, tickets[n].ticketId, envs(n), before.session);
      SettledRows(before, outcome, session, tickets[n].ticketId, run.rows, keys);
    }
  }

  /** `process_all`: a parse error propagates; otherwise the tickets left after the limit, in order. */
  function ReprocessRun(document: Document, strptime: Strptime, decode: Decoder, rows: map<string, TableRow>,
                        session: Session, limit: Option<int>, envs: nat -> Env): Result<Run, ParseError>
    requires forall i :: Complete(envs(i).world)
  {
    match ParseDocument(document, strptime)
    case Err(e) => Err(e)
    case Ok(all) =>
      var tickets := AsteriaSummarizer.Limited(all, limit);
      Ok(StepAll(Begin(rows, session, |tickets|), document, strptime, decode, tickets, envs))
  }

  /**
   * After a run every ticket left after the limit is counted once, as a
   * success or a failure; the rows of other cases are left as they were,
   * and every row the run changed is a seven-column row tagged `asteria`
   * under the `AST-` key of one of its tickets.
   */
  lemma ReprocessRunResults(document: Document, strptime: Strptime, decode: Decoder, rows: map<string, TableRow>,
                            session: Session, limit: Option<int>, envs: nat -> Env)
    requires forall i :: Complete(envs(i).world)
    ensures ReprocessRun(document, strptime, decode, rows, session, limit, envs).Err?
            <==> ParseDocument(document, strptime).Err?
    ensures match ReprocessRun(document, strptime, decode, rows, session, limit, envs)
            case Ok(r) =>
              var tickets := AsteriaSummarizer.Limited(ParseDocument(document, strptime).value, limit);
              && r.total == |tickets|
              && r.success + r.failed == r.total
              && RowsFrom(r.rows, rows, TicketKeys(tickets))
            case Err(_) => true
  {
    if ParseDocument(document, strptime).Ok? {
      var tickets := AsteriaSummarizer.Limited(ParseDocument(document, strptime).value, limit);
      var start := Begin(rows, session, |tickets|);
      StepAllCounts(start, document, strptime, decode, tickets, envs);
      StepAllRows(start, document, strptime, decode, tickets, envs, TicketKeys(tickets));
    }
  }

  class AsteriaBatchProcessor {
    const parser: AsteriaHtmlParser
    const llm: LlmClient
    /** The `summaries` table, by case number. */
    var rows: map<string, TableRow>

    /** The parser keeps its cache consistent with the export. */
    ghost predicate Valid()
      reads this, parser
    {
      parser.Valid()
    }

    /** A processor over one export, with a fresh model client. */
    constructor (document: Document, strptime: Strptime, decode: Decoder, rows: map<string, TableRow>)
      ensures Valid() && fresh(parser) && fresh(llm)
      ensures parser.document == document && parser.strptime == strptime
      ensures llm.decode == decode && llm.State() == NewSession && this.rows == rows
    {
      parser := new AsteriaHtmlParser(document, strptime);
      llm := new LlmClient(decode);
      this.rows := rows;
    }

    /** `process_ticket`; the merged thread is what the prompt carries to the model, whose answer `env` gives. */
    method ProcessTicket(ticketId: string, env: Env) returns (r: Outcome)
      requires Valid() && Complete(env.world)
      modifies parser`tickets, llm
      ensures Valid()
      ensures (r, llm.State())
              == ReprocessTicket(parser.document, parser.strptime, llm.decode, ticketId, env, old(llm.State()))
    {
      var found := parser.GetTicketById(ticketId);
      if found.Err? {
        return Err(ParseFailed(found.error));
      }
      if found.value.None? {
        return Ok(None);
      }
      var ticket := found.value.value;
      var emails := ConvertTicketToEmails(ticket, parser.strptime);
      if emails == [] {
        return Ok(None);
      }
      var emailThread := MergeEmails(emails);
      var dateRange := AsteriaSummarizer.DateRange(emails);
      var reply := llm.GenerateSummary(ticket.ticketId, DefaultInterval, env.world);
      if reply.Err? {
        return Err(ModelFailed(reply.error));
      }
      var parsed := reply.value.parsed;
      var summaryText := BuildSummaryText(parsed);
      return Ok(Some(Reprocessed(ticket.ticketId, summaryText, SectionValues(parsed), parsed.metadata, |emails|,
                                 dateRange, env.createdAt)));
    }

    /** `save_to_db`: writes the seven-column row under the summary's `AST-` key, replacing any row there. */
    method SaveToDb(summary: Reprocessed) returns (r: Result<(), StoreError>)
      modifies this`rows
      ensures r.Ok? <==> SaveSections(AsRecord(summary)).Ok?
      ensures rows == if r.Ok? then old(rows)[AsteriaKey(summary.caseNumber) := SaveSections(AsRecord(summary)).value]
                      else old(rows)
    {
      var caseNumber := AsteriaKey(summary.caseNumber);
      var metadata := summary.metadata;
      if !metadata.JObject? {
        return Err(MetadataNotObject);
      }
      metadata := JObject(metadata.fields["source" := JString("asteria")]);
      rows := rows[caseNumber := SectionRow(SectionColumns(AsRecord(summary)), metadata)];
      return Ok(());
    }

    /** `process_all`: parses the export, applies the limit and re-processes every ticket left. */
    method ProcessAll(limit: Option<int>, envs: nat -> Env) returns (r: Result<Run, ParseError>)
      requires Valid() && forall i :: Complete(envs(i).world)
      modifies this`rows, parser`tickets, llm
      ensures Valid()
      ensures r == ReprocessRun(parser.document, parser.strptime, llm.decode, old(rows), old(llm.State()), limit, envs)
      ensures r.Ok? ==> rows == r.value.rows && llm.State() == r.value.session
    {
      var all := parser.ParseAllTickets();
      if all.Err? {
        return Err(all.error);
      }
      var tickets := all.value;
      if limit.Some? && limit.value != 0 {
        tickets := tickets[..SliceStop(|tickets|, limit.value)];
      }
      var results := ProcessTickets(tickets, envs);
      return Ok(results);
    }

    /** The loop of `process_all`, updating the results dictionary ticket by ticket. */
    method ProcessTickets(tickets: seq<Ticket>, envs: nat -> Env) returns (results: Run)
      requires Valid() && Provided(tickets, envs)
      modifies this`rows, parser`tickets, llm
      ensures Valid()
      ensures results == StepAll(Begin(old(rows), old(llm.State()), |tickets|), parser.document, parser.strptime,
                                 llm.decode, tickets, envs)
      ensures rows == results.rows && llm.State() == results.session
    {
      results := Begin(rows, llm.State(), |tickets|);
      ghost var start := results;
      for i := 0 to |tickets|
        invariant Valid() && rows == results.rows && llm.State() == results.session
        invariant StepAll(start, parser.document, parser.strptime, llm.decode, tickets[..i], envs) == results
      {
        StepAllStep(start, parser.document, parser.strptime, llm.decode, tickets, envs, i);
        results := ProcessOne(results, tickets[i].ticketId, envs(i));
      }
      assert tickets[..|tickets|] == tickets;
    }

    /** One ticket of `process_all`. */
    method ProcessOne(results: Run, ticketId: string, env: Env) returns (next: Run)
      requires Valid() && Complete(env.world) && rows == results.rows && llm.State() == results.session
      modifies this`rows, parser`tickets, llm
      ensures Valid() && rows == next.rows && llm.State() == next.session
      ensures var (outcome, session) := ReprocessTicket(parser.document, parser.strptime, llm.decode, ticketId, env,
                                                        results.session);
              next == Settled(results, outcome, session)
    {
      var summary := ProcessTicket(ticketId, env);
      next := Record(results.(session := llm.State()), summary);
    }

    /** What `process_all` does with `process_ticket`'s answer: save and count a success, or count a failure. */
    method Record(results: Run, summary: Outcome) returns (next: Run)
      requires rows == results.rows
      modifies this`rows
      ensures rows == next.rows && next == Settled(results, summary, results.session)
    {
      if !(summary.Ok? && summary.value.Some?) {
        return results.(failed := results.failed + 1);
      }
      var saved := SaveToDb(summary.value.value);
      if saved.Err? {
        return results.(failed := results.failed + 1);
      }
      return results.(rows := rows, success := results.success + 1);
    }
  }
}
