/**
 * The standalone Asteria summarizer: a ticket's messages merged into a
 * plain-text thread, a fixed-layout summary of the ticket, the ticket's
 * outcome, the metadata tags added to every summary, and the run over all
 * tickets with its success and failure counts.
 *
 * The Salesforce summarizer this code delegates to when it can load it is
 * not part of this model; `withSalesforce` says whether it was constructed.
 * The clock reading stored as `created_at` is a parameter.
 */
module AsteriaSummarizer {
  import opened Wrappers
  import opened Text
  import opened Seqs
  import opened Timestamps
  import opened Json
  import opened HtmlParser
  import opened AsteriaFetcher

  // ---------------------------------------------------------------------
  // _merge_emails_simple
  // ---------------------------------------------------------------------

  const CustomerTag: string := "【顧客→サポート】"
  const SupportTag: string := "【サポート→顧客】"

  /** The tag naming who wrote a message: the customer (incoming) or support. */
  function DirectionTag(isIncoming: bool): string
  {
    if isIncoming then CustomerTag else SupportTag
  }

  /** The header line of one message: tag, minute-precision time, sender. */
  function MessageHeader(e: EmailMessage): string
  {
    DirectionTag(e.isIncoming) + " " + MinuteText(e.messageDate) + " " + e.fromAddress
  }

  /** The lines one message contributes to a thread: header, body, blank. */
  function MessageLines(e: EmailMessage): seq<string>
  {
    [MessageHeader(e), e.textBody, ""]
  }

  /** The lines of a whole thread, message after message. */
  function ThreadLines(emails: seq<EmailMessage>): seq<string>
  {
    FlatMap(emails, MessageLines)
  }

  /** Every message takes exactly three lines: message `k` starts line `3 * k`. */
  lemma ThreadLayout(emails: seq<EmailMessage>)
    ensures |ThreadLines(emails)| == 3 * |emails|
    ensures forall k :: 0 <= k < |emails| ==>
              && ThreadLines(emails)[3 * k] == MessageHeader(emails[k])
              && ThreadLines(emails)[3 * k + 1] == emails[k].textBody
              && ThreadLines(emails)[3 * k + 2] == ""
  {
    FlatMapTriples(emails, MessageLines);
    var lines := ThreadLines(emails);
    forall k | 0 <= k < |emails|
      ensures lines[3 * k] == MessageHeader(emails[k]) && lines[3 * k + 1] == emails[k].textBody
      ensures lines[3 * k + 2] == ""
    {
      var m := MessageLines(emails[k]);
      assert lines[3 * k] == m[0] && lines[3 * k + 1] == m[1] && lines[3 * k + 2] == m[2];
    }
  }

  /** `_merge_emails_simple`: the thread's lines joined by newlines. */
  method MergeEmailsSimple(emails: seq<EmailMessage>) returns (text: string)
    ensures text == Join("\n", ThreadLines(emails))
  {
    var parts: seq<string> := [];
    for i := 0 to |emails|
      invariant parts == FlatMap(emails[..i], MessageLines)
    {
      var e := emails[i];
      ghost var before := parts;
      var direction := DirectionTag(e.isIncoming);
      var timestamp := MinuteText(e.messageDate);
      var header := direction + " " + timestamp + " " + e.fromAddress;
      parts := parts + [header];
      parts := parts + [e.textBody];
      parts := parts + [""];
      AppendThree(before, header, e.textBody, "");
      FlatMapStep(emails, i, MessageLines);
    }
    assert emails[..|emails|] == emails;
    text := Join("\n", parts);
  }

  // ---------------------------------------------------------------------
  // _extract_outcome
  // ---------------------------------------------------------------------

  /** An entry whose action type is RESOLVED or CLOSED. */
  predicate Closing(e: TimelineEntry)
  {
    e.action == Resolved || e.action == Closed
  }

  /** The index of the first closing entry at or after `from`, or `|timeline|` when there is none. */
  function FirstClosing(timeline: seq<TimelineEntry>, from: nat): (i: nat)
    requires from <= |timeline|
    ensures from <= i <= |timeline|
    ensures forall j :: from <= j < i ==> !Closing(timeline[j])
    ensures i < |timeline| ==> Closing(timeline[i])
    decreases |timeline| - from
  {
    if from == |timeline| || Closing(timeline[from]) then from
    else FirstClosing(timeline, from + 1)
  }

  /**
   * "RESOLVED" for a ticket with a close date; otherwise the first closing
   * entry of the timeline, named after "FromManager: "; otherwise "OPEN".
   */
  function Outcome(ticket: Ticket, timeline: seq<TimelineEntry>): (r: string)
    ensures ticket.closedAt.Some? ==> r == "RESOLVED"
    ensures ticket.closedAt.None? && (forall j :: 0 <= j < |timeline| ==> !Closing(timeline[j])) ==> r == "OPEN"
    ensures forall i :: ticket.closedAt.None? && 0 <= i < |timeline| && Closing(timeline[i])
                        && (forall j :: 0 <= j < i ==> !Closing(timeline[j]))
                        ==> r == "FromManager: " + ActionName(timeline[i].action)
  {
    if ticket.closedAt.Some? then "RESOLVED"
    else
      var i := FirstClosing(timeline, 0);
      if i < |timeline| then "FromManager: " + ActionName(timeline[i].action) else "OPEN"
  }

  /**
   * `_extract_outcome`'s loop: the timeline is walked in order and the first
   * closing entry ends the walk.
   */
  method ExtractOutcome(ticket: Ticket, timeline: seq<TimelineEntry>) returns (r: string)
    ensures r == Outcome(ticket, timeline)
  {
    if ticket.closedAt.Some? {
      return "RESOLVED";
    }
    var i := 0;
    while i < |timeline|
      invariant 0 <= i <= |timeline|
      invariant forall j :: 0 <= j < i ==> !Closing(timeline[j])
    {
      var entry := timeline[i];
      if entry.action == Resolved || entry.action == Closed {
        return "FromManager: " + ActionName(entry.action);
      }
      i := i + 1;
    }
    return "OPEN";
  }

  // ---------------------------------------------------------------------
  // _build_simple_summary
  // ---------------------------------------------------------------------

  const ClosedHeading: string := "### 完了日時: "

  /** `details[:500] + "..."`: at most 500 characters of the details, always followed by "...". */
  function Overview(details: string): (r: string)
    ensures |r| == (if |details| <= 500 then |details| else 500) + 3
    ensures r[..|r| - 3] == details[..|r| - 3] && r[|r| - 3..] == "..."
  {
    (if |details| <= 500 then details else details[..500]) + "..."
  }

  /** The lines before the close date: headings, the ticket's fields, the overview and the open date. */
  function HeadLines(ticket: Ticket): (r: seq<string>)
    ensures |r| == 12 && r[9] == Overview(ticket.details)
  {
    ["## 【AI要約】",
     "",
     "### ケース番号: " + ticket.ticketId,
     "### タイトル: " + ticket.title,
     "### エリア: " + ticket.area,
     "### 優先度: " + ticket.priority,
     "### 重要度: " + ticket.importance,
     "",
     "### 概要",
     Overview(ticket.details),
     "",
     "### 開始日時: " + IsoFormat(ticket.openedAt)]
  }

  /** The Meta line: its "emails" figure is the length of the ticket id. */
  function MetaLine(ticket: Ticket): string
  {
    "Meta: emails=" + NatToString(|ticket.ticketId|) + ", area=" + ticket.area
  }

  /**
   * The summary's lines. The close-date line is there only for a closed
   * ticket; the last line reports the length of the ticket id as "emails".
   */
  function SimpleSummaryLines(ticket: Ticket): (r: seq<string>)
    ensures |r| == if ticket.closedAt.Some? then 16 else 15
    ensures r[..12] == HeadLines(ticket)
    ensures ticket.closedAt.Some? ==> r[12] == ClosedHeading + IsoFormat(ticket.closedAt.value)
    ensures ticket.closedAt.None? ==> r[12] == ""
    ensures r[|r| - 1] == MetaLine(ticket)
  {
    var head := HeadLines(ticket);
    var closed := if ticket.closedAt.Some? then [ClosedHeading + IsoFormat(ticket.closedAt.value)] else [];
    var foot := ["", "---", MetaLine(ticket)];
    ConcatThree(head, closed, foot);
    head + closed + foot
  }

  // ---------------------------------------------------------------------
  // _generate_summary_standalone and the metadata tags of process_ticket
  // ---------------------------------------------------------------------

  /** The dictionary a summary is; `created_at` is the clock reading's text. */
  datatype CaseSummary = CaseSummary(
    caseNumber: string, summaryText: string, outcome: string, metadata: map<string, Json>,
    emailCount: nat, dateRange: string, createdAt: string)

  /** The first message's date, " - ", the last message's date. */
  function DateRange(emails: seq<EmailMessage>): (r: string)
    requires emails != []
    ensures |r| == 23 && r[..10] == DateText(emails[0].messageDate) && r[10..13] == " - "
    ensures r[13..] == DateText(emails[|emails| - 1].messageDate)
  {
    DateText(emails[0].messageDate) + " - " + DateText(emails[|emails| - 1].messageDate)
  }

  /** The metadata the standalone summary starts with. */
  function TicketMetadata(ticket: Ticket, emailCount: nat): map<string, Json>
  {
    map["title" := JString(ticket.title), "area" := JString(ticket.area),
        "opened" := JString(IsoFormat(ticket.openedAt)),
        "closed" := if ticket.closedAt.Some? then JString(IsoFormat(ticket.closedAt.value)) else JNull,
        "email_count" := JInt(emailCount)]
  }

  /** The summary built without the Salesforce summarizer; the merged thread does not reach it. */
  function Standalone(ticket: Ticket, emails: seq<EmailMessage>, timeline: seq<TimelineEntry>, createdAt: string)
    : CaseSummary
    requires emails != []
  {
    CaseSummary(ticket.ticketId, Join("\n", SimpleSummaryLines(ticket)), Outcome(ticket, timeline),
                TicketMetadata(ticket, |emails|), |emails|, DateRange(emails), createdAt)
  }

  const TagKeys: set<string> := {"source", "area", "priority", "importance", "ticket_id"}

  /** The five Asteria tags overwrite their keys; every other key keeps its value. */
  function Tagged(metadata: map<string, Json>, ticket: Ticket): (r: map<string, Json>)
    ensures r.Keys == metadata.Keys + TagKeys
    ensures r["source"] == JString("asteria") && r["area"] == JString(ticket.area)
    ensures r["priority"] == JString(ticket.priority) && r["importance"] == JString(ticket.importance)
    ensures r["ticket_id"] == JString(ticket.ticketId)
    ensures forall k :: k in metadata && k !in TagKeys ==> r[k] == metadata[k]
  {
    metadata["source" := JString("asteria")]["area" := JString(ticket.area)]["priority" := JString(ticket.priority)]
            ["importance" := JString(ticket.importance)]["ticket_id" := JString(ticket.ticketId)]
  }

  /** The timeline of a ticket, as the parser extracts it. */
  function TicketTimeline(ticket: Ticket, strptime: Strptime): seq<TimelineEntry>
  {
    Timeline(BoldSites(ticket.tree), strptime)
  }

  /** The summary of a found ticket: none without messages or on the Salesforce path. */
  function Summarize(ticket: Ticket, strptime: Strptime, withSalesforce: bool, createdAt: string): Option<CaseSummary>
  {
    var timeline := TicketTimeline(ticket, strptime);
    var emails := Emails(ticket, timeline);
    if emails == [] || withSalesforce then None
    else
      var s := Standalone(ticket, emails, timeline, createdAt);
      Some(s.(metadata := Tagged(s.metadata, ticket)))
  }

  /** `process_ticket`: a parse error propagates; a missing ticket gives no summary. */
  function TicketSummary(document: Document, strptime: Strptime, withSalesforce: bool, ticketId: string,
                         createdAt: string): Result<Option<CaseSummary>, ParseError>
  {
    match ParseDocument(document, strptime)
    case Err(e) => Err(e)
    case Ok(tickets) =>
      match FindById(tickets, ticketId)
      case None => Ok(None)
      case Some(ticket) => Ok(Summarize(ticket, strptime, withSalesforce, createdAt))
  }

  /** A found ticket has no summary exactly when its timeline yields no message or the Salesforce path was taken. */
  lemma SummarizeNone(ticket: Ticket, strptime: Strptime, withSalesforce: bool, createdAt: string)
    ensures Summarize(ticket, strptime, withSalesforce, createdAt).None?
            <==> withSalesforce || TicketTimeline(ticket, strptime) == []
  {
    var timeline := TicketTimeline(ticket, strptime);
    assert Emails(ticket, timeline) == [] <==> timeline == [];
  }

  /**
   * A summary describes the ticket, counts its messages (at least one, at
   * most one per timeline entry), spans their dates and carries the tagged metadata.
   */
  lemma SummarizeFields(ticket: Ticket, strptime: Strptime, withSalesforce: bool, createdAt: string)
    ensures match Summarize(ticket, strptime, withSalesforce, createdAt)
            case Some(s) =>
              var timeline := TicketTimeline(ticket, strptime);
              && s.caseNumber == ticket.ticketId
              && 1 <= s.emailCount <= |timeline|
              && s.emailCount == |Emails(ticket, timeline)|
              && s.dateRange == DateRange(Emails(ticket, timeline))
              && s.outcome == Outcome(ticket, timeline)
              && s.metadata == Tagged(TicketMetadata(ticket, s.emailCount), ticket)
            case None => true
  {
    var timeline := TicketTimeline(ticket, strptime);
    if Summarize(ticket, strptime, withSalesforce, createdAt).Some? {
      assert timeline != [];
    }
  }

  /**
   * A parse error propagates; otherwise the result is the summary of the
   * first ticket carrying the id asked for, and none when no ticket does.
   */
  lemma TicketSummaryCases(document: Document, strptime: Strptime, withSalesforce: bool, ticketId: string,
                           createdAt: string)
    ensures TicketSummary(document, strptime, withSalesforce, ticketId, createdAt).Err?
            <==> ParseDocument(document, strptime).Err?
    ensures ParseDocument(document, strptime).Ok? && FindById(ParseDocument(document, strptime).value, ticketId).None?
            ==> TicketSummary(document, strptime, withSalesforce, ticketId, createdAt) == Ok(None)
    ensures ParseDocument(document, strptime).Ok? && FindById(ParseDocument(document, strptime).value, ticketId).Some?
            ==> var ticket := FindById(ParseDocument(document, strptime).value, ticketId).value;
                && ticket.ticketId == ticketId
                && TicketSummary(document, strptime, withSalesforce, ticketId, createdAt)
                   == Ok(Summarize(ticket, strptime, withSalesforce, createdAt))
  {
  }

  // ---------------------------------------------------------------------
  // process_all
  // ---------------------------------------------------------------------

  /** `tickets[:limit]` when the limit is truthy: a prefix, from the end for a negative limit. */
  function Limited(tickets: seq<Ticket>, limit: Option<int>): (r: seq<Ticket>)
    ensures |r| <= |tickets| && r == tickets[..|r|]
    ensures limit.None? || limit.value == 0 ==> r == tickets
    ensures limit.Some? && limit.value > 0 ==> |r| == if limit.value < |tickets| then limit.value else |tickets|
    ensures limit.Some? && limit.value < 0 ==> |r| == if |tickets| + limit.value > 0 then |tickets| + limit.value else 0
  {
    if limit.None? || limit.value == 0 then tickets
    else tickets[..SliceStop(|tickets|, limit.value)]
  }

  /** What processing one ticket gave: an exception, no summary, or a summary. */
  type Attempt = Result<Option<CaseSummary>, ParseError>

  predicate Succeeded(a: Attempt)
  {
    a.Ok? && a.value.Some?
  }

  predicate Failed(a: Attempt)
  {
    !Succeeded(a)
  }

  /** The summary an attempt contributes to the results list. */
  function Gathered(a: Attempt): seq<CaseSummary>
  {
    if Succeeded(a) then [a.value.value] else []
  }

  datatype RunResults = RunResults(total: nat, success: nat, failed: nat, summaries: seq<CaseSummary>)

  /** The results dictionary after all attempts: counts of each kind and the summaries in order. */
  function Tally(attempts: seq<Attempt>): RunResults
  {
    RunResults(|attempts|, Count(attempts, Succeeded), Count(attempts, Failed), FlatMap(attempts, Gathered))
  }

  /** Counting one more attempt: a success adds its summary, anything else adds a failure. */
  lemma TallyStep(attempts: seq<Attempt>, i: nat)
    requires i < |attempts|
    ensures var before := Tally(attempts[..i]);
            Tally(attempts[..i + 1])
            == if Succeeded(attempts[i])
               then RunResults(i + 1, before.success + 1, before.failed, before.summaries + [attempts[i].value.value])
               else RunResults(i + 1, before.success, before.failed + 1, before.summaries)
  {
    CountStep(attempts, i, Succeeded);
    CountStep(attempts, i, Failed);
    FlatMapStep(attempts, i, Gathered);
  }

  /** Every attempt is counted once, as a success or a failure, and each success leaves one summary. */
  lemma TallyCounts(attempts: seq<Attempt>)
    ensures Tally(attempts).success + Tally(attempts).failed == Tally(attempts).total
    ensures |Tally(attempts).summaries| == Tally(attempts).success
  {
    CountComplement(attempts, Succeeded, Failed);
    FlatMapCount(attempts, Gathered, Succeeded, 1);
  }

  /** Each ticket of the run is processed again by its id. */
  function Attempts(document: Document, strptime: Strptime, withSalesforce: bool, tickets: seq<Ticket>,
                    createdAt: string): (r: seq<Attempt>)
    ensures |r| == |tickets|
    ensures forall i :: 0 <= i < |tickets| ==>
              r[i] == TicketSummary(document, strptime, withSalesforce, tickets[i].ticketId, createdAt)
  {
    Map(tickets, (t: Ticket) => TicketSummary(document, strptime, withSalesforce, t.ticketId, createdAt))
  }

  /** `process_all`: a parse error propagates; otherwise the tally of the limited tickets. */
  function RunAll(document: Document, strptime: Strptime, withSalesforce: bool, limit: Option<int>,
                  createdAt: string): Result<RunResults, ParseError>
  {
    match ParseDocument(document, strptime)
    case Err(e) => Err(e)
    case Ok(tickets) => Ok(Tally(Attempts(document, strptime, withSalesforce, Limited(tickets, limit), createdAt)))
  }

  /**
   * At the end of a run, success and failed add up to the number of tickets
   * left after the limit, and there is one summary per success, in ticket order.
   */
  lemma RunAllCounts(document: Document, strptime: Strptime, withSalesforce: bool, limit: Option<int>,
                     createdAt: string)
    ensures RunAll(document, strptime, withSalesforce, limit, createdAt).Err? <==> ParseDocument(document, strptime).Err?
    ensures match RunAll(document, strptime, withSalesforce, limit, createdAt)
            case Ok(r) =>
              && r.total == |Limited(ParseDocument(document, strptime).value, limit)|
              && r.success + r.failed == r.total
              && |r.summaries| == r.success
            case Err(_) => true
  {
    if ParseDocument(document, strptime).Ok? {
      TallyCounts(Attempts(document, strptime, withSalesforce, Limited(ParseDocument(document, strptime).value, limit),
                           createdAt));
    }
  }

  class AsteriaSummarizer {
    const parser: AsteriaHtmlParser
    /** Whether the Salesforce summarizer was constructed; its path always ends in its exception handler. */
    const withSalesforce: bool

    /** The summarizer's parser keeps its cache consistent with the export. */
    ghost predicate Valid()
      reads this, parser
    {
      parser.Valid()
    }

    /** A summarizer over one export, with a fresh parser. */
    constructor (document: Document, strptime: Strptime, withSalesforce: bool)
      ensures Valid() && fresh(parser)
      ensures parser.document == document && parser.strptime == strptime && parser.tickets == None
      ensures this.withSalesforce == withSalesforce
    {
      parser := new AsteriaHtmlParser(document, strptime);
      this.withSalesforce := withSalesforce;
    }

    /** `_generate_summary_standalone`: the summary built from the ticket and its messages. */
    method GenerateSummaryStandalone(ticket: Ticket, emails: seq<EmailMessage>, createdAt: string)
      returns (summary: CaseSummary)
      requires emails != []
      ensures summary == Standalone(ticket, emails, TicketTimeline(ticket, parser.strptime), createdAt)
    {
      var threadText := MergeEmailsSimple(emails);
      var timeline := ExtractTimeline(ticket, parser.strptime);
      var outcome := ExtractOutcome(ticket, timeline);
      summary := CaseSummary(ticket.ticketId, Join("\n", SimpleSummaryLines(ticket)), outcome,
                             TicketMetadata(ticket, |emails|), |emails|, DateRange(emails), createdAt);
    }

    /** `process_ticket`: find the ticket, merge its messages, summarize and tag the metadata. */
    method ProcessTicket(ticketId: string, createdAt: string) returns (r: Attempt)
      requires Valid()
      modifies parser`tickets
      ensures Valid()
      ensures r == TicketSummary(parser.document, parser.strptime, withSalesforce, ticketId, createdAt)
    {
      var found := parser.GetTicketById(ticketId);
      if found.Err? {
        return Err(found.error);
      }
      if found.value.None? {
        return Ok(None);
      }
      var ticket := found.value.value;
      var emails := ConvertTicketToEmails(ticket, parser.strptime);
      if emails == [] || withSalesforce {
        return Ok(None);
      }
      var summary := GenerateSummaryStandalone(ticket, emails, createdAt);
      var metadata := summary.metadata;
      metadata := metadata["source" := JString("asteria")];
      metadata := metadata["area" := JString(ticket.area)];
      metadata := metadata["priority" := JString(ticket.priority)];
      metadata := metadata["importance" := JString(ticket.importance)];
      metadata := metadata["ticket_id" := JString(ticket.ticketId)];
      summary := summary.(metadata := metadata);
      return Ok(Some(summary));
    }

    /** `process_all`: parses the export, applies the limit and processes every ticket left. */
    method ProcessAll(limit: Option<int>, createdAt: string) returns (r: Result<RunResults, ParseError>)
      requires Valid()
      modifies parser`tickets
      ensures Valid()
      ensures r == RunAll(parser.document, parser.strptime, withSalesforce, limit, createdAt)
    {
      var all := parser.ParseAllTickets();
      if all.Err? {
        return Err(all.error);
      }
      var tickets := all.value;
      if limit.Some? && limit.value != 0 {
        tickets := tickets[..SliceStop(|tickets|, limit.value)];
      }
      var results := ProcessTickets(tickets, createdAt);
      return Ok(results);
    }

    /** The loop of `process_all`: every ticket is processed by its id and counted. */
    method ProcessTickets(tickets: seq<Ticket>, createdAt: string) returns (results: RunResults)
      requires Valid()
      modifies parser`tickets
      ensures Valid()
      ensures results == Tally(Attempts(parser.document, parser.strptime, withSalesforce, tickets, createdAt))
    {
      ghost var attempts := Attempts(parser.document, parser.strptime, withSalesforce, tickets, createdAt);
      var success, failed := 0, 0;
      var summaries: seq<CaseSummary> := [];
      for i := 0 to |tickets|
        invariant Valid()
        invariant Tally(attempts[..i]) == RunResults(i, success, failed, summaries)
      {
        var summary := ProcessTicket(tickets[i].ticketId, createdAt);
        TallyStep(attempts, i);
        if summary.Ok? && summary.value.Some? {
          summaries := summaries + [summary.value.value];
          success := success + 1;
        } else {
          failed := failed + 1;
        }
      }
      assert attempts[..|tickets|] == attempts;
      return RunResults(|tickets|, success, failed, summaries);
    }
  }
}
