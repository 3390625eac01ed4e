/**
 * Thread reconstruction (src/asteria_fetcher.py): the timeline of a ticket
 * becomes a list of e-mail-like messages, one per maximal run of entries
 * written from the same side (customer or support).
 */
module AsteriaFetcher {
  import opened Wrappers
  import opened Text
  import opened Timestamps
  import opened Seqs
  import opened HtmlParser

  /** The message record the summarizers consume. */
  datatype EmailMessage = EmailMessage(
    messageId: string,
    subject: string,
    fromAddress: string,
    toAddress: string,
    textBody: string,
    messageDate: DateTime,
    isIncoming: bool)

  /** Actors on the customer side. */
  const CustomerUsers: set<string> := {"Megumi Hashimoto", "Nao Oki", "Emiri Miyamoto", "Go Enomoto"}

  /** Actors on the support side. */
  const SupportUsers: set<string> := {"CData Japan Support"}

  const SupportAddress: string := "CData Japan Support"
  const CustomerAddress: string := "Asteria"

  // ---------------------------------------------------------------------
  // re.sub(r"\s+to\s+.+$", "", name): cutting the routing suffix
  // ---------------------------------------------------------------------

  /**
   * `\s+to\s+.+$` matches from position `p` of a name without surrounding
   * whitespace: a whitespace run, "to", a whitespace run and then a non-empty
   * rest without a newline up to the end of the name.
   */
  predicate RoutingAt(s: string, p: nat)
  {
    p < |s| && IsSpace(s[p])
    && var q := p + SpaceRun(s, p);
    OccursAt(s, "to", q)
    && var m := SpaceRun(s, q + 2);
    m >= 1 && q + 2 + m < |s| && '\n' !in s[q + 2 + m..]
  }

  /** The positions of `s` where the routing suffix matches. */
  function Router(s: string): nat -> bool
  {
    (p: nat) => RoutingAt(s, p)
  }

  /**
   * `re.sub(r"\s+to\s+.+$", "", s)` for a stripped `s` (as `CleanUser` passes
   * it): `s` cut at the leftmost position where the routing suffix matches.
   */
  function Unroute(s: string): string
  {
    var p := First(Router(s), 0, |s|);
    if p <= |s| then s[..p] else s
  }

  /**
   * The result is a prefix of `s`; it is `s` itself exactly when the suffix
   * matches nowhere, and otherwise ends where the suffix first matches.
   */
  lemma UnrouteCutsRouting(s: string)
    ensures var r := Unroute(s);
            StartsWith(s, r)
            && (r == s <==> forall p :: 0 <= p <= |s| ==> !RoutingAt(s, p))
            && (r != s ==> RoutingAt(s, |r|) && forall p :: 0 <= p < |r| ==> !RoutingAt(s, p))
  {
    var p := First(Router(s), 0, |s|);
    forall j | 0 <= j <= |s|
      ensures Router(s)(j) == RoutingAt(s, j)
    {
    }
    if p <= |s| {
      assert |s[..p]| == p;
      if s[..p] == s {
        assert false;
      }
    }
  }

  /** `_clean_user` (the expression both methods share): the actor's name, stripped, without its routing suffix. */
  function CleanUser(user: string): string
  {
    Unroute(Strip(user))
  }

  /** `_is_customer_message`: only the known customer names count as incoming. */
  function IsCustomerMessage(user: string): (r: bool)
    ensures r <==> CleanUser(user) in CustomerUsers
  {
    var clean := CleanUser(user);
    if clean in CustomerUsers then true
    else if clean in SupportUsers then false
    else false
  }

  // ---------------------------------------------------------------------
  // _create_email
  // ---------------------------------------------------------------------

  /** `_create_email`: addressing by direction, the id from the ticket, the date and the cleaned user. */
  function CreateEmail(ticket: Ticket, date: DateTime, isIncoming: bool, user: string, body: string): (r: EmailMessage)
    ensures r.isIncoming == isIncoming && r.messageDate == date && r.textBody == body
    ensures r.subject == ticket.title
    ensures isIncoming ==> r.fromAddress == user && r.toAddress == SupportAddress
    ensures !isIncoming ==> r.fromAddress == SupportAddress && r.toAddress == CustomerAddress
    ensures r.messageId == ticket.ticketId + "_" + IsoFormat(date) + "_" + ReplaceChar(CleanUser(user), ' ', '_')
  {
    var fromAddress := if isIncoming then user else SupportAddress;
    var toAddress := if isIncoming then SupportAddress else CustomerAddress;
    var userClean := CleanUser(user);
    EmailMessage(
      ticket.ticketId + "_" + IsoFormat(date) + "_" + ReplaceChar(userClean, ' ', '_'),
      ticket.title, fromAddress, toAddress, body, date, isIncoming)
  }

  /** A message id has no space when the ticket id has none: the cleaned user's spaces become underscores. */
  lemma MessageIdHasNoSpace(ticket: Ticket, date: DateTime, isIncoming: bool, user: string, body: string)
    requires ' ' !in ticket.ticketId
    ensures ' ' !in CreateEmail(ticket, date, isIncoming, user, body).messageId
  {
    UnderscoredHasNoSpace(user);
    IsoFormatHasNoSpace(date);
    var id := ticket.ticketId + "_" + IsoFormat(date) + "_" + ReplaceChar(CleanUser(user), ' ', '_');
    assert CreateEmail(ticket, date, isIncoming, user, body).messageId == id;
  }

  lemma UnderscoredHasNoSpace(user: string)
    ensures ' ' !in ReplaceChar(CleanUser(user), ' ', '_')
  {
    var name := ReplaceChar(CleanUser(user), ' ', '_');
    forall i | 0 <= i < |name|
      ensures name[i] != ' '
    {
    }
  }

  lemma IsoFormatHasNoSpace(date: DateTime)
    ensures ' ' !in IsoFormat(date)
  {
    var iso := IsoFormat(date);
    forall i | 0 <= i < |iso|
      ensures iso[i] != ' '
    {
      assert IsDigit(iso[i]) || iso[i] in "-T:";
    }
  }

  // ---------------------------------------------------------------------
  // _convert_timeline_to_emails
  // ---------------------------------------------------------------------

  /** The line an entry adds to its message body. */
  function EntryLine(e: TimelineEntry): string
  {
    if e.content != "" then "[" + ActionName(e.action) + "] " + e.content
    else "[" + ActionName(e.action) + "]"
  }

  /** The lines of a run of entries, one per entry, in order. */
  function Lines(run: seq<TimelineEntry>): seq<string>
  {
    Map(run, EntryLine)
  }

  /** The side an entry is written from: the grouping key. */
  function Direction(): TimelineEntry -> bool
  {
    (e: TimelineEntry) => IsCustomerMessage(e.user)
  }

  /** `_create_email` for one ticket, as a value: date, direction, user and body to a message. */
  function Creator(ticket: Ticket): (DateTime, bool, string, string) -> EmailMessage
  {
    (date: DateTime, isIncoming: bool, user: string, body: string) => CreateEmail(ticket, date, isIncoming, user, body)
  }

  /**
   * The message made of one run: the first entry's date, side and user (an
   * empty user reads "Unknown"), the run's lines joined by newlines. The merge
   * is stated for any `create` and `key`; the program uses `Creator` and `Direction`.
   */
  function RunEmail(create: (DateTime, bool, string, string) -> EmailMessage, key: TimelineEntry -> bool,
                    run: seq<TimelineEntry>): EmailMessage
    requires run != []
  {
    var first := run[0];
    create(first.timestamp, key(first), if first.user == "" then "Unknown" else first.user, Join("\n", Lines(run)))
  }

  /** The message of each run. */
  function Mailer(create: (DateTime, bool, string, string) -> EmailMessage, key: TimelineEntry -> bool)
    : seq<TimelineEntry> --> EmailMessage
  {
    run requires run != [] => RunEmail(create, key, run)
  }

  /** The messages of a timeline: one per maximal run of same-direction entries. */
  function Emails(ticket: Ticket, timeline: seq<TimelineEntry>): (r: seq<EmailMessage>)
    ensures timeline == [] ==> r == []
    ensures timeline != [] ==> 1 <= |r| <= |timeline|
  {
    Map(Runs(timeline, Direction()), Mailer(Creator(ticket), Direction()))
  }

  /** The merging loop's state: messages so far, the open message's lines, direction, user and date. */
  datatype Merge = Merge(emails: seq<EmailMessage>, body: seq<string>, isIncoming: Option<bool>,
                         user: string, date: Option<DateTime>)

  /** The state before the first entry (`None` for "not yet set"; an unset user behaves as ""). */
  const Start: Merge := Merge([], [], None, "", None)

  /** Saving the open message, if there is one; `fallback` stands in for an unset date. */
  function Flush(create: (DateTime, bool, string, string) -> EmailMessage, m: Merge, fallback: DateTime)
    : seq<EmailMessage>
  {
    if m.body != [] && m.isIncoming.Some? then
      m.emails + [create(if m.date.Some? then m.date.value else fallback, m.isIncoming.value,
                         if m.user == "" then "Unknown" else m.user, Join("\n", m.body))]
    else m.emails
  }

  /** One turn of the loop: a change of direction saves the open message and starts a new one; the entry's line is appended. */
  function Absorb(create: (DateTime, bool, string, string) -> EmailMessage, key: TimelineEntry -> bool,
                  m: Merge, entry: TimelineEntry): Merge
  {
    var isIncoming := key(entry);
    var m' := if m.isIncoming.None? || m.isIncoming.value != isIncoming
              then Merge(Flush(create, m, entry.timestamp), [], Some(isIncoming), entry.user, Some(entry.timestamp))
              else m;
    m'.(body := m'.body + [EntryLine(entry)])
  }

  /** The state after the first `i` entries. */
  function Merged(create: (DateTime, bool, string, string) -> EmailMessage, key: TimelineEntry -> bool,
                  timeline: seq<TimelineEntry>, i: nat): Merge
    requires i <= |timeline|
  {
    if i == 0 then Start else Absorb(create, key, Merged(create, key, timeline, i - 1), timeline[i - 1])
  }

  /**
   * What the state means after `i > 0` entries: the runs so far are the closed
   * ones and the open one, the closed runs' messages are out, and the current
   * fields describe the open run.
   */
  ghost predicate Tracks(create: (DateTime, bool, string, string) -> EmailMessage, key: TimelineEntry -> bool,
                         timeline: seq<TimelineEntry>, i: nat,
                         closed: seq<seq<TimelineEntry>>, open: seq<TimelineEntry>, m: Merge)
  {
    0 < i <= |timeline| && open != []
    && (forall k :: 0 <= k < |closed| ==> closed[k] != [])
    && Runs(timeline[..i], key) == closed + [open]
    && m == Merge(Map(closed, Mailer(create, key)), Lines(open), Some(key(open[0])), open[0].user, Some(open[0].timestamp))
  }

  /** Closing the open run appends its message to those of the closed runs. */
  lemma CloseRun(create: (DateTime, bool, string, string) -> EmailMessage, key: TimelineEntry -> bool,
                 closed: seq<seq<TimelineEntry>>, open: seq<TimelineEntry>, m: Merge, fallback: DateTime)
    requires open != [] && forall k :: 0 <= k < |closed| ==> closed[k] != []
    requires m == Merge(Map(closed, Mailer(create, key)), Lines(open), Some(key(open[0])), open[0].user, Some(open[0].timestamp))
    ensures Flush(create, m, fallback) == Map(closed + [open], Mailer(create, key))
  {
    assert Mailer(create, key)(open) == RunEmail(create, key, open);
    assert (closed + [open])[..|closed|] == closed;
  }

  /** The first entry opens the first run. */
  lemma FirstRun(create: (DateTime, bool, string, string) -> EmailMessage, key: TimelineEntry -> bool,
                 timeline: seq<TimelineEntry>)
    requires timeline != []
    ensures Tracks(create, key, timeline, 1, [], [timeline[0]], Absorb(create, key, Start, timeline[0]))
  {
    var e := timeline[0];
    RunsGrow(timeline, 0, key, [], []);
    assert Lines([e]) == [EntryLine(e)];
  }

  /** An entry from the other side closes the open run and opens a new one. */
  lemma OpenRun(create: (DateTime, bool, string, string) -> EmailMessage, key: TimelineEntry -> bool,
                timeline: seq<TimelineEntry>, i: nat,
                closed: seq<seq<TimelineEntry>>, open: seq<TimelineEntry>, m: Merge)
    requires i < |timeline|
    requires Tracks(create, key, timeline, i, closed, open, m)
    requires m.isIncoming.value != key(timeline[i])
    ensures Tracks(create, key, timeline, i + 1, closed + [open], [timeline[i]], Absorb(create, key, m, timeline[i]))
  {
    var e := timeline[i];
    RunsGrow(timeline, i, key, closed, open);
    assert Lines([e]) == [EntryLine(e)];
    CloseRun(create, key, closed, open, m, e.timestamp);
  }

  /** An entry from the same side joins the open run. */
  lemma ExtendRun(create: (DateTime, bool, string, string) -> EmailMessage, key: TimelineEntry -> bool,
                  timeline: seq<TimelineEntry>, i: nat,
                  closed: seq<seq<TimelineEntry>>, open: seq<TimelineEntry>, m: Merge)
    requires i < |timeline|
    requires Tracks(create, key, timeline, i, closed, open, m)
    requires m.isIncoming.value == key(timeline[i])
    ensures Tracks(create, key, timeline, i + 1, closed, open + [timeline[i]], Absorb(create, key, m, timeline[i]))
  {
    var e := timeline[i];
    RunsGrow(timeline, i, key, closed, open);
    assert (open + [e])[..|open|] == open;
  }

  /** One more entry keeps the state describing the runs, whichever side it comes from. */
  lemma MergedStep(create: (DateTime, bool, string, string) -> EmailMessage, key: TimelineEntry -> bool,
                   timeline: seq<TimelineEntry>, i: nat, c: seq<seq<TimelineEntry>>, o: seq<TimelineEntry>)
      returns (closed: seq<seq<TimelineEntry>>, open: seq<TimelineEntry>)
    requires i < |timeline| && Tracks(create, key, timeline, i, c, o, Merged(create, key, timeline, i))
    ensures Tracks(create, key, timeline, i + 1, closed, open, Merged(create, key, timeline, i + 1))
  {
    var m := Merged(create, key, timeline, i);
    if m.isIncoming.value != key(timeline[i]) {
      OpenRun(create, key, timeline, i, c, o, m);
      closed, open := c + [o], [timeline[i]];
    } else {
      ExtendRun(create, key, timeline, i, c, o, m);
      closed, open := c, o + [timeline[i]];
    }
  }

  /** After every prefix, the loop's state describes the runs of that prefix. */
  lemma {:induction false} MergedTracksRuns(create: (DateTime, bool, string, string) -> EmailMessage,
                                            key: TimelineEntry -> bool, timeline: seq<TimelineEntry>, i: nat)
      returns (closed: seq<seq<TimelineEntry>>, open: seq<TimelineEntry>)
    requires 0 < i <= |timeline|
    ensures Tracks(create, key, timeline, i, closed, open, Merged(create, key, timeline, i))
  {
    if i == 1 {
      FirstRun(create, key, timeline);
      closed, open := [], [timeline[0]];
    } else {
      var c, o := MergedTracksRuns(create, key, timeline, i - 1);
      closed, open := MergedStep(create, key, timeline, i - 1, c, o);
    }
  }

  /** The loop followed by the final save yields one message per run. */
  lemma MergedIsMailed(create: (DateTime, bool, string, string) -> EmailMessage, key: TimelineEntry -> bool,
                       timeline: seq<TimelineEntry>)
    requires timeline != []
    ensures Flush(create, Merged(create, key, timeline, |timeline|), timeline[|timeline| - 1].timestamp)
            == Map(Runs(timeline, key), Mailer(create, key))
  {
    var closed, open := MergedTracksRuns(create, key, timeline, |timeline|);
    CloseRun(create, key, closed, open, Merged(create, key, timeline, |timeline|), timeline[|timeline| - 1].timestamp);
    assert timeline[..|timeline|] == timeline;
  }

  /** `_convert_timeline_to_emails`: the merging loop over the timeline. */
  method ConvertTimelineToEmails(ticket: Ticket, timeline: seq<TimelineEntry>) returns (emails: seq<EmailMessage>)
    ensures emails == Emails(ticket, timeline)
  {
    if timeline == [] {
      return [];
    }
    emails := [];
    var currentBody: seq<string> := [];
    var currentIsIncoming: Option<bool> := None;
    var currentUser: string := "";
    var currentDate: Option<DateTime> := None;
    for i := 0 to |timeline|
      invariant Merge(emails, currentBody, currentIsIncoming, currentUser, currentDate)
                == Merged(Creator(ticket), Direction(), timeline, i)
    {
      var entry := timeline[i];
      var isIncoming := IsCustomerMessage(entry.user);
      assert Direction()(entry) == isIncoming;
      if currentIsIncoming.None? || currentIsIncoming.value != isIncoming {
        if currentBody != [] && currentIsIncoming.Some? {
          var date := if currentDate.Some? then currentDate.value else entry.timestamp;
          var user := if currentUser == "" then "Unknown" else currentUser;
          var email := CreateEmail(ticket, date, currentIsIncoming.value, user, Join("\n", currentBody));
          assert email == Creator(ticket)(date, currentIsIncoming.value, user, Join("\n", currentBody));
          emails := emails + [email];
        }
        currentBody := [];
        currentIsIncoming := Some(isIncoming);
        currentUser := entry.user;
        currentDate := Some(entry.timestamp);
      }
      currentBody := currentBody + [EntryLine(entry)];
    }
    if currentBody != [] && currentIsIncoming.Some? {
      var date := if currentDate.Some? then currentDate.value else timeline[|timeline| - 1].timestamp;
      var user := if currentUser == "" then "Unknown" else currentUser;
      var email := CreateEmail(ticket, date, currentIsIncoming.value, user, Join("\n", currentBody));
      assert email == Creator(ticket)(date, currentIsIncoming.value, user, Join("\n", currentBody));
      emails := emails + [email];
    }
    MergedIsMailed(Creator(ticket), Direction(), timeline);
  }

  /** `convert_ticket_to_emails`: extract the timeline, then merge it. */
  method ConvertTicketToEmails(ticket: Ticket, strptime: Strptime) returns (emails: seq<EmailMessage>)
    ensures emails == Emails(ticket, Timeline(BoldSites(ticket.tree), strptime))
  {
    var timeline := ExtractTimeline(ticket, strptime);
    emails := ConvertTimelineToEmails(ticket, timeline);
  }

  // ---------------------------------------------------------------------
  // What the merge promises
  // ---------------------------------------------------------------------

  /**
   * The `k`-th message is `_create_email` applied to the `k`-th run: its first
   * entry's date, side and user, and the run's lines joined by newlines.
   */
  lemma EmailOfRun(ticket: Ticket, timeline: seq<TimelineEntry>, k: nat)
    requires k < |Runs(timeline, Direction())|
    ensures var run := Runs(timeline, Direction())[k];
            run != [] && k < |Emails(ticket, timeline)|
            && Emails(ticket, timeline)[k]
               == CreateEmail(ticket, run[0].timestamp, IsCustomerMessage(run[0].user),
                              if run[0].user == "" then "Unknown" else run[0].user, Join("\n", Lines(run)))
  {
    var run := Runs(timeline, Direction())[k];
    assert Mailer(Creator(ticket), Direction())(run) == RunEmail(Creator(ticket), Direction(), run);
  }

  /** Neighbouring messages always go in opposite directions. */
  lemma EmailsAlternate(ticket: Ticket, timeline: seq<TimelineEntry>)
    ensures forall k :: 0 < k < |Emails(ticket, timeline)| ==>
              Emails(ticket, timeline)[k - 1].isIncoming != Emails(ticket, timeline)[k].isIncoming
  {
    var rs: seq<seq<TimelineEntry>> := Runs(timeline, Direction());
    RunsAlternate(timeline, Direction());
    forall k | 0 < k < |Emails(ticket, timeline)|
      ensures Emails(ticket, timeline)[k - 1].isIncoming != Emails(ticket, timeline)[k].isIncoming
    {
      EmailOfRun(ticket, timeline, k - 1);
      EmailOfRun(ticket, timeline, k);
      assert Direction()(rs[k - 1][0]) != Direction()(rs[k][0]);
    }
  }

  /** Nothing is lost or reordered: the runs behind the messages, one per message, concatenate back to the timeline. */
  lemma EmailsCoverTimeline(ticket: Ticket, timeline: seq<TimelineEntry>)
    ensures var rs := Runs(timeline, Direction());
            Flatten(rs) == timeline && |Emails(ticket, timeline)| == |rs|
  {
    RunsFlatten(timeline, Direction());
  }

  /** Every entry of a message's run is written from the side the message is marked with. */
  lemma EmailsDirectionUniform(ticket: Ticket, timeline: seq<TimelineEntry>)
    ensures var rs := Runs(timeline, Direction());
            var es := Emails(ticket, timeline);
            forall k, j :: 0 <= k < |rs| && 0 <= j < |rs[k]| ==> IsCustomerMessage(rs[k][j].user) == es[k].isIncoming
  {
    var rs: seq<seq<TimelineEntry>> := Runs(timeline, Direction());
    RunsUniform(timeline, Direction());
    forall k, j | 0 <= k < |rs| && 0 <= j < |rs[k]|
      ensures IsCustomerMessage(rs[k][j].user) == Emails(ticket, timeline)[k].isIncoming
    {
      EmailOfRun(ticket, timeline, k);
      assert Direction()(rs[k][j]) == Direction()(rs[k][0]);
    }
  }
}
