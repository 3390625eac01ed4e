/**
 * The model-call client (src/llm_summarizer.py): the rate-limit wait, the
 * capped exponential backoff, the bounded retry loop around the model call,
 * the tolerant reading of the model's reply into seven sections and a
 * metadata object, and the re-serialisation of a parsed summary.
 *
 * The model service, the clock and the random jitter come in as a `World`:
 * the outcome of each attempt's call, each attempt's jitter draw and the two
 * clock readings of one summary.
 */
module LlmSummarizer {
  import opened Wrappers
  import opened Text
  import opened Seqs
  import opened Json
  import opened Sections

  const ModelName: string := "gemini-2.5-flash-lite"
  /** Seconds between calls: 15 requests per minute. */
  const DefaultInterval: real := 4.0
  const MaxRetries: nat := 5
  const MaxBackoffTime: real := 300.0
  const BaseBackoffTime: real := 60.0

  // ---------------------------------------------------------------------
  // _handle_rate_limit_with_backoff
  // ---------------------------------------------------------------------

  /** `2 ** n` */
  function Pow2(n: nat): (r: nat)
    ensures r >= 1
  {
    if n == 0 then 1 else 2 * Pow2(n - 1)
  }

  lemma {:induction false} Pow2Monotone(a: nat, b: nat)
    requires a <= b
    ensures Pow2(a) <= Pow2(b)
    decreases b
  {
    if a < b {
      Pow2Monotone(a, b - 1);
    }
  }

  /** `min(60 * 2**attempt * jitter, 300)`: the wait after a transient failure of attempt `attempt`. */
  function Backoff(attempt: nat, jitter: real): (wait: real)
    ensures wait <= MaxBackoffTime
  {
    Capped(BaseBackoffTime * Pow2(attempt) as real * jitter)
  }

  /** `min(raw, MAX_BACKOFF_TIME)` */
  function Capped(raw: real): real
  {
    if raw < MaxBackoffTime then raw else MaxBackoffTime
  }

  /** A positive jitter (the draws lie in [0.8, 1.2]) gives a positive wait. */
  lemma BackoffPositive(attempt: nat, jitter: real)
    requires jitter > 0.0
    ensures 0.0 < Backoff(attempt, jitter) <= MaxBackoffTime
  {
    assert Pow2(attempt) as real >= 1.0;
    assert BaseBackoffTime * Pow2(attempt) as real > 0.0;
  }

  /** For a fixed jitter the wait never shrinks from one attempt to a later one. */
  lemma BackoffMonotone(a: nat, b: nat, jitter: real)
    requires a <= b && jitter >= 0.0
    ensures Backoff(a, jitter) <= Backoff(b, jitter)
  {
    Pow2Monotone(a, b);
    var pa, pb := Pow2(a) as real, Pow2(b) as real;
    var ra, rb := BaseBackoffTime * pa * jitter, BaseBackoffTime * pb * jitter;
    ScaleMonotone(BaseBackoffTime * pa, BaseBackoffTime * pb, jitter);
    CappedMonotone(ra, rb);
  }

  /** The cap keeps the order of its arguments. */
  lemma CappedMonotone(x: real, y: real)
    requires x <= y
    ensures Capped(x) <= Capped(y)
  {
  }

  /** Scaling by a non-negative factor keeps the order. */
  lemma ScaleMonotone(x: real, y: real, c: real)
    requires c >= 0.0 && x <= y
    ensures x * c <= y * c
  {
    assert y * c - x * c == (y - x) * c;
  }

  /** From the fourth attempt on, any jitter the source can draw hits the 300-second cap. */
  lemma BackoffCapped(attempt: nat, jitter: real)
    requires attempt >= 3 && jitter >= 0.8
    ensures Backoff(attempt, jitter) == MaxBackoffTime
  {
    Pow2Monotone(3, attempt);
    assert Pow2(3) == 8;
    var p := Pow2(attempt) as real;
    assert p >= 8.0;
    assert BaseBackoffTime * p * jitter >= 60.0 * 8.0 * 0.8 by {
      assert BaseBackoffTime * p >= 480.0;
      assert (BaseBackoffTime * p) * jitter >= 480.0 * jitter;
    }
  }

  // ---------------------------------------------------------------------
  // _wait_for_rate_limit
  // ---------------------------------------------------------------------

  /**
   * The sleep before a call, given the clock reading `now` and the time of the
   * last successful call: none once `interval` has passed, otherwise the rest
   * of the interval.
   */
  function RateLimitWait(now: real, lastCallTime: real, interval: real): (wait: Option<real>)
    ensures wait.Some? <==> now - lastCallTime < interval
    ensures wait.Some? ==> wait.value > 0.0 && now + wait.value == lastCallTime + interval
  {
    var elapsed := now - lastCallTime;
    if elapsed < interval then Some(interval - elapsed) else None
  }

  // ---------------------------------------------------------------------
  // The parsed summary
  // ---------------------------------------------------------------------

  /**
   * `_parse_response`'s dictionary: the case number, the sections that were
   * found (a section that was not found is absent, Python's None), and the
   * metadata (the empty object unless a JSON block decoded).
   */
  datatype Summary = Summary(caseNumber: string, sections: map<Section, string>, metadata: Json)

  const EmptyObject: Json := JObject(map[])

  // ---------------------------------------------------------------------
  // Section headings: `##\s*<English>[（(]?<Japanese>[）)]?\s*\n`, ignoring case
  // ---------------------------------------------------------------------

  /**
   * The heading of a section: its English words (lower case), whether a
   * trailing "s" is optional ("Error codes?"), and the Japanese word, which
   * five of the seven headings require.
   */
  datatype Heading = Heading(english: string, optionalS: bool, japanese: Option<string>)

  /** The words of each section's heading pattern: English words, optional plural "s", Japanese word. */
  function HeadingOf(s: Section): Heading
  {
    match s
    case Symptoms => Heading("symptoms", false, Some("現象"))
    case Environment => Heading("environment", false, Some("環境"))
    case ErrorCodes => Heading("error code", true, None)
    case CustomerAsk => Heading("customer ask", false, Some("顧客要望"))
    case OurActions => Heading("our actions", false, Some("対応内容"))
    case Outcome => Heading("outcome", false, Some("結果"))
    case NextStep => Heading("next step", false, None)
  }

  /**
   * `c` matches the lower-case pattern letter `p` under `re.IGNORECASE`:
   * itself, its ASCII capital, and the four non-ASCII letters the regex
   * engine also matches to letters of these headings: LATIN CAPITAL LETTER I
   * WITH DOT ABOVE and LATIN SMALL LETTER DOTLESS I for `i`, LATIN SMALL
   * LETTER LONG S for `s`, KELVIN SIGN for `k`.
   */
  predicate FoldsTo(c: char, p: char)
  {
    LowerAscii(c) == p || (p == 'i' && (c == '\U{130}' || c == '\U{131}'))
    || (p == 's' && c == 'ſ') || (p == 'k' && c == 'K')
  }

  /** `word` (lower case) matches, ignoring case, at position `i` of `t`. */
  predicate FoldedAt(t: string, word: string, i: nat)
  {
    i + |word| <= |t| && forall j :: 0 <= j < |word| ==> FoldsTo(t[i + j], word[j])
  }

  /** A capitalised occurrence of a lower-case word is a case-insensitive match. */
  lemma FoldedCapitalized(t: string, word: string, i: nat)
    requires word != [] && i + |word| <= |t|
    requires FoldsTo(t[i], word[0])
    requires t[i + 1..i + |word|] == word[1..]
    requires forall j :: 0 <= j < |word| ==> LowerAscii(word[j]) == word[j]
    ensures FoldedAt(t, word, i)
  {
    forall j | 1 <= j < |word|
      ensures FoldsTo(t[i + j], word[j])
    {
      assert t[i + j] == t[i + 1..i + |word|][j - 1];
    }
  }

  /** Position after an optional character from `options` at `i`. */
  function Optional(t: string, i: nat, options: string): (k: nat)
    requires i <= |t|
    ensures k == i || (k == i + 1 && k <= |t| && t[i] in options)
  {
    if i < |t| && t[i] in options then i + 1 else i
  }

  /**
   * `\s*\n` from position `i`: the greedy whitespace run gives back characters
   * until a newline follows, so the newline matched is the last one of the
   * run; the result is the position after it, or None when the run has none.
   */
  function LastNewlineIn(t: string, lo: nat, hi: nat): (r: Option<nat>)
    requires lo <= hi <= |t|
    ensures r.Some? ==> lo < r.value <= hi && t[r.value - 1] == '\n'
                        && forall j :: r.value <= j < hi ==> t[j] != '\n'
    ensures r.None? ==> forall j :: lo <= j < hi ==> t[j] != '\n'
    decreases hi - lo
  {
    if hi == lo then None
    else if t[hi - 1] == '\n' then Some(hi)
    else LastNewlineIn(t, lo, hi - 1)
  }

  /** After the English words (and the optional "s"): the position the Japanese part starts at, if they match at `q`. */
  function AfterEnglish(t: string, q: nat, h: Heading): (r: Option<nat>)
    ensures r.Some? ==> q <= r.value <= |t|
  {
    if !FoldedAt(t, h.english, q) then None
    else
      var e := q + |h.english|;
      Some(if h.optionalS && e < |t| && FoldsTo(t[e], 's') then e + 1 else e)
  }

  /** After `[（(]?<Japanese>[）)]?`, or at once for a heading without a Japanese word. */
  function AfterJapanese(t: string, e: nat, h: Heading): (r: Option<nat>)
    requires e <= |t|
    ensures r.Some? ==> e <= r.value <= |t|
  {
    match h.japanese
    case None => Some(e)
    case Some(word) =>
      var o := Optional(t, e, "（(");
      if OccursAt(t, word, o) then Some(Optional(t, o + |word|, "）)")) else None
  }

  /** Where heading `h` matching at `p` ends (just after its newline), if it matches there. */
  function HeadingEnd(t: string, p: nat, h: Heading): (r: Option<nat>)
    ensures r.Some? ==> p + 3 <= r.value <= |t| && t[r.value - 1] == '\n' && OccursAt(t, "##", p)
  {
    if !OccursAt(t, "##", p) then None
    else HeadingRest(t, p + 2 + SpaceRun(t, p + 2), h)
  }

  /** The heading after `##` and its whitespace (from `q`): the words, then `\s*\n`. */
  function HeadingRest(t: string, q: nat, h: Heading): (r: Option<nat>)
    requires q <= |t|
    ensures r.Some? ==> q < r.value <= |t| && t[r.value - 1] == '\n'
  {
    match AfterEnglish(t, q, h)
    case None => None
    case Some(e) =>
      match AfterJapanese(t, e, h)
      case None => None
      case Some(k) => LastNewlineIn(t, k, k + SpaceRun(t, k))
  }

  /** The body stops before "\n##", "\n---" or "\n```", or at `$` (the end, or just before a final newline). */
  predicate BodyEndsAt(t: string, j: nat)
  {
    OccursAt(t, "\n##", j) || OccursAt(t, "\n---", j) || OccursAt(t, "\n```", j)
    || j == |t| || (j + 1 == |t| && t[j] == '\n')
  }

  /** `BodyEndsAt` as a function value, for the leftmost-position search. */
  function BodyEnder(t: string): nat -> bool
  {
    (j: nat) => BodyEndsAt(t, j)
  }

  /** The lazy body `(.*?)` from `b`: the first stop at or after `b`. */
  function BodyEnd(t: string, b: nat): (j: nat)
    requires b <= |t|
    ensures b <= j <= |t| && BodyEndsAt(t, j)
    ensures forall k :: b <= k < j ==> !BodyEndsAt(t, k)
  {
    assert forall k :: b <= k <= |t| ==> BodyEnder(t)(k) == BodyEndsAt(t, k);
    assert BodyEnder(t)(|t|);
    First(BodyEnder(t), b, |t|)
  }

  /** Whether heading `h` matches at a position, as a function value. */
  function HeadingFinder(t: string, h: Heading): nat -> bool
  {
    (p: nat) => HeadingEnd(t, p, h).Some?
  }

  /** The text of section `s` in `t`, if its heading occurs. */
  function ExtractSection(t: string, s: Section): (r: Option<string>)
  {
    Extract(t, HeadingOf(s))
  }

  /**
   * `re.search(pattern, text, re.DOTALL | re.IGNORECASE)` for a heading: the
   * leftmost heading, then the shortest body up to a stop; the section is the
   * body stripped.
   */
  function Extract(t: string, h: Heading): (r: Option<string>)
  {
    match SectionBody(t, h)
    case None => None
    case Some(body) => Some(Strip(body))
  }

  /** The body after the leftmost heading `h`, unstripped. */
  function SectionBody(t: string, h: Heading): (r: Option<string>)
  {
    var p := First(HeadingFinder(t, h), 0, |t|);
    if p > |t| then None
    else
      var b := HeadingEnd(t, p, h).value;
      Some(t[b..BodyEnd(t, b)])
  }

  /**
   * A section is found exactly when its heading matches somewhere; it is then
   * the stripped text between the leftmost heading and the first stop after
   * it, a text with no stop inside.
   */
  lemma ExtractSpec(t: string, h: Heading)
    ensures Extract(t, h).None? <==> forall p :: 0 <= p <= |t| ==> HeadingEnd(t, p, h).None?
    ensures Extract(t, h).Some? ==>
              exists p, b, j :: 0 <= p <= |t| && HeadingEnd(t, p, h) == Some(b) && b <= j <= |t|
                && (forall p' :: 0 <= p' < p ==> HeadingEnd(t, p', h).None?)
                && BodyEndsAt(t, j) && (forall k :: b <= k < j ==> !BodyEndsAt(t, k))
                && SectionBody(t, h) == Some(t[b..j])
  {
    FinderSpec(t, h);
    var p := First(HeadingFinder(t, h), 0, |t|);
    if p <= |t| {
      NoHeadingBefore(t, h, p);
      ExtractFound(t, h, p);
    }
  }

  /** `HeadingFinder` tests exactly for a match. */
  lemma FinderSpec(t: string, h: Heading)
    ensures forall q :: HeadingFinder(t, h)(q) == HeadingEnd(t, q, h).Some?
  {
  }

  /** No heading starts before the leftmost one. */
  lemma NoHeadingBefore(t: string, h: Heading, p: nat)
    requires p == First(HeadingFinder(t, h), 0, |t|)
    ensures forall p' :: 0 <= p' < p ==> HeadingEnd(t, p', h).None?
  {
    forall p' | 0 <= p' < p
      ensures HeadingEnd(t, p', h).None?
    {
      assert !HeadingFinder(t, h)(p');
    }
  }

  /** The section when the leftmost heading is at `p`. */
  lemma ExtractFound(t: string, h: Heading, p: nat)
    requires p == First(HeadingFinder(t, h), 0, |t|) && p <= |t|
    ensures HeadingEnd(t, p, h).Some?
    ensures var b := HeadingEnd(t, p, h).value;
            SectionBody(t, h) == Some(t[b..BodyEnd(t, b)])
  {
  }

  // ---------------------------------------------------------------------
  // The metadata block: "```json\s*\n(.*?)\n```" (DOTALL, case-sensitive)
  // ---------------------------------------------------------------------

  /** The closing `\n```` of a metadata block starts at `j`. */
  predicate FenceAt(t: string, j: nat)
  {
    OccursAt(t, "\n```", j)
  }

  /** `FenceAt` as a function value. */
  function FenceFinder(t: string): nat -> bool
  {
    (j: nat) => FenceAt(t, j)
  }

  /** The first closing fence at or after `b`, if any. */
  function ClosingFence(t: string, b: nat): (r: Option<nat>)
    requires b <= |t|
    ensures r.Some? ==> b <= r.value <= |t| && FenceAt(t, r.value)
    ensures r.Some? ==> forall k :: b <= k < r.value ==> !FenceAt(t, k)
    ensures r.None? ==> forall k :: b <= k <= |t| ==> !FenceAt(t, k)
  {
    var j := First(FenceFinder(t), b, |t|);
    assert forall k :: b <= k <= |t| ==> FenceFinder(t)(k) == FenceAt(t, k);
    if j <= |t| then Some(j) else None
  }

  /**
   * The greedy `\s*` before the newline gives back one character at a time:
   * the newlines of the run `[lo, hi)` are tried from the last to the first,
   * and the first one after which a closing fence follows wins. The result is
   * the block's start and end.
   */
  function TryNewlines(t: string, lo: nat, hi: nat): (r: Option<(nat, nat)>)
    requires lo <= hi <= |t|
    ensures r.Some? ==> lo < r.value.0 <= hi && t[r.value.0 - 1] == '\n'
                        && ClosingFence(t, r.value.0) == Some(r.value.1)
    decreases hi - lo
  {
    if hi == lo then None
    else if t[hi - 1] == '\n' && ClosingFence(t, hi).Some? then Some((hi, ClosingFence(t, hi).value))
    else TryNewlines(t, lo, hi - 1)
  }

  /** The block opening at `p`, if "```json" is there and a newline and a closing fence follow. */
  function BlockAt(t: string, p: nat): (r: Option<(nat, nat)>)
    ensures r.Some? ==> OccursAt(t, "```json", p) && p + 8 <= r.value.0 <= r.value.1 <= |t|
                        && AllSpace(t[p + 7..r.value.0 - 1]) && t[r.value.0 - 1] == '\n'
                        && FenceAt(t, r.value.1)
                        && forall k :: r.value.0 <= k < r.value.1 ==> !FenceAt(t, k)
  {
    if OccursAt(t, "```json", p) then TryNewlines(t, p + 7, p + 7 + SpaceRun(t, p + 7)) else None
  }

  /** Whether a metadata block opens at a position, as a function value. */
  function BlockFinder(t: string): nat -> bool
  {
    (p: nat) => BlockAt(t, p).Some?
  }

  /** The text of the leftmost metadata block. */
  function JsonBlock(t: string): (r: Option<string>)
    ensures r.Some? ==> exists p :: 0 <= p <= |t| && BlockAt(t, p).Some?
                          && r.value == t[BlockAt(t, p).value.0..BlockAt(t, p).value.1]
    ensures r.None? <==> forall p :: 0 <= p <= |t| ==> BlockAt(t, p).None?
  {
    var p := First(BlockFinder(t), 0, |t|);
    assert forall q :: 0 <= q <= |t| ==> BlockFinder(t)(q) == BlockAt(t, q).Some?;
    if p <= |t| then
      var block := BlockAt(t, p).value;
      Some(t[block.0..block.1])
    else None
  }

  // ---------------------------------------------------------------------
  // _parse_response
  // ---------------------------------------------------------------------

  /** The extractor of each section's text. */
  function Extractor(t: string): Section -> Option<string>
  {
    s => ExtractSection(t, s)
  }

  /** The sections found in `t`, visited in the fixed order. */
  function FoundSections(t: string): map<Section, string>
  {
    Collect(AllSections, Extractor(t))
  }

  /** A section is present exactly when its heading occurs, with the text found under it. */
  lemma FoundSectionsSpec(t: string)
    ensures forall s :: s in FoundSections(t) <==> ExtractSection(t, s).Some?
    ensures forall s :: s in FoundSections(t) ==> FoundSections(t)[s] == ExtractSection(t, s).value
  {
    CollectSpec(AllSections, Extractor(t));
    AllSectionsListed();
    forall s ensures Extractor(t)(s) == ExtractSection(t, s) {
    }
  }

  /** A heading as `build_summary_text` writes it, then a body. */
  const RebuiltText: string := "## Symptoms\nfoo"

  /** The same heading as the model is asked to write it, Japanese word in full-width brackets. */
  const ModelText: string := "## Symptoms（現象）\nfoo"

  /** `##` opens a heading at `p`: the rest of the match starts after the whitespace that follows. */
  lemma HeadingEndAt(t: string, p: nat, h: Heading)
    requires OccursAt(t, "##", p)
    ensures HeadingEnd(t, p, h) == HeadingRest(t, p + 2 + SpaceRun(t, p + 2), h)
  {
  }

  /** The English words match but the Japanese one does not: no heading. */
  lemma RestWithoutJapanese(t: string, q: nat, h: Heading, e: nat)
    requires q <= |t| && AfterEnglish(t, q, h) == Some(e) && AfterJapanese(t, e, h).None?
    ensures HeadingRest(t, q, h).None?
  {
  }

  /** The matcher's steps put together. */
  lemma HeadingRestSteps(t: string, q: nat, h: Heading, e: nat, k: nat, r: nat)
    requires q <= |t| && AfterEnglish(t, q, h) == Some(e)
    requires e <= |t| && AfterJapanese(t, e, h) == Some(k)
    requires k <= |t| && LastNewlineIn(t, k, k + SpaceRun(t, k)) == Some(r)
    ensures HeadingRest(t, q, h) == Some(r)
  {
  }

  lemma RebuiltStart()
    ensures OccursAt(RebuiltText, "##", 0) && SpaceRun(RebuiltText, 2) == 1
  {
    assert RebuiltText[0..2] == "##";
    SingleSpace(RebuiltText, 2);
  }

  lemma RebuiltEnglish()
    ensures AfterEnglish(RebuiltText, 3, HeadingOf(Symptoms)) == Some(11)
  {
    assert RebuiltText[4..11] == "ymptoms";
    FoldedCapitalized(RebuiltText, "symptoms", 3);
  }

  lemma RebuiltNoJapanese()
    ensures AfterJapanese(RebuiltText, 11, HeadingOf(Symptoms)).None?
  {
    assert RebuiltText[11] == '\n';
  }

  lemma RebuiltOneHeading(p: nat)
    requires 0 < p <= |RebuiltText|
    ensures !OccursAt(RebuiltText, "##", p)
  {
    if p + 2 <= |RebuiltText| {
      assert RebuiltText[p..p + 2] == [RebuiltText[p], RebuiltText[p + 1]];
      assert RebuiltText[p] != '#' || RebuiltText[p + 1] != '#';
    }
  }

  lemma RebuiltNoHeadingAt(p: nat)
    requires p <= |RebuiltText|
    ensures HeadingEnd(RebuiltText, p, HeadingOf(Symptoms)).None?
  {
    var h := HeadingOf(Symptoms);
    if p == 0 {
      RebuiltStart();
      RebuiltEnglish();
      RebuiltNoJapanese();
      RestWithoutJapanese(RebuiltText, 3, h, 11);
      HeadingEndAt(RebuiltText, 0, h);
    } else {
      RebuiltOneHeading(p);
    }
  }

  /** Without the Japanese word the heading is not found: `build_summary_text`'s output does not parse back. */
  lemma RebuiltHeadingNotFound()
    ensures ExtractSection(RebuiltText, Symptoms).None?
  {
    forall p | 0 <= p <= |RebuiltText|
      ensures HeadingEnd(RebuiltText, p, HeadingOf(Symptoms)).None?
    {
      RebuiltNoHeadingAt(p);
    }
    ExtractSpec(RebuiltText, HeadingOf(Symptoms));
  }

  lemma ModelStart()
    ensures OccursAt(ModelText, "##", 0) && SpaceRun(ModelText, 2) == 1
  {
    assert ModelText[0..2] == "##";
    SingleSpace(ModelText, 2);
  }

  lemma ModelEnglish()
    ensures AfterEnglish(ModelText, 3, HeadingOf(Symptoms)) == Some(11)
  {
    assert ModelText[4..11] == "ymptoms";
    FoldedCapitalized(ModelText, "symptoms", 3);
  }

  lemma ModelJapanese()
    ensures AfterJapanese(ModelText, 11, HeadingOf(Symptoms)) == Some(15)
  {
    assert Optional(ModelText, 11, "（(") == 12;
    assert ModelText[12..14] == "現象";
    assert Optional(ModelText, 14, "）)") == 15;
  }

  lemma ModelNewline()
    ensures LastNewlineIn(ModelText, 15, 15 + SpaceRun(ModelText, 15)) == Some(16)
  {
    assert SpaceRun(ModelText, 15) == 1;
  }

  /** The heading matches at the very start and ends after its newline. */
  lemma ModelHeadingEnd()
    ensures HeadingEnd(ModelText, 0, HeadingOf(Symptoms)) == Some(16)
  {
    var h := HeadingOf(Symptoms);
    ModelStart();
    ModelEnglish();
    ModelJapanese();
    ModelNewline();
    HeadingRestSteps(ModelText, 3, h, 11, 15, 16);
    HeadingEndAt(ModelText, 0, h);
  }

  lemma ModelBody()
    ensures BodyEnd(ModelText, 16) == |ModelText| && ModelText[16..|ModelText|] == "foo"
  {
    assert !BodyEndsAt(ModelText, 16) && !BodyEndsAt(ModelText, 17) && !BodyEndsAt(ModelText, 18);
  }

  lemma StripFoo()
    ensures Strip("foo") == "foo"
  {
    assert SpaceRunBack("foo", 3) == 0;
    assert SpaceRun("foo", 0) == 0;
  }

  /** A heading at the start of the text is the leftmost one. */
  lemma BodyAtStart(t: string, h: Heading, b: nat)
    requires HeadingEnd(t, 0, h) == Some(b)
    ensures SectionBody(t, h) == Some(t[b..BodyEnd(t, b)])
  {
    assert HeadingFinder(t, h)(0);
  }

  /** With the Japanese word the heading is found at the start, and the body runs to the end of the text. */
  lemma ModelHeadingFound()
    ensures ExtractSection(ModelText, Symptoms) == Some("foo")
  {
    ModelHeadingEnd();
    BodyAtStart(ModelText, HeadingOf(Symptoms), 16);
    ModelBody();
    StripFoo();
  }

  /** A heading spelled in capitals with a dotted capital I, as the regex engine accepts it. */
  const DottedText: string := "## ENV\U{130}RONMENT（環境）\nfoo"

  lemma DottedStart()
    ensures OccursAt(DottedText, "##", 0) && SpaceRun(DottedText, 2) == 1
  {
    assert DottedText[0..2] == "##";
    SingleSpace(DottedText, 2);
  }

  lemma DottedEnglish()
    ensures AfterEnglish(DottedText, 3, HeadingOf(Environment)) == Some(14)
  {
    var word := "environment";
    forall j | 0 <= j < |word|
      ensures FoldsTo(DottedText[3 + j], word[j])
    {
      assert DottedText[3..14] == "ENV\U{130}RONMENT";
      assert DottedText[3 + j] == DottedText[3..14][j];
    }
    assert FoldedAt(DottedText, word, 3);
  }

  lemma DottedJapanese()
    ensures AfterJapanese(DottedText, 14, HeadingOf(Environment)) == Some(18)
  {
    assert Optional(DottedText, 14, "（(") == 15;
    assert DottedText[15..17] == "環境";
    assert Optional(DottedText, 17, "）)") == 18;
  }

  lemma DottedNewline()
    ensures LastNewlineIn(DottedText, 18, 18 + SpaceRun(DottedText, 18)) == Some(19)
  {
    assert SpaceRun(DottedText, 18) == 1;
  }

  lemma DottedBody()
    ensures BodyEnd(DottedText, 19) == |DottedText| && DottedText[19..|DottedText|] == "foo"
  {
    assert !BodyEndsAt(DottedText, 19) && !BodyEndsAt(DottedText, 20) && !BodyEndsAt(DottedText, 21);
  }

  /** `ENVİRONMENT` matches `environment` under `re.IGNORECASE`, so the section is found. */
  lemma DottedHeadingFound()
    ensures ExtractSection(DottedText, Environment) == Some("foo")
  {
    var h := HeadingOf(Environment);
    DottedStart();
    DottedEnglish();
    DottedJapanese();
    DottedNewline();
    HeadingRestSteps(DottedText, 3, h, 14, 18, 19);
    HeadingEndAt(DottedText, 0, h);
    BodyAtStart(DottedText, h, 19);
    DottedBody();
    StripFoo();
  }

  /** The metadata: the decoded block; the empty object when there is no block or it does not decode; an error when decoding crashes. */
  function Metadata(decode: Decoder, t: string): (r: Result<Json, string>)
    ensures JsonBlock(t).None? ==> r == Ok(EmptyObject)
    ensures JsonBlock(t).Some? && decode(JsonBlock(t).value).SyntaxError? ==> r == Ok(EmptyObject)
    ensures JsonBlock(t).Some? && decode(JsonBlock(t).value).Value? ==> r == Ok(decode(JsonBlock(t).value).value)
    ensures r.Err? <==> JsonBlock(t).Some? && decode(JsonBlock(t).value).Crash?
  {
    match JsonBlock(t)
    case None => Ok(EmptyObject)
    case Some(text) =>
      match decode(text)
      case Value(v) => Ok(v)
      case SyntaxError => Ok(EmptyObject)
      case Crash(message) => Err(message)
  }

  /** What `_parse_response` returns for a reply, or the message of the exception it lets through. */
  function ParseSummary(decode: Decoder, ticketId: string, t: string): (r: Result<Summary, string>)
  {
    match Metadata(decode, t)
    case Ok(metadata) => Ok(Summary(ticketId, FoundSections(t), metadata))
    case Err(e) => Err(e)
  }

  /**
   * The parse keeps the ticket id as case number, finds each section
   * independently of the others, and fails only when the metadata decoder crashes.
   */
  lemma ParseSummarySpec(decode: Decoder, ticketId: string, t: string)
    ensures ParseSummary(decode, ticketId, t).Err? <==> Metadata(decode, t).Err?
    ensures ParseSummary(decode, ticketId, t).Ok? ==>
              var r := ParseSummary(decode, ticketId, t).value;
              r.caseNumber == ticketId && r.metadata == Metadata(decode, t).value
              && forall s :: (s in r.sections <==> ExtractSection(t, s).Some?)
                             && (s in r.sections ==> r.sections[s] == ExtractSection(t, s).value)
  {
    FoundSectionsSpec(t);
  }

  /** `_parse_response`: every section starts unset and is filled in when its pattern matches. */
  method ParseResponse(decode: Decoder, ticketId: string, raw: string) returns (r: Result<Summary, string>)
    ensures r == ParseSummary(decode, ticketId, raw)
  {
    var sections: map<Section, string> := map[];
    for i := 0 to |AllSections|
      invariant sections == Collect(AllSections[..i], Extractor(raw))
    {
      var found := ExtractSection(raw, AllSections[i]);
      assert Extractor(raw)(AllSections[i]) == found;
      CollectStep(AllSections, i, Extractor(raw));
      if found.Some? {
        sections := sections[AllSections[i] := found.value];
      }
    }
    assert AllSections[..|AllSections|] == AllSections;
    var metadata: Json := EmptyObject;
    var block := JsonBlock(raw);
    if block.Some? {
      match decode(block.value)
      case Value(v) =>
        metadata := v;
      case SyntaxError =>
      case Crash(message) =>
        return Err(message);
    }
    return Ok(Summary(ticketId, sections, metadata));
  }

  // ---------------------------------------------------------------------
  // build_summary_text
  // ---------------------------------------------------------------------

  /** `section.replace("_", " ").title()`: the key with spaces for underscores and every word capitalised. */
  function Title(s: Section): string
  {
    match s
    case Symptoms => "Symptoms"
    case Environment => "Environment"
    case ErrorCodes => "Error Codes"
    case CustomerAsk => "Customer Ask"
    case OurActions => "Our Actions"
    case Outcome => "Outcome"
    case NextStep => "Next Step"
  }

  /** The fixed header: the title line, a blank, the case number, a blank. */
  function HeaderLines(caseNumber: string): seq<string>
  {
    ["## 【AI要約】", "", "### ケース番号: " + caseNumber, ""]
  }

  /** A section contributes its heading, its text and a blank line when its text is non-empty, and nothing otherwise. */
  function SectionLines(p: Summary, s: Section): seq<string>
  {
    if Shown(p)(s) then ["## " + Title(s), p.sections[s], ""] else []
  }

  /** The sections `build_summary_text` writes out: those present with a non-empty text. */
  function Shown(p: Summary): Section -> bool
  {
    s => s in p.sections && p.sections[s] != ""
  }

  /** `SectionLines` as a function value. */
  function SectionWriter(p: Summary): Section -> seq<string>
  {
    s => SectionLines(p, s)
  }

  /** The lines of the summary text, in order. */
  function SummaryLines(p: Summary): seq<string>
  {
    HeaderLines(p.caseNumber) + FlatMap(AllSections, SectionWriter(p))
  }

  /** `build_summary_text`: the header, then each non-empty section in the fixed order, joined by newlines. */
  method BuildSummaryText(p: Summary) returns (text: string)
    ensures text == Join("\n", SummaryLines(p))
  {
    var parts := ["## 【AI要約】", "", "### ケース番号: " + p.caseNumber, ""];
    for i := 0 to |AllSections|
      invariant parts == HeaderLines(p.caseNumber) + FlatMap(AllSections[..i], SectionWriter(p))
    {
      var s := AllSections[i];
      FlatMapStep(AllSections, i, SectionWriter(p));
      assert SectionWriter(p)(s) == SectionLines(p, s);
      if s in p.sections && p.sections[s] != "" {
        parts := parts + ["## " + Title(s), p.sections[s], ""];
      }
    }
    assert AllSections[..|AllSections|] == AllSections;
    text := Join("\n", parts);
  }

  /** A summary without non-empty sections renders as the header alone. */
  lemma SummaryLinesHeaderOnly(p: Summary)
    requires forall s :: s in p.sections ==> p.sections[s] == ""
    ensures SummaryLines(p) == HeaderLines(p.caseNumber)
  {
    FlatMapEmpty(AllSections, SectionWriter(p));
  }

  /** The text has four header lines and three lines for each section that is written out. */
  lemma SummaryLinesCount(p: Summary)
    ensures |SummaryLines(p)| == 4 + 3 * Count(AllSections, Shown(p))
    ensures |SummaryLines(p)| <= 4 + 3 * |AllSections|
  {
    FlatMapCount(AllSections, SectionWriter(p), Shown(p), 3);
  }

  /**
   * The lines of the `k`-th section follow the header and the lines of the
   * sections before it: sections appear in the fixed order, each once.
   */
  lemma SummaryLinesPlace(p: Summary, k: nat)
    requires k < |AllSections|
    ensures var lines := SummaryLines(p);
            var before := 4 + |FlatMap(AllSections[..k], SectionWriter(p))|;
            var own := SectionLines(p, AllSections[k]);
            before + |own| <= |lines| && lines[before..before + |own|] == own
  {
    var w := SectionWriter(p);
    var pre, post := AllSections[..k], AllSections[k + 1..];
    assert AllSections == pre + [AllSections[k]] + post;
    FlatMapAppend(pre + [AllSections[k]], post, w);
    FlatMapAppend(pre, [AllSections[k]], w);
    FlatMapStep([AllSections[k]], 0, w);
    assert [AllSections[k]][..0] == [];
    assert [AllSections[k]][..1] == [AllSections[k]];
  }
  // ---------------------------------------------------------------------
  // generate_summary: the rate-limit wait and the bounded retry loop
  // ---------------------------------------------------------------------

  /** The three service errors after which the call is retried. */
  datatype TransientError = ResourceExhausted | DeadlineExceeded | ServiceUnavailable

  /** What one call of the model service comes to. */
  datatype CallOutcome =
    | Response(text: string)                              // a reply whose text can be read
    | Unreadable(message: string)                         // a reply whose `.text` raises
    | Transient(kind: TransientError, message: string)    // one of the retried errors
    | Failure(message: string)                            // any other error of the call

  /**
   * What the outside world does during one `generate_summary`: the outcome of
   * the call of each attempt, the jitter drawn after each attempt that fails
   * transiently, the clock reading of the rate-limit wait, and the clock
   * reading taken when a call is answered.
   */
  datatype World = World(outcomes: seq<CallOutcome>, jitters: seq<real>, now: real, stamp: real)

  /** The world answers every attempt the loop can make. */
  predicate Complete(w: World)
  {
    |w.outcomes| >= MaxRetries && |w.jitters| >= MaxRetries
  }

  /** A `time.sleep` of the client: the rest of the rate-limit interval, or the backoff of a failed attempt with its jitter draw. */
  datatype Sleep = RateLimitSleep(seconds: real) | BackoffSleep(attempt: nat, jitter: real)

  /** How long a sleep lasts. */
  function Seconds(s: Sleep): real
  {
    match s
    case RateLimitSleep(w) => w
    case BackoffSleep(a, j) => Backoff(a, j)
  }

  /**
   * What a client keeps and does: the time of the last answered call, the
   * number of service calls made, and the sleeps taken, in order.
   */
  datatype Session = Session(lastCallTime: real, calls: nat, sleeps: seq<Sleep>)

  /** `(parsed_summary, raw_response)` */
  datatype Reply = Reply(parsed: Summary, raw: string)

  /** How the loop reads a reply's text: `_parse_response` for one ticket. */
  type Parser = string -> Result<Summary, string>

  function ReplyParser(decode: Decoder, ticketId: string): Parser
  {
    text => ParseSummary(decode, ticketId, text)
  }

  /** A new client: `last_call_time = 0.0`. */
  const NewSession: Session := Session(0.0, 0, [])

  /** The message of the RuntimeError raised for a non-retried error. */
  function ApiError(message: string): string
  {
    "Gemini API error: " + message
  }

  /** The message of the RuntimeError raised once every attempt failed transiently. */
  function GaveUp(lastError: string): string
  {
    "Gemini API error after " + NatToString(MaxRetries) + " retries: " + lastError
  }

  /** `_wait_for_rate_limit` at clock reading `now`: a sleep when the interval has not passed. */
  function Waited(now: real, interval: real, st: Session): (r: Session)
    ensures r.lastCallTime == st.lastCallTime && r.calls == st.calls
    ensures match RateLimitWait(now, st.lastCallTime, interval)
            case None => r.sleeps == st.sleeps
            case Some(w) => r.sleeps == st.sleeps + [RateLimitSleep(w)]
  {
    match RateLimitWait(now, st.lastCallTime, interval)
    case None => st
    case Some(w) => st.(sleeps := st.sleeps + [RateLimitSleep(w)])
  }

  /**
   * The end of the loop on a call that did not fail transiently: an answered
   * call stamps `last_call_time` with the clock, then the reply is read and
   * parsed; any error becomes an API error.
   */
  function Settle(parse: Parser, stamp: real, st: Session, outcome: CallOutcome): (Result<Reply, string>, Session)
    requires !outcome.Transient?
  {
    var answered := st.(lastCallTime := stamp);
    match outcome
    case Response(text) =>
      (match parse(text)
       case Ok(parsed) => Ok(Reply(parsed, text))
       case Err(e) => Err(ApiError(e)), answered)
    case Unreadable(m) => (Err(ApiError(m)), answered)
    case Failure(m) => (Err(ApiError(m)), st)
  }

  /** Attempts `attempt` to `MaxRetries - 1` of the loop, with the error of the previous attempt. */
  function Retry(w: World, parse: Parser, st: Session, attempt: nat, lastError: string): (Result<Reply, string>, Session)
    requires Complete(w) && attempt <= MaxRetries
    decreases MaxRetries - attempt
  {
    if attempt == MaxRetries then (Err(GaveUp(lastError)), st)
    else
      var outcome := w.outcomes[attempt];
      var called := st.(calls := st.calls + 1);
      if outcome.Transient? then
        Retry(w, parse, called.(sleeps := st.sleeps + [BackoffSleep(attempt, w.jitters[attempt])]), attempt + 1, outcome.message)
      else Settle(parse, w.stamp, called, outcome)
  }

  /** `generate_summary`: the rate-limit wait, then the loop from the first attempt, with no error yet. */
  function Generate(w: World, decode: Decoder, ticketId: string, interval: real, st: Session): (Result<Reply, string>, Session)
    requires Complete(w)
  {
    Retry(w, ReplyParser(decode, ticketId), Waited(w.now, interval, st), 0, "None")
  }

  // The loop described without the loop.

  /** The first attempt from `attempt` on whose call does not fail transiently; `MaxRetries` when there is none. */
  function FirstSettled(w: World, attempt: nat): (i: nat)
    requires Complete(w) && attempt <= MaxRetries
    ensures attempt <= i <= MaxRetries
    ensures forall j :: attempt <= j < i ==> w.outcomes[j].Transient?
    ensures i < MaxRetries ==> !w.outcomes[i].Transient?
    decreases MaxRetries - attempt
  {
    if attempt == MaxRetries || !w.outcomes[attempt].Transient? then attempt else FirstSettled(w, attempt + 1)
  }

  /** The backoff sleeps of the attempts from `attempt` up to `i`. */
  function Backoffs(w: World, attempt: nat, i: nat): (r: seq<Sleep>)
    requires Complete(w) && attempt <= i <= MaxRetries
    ensures |r| == i - attempt
    decreases i - attempt
  {
    if attempt == i then [] else [BackoffSleep(attempt, w.jitters[attempt])] + Backoffs(w, attempt + 1, i)
  }

  /**
   * The loop as a run of transient failures, each followed by its backoff,
   * and then either the give-up error (the run used every attempt) or the
   * settling of the first call that did not fail transiently.
   */
  function RetryResult(w: World, parse: Parser, st: Session, attempt: nat, lastError: string): (Result<Reply, string>, Session)
    requires Complete(w) && attempt <= MaxRetries
  {
    var i := FirstSettled(w, attempt);
    RunEnd(w, parse, st.(calls := st.calls + (i - attempt), sleeps := st.sleeps + Backoffs(w, attempt, i)), i,
           if i == attempt then lastError else w.outcomes[i - 1].message)
  }

  /** After the run of transient failures up to attempt `i`: give up, or settle the call of attempt `i`. */
  function RunEnd(w: World, parse: Parser, st: Session, i: nat, lastError: string): (Result<Reply, string>, Session)
    requires Complete(w) && i <= MaxRetries
    requires i < MaxRetries ==> !w.outcomes[i].Transient?
  {
    if i == MaxRetries then (Err(GaveUp(lastError)), st)
    else Settle(parse, w.stamp, st.(calls := st.calls + 1), w.outcomes[i])
  }

  /** The loop and its loop-free description agree on every input. */
  lemma {:induction false} RetryCharacterized(w: World, parse: Parser, st: Session, attempt: nat, lastError: string)
    requires Complete(w) && attempt <= MaxRetries
    ensures Retry(w, parse, st, attempt, lastError) == RetryResult(w, parse, st, attempt, lastError)
    decreases MaxRetries - attempt
  {
    if attempt == MaxRetries || !w.outcomes[attempt].Transient? {
      assert st.sleeps + Backoffs(w, attempt, attempt) == st.sleeps;
      assert st.(calls := st.calls + 0, sleeps := st.sleeps) == st;
    } else {
      var next := st.(calls := st.calls + 1, sleeps := st.sleeps + [BackoffSleep(attempt, w.jitters[attempt])]);
      RetryCharacterized(w, parse, next, attempt + 1, w.outcomes[attempt].message);
      RetryResultStep(w, parse, st, attempt, lastError);
    }
  }

  /** A transient failure moves the loop-free description one attempt on. */
  lemma RetryResultStep(w: World, parse: Parser, st: Session, attempt: nat, lastError: string)
    requires Complete(w) && attempt < MaxRetries && w.outcomes[attempt].Transient?
    ensures var next := st.(calls := st.calls + 1, sleeps := st.sleeps + [BackoffSleep(attempt, w.jitters[attempt])]);
            RetryResult(w, parse, st, attempt, lastError) == RetryResult(w, parse, next, attempt + 1, w.outcomes[attempt].message)
  {
    var i := FirstSettled(w, attempt + 1);
    assert FirstSettled(w, attempt) == i;
    assert Backoffs(w, attempt, i) == [BackoffSleep(attempt, w.jitters[attempt])] + Backoffs(w, attempt + 1, i);
    assert st.sleeps + Backoffs(w, attempt, i) == st.sleeps + [BackoffSleep(attempt, w.jitters[attempt])] + Backoffs(w, attempt + 1, i);
  }

  // What generate_summary promises.

  /**
   * `generate_summary` in full: the attempts up to the first call that does
   * not fail transiently each cost a call and a backoff sleep after the
   * rate-limit wait; the run then ends in the give-up error carrying the last
   * transient error, or in the reply of that call, or in an API error, and
   * only an answered call moves `last_call_time`.
   */
  lemma GenerateOutcome(w: World, decode: Decoder, ticketId: string, interval: real, st: Session)
    requires Complete(w)
    ensures var (r, st') := Generate(w, decode, ticketId, interval, st);
            var i := FirstSettled(w, 0);
            && st'.calls == st.calls + (if i < MaxRetries then i + 1 else MaxRetries)
            && st'.sleeps == Waited(w.now, interval, st).sleeps + Backoffs(w, 0, i)
            && (i == MaxRetries ==> r == Err(GaveUp(w.outcomes[MaxRetries - 1].message)) && st'.lastCallTime == st.lastCallTime)
            && (i < MaxRetries && w.outcomes[i].Response? ==>
                  st'.lastCallTime == w.stamp
                  && r == match ParseSummary(decode, ticketId, w.outcomes[i].text)
                          case Ok(parsed) => Ok(Reply(parsed, w.outcomes[i].text))
                          case Err(e) => Err(ApiError(e)))
            && (i < MaxRetries && w.outcomes[i].Unreadable? ==> st'.lastCallTime == w.stamp && r == Err(ApiError(w.outcomes[i].message)))
            && (i < MaxRetries && w.outcomes[i].Failure? ==> st'.lastCallTime == st.lastCallTime && r == Err(ApiError(w.outcomes[i].message)))
  {
    RetryCharacterized(w, ReplyParser(decode, ticketId), Waited(w.now, interval, st), 0, "None");
  }

  /** Every `generate_summary` calls the service at least once and at most `MAX_RETRIES` times. */
  lemma GenerateCallsBounded(w: World, decode: Decoder, ticketId: string, interval: real, st: Session)
    requires Complete(w)
    ensures var st' := Generate(w, decode, ticketId, interval, st).1;
            st.calls + 1 <= st'.calls <= st.calls + MaxRetries
  {
    GenerateOutcome(w, decode, ticketId, interval, st);
  }

  /** The first attempt after a run of transient failures is the one `FirstSettled` finds. */
  lemma {:induction false} FirstSettledAt(w: World, attempt: nat, i: nat)
    requires Complete(w) && attempt <= i < MaxRetries
    requires forall j :: attempt <= j < i ==> w.outcomes[j].Transient?
    requires !w.outcomes[i].Transient?
    ensures FirstSettled(w, attempt) == i
    decreases i - attempt
  {
    if attempt < i {
      FirstSettledAt(w, attempt + 1, i);
    }
  }

  /**
   * `generate_summary` returns a summary exactly when some attempt's call is
   * answered, every earlier attempt failed transiently, and the reply parses.
   */
  lemma GenerateSucceedsIff(w: World, decode: Decoder, ticketId: string, interval: real, st: Session)
    requires Complete(w)
    ensures Generate(w, decode, ticketId, interval, st).0.Ok?
            <==> exists i :: 0 <= i < MaxRetries && (forall j :: 0 <= j < i ==> w.outcomes[j].Transient?)
                             && w.outcomes[i].Response? && ParseSummary(decode, ticketId, w.outcomes[i].text).Ok?
  {
    GenerateOutcome(w, decode, ticketId, interval, st);
    var r := Generate(w, decode, ticketId, interval, st).0;
    var first := FirstSettled(w, 0);
    if r.Ok? {
      assert 0 <= first < MaxRetries && (forall j :: 0 <= j < first ==> w.outcomes[j].Transient?)
             && w.outcomes[first].Response? && ParseSummary(decode, ticketId, w.outcomes[first].text).Ok?;
    }
    if exists i :: 0 <= i < MaxRetries && (forall j :: 0 <= j < i ==> w.outcomes[j].Transient?)
                   && w.outcomes[i].Response? && ParseSummary(decode, ticketId, w.outcomes[i].text).Ok? {
      var i :| 0 <= i < MaxRetries && (forall j :: 0 <= j < i ==> w.outcomes[j].Transient?)
               && w.outcomes[i].Response? && ParseSummary(decode, ticketId, w.outcomes[i].text).Ok?;
      FirstSettledAt(w, 0, i);
    }
  }

  /** The `k`-th backoff sleep of a run belongs to attempt `attempt + k` and its jitter draw. */
  lemma {:induction false} BackoffsAt(w: World, attempt: nat, i: nat, k: nat)
    requires Complete(w) && attempt <= i <= MaxRetries && k < i - attempt
    ensures Backoffs(w, attempt, i)[k] == BackoffSleep(attempt + k, w.jitters[attempt + k])
    decreases k
  {
    if k > 0 {
      BackoffsAt(w, attempt + 1, i, k - 1);
    }
  }

  /**
   * The sleeps of `generate_summary`: the earlier ones are kept, at most the
   * first new one is the rate-limit wait and it is positive, and every
   * backoff sleep lasts more than zero and at most `MAX_BACKOFF_TIME`
   * seconds, given jitter draws from [0.8, 1.2].
   */
  lemma GenerateSleeps(w: World, decode: Decoder, ticketId: string, interval: real, st: Session)
    requires Complete(w)
    requires forall j :: 0 <= j < |w.jitters| ==> 0.8 <= w.jitters[j] <= 1.2
    ensures var st' := Generate(w, decode, ticketId, interval, st).1;
            |st.sleeps| <= |st'.sleeps| <= |st.sleeps| + 1 + MaxRetries && st'.sleeps[..|st.sleeps|] == st.sleeps
            && forall k :: |st.sleeps| <= k < |st'.sleeps| ==>
                 (st'.sleeps[k].RateLimitSleep? ==> k == |st.sleeps| && Seconds(st'.sleeps[k]) > 0.0)
                 && (st'.sleeps[k].BackoffSleep? ==> 0.0 < Seconds(st'.sleeps[k]) <= MaxBackoffTime)
  {
    GenerateOutcome(w, decode, ticketId, interval, st);
    var first := FirstSettled(w, 0);
    BackoffsPositive(w, 0, first);
    AppendSleeps(st.sleeps, Waited(w.now, interval, st).sleeps, Backoffs(w, 0, first));
  }

  /** Every sleep of a backoff run is a backoff of more than zero and at most `MAX_BACKOFF_TIME` seconds. */
  lemma BackoffsPositive(w: World, attempt: nat, i: nat)
    requires Complete(w) && attempt <= i <= MaxRetries
    requires forall j :: 0 <= j < |w.jitters| ==> 0.8 <= w.jitters[j] <= 1.2
    ensures forall k :: 0 <= k < |Backoffs(w, attempt, i)| ==>
              Backoffs(w, attempt, i)[k].BackoffSleep? && 0.0 < Seconds(Backoffs(w, attempt, i)[k]) <= MaxBackoffTime
  {
    forall k | 0 <= k < |Backoffs(w, attempt, i)|
      ensures Backoffs(w, attempt, i)[k].BackoffSleep? && 0.0 < Seconds(Backoffs(w, attempt, i)[k]) <= MaxBackoffTime
    {
      BackoffsAt(w, attempt, i, k);
      BackoffPositive(attempt + k, w.jitters[attempt + k]);
    }
  }

  /** The earlier sleeps, at most one positive rate-limit wait, then a run of bounded backoffs. */
  lemma AppendSleeps(prior: seq<Sleep>, waited: seq<Sleep>, runs: seq<Sleep>)
    requires |prior| <= |waited| <= |prior| + 1 && waited[..|prior|] == prior
    requires forall k :: |prior| <= k < |waited| ==> waited[k].RateLimitSleep? && Seconds(waited[k]) > 0.0
    requires |runs| <= MaxRetries
    requires forall k :: 0 <= k < |runs| ==> runs[k].BackoffSleep? && 0.0 < Seconds(runs[k]) <= MaxBackoffTime
    ensures var all := waited + runs;
            |prior| <= |all| <= |prior| + 1 + MaxRetries && all[..|prior|] == prior
            && forall k :: |prior| <= k < |all| ==>
                 (all[k].RateLimitSleep? ==> k == |prior| && Seconds(all[k]) > 0.0)
                 && (all[k].BackoffSleep? ==> 0.0 < Seconds(all[k]) <= MaxBackoffTime)
  {
    var all := waited + runs;
    assert all[..|prior|] == waited[..|prior|];
    forall k | |prior| <= k < |all|
      ensures all[k].RateLimitSleep? ==> k == |prior| && Seconds(all[k]) > 0.0
      ensures all[k].BackoffSleep? ==> 0.0 < Seconds(all[k]) <= MaxBackoffTime
    {
      if k >= |waited| {
        assert all[k] == runs[k - |waited|];
      }
    }
  }

  // ---------------------------------------------------------------------
  // The client object
  // ---------------------------------------------------------------------

  /** `LLMSummarizer`: the state it keeps between summaries, and the two steps of a summary that change it. */
  class LlmClient {
    const decode: Decoder
    var lastCallTime: real
    var calls: nat
    var sleeps: seq<Sleep>

    /** The client's fields as one value. */
    function State(): Session
      reads this
    {
      Session(lastCallTime, calls, sleeps)
    }

    /** A new client has not called the service yet. */
    constructor(decode: Decoder)
      ensures State() == NewSession && this.decode == decode
    {
      this.decode := decode;
      lastCallTime := 0.0;
      calls := 0;
      sleeps := [];
    }

    /** `_wait_for_rate_limit` with the clock reading `now`. */
    method WaitForRateLimit(now: real, interval: real)
      modifies this
      ensures State() == Waited(now, interval, old(State()))
    {
      var elapsed := now - lastCallTime;
      if elapsed < interval {
        sleeps := sleeps + [RateLimitSleep(interval - elapsed)];
      }
    }

    /** `generate_summary`: the summary and raw reply of one ticket, or the message of the RuntimeError. */
    method GenerateSummary(ticketId: string, interval: real, w: World) returns (r: Result<Reply, string>)
      requires Complete(w)
      modifies this
      ensures (r, State()) == Generate(w, decode, ticketId, interval, old(State()))
    {
      WaitForRateLimit(w.now, interval);
      var lastError := "None";
      var attempt := 0;
      while attempt < MaxRetries
        invariant attempt <= MaxRetries
        invariant Retry(w, ReplyParser(decode, ticketId), State(), attempt, lastError) == Generate(w, decode, ticketId, interval, old(State()))
      {
        var outcome := w.outcomes[attempt];
        calls := calls + 1;
        match outcome {
          case Transient(_, message) =>
            sleeps := sleeps + [BackoffSleep(attempt, w.jitters[attempt])];
            lastError := message;
          case Response(text) =>
            lastCallTime := w.stamp;
            var parsed := ParseResponse(decode, ticketId, text);
            assert ReplyParser(decode, ticketId)(text) == parsed;
            match parsed {
              case Ok(summary) => return Ok(Reply(summary, text));
              case Err(e) => return Err(ApiError(e));
            }
          case Unreadable(message) =>
            lastCallTime := w.stamp;
            return Err(ApiError(message));
          case Failure(message) =>
            return Err(ApiError(message));
        }
        attempt := attempt + 1;
      }
      return Err(GaveUp(lastError));
    }
  }
}
