/**
 * The n8n code node that turns an analysed estimation e-mail into the
 * payload of a Confluence "create page" request: XML escaping, line-break
 * formatting, input defaults, the four page sections, the payload record and
 * the guard on the target space and parent page.
 */
module ConfluencePage {
  import opened Wrappers
  import opened Strings

  // ---------------------------------------------------------------------
  // escapeXml
  // ---------------------------------------------------------------------

  /** The five characters escapeXml replaces. */
  predicate IsMarkup(c: char) {
    c == '<' || c == '>' || c == '&' || c == '\'' || c == '"'
  }

  /** The escape map: the predefined entity of each markup character (XML 1.0, section 4.6). */
  function EscapeChar(c: char): string {
    match c
    case '<' => "&lt;"
    case '>' => "&gt;"
    case '&' => "&amp;"
    case '\'' => "&apos;"
    case '"' => "&quot;"
    case _ => [c]
  }

  /** Markup characters become entities, from `&` to `;`; every other character stays as it is. */
  lemma EscapeCharIsEntity(c: char)
    ensures !IsMarkup(c) <==> EscapeChar(c) == [c]
    ensures IsMarkup(c) ==> |EscapeChar(c)| >= 4 && EscapeChar(c)[0] == '&' && EscapeChar(c)[|EscapeChar(c)| - 1] == ';'
  {
  }

  /**
   * `unsafe.replace(/[<>&'"]/g, ...)`: every markup character replaced by its
   * entity in one left-to-right pass. Of the markup characters only `&`
   * remains, as the start of an entity.
   */
  function Escape(s: string): (r: string)
    ensures forall i :: 0 <= i < |r| ==> r[i] != '<' && r[i] != '>' && r[i] != '"' && r[i] != '\''
  {
    if s == [] then [] else EscapeChar(s[0]) + Escape(s[1..])
  }

  /** `escapeXml`: `null`, `undefined` and `""` become `""`; a string is escaped. */
  function EscapeXml(unsafe: Option<string>): (r: string)
    ensures unsafe.None? ==> r == ""
    ensures unsafe.Some? ==> r == Escape(unsafe.value)
  {
    match unsafe
    case None => ""
    case Some(s) => if s == "" then "" else Escape(s)
  }

  /** Escaping works character by character, so it distributes over concatenation. */
  lemma {:induction false} EscapeConcat(a: string, b: string)
    ensures Escape(a + b) == Escape(a) + Escape(b)
    decreases |a|
  {
    if a == [] {
      assert a + b == b;
    } else {
      assert (a + b)[0] == a[0] && (a + b)[1..] == a[1..] + b;
      EscapeConcat(a[1..], b);
      assert Escape(a + b) == EscapeChar(a[0]) + (Escape(a[1..]) + Escape(b));
    }
  }

  /** A string without markup characters is left unchanged. */
  lemma {:induction false} EscapeWithoutMarkup(s: string)
    requires forall i :: 0 <= i < |s| ==> !IsMarkup(s[i])
    ensures Escape(s) == s
    decreases |s|
  {
    if s != [] {
      EscapeWithoutMarkup(s[1..]);
      assert [s[0]] + s[1..] == s;
    }
  }

  /** How much longer the escape of one character is than the character. */
  function Growth(c: char): nat {
    if c == '<' || c == '>' then 3
    else if c == '&' then 4
    else if c == '\'' || c == '"' then 5
    else 0
  }

  /** The escape of one character is one character plus its growth. */
  lemma EscapeCharLength(c: char)
    ensures |EscapeChar(c)| == 1 + Growth(c)
  {
  }

  /**
   * Each `<` and `>` grows by 3 characters, each `&` by 4, and each `'` and
   * `"` by 5; every other character keeps its length.
   */
  lemma {:induction false} EscapeLength(s: string)
    ensures |Escape(s)| == |s| + 3 * (multiset(s)['<'] + multiset(s)['>']) + 4 * multiset(s)['&']
                         + 5 * (multiset(s)['\''] + multiset(s)['"'])
    decreases |s|
  {
    if s != [] {
      assert s == [s[0]] + s[1..];
      assert multiset(s) == multiset{s[0]} + multiset(s[1..]);
      EscapeCharLength(s[0]);
      EscapeLength(s[1..]);
    }
  }

  /** Escaping is a single pass: an entity already in the text is escaped again. */
  lemma EscapeNotIdempotent()
    ensures Escape("&lt;") == "&amp;lt;"
  {
    EscapeConcat("&", "lt;");
    EscapeWithoutMarkup("lt;");
  }

  /** The escape of one character holds a line feed exactly when that character is one. */
  lemma EscapeCharNewlines(c: char)
    ensures multiset(EscapeChar(c))['\n'] == if c == '\n' then 1 else 0
  {
    if !IsMarkup(c) {
      assert EscapeChar(c) == [c];
    } else {
      var e := EscapeChar(c);
      assert forall i :: 0 <= i < |e| ==> e[i] != '\n';
      assert '\n' !in multiset(e);
    }
  }

  /** Line feeds are not markup and survive escaping, as many as there were. */
  lemma {:induction false} EscapeKeepsNewlines(s: string)
    ensures multiset(Escape(s))['\n'] == multiset(s)['\n']
    decreases |s|
  {
    if s != [] {
      assert s == [s[0]] + s[1..];
      assert multiset(Escape(s)) == multiset(EscapeChar(s[0])) + multiset(Escape(s[1..]));
      EscapeCharNewlines(s[0]);
      EscapeKeepsNewlines(s[1..]);
    }
  }

  /** Decoding of the five predefined entities, leftmost first. */
  function Unescape(s: string): string
    decreases |s|
  {
    if s == [] then []
    else if IsPrefix("&lt;", s) then "<" + Unescape(s[4..])
    else if IsPrefix("&gt;", s) then ">" + Unescape(s[4..])
    else if IsPrefix("&amp;", s) then "&" + Unescape(s[5..])
    else if IsPrefix("&apos;", s) then "'" + Unescape(s[6..])
    else if IsPrefix("&quot;", s) then "\"" + Unescape(s[6..])
    else [s[0]] + Unescape(s[1..])
  }

  /** Decoding the escape of one character in front of any text gives that character back. */
  lemma UnescapeEscapedChar(c: char, rest: string)
    ensures Unescape(EscapeChar(c) + rest) == [c] + Unescape(rest)
  {
    if c == '<' {
      UnescapeLt(rest);
    } else if c == '>' {
      UnescapeGt(rest);
    } else if c == '&' {
      UnescapeAmp(rest);
    } else if c == '\'' {
      UnescapeApos(rest);
    } else if c == '"' {
      UnescapeQuot(rest);
    } else {
      UnescapePlain(c, rest);
    }
  }

  lemma UnescapePlain(c: char, rest: string)
    requires !IsMarkup(c)
    ensures Unescape([c] + rest) == [c] + Unescape(rest)
  {
    var e := [c] + rest;
    assert e[0] == c && e[1..] == rest;
  }

  lemma UnescapeLt(rest: string)
    ensures Unescape("&lt;" + rest) == "<" + Unescape(rest)
  {
    var e := "&lt;" + rest;
    assert e[..4] == "&lt;" && e[4..] == rest;
  }

  lemma UnescapeGt(rest: string)
    ensures Unescape("&gt;" + rest) == ">" + Unescape(rest)
  {
    var e := "&gt;" + rest;
    assert e[1] == 'g';
    assert e[..4] == "&gt;" && e[4..] == rest;
  }

  lemma UnescapeAmp(rest: string)
    ensures Unescape("&amp;" + rest) == "&" + Unescape(rest)
  {
    var e := "&amp;" + rest;
    assert e[1] == 'a';
    assert e[..5] == "&amp;" && e[5..] == rest;
  }

  lemma UnescapeApos(rest: string)
    ensures Unescape("&apos;" + rest) == "'" + Unescape(rest)
  {
    var e := "&apos;" + rest;
    assert e[1] == 'a' && e[2] == 'p';
    assert e[..6] == "&apos;" && e[6..] == rest;
  }

  lemma UnescapeQuot(rest: string)
    ensures Unescape("&quot;" + rest) == "\"" + Unescape(rest)
  {
    var e := "&quot;" + rest;
    assert e[1] == 'q';
    assert e[..6] == "&quot;" && e[6..] == rest;
  }

  /** Decoding the entities recovers the escaped text. */
  lemma {:induction false} UnescapeEscape(s: string)
    ensures Unescape(Escape(s)) == s
    decreases |s|
  {
    if s != [] {
      UnescapeEscape(s[1..]);
      UnescapeEscapedChar(s[0], Escape(s[1..]));
      assert [s[0]] + s[1..] == s;
    }
  }

  /** Escaping never maps two different strings to the same text. */
  lemma EscapeInjective(a: string, b: string)
    requires Escape(a) == Escape(b)
    ensures a == b
  {
    UnescapeEscape(a);
    UnescapeEscape(b);
  }

  // ---------------------------------------------------------------------
  // formatTextForConfluence
  // ---------------------------------------------------------------------

  /** The line break tag inserted for every line feed. */
  const LineBreakTag := "<br />"

  /** `replace(/\n/g, '<br />')`: each line feed becomes a line break tag. */
  function BreakLines(s: string): (r: string)
    ensures '\n' !in r
    ensures multiset(r)['<'] == multiset(s)['<'] + multiset(s)['\n']
  {
    if s == [] then []
    else
      assert s == [s[0]] + s[1..];
      (if s[0] == '\n' then LineBreakTag else [s[0]]) + BreakLines(s[1..])
  }

  /** Each line break tag turned back into a line feed. */
  function UnbreakLines(s: string): string
    decreases |s|
  {
    if s == [] then []
    else if IsPrefix(LineBreakTag, s) then "\n" + UnbreakLines(s[|LineBreakTag|..])
    else [s[0]] + UnbreakLines(s[1..])
  }

  /** A line break tag in front of any text turns back into a line feed. */
  lemma UnbreakTag(rest: string)
    ensures UnbreakLines(LineBreakTag + rest) == "\n" + UnbreakLines(rest)
  {
    var b := LineBreakTag + rest;
    assert b[..|LineBreakTag|] == LineBreakTag && b[|LineBreakTag|..] == rest;
  }

  /** A character other than `<` in front of any text is kept. */
  lemma UnbreakOther(c: char, rest: string)
    requires c != '<'
    ensures UnbreakLines([c] + rest) == [c] + UnbreakLines(rest)
  {
    var b := [c] + rest;
    assert b[0] == c && b[1..] == rest;
  }

  /** In text without `<` every line break tag comes from a line feed, so the replacement is undone. */
  lemma {:induction false} UnbreakBreakLines(s: string)
    requires '<' !in s
    ensures UnbreakLines(BreakLines(s)) == s
    decreases |s|
  {
    if s != [] {
      var rest := BreakLines(s[1..]);
      assert '<' !in s[1..];
      UnbreakBreakLines(s[1..]);
      if s[0] == '\n' {
        UnbreakTag(rest);
      } else {
        UnbreakOther(s[0], rest);
      }
      assert [s[0]] + s[1..] == s;
    }
  }

  /**
   * `formatTextForConfluence`: falsy text gives `""`; otherwise the escaped
   * text with one line break tag per line feed. Escaping comes first, so the
   * only `<` in the result are the inserted tags.
   */
  function FormatTextForConfluence(text: Option<string>): (r: string)
    ensures text.None? || text == Some("") ==> r == ""
    ensures '\n' !in r
    ensures text.Some? ==> multiset(r)['<'] == multiset(text.value)['\n']
  {
    match text
    case None => ""
    case Some(s) =>
      if s == "" then ""
      else
        EscapeKeepsNewlines(s);
        assert multiset(Escape(s))['<'] == 0;
        BreakLines(Escape(s))
  }

  /** Turning the tags back into line feeds and decoding the entities recovers the text. */
  lemma FormatTextRoundTrip(text: string)
    ensures Unescape(UnbreakLines(FormatTextForConfluence(Some(text)))) == text
  {
    if text != "" {
      UnbreakBreakLines(Escape(text));
      UnescapeEscape(text);
    }
  }

  // ---------------------------------------------------------------------
  // extractInputData
  // ---------------------------------------------------------------------

  /** The JSON of the previous node; `None` is a field that is absent, `null` or `undefined`. */
  datatype RawInput = RawInput(
    summary: Option<string>,
    priority: Option<string>,
    taskBreakdown: Option<string>,
    originalSender: Option<string>,
    cleanBody: Option<string>,
    spaceKey: Option<string>,
    parentId: Option<string>)

  /** The record passed between the steps of the node. */
  datatype PageData = PageData(
    summary: string,
    priority: string,
    taskBreakdown: string,
    originalSender: string,
    cleanBody: string,
    spaceKey: Option<string>,
    parentId: Option<string>)

  /** `CONFIG.DEFAULT_VALUES`. */
  const DefaultSummary := "No summary available"
  const DefaultPriority := "Not specified"
  const DefaultTaskBreakdown := "No breakdown provided"
  const DefaultOriginalSender := "Unknown sender"
  const DefaultCleanBody := "No email content available"

  /** The record with every field at its default, as for a missing input. */
  const AllDefaults := PageData(DefaultSummary, DefaultPriority, DefaultTaskBreakdown,
                                DefaultOriginalSender, DefaultCleanBody, None, None)

  /**
   * `extractInputData`: each text field is the input's value when truthy and
   * its default otherwise; the space key and parent id pass through.
   */
  function ExtractInputData(input: Option<RawInput>): (data: PageData)
    ensures input.None? ==> data == AllDefaults
    ensures input.Some? ==> data.spaceKey == input.value.spaceKey && data.parentId == input.value.parentId
    ensures input.Some? ==>
              data.summary == OrElse(input.value.summary, DefaultSummary)
              && data.priority == OrElse(input.value.priority, DefaultPriority)
              && data.taskBreakdown == OrElse(input.value.taskBreakdown, DefaultTaskBreakdown)
              && data.originalSender == OrElse(input.value.originalSender, DefaultOriginalSender)
              && data.cleanBody == OrElse(input.value.cleanBody, DefaultCleanBody)
    ensures data.summary != "" && data.priority != "" && data.taskBreakdown != ""
            && data.originalSender != "" && data.cleanBody != ""
  {
    var raw := if input.Some? then input.value else RawInput(None, None, None, None, None, None, None);
    PageData(
      OrElse(raw.summary, DefaultSummary),
      OrElse(raw.priority, DefaultPriority),
      OrElse(raw.taskBreakdown, DefaultTaskBreakdown),
      OrElse(raw.originalSender, DefaultOriginalSender),
      OrElse(raw.cleanBody, DefaultCleanBody),
      raw.spaceKey,
      raw.parentId)
  }

  /** The record seen again as raw input, every field present. */
  function AsRawInput(data: PageData): RawInput {
    RawInput(Some(data.summary), Some(data.priority), Some(data.taskBreakdown),
             Some(data.originalSender), Some(data.cleanBody), data.spaceKey, data.parentId)
  }

  /** Extracting already extracted data changes nothing. */
  lemma ExtractIdempotent(input: Option<RawInput>)
    ensures ExtractInputData(Some(AsRawInput(ExtractInputData(input)))) == ExtractInputData(input)
  {
  }

  /** An empty string and a missing field both fall back to the default. */
  lemma EmptyFieldIsMissing(raw: RawInput)
    ensures ExtractInputData(Some(raw.(summary := Some(""), cleanBody := Some(""))))
            == ExtractInputData(Some(raw.(summary := None, cleanBody := None)))
  {
  }

  // ---------------------------------------------------------------------
  // generatePageContent and its sections
  // ---------------------------------------------------------------------

  /** The line feed and indentation each section's template starts with. */
  const SectionIndent := "\n    "

  /** Every section starts with its indentation and a heading. */
  const HeadingStart := SectionIndent + "<h2>"

  const QuoteLead := HeadingStart + "Yêu cầu Báo giá từ Email</h2>\n    <ul>\n        <li><strong>Người gửi gốc:</strong> "
  const QuoteMiddle := "</li>\n        <li><strong>Độ ưu tiên AI đề xuất:</strong> "
  const QuoteTail := "</li>\n    </ul>\n    <hr />"

  const SummaryLead := HeadingStart + "Tóm tắt của AI</h2>\n    <p>"
  const SummaryTail := "</p>\n    <hr />"

  const BreakdownLead := HeadingStart + "Phân tích &amp; Bóc tách Công việc (AI Đề xuất)</h2>\n"
    + "    <ac:structured-macro ac:name=\"panel\">\n"
    + "        <ac:parameter ac:name=\"title\">Task Breakdown by AI</ac:parameter>\n"
    + "        <ac:rich-text-body>\n"
    + "            <p><em>Ghi chú: Đây là các hạng mục do AI phân tích tự động, cần được review và chỉnh sửa bởi con người.</em></p>\n"
    + "            <p>"
  const BreakdownTail := "</p>\n        </ac:rich-text-body>\n    </ac:structured-macro>\n    <hr />"

  const EmailLead := HeadingStart + "Nội dung Email gốc (Đã làm sạch)</h2>\n"
    + "    <ac:structured-macro ac:name=\"panel\">\n"
    + "        <ac:rich-text-body>\n"
    + "            <p>"
  /** The last template closes the panel macro; its final character is the `>` of the closing tag. */
  const EmailTail := EmailClosing + ">"
  const EmailClosing := "</p>\n        </ac:rich-text-body>\n    </ac:structured-macro"

  /**
   * The fixed text of the four section templates around the fields they
   * embed. The section functions take it as a parameter, so that the layout
   * lemmas below hold for any template text; the page uses `PageTemplates`.
   */
  datatype SectionTemplates = SectionTemplates(
    quoteLead: string, quoteMiddle: string, quoteTail: string,
    summaryLead: string, summaryTail: string,
    breakdownLead: string, breakdownTail: string,
    emailLead: string, emailTail: string)

  const PageTemplates := SectionTemplates(QuoteLead, QuoteMiddle, QuoteTail, SummaryLead, SummaryTail,
                                          BreakdownLead, BreakdownTail, EmailLead, EmailTail)

  /** `generateQuoteRequestSection`: the original sender, then the suggested priority. */
  function QuoteRequestSection(t: SectionTemplates, data: PageData): (r: string)
    ensures Frames(r, t.quoteLead, data.originalSender, t.quoteMiddle + data.priority + t.quoteTail)
    ensures OccursAt(r, data.priority, |t.quoteLead| + |data.originalSender| + |t.quoteMiddle|)
    ensures IsSuffix(t.quoteTail, r)
  {
    FramesTwoFields(t.quoteLead, data.originalSender, t.quoteMiddle, data.priority, t.quoteTail);
    t.quoteLead + data.originalSender + t.quoteMiddle + data.priority + t.quoteTail
  }

  /** `generateAiSummarySection`: the summary, embedded as it is. */
  function AiSummarySection(t: SectionTemplates, data: PageData): (r: string)
    ensures Frames(r, t.summaryLead, data.summary, t.summaryTail)
  {
    FramesConcat(t.summaryLead, data.summary, t.summaryTail);
    t.summaryLead + data.summary + t.summaryTail
  }

  /** `generateTaskBreakdownSection`: the `taskBreakdown` text inside a panel macro. */
  function TaskBreakdownSection(t: SectionTemplates, data: PageData): (r: string)
    ensures Frames(r, t.breakdownLead, data.taskBreakdown, t.breakdownTail)
  {
    FramesConcat(t.breakdownLead, data.taskBreakdown, t.breakdownTail);
    t.breakdownLead + data.taskBreakdown + t.breakdownTail
  }

  /** `generateOriginalEmailSection`: the cleaned e-mail body inside a panel macro. */
  function OriginalEmailSection(t: SectionTemplates, data: PageData): (r: string)
    ensures Frames(r, t.emailLead, data.cleanBody, t.emailTail)
  {
    FramesConcat(t.emailLead, data.cleanBody, t.emailTail);
    t.emailLead + data.cleanBody + t.emailTail
  }

  /** The four sections in page order. */
  function Sections(t: SectionTemplates, data: PageData): seq<string> {
    [QuoteRequestSection(t, data), AiSummarySection(t, data), TaskBreakdownSection(t, data), OriginalEmailSection(t, data)]
  }

  /** Joining four pieces puts the separator between each neighbouring pair. */
  lemma JoinFour(a: string, b: string, c: string, d: string, sep: string)
    ensures Join([a, b, c, d], sep) == a + sep + b + sep + c + sep + d
  {
    var pieces := [a, b, c, d];
    assert pieces[1..] == [b, c, d] && pieces[1..][1..] == [c, d] && pieces[1..][1..][1..] == [d];
    assert Join([c, d], sep) == c + sep + d;
    assert Join([b, c, d], sep) == b + sep + (c + sep + d);
  }

  /** Where each of four joined pieces starts. */
  lemma JoinOffsetsOfFour(a: string, b: string, c: string, d: string, sep: string)
    ensures JoinOffset([a, b, c, d], sep, 0) == 0
    ensures JoinOffset([a, b, c, d], sep, 1) == |a| + |sep|
    ensures JoinOffset([a, b, c, d], sep, 2) == |a| + |sep| + |b| + |sep|
    ensures JoinOffset([a, b, c, d], sep, 3) == |a| + |sep| + |b| + |sep| + |c| + |sep|
  {
    var pieces := [a, b, c, d];
    assert pieces[1..] == [b, c, d] && pieces[1..][1..] == [c, d];
    assert JoinOffset([c, d], sep, 1) == |c| + |sep|;
    assert JoinOffset([b, c, d], sep, 1) == |b| + |sep|;
    assert JoinOffset([b, c, d], sep, 2) == |b| + |sep| + |c| + |sep|;
  }

  /** The four sections joined with line feeds. */
  function PageContent(t: SectionTemplates, data: PageData): (content: string)
    ensures content == QuoteRequestSection(t, data) + "\n" + AiSummarySection(t, data) + "\n"
                       + TaskBreakdownSection(t, data) + "\n" + OriginalEmailSection(t, data)
  {
    var s := Sections(t, data);
    JoinFour(s[0], s[1], s[2], s[3], "\n");
    Join(s, "\n")
  }

  /**
   * `generatePageContent`: the page of the node's own templates. It opens
   * with the first heading, closes with the last macro and holds all five
   * fields.
   */
  function GeneratePageContent(data: PageData): (content: string)
    ensures IsPrefix(QuoteLead, content) && IsSuffix(EmailTail, content)
    ensures Contains(content, data.originalSender) && Contains(content, data.priority)
    ensures Contains(content, data.summary) && Contains(content, data.taskBreakdown)
    ensures Contains(content, data.cleanBody)
  {
    PageBoundedByTemplates(PageTemplates, data);
    PageHoldsLeadingFields(PageTemplates, data);
    PageHoldsTrailingFields(PageTemplates, data);
    PageContent(PageTemplates, data)
  }

  /** The sender and the priority appear verbatim in the first section of the page. */
  lemma PageEmbedsQuoteFields(t: SectionTemplates, data: PageData)
    ensures OccursAt(PageContent(t, data), data.originalSender, |t.quoteLead|)
    ensures OccursAt(PageContent(t, data), data.priority,
                     |t.quoteLead| + |data.originalSender| + |t.quoteMiddle|)
  {
    var parts := Sections(t, data);
    JoinOffsetsOfFour(parts[0], parts[1], parts[2], parts[3], "\n");
    OccursInJoin(parts, "\n", 0, data.originalSender, |t.quoteLead|);
    OccursInJoin(parts, "\n", 0, data.priority, |t.quoteLead| + |data.originalSender| + |t.quoteMiddle|);
  }

  /** The summary appears verbatim in the second section, after the first section and a line feed. */
  lemma PageEmbedsSummary(t: SectionTemplates, data: PageData)
    ensures OccursAt(PageContent(t, data), data.summary,
                     |QuoteRequestSection(t, data)| + 1 + |t.summaryLead|)
  {
    var parts := Sections(t, data);
    JoinOffsetsOfFour(parts[0], parts[1], parts[2], parts[3], "\n");
    OccursInJoin(parts, "\n", 1, data.summary, |t.summaryLead|);
  }

  /** The `taskBreakdown` text appears verbatim in the third section. */
  lemma PageEmbedsTaskBreakdown(t: SectionTemplates, data: PageData)
    ensures OccursAt(PageContent(t, data), data.taskBreakdown,
                     |QuoteRequestSection(t, data)| + 1 + |AiSummarySection(t, data)| + 1 + |t.breakdownLead|)
  {
    var parts := Sections(t, data);
    JoinOffsetsOfFour(parts[0], parts[1], parts[2], parts[3], "\n");
    OccursInJoin(parts, "\n", 2, data.taskBreakdown, |t.breakdownLead|);
  }

  /** The cleaned e-mail body appears verbatim in the last section. */
  lemma PageEmbedsCleanBody(t: SectionTemplates, data: PageData)
    ensures OccursAt(PageContent(t, data), data.cleanBody,
                     |QuoteRequestSection(t, data)| + 1 + |AiSummarySection(t, data)| + 1
                     + |TaskBreakdownSection(t, data)| + 1 + |t.emailLead|)
  {
    var parts := Sections(t, data);
    JoinOffsetsOfFour(parts[0], parts[1], parts[2], parts[3], "\n");
    OccursInJoin(parts, "\n", 3, data.cleanBody, |t.emailLead|);
  }

  /** The page is as long as the template text, the five fields and the three joining line feeds. */
  lemma PageContentLength(t: SectionTemplates, data: PageData)
    ensures |PageContent(t, data)|
            == |t.quoteLead| + |t.quoteMiddle| + |t.quoteTail| + |t.summaryLead| + |t.summaryTail|
               + |t.breakdownLead| + |t.breakdownTail| + |t.emailLead| + |t.emailTail|
               + |data.originalSender| + |data.priority| + |data.summary| + |data.taskBreakdown|
               + |data.cleanBody| + 3
  {
  }

  /** The page opens with the first lead and closes with the last tail. */
  lemma PageBoundedByTemplates(t: SectionTemplates, data: PageData)
    ensures IsPrefix(t.quoteLead, PageContent(t, data)) && IsSuffix(t.emailTail, PageContent(t, data))
  {
    var q, e := QuoteRequestSection(t, data), OriginalEmailSection(t, data);
    var rest := "\n" + AiSummarySection(t, data) + "\n" + TaskBreakdownSection(t, data) + "\n";
    assert PageContent(t, data) == q + rest + e;
    BoundedByEnds(q, rest, e, t.quoteLead, t.emailTail);
  }

  /** A prefix of the first part and a suffix of the last part bound their concatenation. */
  lemma BoundedByEnds(a: string, b: string, c: string, p: string, q: string)
    requires IsPrefix(p, a) && IsSuffix(q, c)
    ensures IsPrefix(p, a + b + c) && IsSuffix(q, a + b + c)
  {
    var whole := a + b + c;
    assert whole[..|p|] == a[..|p|];
    assert whole[|whole| - |q|..] == c[|c| - |q|..];
  }

  /** The page contains the sender, the priority and the summary. */
  lemma PageHoldsLeadingFields(t: SectionTemplates, data: PageData)
    ensures Contains(PageContent(t, data), data.originalSender) && Contains(PageContent(t, data), data.priority)
    ensures Contains(PageContent(t, data), data.summary)
  {
    var content := PageContent(t, data);
    PageEmbedsQuoteFields(t, data);
    PageEmbedsSummary(t, data);
    OccursIsContained(content, data.originalSender, |t.quoteLead|);
    OccursIsContained(content, data.priority, |t.quoteLead| + |data.originalSender| + |t.quoteMiddle|);
    OccursIsContained(content, data.summary, |QuoteRequestSection(t, data)| + 1 + |t.summaryLead|);
  }

  /** The page contains the `taskBreakdown` text and the e-mail body. */
  lemma PageHoldsTrailingFields(t: SectionTemplates, data: PageData)
    ensures Contains(PageContent(t, data), data.taskBreakdown) && Contains(PageContent(t, data), data.cleanBody)
  {
    var content := PageContent(t, data);
    var q, a, b := |QuoteRequestSection(t, data)|, |AiSummarySection(t, data)|, |TaskBreakdownSection(t, data)|;
    PageEmbedsTaskBreakdown(t, data);
    PageEmbedsCleanBody(t, data);
    OccursIsContained(content, data.taskBreakdown, q + 1 + a + 1 + |t.breakdownLead|);
    OccursIsContained(content, data.cleanBody, q + 1 + a + 1 + b + 1 + |t.emailLead|);
  }

  // ---------------------------------------------------------------------
  // String.prototype.trim
  // ---------------------------------------------------------------------

  /** The characters `trim` removes: ECMAScript white space and line terminators. */
  predicate IsJsWhitespace(c: char) {
    c == '\t' || c == '\U{000B}' || c == '\U{000C}' || c == ' ' || c == '\U{00A0}' || c == '\U{FEFF}'
    || c == '\U{1680}' || ('\U{2000}' <= c <= '\U{200A}') || c == '\U{202F}' || c == '\U{205F}' || c == '\U{3000}'
    || c == '\n' || c == '\r' || c == '\U{2028}' || c == '\U{2029}'
  }

  /** Leading white space removed. */
  function TrimStart(s: string): (r: string)
    ensures IsSuffix(r, s)
    ensures forall i :: 0 <= i < |s| - |r| ==> IsJsWhitespace(s[i])
    ensures r == [] || !IsJsWhitespace(r[0])
  {
    if s != [] && IsJsWhitespace(s[0]) then
      var r := TrimStart(s[1..]);
      assert forall i :: 1 <= i < |s| - |r| ==> s[i] == s[1..][i - 1];
      r
    else s
  }

  /** Trailing white space removed. */
  function TrimEnd(s: string): (r: string)
    ensures IsPrefix(r, s)
    ensures forall i :: |r| <= i < |s| ==> IsJsWhitespace(s[i])
    ensures r == [] || !IsJsWhitespace(r[|r| - 1])
  {
    if s != [] && IsJsWhitespace(s[|s| - 1]) then TrimEnd(s[..|s| - 1]) else s
  }

  /**
   * `s.trim()`: the text between the leading and the trailing white space,
   * which neither starts nor ends with white space.
   */
  function Trim(s: string): (r: string)
    ensures OccursAt(s, r, |s| - |TrimStart(s)|)
    ensures forall i :: 0 <= i < |s| - |TrimStart(s)| ==> IsJsWhitespace(s[i])
    ensures forall i :: |s| - |TrimStart(s)| + |r| <= i < |s| ==> IsJsWhitespace(s[i])
    ensures r == [] || (!IsJsWhitespace(r[0]) && !IsJsWhitespace(r[|r| - 1]))
  {
    var t := TrimStart(s);
    var r := TrimEnd(t);
    PrefixOfSuffix(s, t, r);
    r
  }

  /** Trimming white space in front of text that starts and ends with other characters leaves that text. */
  lemma {:induction false} TrimAround(space: string, text: string)
    requires forall i :: 0 <= i < |space| ==> IsJsWhitespace(space[i])
    requires |text| > 0 && !IsJsWhitespace(text[0]) && !IsJsWhitespace(text[|text| - 1])
    ensures Trim(space + text) == text
    decreases |space|
  {
    if space == [] {
      assert space + text == text;
    } else {
      assert (space + text)[1..] == space[1..] + text;
      TrimAround(space[1..], text);
    }
  }

  /** Trimming is idempotent. */
  lemma TrimIdempotent(s: string)
    ensures Trim(Trim(s)) == Trim(s)
  {
    var t := Trim(s);
    if t != [] {
      assert t == [] + t;
      TrimAround([], t);
    }
  }

  // ---------------------------------------------------------------------
  // buildConfluencePayload and the main step
  // ---------------------------------------------------------------------

  /** `CONFIG.PAGE_TITLE_PREFIX`. */
  const PageTitlePrefix := "[Estimation] - "

  datatype Space = Space(key: Option<string>)
  datatype Ancestor = Ancestor(id: Option<string>)
  /** `body.storage`. */
  datatype Storage = Storage(value: string, representation: string)
  datatype Payload = Payload(pageType: string, title: string, space: Space, ancestors: seq<Ancestor>, storage: Storage)

  /**
   * `buildConfluencePayload`: a page titled with the prefix and the summary,
   * in the given space, under the single given parent, with the trimmed
   * content in storage representation.
   */
  function BuildConfluencePayload(data: PageData, pageContent: string): (p: Payload)
    ensures p.pageType == "page"
    ensures IsPrefix(PageTitlePrefix, p.title) && p.title[|PageTitlePrefix|..] == data.summary
    ensures p.space.key == data.spaceKey
    ensures p.ancestors == [Ancestor(data.parentId)]
    ensures p.storage.representation == "storage" && p.storage.value == Trim(pageContent)
  {
    Payload("page", PageTitlePrefix + data.summary, Space(data.spaceKey), [Ancestor(data.parentId)],
            Storage(Trim(pageContent), "storage"))
  }

  /**
   * The first template starts with the section indentation and then a tag;
   * the last template ends with the `>` closing a tag.
   */
  predicate FramedByTags(t: SectionTemplates) {
    IsPrefix(SectionIndent + "<", t.quoteLead) && IsSuffix(">", t.emailTail)
  }

  /** The node's own templates are framed by tags. */
  lemma PageTemplatesFramedByTags()
    ensures FramedByTags(PageTemplates)
  {
    var rest := QuoteLead[|HeadingStart|..];
    assert QuoteLead == HeadingStart + rest;
    assert QuoteLead[..|SectionIndent| + 1] == SectionIndent + "<";
    EndsWith(EmailClosing, ">");
  }

  /** A concatenation ends with its second part. */
  lemma EndsWith(a: string, b: string)
    ensures IsSuffix(b, a + b)
  {
    assert (a + b)[|a|..] == b;
  }

  /** With templates framed by tags, trimming the page drops exactly the indentation in front. */
  lemma TrimmedPageContent(t: SectionTemplates, data: PageData)
    requires FramedByTags(t)
    ensures Trim(PageContent(t, data)) == PageContent(t, data)[|SectionIndent|..]
  {
    var content := PageContent(t, data);
    PageBoundedByTemplates(t, data);
    PrefixOfPrefix(SectionIndent + "<", t.quoteLead, content);
    SuffixOfSuffix(">", t.emailTail, content);
    TrimIndentedTags(content);
  }

  /** Trimming text that is the indentation and then a tag-bounded text drops exactly the indentation. */
  lemma TrimIndentedTags(content: string)
    requires IsPrefix(SectionIndent + "<", content) && IsSuffix(">", content)
    ensures Trim(content) == content[|SectionIndent|..]
  {
    var n := |SectionIndent|;
    var text := content[n..];
    assert text[0] == (SectionIndent + "<")[n] == '<';
    assert text[|text| - 1] == content[|content| - 1] == '>';
    assert content == content[..n] + text;
    assert content[..n] == (SectionIndent + "<")[..n] == SectionIndent;
    TrimAround(SectionIndent, text);
  }

  /** The stored page is the generated content without the line feed and indentation of its first section. */
  lemma StoredContentDropsLeadingIndent(data: PageData)
    ensures BuildConfluencePayload(data, GeneratePageContent(data)).storage.value
            == GeneratePageContent(data)[|SectionIndent|..]
  {
    PageTemplatesFramedByTags();
    TrimmedPageContent(PageTemplates, data);
  }

  /** The guard before the page is built: both the space key and the parent id are truthy. */
  function HasConfluenceTarget(data: PageData): (ok: bool)
    ensures ok <==> data.spaceKey !in {None, Some("")} && data.parentId !in {None, Some("")}
  {
    Truthy(data.spaceKey) && Truthy(data.parentId)
  }

  const MissingTargetMessage := "Missing required Confluence configuration: spaceKey or parentId"

  /**
   * The data the page is built from: the sender, the `taskBreakdown` text and the
   * e-mail body formatted for Confluence; the summary and the priority as they are.
   */
  function ProcessForConfluence(data: PageData): (p: PageData)
    ensures p.summary == data.summary && p.priority == data.priority
    ensures p.spaceKey == data.spaceKey && p.parentId == data.parentId
    ensures p.originalSender == FormatTextForConfluence(Some(data.originalSender))
    ensures p.taskBreakdown == FormatTextForConfluence(Some(data.taskBreakdown))
    ensures p.cleanBody == FormatTextForConfluence(Some(data.cleanBody))
  {
    PageData(data.summary, data.priority, FormatTextForConfluence(Some(data.taskBreakdown)),
             FormatTextForConfluence(Some(data.originalSender)), FormatTextForConfluence(Some(data.cleanBody)),
             data.spaceKey, data.parentId)
  }

  /**
   * Steps 1 to 5 of the node: extract the input, reject a missing target,
   * format the fields, generate the content and build the payload.
   */
  function CreatePage(input: Option<RawInput>): (r: Result<Payload>)
    ensures r.Failure? <==> !HasConfluenceTarget(ExtractInputData(input))
    ensures r.Failure? ==> r.message == MissingTargetMessage
    ensures r.Success? ==>
              var data := ExtractInputData(input);
              r.value.title == PageTitlePrefix + data.summary
              && r.value.space.key == data.spaceKey && Truthy(r.value.space.key)
              && r.value.ancestors == [Ancestor(data.parentId)] && Truthy(data.parentId)
    ensures r.Success? ==>
              var processed := ProcessForConfluence(ExtractInputData(input));
              r.value.pageType == "page"
              && r.value.storage == Storage(Trim(GeneratePageContent(processed)), "storage")
  {
    var data := ExtractInputData(input);
    if !HasConfluenceTarget(data) then Failure(MissingTargetMessage)
    else
      var processed := ProcessForConfluence(data);
      Success(BuildConfluencePayload(processed, GeneratePageContent(processed)))
  }

  /** Without input there is no target, so the node always reports the missing configuration. */
  lemma NoInputIsRejected()
    ensures CreatePage(None) == Failure(MissingTargetMessage)
  {
  }

  /** The stored value of a page built from templates framed by tags holds the e-mail body field. */
  lemma StoredValueHoldsCleanBody(t: SectionTemplates, data: PageData)
    requires FramedByTags(t)
    ensures Contains(BuildConfluencePayload(data, PageContent(t, data)).storage.value, data.cleanBody)
  {
    var content := PageContent(t, data);
    TrimmedPageContent(t, data);
    PageEmbedsCleanBody(t, data);
    var q := QuoteRequestSection(t, data);
    var i := |q| + 1 + |AiSummarySection(t, data)| + 1 + |TaskBreakdownSection(t, data)| + 1 + |t.emailLead|;
    assert |q| >= |t.quoteLead| >= |SectionIndent|;
    OccursDropped(content, data.cleanBody, i, |SectionIndent|);
    OccursIsContained(content[|SectionIndent|..], data.cleanBody, i - |SectionIndent|);
  }

  /**
   * A built page carries the formatted e-mail body, from which the original
   * body is recovered by undoing the line breaks and the entities.
   */
  lemma CreatedPageCarriesBody(input: Option<RawInput>)
    requires CreatePage(input).Success?
    ensures var processed := ProcessForConfluence(ExtractInputData(input));
            Contains(CreatePage(input).value.storage.value, processed.cleanBody)
            && Unescape(UnbreakLines(processed.cleanBody)) == ExtractInputData(input).cleanBody
  {
    var data := ExtractInputData(input);
    PageTemplatesFramedByTags();
    StoredValueHoldsCleanBody(PageTemplates, ProcessForConfluence(data));
    FormatTextRoundTrip(data.cleanBody);
  }
}
