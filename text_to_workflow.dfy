/**
 * The description helpers of the text-to-workflow configuration: trigger
 * detection, main-action extraction, workflow naming and sticky-note text,
 * together with the constant node-type tables they are read against.
 */
module TextToWorkflow {
  import opened Wrappers
  import opened Strings

  // ---------------------------------------------------------------------
  // Constant tables
  // ---------------------------------------------------------------------

  /** `textAnalysis.actionKeywords`. */
  const ActionKeywords: seq<string> :=
    ["send", "create", "update", "delete", "fetch", "process", "transform", "notify"]

  /** `nodeMapping.triggers`: trigger type to n8n node type. */
  const TriggerNodeTypes: map<string, string> := map[
    "schedule" := "n8n-nodes-base.cron",
    "webhook" := "n8n-nodes-base.webhook",
    "email" := "n8n-nodes-base.emailTrigger",
    "form" := "n8n-nodes-base.formTrigger",
    "manual" := "n8n-nodes-base.manualTrigger"
  ]

  /** `nodeMapping.actions`: action key to n8n node type. */
  const ActionNodeTypes: map<string, string> := map[
    "send_email" := "n8n-nodes-base.emailSend",
    "http_request" := "n8n-nodes-base.httpRequest",
    "database" := "n8n-nodes-base.postgres",
    "slack" := "n8n-nodes-base.slack",
    "discord" := "n8n-nodes-base.discord",
    "openai" := "n8n-nodes-base.openAi",
    "code" := "n8n-nodes-base.code"
  ]

  /** `nodeMapping.conditions`: condition key to n8n node type. */
  const ConditionNodeTypes: map<string, string> := map[
    "condition" := "n8n-nodes-base.if",
    "filter" := "n8n-nodes-base.filter",
    "switch" := "n8n-nodes-base.switch"
  ]

  /** The namespace every node type of the three tables lives in. */
  const BaseNodePrefix := "n8n-nodes-base."

  /** Every trigger, action and condition key maps to a built-in n8n node type. */
  lemma NodeTypesAreBaseNodes()
    ensures forall k :: k in TriggerNodeTypes ==> IsPrefix(BaseNodePrefix, TriggerNodeTypes[k])
    ensures forall k :: k in ActionNodeTypes ==> IsPrefix(BaseNodePrefix, ActionNodeTypes[k])
    ensures forall k :: k in ConditionNodeTypes ==> IsPrefix(BaseNodePrefix, ConditionNodeTypes[k])
  {
    TriggerNodeTypesAreBaseNodes();
    ActionNodeTypesAreBaseNodes();
    ConditionNodeTypesAreBaseNodes();
  }

  lemma TriggerNodeTypesAreBaseNodes()
    ensures forall k :: k in TriggerNodeTypes ==> IsPrefix(BaseNodePrefix, TriggerNodeTypes[k])
  {
  }

  lemma ActionNodeTypesAreBaseNodes()
    ensures forall k :: k in ActionNodeTypes ==> IsPrefix(BaseNodePrefix, ActionNodeTypes[k])
  {
  }

  lemma ConditionNodeTypesAreBaseNodes()
    ensures forall k :: k in ConditionNodeTypes ==> IsPrefix(BaseNodePrefix, ConditionNodeTypes[k])
  {
  }

  // ---------------------------------------------------------------------
  // identifyTrigger
  // ---------------------------------------------------------------------

  /**
   * One entry of the trigger pattern table: a trigger type and the literal
   * alternatives of its case-insensitive regular expression.
   */
  datatype TriggerPattern = TriggerPattern(triggerType: string, alternatives: seq<string>)

  const SchedulePattern := TriggerPattern("schedule", ["every", "daily", "hourly", "weekly", "monthly"])
  const WebhookPattern := TriggerPattern("webhook", ["webhook", "api", "http", "post", "receive"])
  const EmailPattern := TriggerPattern("email", ["email", "mail", "message"])
  const ManualPattern := TriggerPattern("manual", ["manual", "button", "click", "start"])

  /** The patterns in the order in which they are tried. */
  const TriggerPatterns: seq<TriggerPattern> := [SchedulePattern, WebhookPattern, EmailPattern, ManualPattern]

  /** The type returned when no pattern matches. */
  const DefaultTrigger := "manual"

  /**
   * `pattern.test(description)`. Every alternative is lower-case ASCII and
   * the regular expression has the `i` flag, so it matches exactly when an
   * alternative occurs anywhere in the lower-cased description.
   */
  predicate Matches(pattern: TriggerPattern, description: string) {
    exists w :: w in pattern.alternatives && Contains(Lower(description), w)
  }

  /** A pattern matches exactly when one of its alternatives occurs somewhere in the lower-cased description. */
  lemma MatchesIffOccurs(pattern: TriggerPattern, description: string)
    ensures Matches(pattern, description)
            <==> exists w, i: nat :: w in pattern.alternatives && OccursAt(Lower(description), w, i)
  {
    LoweredWordFoundIffOccurs(pattern.alternatives, description);
  }

  lemma LoweredWordFoundIffOccurs(words: seq<string>, description: string)
    ensures (exists w :: w in words && Contains(Lower(description), w))
            <==> exists w, i: nat :: w in words && OccursAt(Lower(description), w, i)
  {
    var text := Lower(description);
    AnyContainedIffOccurs(words, text);
  }

  /** The type of the first pattern in `patterns` that matches, else the default. */
  function FirstMatchingType(patterns: seq<TriggerPattern>, description: string): (r: string)
    ensures r == DefaultTrigger || exists k :: 0 <= k < |patterns| && r == patterns[k].triggerType
    ensures r != DefaultTrigger ==>
              exists k :: 0 <= k < |patterns| && r == patterns[k].triggerType && Matches(patterns[k], description)
                          && forall j :: 0 <= j < k ==> !Matches(patterns[j], description)
    ensures forall k :: 0 <= k < |patterns| && Matches(patterns[k], description)
                        && (forall j :: 0 <= j < k ==> !Matches(patterns[j], description))
                        ==> r == patterns[k].triggerType
    ensures (forall k :: 0 <= k < |patterns| ==> !Matches(patterns[k], description)) ==> r == DefaultTrigger
  {
    if patterns == [] then DefaultTrigger
    else if Matches(patterns[0], description) then patterns[0].triggerType
    else FirstMatchingType(patterns[1..], description)
  }

  /**
   * `helpers.identifyTrigger`: schedule words win over everything, then
   * webhook words, then email words; otherwise the trigger is manual.
   */
  function IdentifyTrigger(description: string): (r: string)
    ensures r in TriggerNodeTypes && r != "form"
    ensures r == "schedule" <==> Matches(SchedulePattern, description)
    ensures r == "webhook" <==> !Matches(SchedulePattern, description) && Matches(WebhookPattern, description)
    ensures r == "email" <==>
              !Matches(SchedulePattern, description) && !Matches(WebhookPattern, description)
              && Matches(EmailPattern, description)
    ensures r == "manual" <==>
              !Matches(SchedulePattern, description) && !Matches(WebhookPattern, description)
              && !Matches(EmailPattern, description)
  {
    var r := FirstMatchingType(TriggerPatterns, description);
    assert TriggerPatterns[0] == SchedulePattern && TriggerPatterns[1] == WebhookPattern;
    assert TriggerPatterns[2] == EmailPattern && TriggerPatterns[3] == ManualPattern;
    r
  }

  /** Matching is by substring, not by whole word: "rapid" contains "api". */
  lemma SubstringTriggerMatch()
    ensures IdentifyTrigger("rapid") == "webhook"
  {
    RapidIsLowerCase();
    OccursIsContained("rapid", "api", 1);
    assert Matches(WebhookPattern, "rapid");
    RapidHasNoScheduleWord();
  }

  lemma RapidIsLowerCase()
    ensures Lower("rapid") == "rapid"
  {
  }

  /** None of the schedule words occurs in "rapid". */
  lemma RapidHasNoScheduleWord()
    ensures !Matches(SchedulePattern, "rapid")
  {
    RapidIsLowerCase();
    forall w | w in SchedulePattern.alternatives
      ensures !Contains("rapid", w)
    {
      if |w| > 5 {
        LongerNotContained("rapid", w);
      } else if w == "every" {
        FirstCharNotContained("rapid", w);
      } else {
        DailyNotInRapid();
      }
    }
  }

  lemma DailyNotInRapid()
    ensures !Contains("rapid", "daily")
  {
    var text, word := "rapid", "daily";
    assert text[0] != word[0];
    assert text[1..] == "apid";
    LongerNotContained("apid", word);
  }

  /** The empty description matches no pattern and falls back to a manual trigger. */
  lemma EmptyDescriptionTrigger()
    ensures IdentifyTrigger("") == "manual"
  {
    forall p, w | p in TriggerPatterns && w in p.alternatives
      ensures !Contains(Lower(""), w)
    {
      LongerNotContained(Lower(""), w);
    }
  }

  // ---------------------------------------------------------------------
  // extractMainAction
  // ---------------------------------------------------------------------

  /** The action words tried by `extractMainAction`, in order. */
  const MainActionWords: seq<string> := ["send", "create", "update", "delete", "process", "transform"]

  /** The action returned when no action word is a token of the description. */
  const DefaultAction := "process"

  /** The lower-cased description cut at every single space. */
  function Tokens(description: string): (tokens: seq<string>)
    ensures forall k :: 0 <= k < |tokens| ==> ' ' !in tokens[k]
    ensures Join(tokens, " ") == Lower(description)
  {
    JoinSplit(Lower(description), ' ');
    Split(Lower(description), ' ')
  }

  /** There is one more token than there are spaces in the description. */
  lemma TokenCount(description: string)
    ensures |Tokens(description)| == multiset(Lower(description))[' '] + 1
  {
    SplitCount(Lower(description), ' ');
  }

  /**
   * The tokens are the only way to cut the lower-cased description into
   * space-free pieces that join back to it with single spaces.
   */
  lemma TokensUnique(description: string, pieces: seq<string>)
    requires |pieces| >= 1
    requires forall k :: 0 <= k < |pieces| ==> ' ' !in pieces[k]
    requires Join(pieces, " ") == Lower(description)
    ensures pieces == Tokens(description)
  {
    SplitJoin(pieces, ' ');
  }

  /** `candidates.find(c => words.includes(c))`. */
  function FindListed(candidates: seq<string>, words: seq<string>): (r: Option<string>)
    ensures r.Some? ==> r.value in candidates && r.value in words
    ensures (forall k :: 0 <= k < |candidates| ==> candidates[k] !in words) <==> r.None?
    ensures forall k :: 0 <= k < |candidates| && candidates[k] in words
                        && (forall j :: 0 <= j < k ==> candidates[j] !in words)
                        ==> r == Some(candidates[k])
  {
    if candidates == [] then None
    else if candidates[0] in words then Some(candidates[0])
    else FindListed(candidates[1..], words)
  }

  /**
   * `helpers.extractMainAction`: the first action word, in list order, that
   * is a whole space-separated token of the lower-cased description, else
   * `process`.
   */
  function ExtractMainAction(description: string): (r: string)
    ensures r in MainActionWords && r in ActionKeywords
    ensures r != "fetch" && r != "notify"
    ensures r != DefaultAction ==> r in Tokens(description)
    ensures forall k :: 0 <= k < |MainActionWords| && MainActionWords[k] in Tokens(description)
                        && (forall j :: 0 <= j < k ==> MainActionWords[j] !in Tokens(description))
                        ==> r == MainActionWords[k]
    ensures (forall k :: 0 <= k < |MainActionWords| ==> MainActionWords[k] !in Tokens(description))
            ==> r == DefaultAction
  {
    match FindListed(MainActionWords, Tokens(description))
    case Some(action) => action
    case None => DefaultAction
  }

  /** A description without spaces is a single token. */
  lemma SingleToken(description: string)
    requires ' ' !in description
    ensures Tokens(description) == [Lower(description)]
  {
    assert forall i :: 0 <= i < |description| ==> LowerChar(description[i]) != ' ';
    SplitWithoutSeparator(Lower(description), ' ');
  }

  /** A space-free word between two spaces is a token. */
  lemma TokenBetweenSpaces(before: string, word: string, after: string)
    requires ' ' !in word
    ensures word in Split(before + [' '] + word + [' '] + after, ' ')
  {
    assert before + [' '] + word + [' '] + after == before + [' '] + (word + [' '] + after);
    SplitAround(before, word + [' '] + after, ' ');
    SplitAround(word, after, ' ');
    SplitWithoutSeparator(word, ' ');
  }

  /** A description without spaces whose lower-case form is no action word yields the default action. */
  lemma SingleTokenDefaultAction(description: string)
    requires ' ' !in description
    requires Lower(description) !in MainActionWords
    ensures ExtractMainAction(description) == DefaultAction
  {
    SingleToken(description);
  }

  /** Action words match whole tokens only: "sending" yields the default. */
  lemma SendingIsNotSend()
    ensures ExtractMainAction("sending") == DefaultAction
  {
    assert Lower("sending") == "sending";
    SingleTokenDefaultAction("sending");
  }

  /** Action words match whole tokens only: "send," yields the default. */
  lemma SendCommaIsNotSend()
    ensures ExtractMainAction("send,") == DefaultAction
  {
    assert Lower("send,") == "send,";
    SingleTokenDefaultAction("send,");
  }

  /** A description that opens with "Every" has a schedule trigger, whatever follows. */
  lemma OpeningEveryIsSchedule(description: string, rest: string)
    requires description == "Every" + rest
    ensures IdentifyTrigger(description) == "schedule"
  {
    LowerConcat("Every", rest);
    assert Lower("Every") == "every";
    assert IsPrefix("every", Lower(description));
    OccursIsContained(Lower(description), "every", 0);
  }

  /** A description with " send " in it has `send` as its main action, whatever surrounds it. */
  lemma SpacedSendIsMainAction(description: string, before: string, after: string)
    requires description == before + " send " + after
    ensures ExtractMainAction(description) == "send"
  {
    var word := "send";
    assert description == before + [' '] + word + [' '] + after;
    LowerSpacedWord(before, word, after);
    assert Lower(word) == word;
    SendTokenIsMainAction(description, Lower(before), Lower(after));
  }

  /** Lower-casing keeps the spaces around a word and lower-cases each part. */
  lemma LowerSpacedWord(before: string, word: string, after: string)
    ensures Lower(before + [' '] + word + [' '] + after)
            == Lower(before) + [' '] + Lower(word) + [' '] + Lower(after)
  {
    LowerConcat(before + [' '] + word + [' '], after);
    LowerConcat(before + [' '] + word, [' ']);
    LowerConcat(before + [' '], word);
    LowerConcat(before, [' ']);
    assert Lower([' ']) == [' '];
  }

  /** A lower-cased description with the token `send` has `send` as its main action. */
  lemma SendTokenIsMainAction(description: string, before: string, after: string)
    requires Lower(description) == before + [' '] + "send" + [' '] + after
    ensures ExtractMainAction(description) == "send"
  {
    TokenBetweenSpaces(before, "send", after);
  }

  /** "Every day at 9am, fetch orders from the API and send a summary email", in three parts. */
  const ScenarioOpening := "Every" + " day at 9am, fetch orders from the API and"
  const ScenarioClosing := "a summary email"
  const ScenarioDescription := ScenarioOpening + " send " + ScenarioClosing

  /**
   * A description with several signals: the schedule word wins the trigger,
   * and `send` is the main action although `fetch` comes first in the text.
   */
  lemma ScheduledFetchAndSend()
    ensures IdentifyTrigger(ScenarioDescription) == "schedule"
    ensures ExtractMainAction(ScenarioDescription) == "send"
  {
    var rest := " day at 9am, fetch orders from the API and";
    assert ScenarioDescription == "Every" + (rest + " send " + ScenarioClosing);
    OpeningEveryIsSchedule(ScenarioDescription, rest + " send " + ScenarioClosing);
    SpacedSendIsMainAction(ScenarioDescription, ScenarioOpening, ScenarioClosing);
  }

  // ---------------------------------------------------------------------
  // generateWorkflowName
  // ---------------------------------------------------------------------

  /** `word.charAt(0).toUpperCase() + word.slice(1).toLowerCase()`. */
  function Capitalize(word: string): (r: string)
    ensures |r| == |word|
    ensures forall i :: 0 <= i < |word| ==> r[i] == if i == 0 then UpperChar(word[i]) else LowerChar(word[i])
  {
    if word == [] then [] else [UpperChar(word[0])] + Lower(word[1..])
  }

  /** `words.map(Capitalize)`. */
  function CapitalizeAll(words: seq<string>): (r: seq<string>)
    ensures |r| == |words|
    ensures forall i :: 0 <= i < |words| ==> r[i] == Capitalize(words[i])
  {
    if words == [] then [] else [Capitalize(words[0])] + CapitalizeAll(words[1..])
  }

  /** `description.split(' ').slice(0, 5)`. */
  function LeadingPieces(description: string): (pieces: seq<string>)
    ensures 1 <= |pieces| <= 5
    ensures |pieces| <= |Split(description, ' ')| && pieces == Split(description, ' ')[..|pieces|]
    ensures |pieces| < 5 ==> pieces == Split(description, ' ')
  {
    var all := Split(description, ' ');
    all[..if |all| < 5 then |all| else 5]
  }

  /** The suffix appended to every generated name. */
  const NameSuffix := " Workflow"

  /** `helpers.generateWorkflowName`. */
  function GenerateWorkflowName(description: string): (name: string)
    ensures IsSuffix(NameSuffix, name)
  {
    Join(CapitalizeAll(LeadingPieces(description)), " ") + NameSuffix
  }

  /** The title-casing rule stated per character: upper-case where a piece starts, lower-case elsewhere. */
  predicate TitleCasedFrom(title: string, text: string) {
    && |title| == |text|
    && forall i {:trigger title[i]} :: 0 <= i < |text| ==>
         title[i] == (if i == 0 || text[i - 1] == ' ' then UpperChar(text[i]) else LowerChar(text[i]))
  }

  /** Either case of a character lower-cases to the same character. */
  lemma CaseInsensitiveChar(t: char, c: char)
    requires t == UpperChar(c) || t == LowerChar(c)
    ensures LowerChar(t) == LowerChar(c)
  {
    CaseFold(c);
  }

  /** A title-cased text equals its original ignoring case. */
  lemma TitleCasedIgnoringCase(title: string, text: string)
    requires TitleCasedFrom(title, text)
    ensures Lower(title) == Lower(text)
  {
    var lt, lx := Lower(title), Lower(text);
    forall i | 0 <= i < |text|
      ensures lt[i] == lx[i]
    {
      CaseInsensitiveChar(title[i], text[i]);
    }
  }

  /** Capitalizing separator-free pieces and joining them title-cases their join. */
  lemma {:induction false} CapitalizedJoinIsTitleCased(words: seq<string>)
    requires |words| >= 1
    requires forall k :: 0 <= k < |words| ==> ' ' !in words[k]
    ensures TitleCasedFrom(Join(CapitalizeAll(words), " "), Join(words, " "))
    decreases |words|
  {
    var w := words[0];
    var cw := Capitalize(w);
    assert |cw| == |w|;
    assert forall i :: 0 <= i < |w| ==> cw[i] == (if i == 0 then UpperChar(w[i]) else LowerChar(w[i]));
    assert CapitalizeAll(words)[0] == cw;
    if |words| == 1 {
      forall i | 0 <= i < |w|
        ensures cw[i] == (if i == 0 || w[i - 1] == ' ' then UpperChar(w[i]) else LowerChar(w[i]))
      {
        if i > 0 {
          assert w[i - 1] in w;
        }
      }
    } else {
      CapitalizedJoinIsTitleCased(words[1..]);
      var rest := Join(words[1..], " ");
      var crest := Join(CapitalizeAll(words[1..]), " ");
      assert CapitalizeAll(words)[1..] == CapitalizeAll(words[1..]);
      var text := w + " " + rest;
      var title := cw + " " + crest;
      assert Join(words, " ") == text;
      assert Join(CapitalizeAll(words), " ") == title;
      forall i | 0 <= i < |text|
        ensures title[i] == (if i == 0 || text[i - 1] == ' ' then UpperChar(text[i]) else LowerChar(text[i]))
      {
        if i < |w| {
          assert title[i] == cw[i] && text[i] == w[i];
          if i > 0 {
            assert text[i - 1] == w[i - 1];
            assert w[i - 1] in w;
          }
        } else if i == |w| {
          assert title[i] == ' ' && text[i] == ' ';
        } else {
          var j := i - |w| - 1;
          assert title[i] == crest[j] && text[i] == rest[j];
          if j > 0 {
            assert text[i - 1] == rest[j - 1];
          } else {
            assert text[i - 1] == ' ';
          }
        }
      }
      assert |title| == |text|;
      assert TitleCasedFrom(title, text);
    }
  }

  /**
   * Without its suffix, a generated name is the description's first five
   * pieces, which form a prefix of the description, title-cased: same
   * length, same text ignoring case, and each piece's first character
   * upper-cased with the rest lower-cased.
   */
  lemma WorkflowNameShape(description: string)
    ensures var name := GenerateWorkflowName(description);
            var prefix := Join(LeadingPieces(description), " ");
            && IsPrefix(prefix, description)
            && |name| == |prefix| + |NameSuffix|
            && TitleCasedFrom(name[..|prefix|], prefix)
            && Lower(name[..|prefix|]) == Lower(prefix)
  {
    var pieces := LeadingPieces(description);
    var prefix := Join(pieces, " ");
    var all := Split(description, ' ');
    assert forall k :: 0 <= k < |pieces| ==> pieces[k] == all[k];
    JoinFirstPiecesIsPrefix(description, ' ', 5);
    CapitalizedJoinIsTitleCased(pieces);
    var title := Join(CapitalizeAll(pieces), " ");
    var name := GenerateWorkflowName(description);
    assert name == title + NameSuffix;
    assert name[..|prefix|] == title;
    TitleCasedIgnoringCase(title, prefix);
  }

  /** Pieces after the fifth never affect the generated name. */
  lemma NameIgnoresLaterPieces(description: string, rest: string)
    requires |Split(description, ' ')| >= 5
    ensures GenerateWorkflowName(description + " " + rest) == GenerateWorkflowName(description)
  {
    var longer := description + " " + rest;
    assert longer == description + [' '] + rest;
    SplitAround(description, rest, ' ');
    var head := Split(description, ' ');
    var all := Split(longer, ' ');
    assert all == head + Split(rest, ' ');
    assert all[..5] == head[..5];
    assert LeadingPieces(longer) == all[..5];
    assert LeadingPieces(description) == head[..5];
  }

  /** The empty description is named by the suffix alone. */
  lemma EmptyDescriptionName()
    ensures GenerateWorkflowName("") == " Workflow"
  {
    assert Split("", ' ') == [""];
  }

  // ---------------------------------------------------------------------
  // generateStickyNote and documentation.stickyNoteTemplates
  // ---------------------------------------------------------------------

  /** The fields of the context object a sticky note reads; `None` is `undefined`. */
  datatype NoteContext = NoteContext(
    purpose: Option<string>,
    condition: Option<string>,
    service: Option<string>,
    action: Option<string>,
    operation: Option<string>,
    scenario: Option<string>,
    description: Option<string>)

  /** `${value}` in a template literal: `undefined` is rendered as the word. */
  function Interpolate(value: Option<string>): (r: string)
    ensures value.Some? ==> r == value.value
    ensures value.None? ==> r == "undefined"
  {
    match value
    case Some(s) => s
    case None => "undefined"
  }

  // Each template is a heading and label, the interpolated field, and a closing sentence.
  const StartLead := "\U{1F680} WORKFLOW START\n\nPurpose: "
  const StartTail := "\n\nThis workflow will automatically execute when triggered."
  const DecisionLead := "\U{1F500} DECISION POINT\n\nCondition: "
  const DecisionTail := "\n\nThe workflow branches based on this condition."
  const ApiLead := "\U{1F310} API CALL\n\nService: "
  const ApiMiddle := "\nAction: "
  const ApiTail := "\n\nConnecting to external service."
  const TransformLead := "\U{1F504} DATA TRANSFORMATION\n\nOperation: "
  const TransformTail := "\n\nProcessing and transforming data."
  const ErrorLead := "\U{26A0}\U{FE0F} ERROR HANDLING\n\nScenario: "
  const ErrorTail := "\n\nHandles errors gracefully."
  const GenericIcon := "\U{1F4DD} "
  const GenericFallback := "Additional workflow step"

  /** `stickyNoteTemplates.workflowStart`. */
  function WorkflowStartNote(purpose: string): (note: string)
    ensures Frames(note, StartLead, purpose, StartTail)
  {
    FramesConcat(StartLead, purpose, StartTail);
    StartLead + purpose + StartTail
  }

  /** `stickyNoteTemplates.decisionPoint`. */
  function DecisionPointNote(condition: string): (note: string)
    ensures Frames(note, DecisionLead, condition, DecisionTail)
  {
    FramesConcat(DecisionLead, condition, DecisionTail);
    DecisionLead + condition + DecisionTail
  }

  /** `stickyNoteTemplates.apiCall`: the service after its label, then the action after its own. */
  function ApiCallNote(service: string, action: string): (note: string)
    ensures Frames(note, ApiLead, service, ApiMiddle + action + ApiTail)
    ensures OccursAt(note, action, |ApiLead| + |service| + |ApiMiddle|)
  {
    var note := ApiLead + service + ApiMiddle + action + ApiTail;
    assert note == ApiLead + service + (ApiMiddle + action + ApiTail);
    assert note == (ApiLead + service + ApiMiddle) + action + ApiTail;
    FramesConcat(ApiLead, service, ApiMiddle + action + ApiTail);
    FramesConcat(ApiLead + service + ApiMiddle, action, ApiTail);
    note
  }

  /** `stickyNoteTemplates.dataTransform`. */
  function DataTransformNote(operation: string): (note: string)
    ensures Frames(note, TransformLead, operation, TransformTail)
  {
    FramesConcat(TransformLead, operation, TransformTail);
    TransformLead + operation + TransformTail
  }

  /** `stickyNoteTemplates.errorHandling`. */
  function ErrorHandlingNote(scenario: string): (note: string)
    ensures Frames(note, ErrorLead, scenario, ErrorTail)
  {
    FramesConcat(ErrorLead, scenario, ErrorTail);
    ErrorLead + scenario + ErrorTail
  }

  /** The generic note for a type without a template of its own. */
  function GenericNote(noteType: string, description: Option<string>): (note: string)
    ensures Frames(note, GenericIcon, Upper(noteType), "\n\n" + DescriptionOrFallback(description))
  {
    var tail := "\n\n" + DescriptionOrFallback(description);
    assert GenericIcon + Upper(noteType) + "\n\n" + DescriptionOrFallback(description)
        == GenericIcon + Upper(noteType) + tail;
    FramesConcat(GenericIcon, Upper(noteType), tail);
    GenericIcon + Upper(noteType) + "\n\n" + DescriptionOrFallback(description)
  }

  /** The note types with a template of their own. */
  const TemplatedNoteTypes := {"start", "decision", "api", "transform", "error"}

  /** `context.description || 'Additional workflow step'`. */
  function DescriptionOrFallback(description: Option<string>): (r: string)
    ensures r != ""
    ensures Truthy(description) ==> r == description.value
    ensures !Truthy(description) ==> r == GenericFallback
  {
    OrElse(description, GenericFallback)
  }

  /**
   * `helpers.generateStickyNote`: the five known types are rendered by their
   * templates with the matching context fields; any other type, compared
   * case-sensitively, gets a generic note headed by the upper-cased type.
   */
  function GenerateStickyNote(noteType: string, context: NoteContext): (note: string)
    ensures noteType == "start" ==> Frames(note, StartLead, Interpolate(context.purpose), StartTail)
    ensures noteType == "decision" ==> Frames(note, DecisionLead, Interpolate(context.condition), DecisionTail)
    ensures noteType == "api" ==>
              Frames(note, ApiLead, Interpolate(context.service), ApiMiddle + Interpolate(context.action) + ApiTail)
              && OccursAt(note, Interpolate(context.action), |ApiLead| + |Interpolate(context.service)| + |ApiMiddle|)
    ensures noteType == "transform" ==> Frames(note, TransformLead, Interpolate(context.operation), TransformTail)
    ensures noteType == "error" ==> Frames(note, ErrorLead, Interpolate(context.scenario), ErrorTail)
    ensures noteType !in TemplatedNoteTypes ==>
              Frames(note, GenericIcon, Upper(noteType), "\n\n" + DescriptionOrFallback(context.description))
  {
    if noteType == "start" then WorkflowStartNote(Interpolate(context.purpose))
    else if noteType == "decision" then DecisionPointNote(Interpolate(context.condition))
    else if noteType == "api" then ApiCallNote(Interpolate(context.service), Interpolate(context.action))
    else if noteType == "transform" then DataTransformNote(Interpolate(context.operation))
    else if noteType == "error" then ErrorHandlingNote(Interpolate(context.scenario))
    else GenericNote(noteType, context.description)
  }

  /** The first character of a note tells which branch produced it. */
  function NoteIcon(noteType: string): char {
    if noteType == "start" then '\U{1F680}'
    else if noteType == "decision" then '\U{1F500}'
    else if noteType == "api" then '\U{1F310}'
    else if noteType == "transform" then '\U{1F504}'
    else if noteType == "error" then '\U{26A0}'
    else '\U{1F4DD}'
  }

  /** Notes from different branches never coincide, whatever their contexts. */
  lemma StickyNoteBranchesDistinct(t1: string, c1: NoteContext, t2: string, c2: NoteContext)
    requires NoteIcon(t1) != NoteIcon(t2)
    ensures GenerateStickyNote(t1, c1) != GenerateStickyNote(t2, c2)
  {
    NoteOpensWithIcon(t1, c1);
    NoteOpensWithIcon(t2, c2);
  }

  /** Every note opens with the icon of its branch. */
  lemma NoteOpensWithIcon(noteType: string, context: NoteContext)
    ensures |GenerateStickyNote(noteType, context)| > 0
    ensures GenerateStickyNote(noteType, context)[0] == NoteIcon(noteType)
  {
    var note := GenerateStickyNote(noteType, context);
    assert note[0] == NoteIcon(noteType);
  }
}
