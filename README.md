# n8n workflow helpers and the Confluence page creator, in Dafny

This project models three JavaScript parts of an n8n toolkit and proves properties about them.

- **Text-to-workflow helpers** (`config/text-to-workflow.config.js`), module `TextToWorkflow`:
  - `identifyTrigger` picks a trigger type from a free-text description by case-insensitive keyword patterns tried in a fixed order.
  - `extractMainAction` picks the first listed action word that is a whole space-separated token of the lower-cased description.
  - `generateWorkflowName` title-cases the first five space-separated pieces and appends ` Workflow`.
  - `generateStickyNote` fills one of five note templates, or a generic note.
  - The module also carries the constant tables it refers to: `nodeMapping` and `textAnalysis.actionKeywords`. The OpenAI defaults and `defaultStructure` are in `WorkflowValidators`, next to the rules they are checked against.
- **Custom workflow validators** (`winsurf.config.js`), module `WorkflowValidators`:
  - `validateWorkflowStructure` checks that the three top-level keys are present.
  - `validateConnections` checks that every source and every target of the connection table is a node id. Its nested loops are modelled as a `method` proved equal to a predicate.
  - `validateOpenAINode` is the rule for OpenAI nodes.
- **Confluence page creator** (`lib/refactored-confluence-page-creator.js`), module `ConfluencePage`:
  - XML escaping and line-break formatting.
  - Input extraction with defaults.
  - The four page sections joined by line feeds.
  - The REST payload with a trimmed storage value.
  - The guard that rejects input without a space key or a parent id.

Module `Strings` models the string operations the helpers call: `toLowerCase`/`toUpperCase` on ASCII letters, `split` on one character and `join`. It also holds the prefix, suffix and substring predicates the contracts are written with. `Contains` is what the case-insensitive trigger patterns reduce to. The module also holds the lemmas relating these operations, for example that `join` undoes `split`. Module `Wrappers` holds `Option` (a JavaScript `undefined`) and `Result` (a thrown `Error`). In a `Workflow`, `None` means that the object does not have the key, which is what `hasOwnProperty` tests.

Points of interpretation:

- **Regular expressions.** A pattern such as `/every|daily|hourly|weekly|monthly/i` is modelled as "some alternative occurs in the ASCII-lower-cased description". Every alternative is lower-case ASCII. Without the `u` flag, case-insensitive matching never maps a non-ASCII character onto an ASCII one, so for these patterns the model agrees with the regular expression.
- **Absent values.** A missing context property in a sticky note renders as the text `undefined`, exactly as a template literal does.
- **`validateConnections` without `nodes`.** A workflow without `nodes` makes the call throw a `TypeError`. The model reports this as the verdict `ThrowsTypeError`. The same applies to an OpenAI node without `parameters`.
- **Page templates.** The page sections are defined over a record of template texts, `SectionTemplates`. `PageTemplates` holds the node's own Vietnamese template text, and `GeneratePageContent` applies it. The lemmas about page content hold for any templates, and for the node's own templates in particular.
- **Unescaped fields.** The summary and the priority go into the page exactly as they were read. The source formats only the sender, the `taskBreakdown` text and the e-mail body (lines 243-251). The model keeps this behaviour.

## Model

| member | source | states |
|---|---|---|
| TextToWorkflow.NodeTypesAreBaseNodes | config/text-to-workflow.config.js:15-35 | every trigger, action and condition key maps to a node type in the `n8n-nodes-base.` namespace |
| TextToWorkflow.MatchesIffOccurs | config/text-to-workflow.config.js:281-289 | a pattern tests true iff one of its alternatives occurs at some position of the lower-cased description |
| TextToWorkflow.FirstMatchingType | config/text-to-workflow.config.js:287-292 | the result is the type of the first pattern that matches, and only when no earlier one does; with no match it is `manual` |
| TextToWorkflow.IdentifyTrigger | config/text-to-workflow.config.js:279-293 | `schedule` iff a schedule word occurs; `webhook` iff no schedule word but a webhook word; `email` iff neither of those but a mail word; otherwise `manual`; the result is always a key of `nodeMapping.triggers` and never `form` |
| TextToWorkflow.SubstringTriggerMatch | config/text-to-workflow.config.js:281-289 | matching is by substring, not by word: "rapid" contains "api" and gets a webhook trigger |
| TextToWorkflow.RapidHasNoScheduleWord | config/text-to-workflow.config.js:281 | none of the five schedule words occurs in "rapid" |
| TextToWorkflow.EmptyDescriptionTrigger | config/text-to-workflow.config.js:287-292 | the empty description matches no pattern and yields `manual` |
| TextToWorkflow.OpeningEveryIsSchedule | config/text-to-workflow.config.js:281-289 | a description opening with "Every" is scheduled whatever follows, since matching ignores case |
| TextToWorkflow.Tokens | config/text-to-workflow.config.js:274 | no token holds a space, and joining the tokens with spaces gives back the lower-cased description |
| TextToWorkflow.TokenCount | config/text-to-workflow.config.js:274 | there is one more token than spaces in the description |
| TextToWorkflow.TokensUnique | config/text-to-workflow.config.js:274 | any non-empty list of space-free pieces that joins with single spaces to the lower-cased description is exactly the token list |
| TextToWorkflow.FindListed | config/text-to-workflow.config.js:275 | `find` returns the first candidate in list order that is among the words, and nothing iff no candidate is |
| TextToWorkflow.ExtractMainAction | config/text-to-workflow.config.js:272-276 | the first of send, create, update, delete, process, transform that is a whole token of the lower-cased description, else `process`; never `fetch` or `notify`, though both are in `actionKeywords` |
| TextToWorkflow.SingleToken | config/text-to-workflow.config.js:274 | a description without spaces is one token, its lower-cased self |
| TextToWorkflow.TokenBetweenSpaces | config/text-to-workflow.config.js:274 | a space-free word with a space on each side is a token |
| TextToWorkflow.SingleTokenDefaultAction | config/text-to-workflow.config.js:274-275 | a space-free description that is not itself an action word yields `process` |
| TextToWorkflow.SendingIsNotSend | config/text-to-workflow.config.js:274-275 | "sending" yields `process`, because tokens must equal the action word |
| TextToWorkflow.SendCommaIsNotSend | config/text-to-workflow.config.js:274-275 | "send," yields `process`, because punctuation stays in the token |
| TextToWorkflow.SendTokenIsMainAction | config/text-to-workflow.config.js:273-275 | a lower-cased description holding the token `send` yields `send`, the first word of the list |
| TextToWorkflow.SpacedSendIsMainAction | config/text-to-workflow.config.js:272-276 | any description containing " send " yields `send` |
| TextToWorkflow.ScheduledFetchAndSend | config/text-to-workflow.config.js:272-293 | "Every day at 9am, fetch orders from the API and send a summary email" is scheduled and its main action is `send`, though `fetch` comes first |
| TextToWorkflow.LeadingPieces | config/text-to-workflow.config.js:265 | between one and five pieces, the first pieces of the split in order, and all of them when the split has fewer than five |
| TextToWorkflow.Capitalize | config/text-to-workflow.config.js:267 | same length; the first character upper-cased and every other one lower-cased |
| TextToWorkflow.CapitalizeAll | config/text-to-workflow.config.js:266-268 | one capitalised word per word, in order: the i-th result is the i-th word capitalised |
| TextToWorkflow.GenerateWorkflowName | config/text-to-workflow.config.js:264-269 | every name ends with " Workflow" |
| TextToWorkflow.CapitalizedJoinIsTitleCased | config/text-to-workflow.config.js:266-268 | capitalising space-free words and joining them with spaces upper-cases each word's first character and lower-cases the rest |
| TextToWorkflow.TitleCasedIgnoringCase | config/text-to-workflow.config.js:266-267 | a title-cased text lower-cases to the same text as its original |
| TextToWorkflow.WorkflowNameShape | config/text-to-workflow.config.js:264-269 | the name is the title-cased text of the first five pieces, which is a prefix of the description, followed by " Workflow"; case aside it equals that prefix |
| TextToWorkflow.NameIgnoresLaterPieces | config/text-to-workflow.config.js:265 | once a description has five pieces, appending more text does not change the name |
| TextToWorkflow.EmptyDescriptionName | config/text-to-workflow.config.js:264-269 | the empty description is named " Workflow" |
| TextToWorkflow.Interpolate | config/text-to-workflow.config.js:142-150 | a template placeholder renders a present value as it is and an absent one as the word `undefined` |
| TextToWorkflow.WorkflowStartNote | config/text-to-workflow.config.js:142 | the start note is its heading and label, the purpose, and its closing sentence |
| TextToWorkflow.DecisionPointNote | config/text-to-workflow.config.js:144 | the decision note frames the condition between its heading and closing sentence |
| TextToWorkflow.ApiCallNote | config/text-to-workflow.config.js:146 | the API note frames the service and then holds the action after the "Action: " label |
| TextToWorkflow.DataTransformNote | config/text-to-workflow.config.js:148 | the transformation note frames the operation |
| TextToWorkflow.ErrorHandlingNote | config/text-to-workflow.config.js:150 | the error note frames the scenario |
| TextToWorkflow.GenericNote | config/text-to-workflow.config.js:310 | the generic note is the memo icon, the upper-cased type, a blank line and the description or its fallback |
| TextToWorkflow.DescriptionOrFallback | config/text-to-workflow.config.js:310 | `context.description || 'Additional workflow step'`: a present, non-empty description as it is, otherwise the fallback, so the text after the blank line is never empty |
| TextToWorkflow.GenerateStickyNote | config/text-to-workflow.config.js:296-312 | each of the five note types fills its own template with its own context field (`undefined` when absent); any other type gets the generic note |
| TextToWorkflow.NoteOpensWithIcon | config/text-to-workflow.config.js:296-312 | every note is non-empty and opens with the icon of its branch |
| TextToWorkflow.StickyNoteBranchesDistinct | config/text-to-workflow.config.js:296-312 | notes from branches with different icons never coincide, whatever the contexts |
| Strings.Lower | config/text-to-workflow.config.js:274 | `toLowerCase` on ASCII: the same length, each character mapped by the ASCII lower-case map |
| Strings.Upper | config/text-to-workflow.config.js:310 | `toUpperCase` on ASCII: the same length, each character mapped by the ASCII upper-case map |
| Strings.Split | config/text-to-workflow.config.js:265 | `split` on one character: at least one piece, and no piece holds the separator |
| Strings.SplitCount | config/text-to-workflow.config.js:274 | there is one more piece than separators in the text |
| Strings.JoinSplit | config/text-to-workflow.config.js:265-268 | `join` undoes `split`: joining the pieces with the separator gives the text back |
| Strings.SplitJoin | config/text-to-workflow.config.js:265-268 | `split` undoes `join` on separator-free pieces: the pieces come back in order |
| Strings.FramedFieldRecovered | config/text-to-workflow.config.js:142-150 | the field a template embedded is recovered exactly by cutting off the template's lead and tail |
| WorkflowValidators.ValidateWorkflowStructure | winsurf.config.js:151-154 | true iff `name`, `nodes` and `connections` are all present |
| WorkflowValidators.StructureIgnoresValues | winsurf.config.js:151-154 | two workflows with the same keys present get the same answer, whatever the values |
| WorkflowValidators.NodeIds | winsurf.config.js:158 | the id list has one entry per node, in node order |
| WorkflowValidators.ConnectionsOf | winsurf.config.js:159-161 | the table the loop visits is the workflow's `connections` when present, and the empty table when absent, since `for…in` over `undefined` visits nothing |
| WorkflowValidators.ValidateConnections | winsurf.config.js:157-176 | throws without `nodes`; otherwise returns true iff every source key and every target of every output list is among the node ids |
| WorkflowValidators.EmptyConnectionsIntact | winsurf.config.js:161-175 | an empty connection table passes whatever the nodes |
| WorkflowValidators.IntactUnderMoreIds | winsurf.config.js:162-170 | a table that passes against some ids passes against any list containing them |
| WorkflowValidators.AppendedIdsIncluded | winsurf.config.js:158 | appending nodes keeps every id listed before |
| WorkflowValidators.MoreNodesStayIntact | winsurf.config.js:157-176 | adding nodes never turns a passing table into a failing one |
| WorkflowValidators.OnlyIdSetMatters | winsurf.config.js:162-170 | the verdict depends on which ids are listed, not on their order or repetition |
| WorkflowValidators.DanglingTargetBreaks | winsurf.config.js:166-171 | appending a target that is not a node id makes the table fail, whatever else it holds |
| WorkflowValidators.ValidateOpenAINode | winsurf.config.js:179-193 | other node types pass; an OpenAI node without parameters throws; with the `completion` resource it fails; otherwise it passes iff it has both `model` and `prompt` |
| WorkflowValidators.OpenAiDefaultsNeedPrompt | config/text-to-workflow.config.js:74-81 | the configured OpenAI defaults fail the rule for lack of a prompt and pass once a prompt is added, since `complete` is not `completion` |
| WorkflowValidators.OnlyOpenAiActionIsChecked | config/text-to-workflow.config.js:23-29 | the `openai` action maps to exactly the node type the OpenAI rule checks; every other mapped action node type passes the rule whatever its parameters |
| WorkflowValidators.DefaultStructureValid | config/text-to-workflow.config.js:42-51 | the default workflow skeleton passes the structure check and has intact connections |
| ConfluencePage.Escape | lib/refactored-confluence-page-creator.js:39-47 | the escaped text holds no `<`, `>`, `"` or `'` |
| ConfluencePage.EscapeXml | lib/refactored-confluence-page-creator.js:34-48 | a missing value gives the empty string, a string is escaped |
| ConfluencePage.EscapeConcat | lib/refactored-confluence-page-creator.js:47 | escaping works piece by piece, because each character is replaced on its own |
| ConfluencePage.EscapeWithoutMarkup | lib/refactored-confluence-page-creator.js:47 | text without markup characters is left unchanged |
| ConfluencePage.EscapeCharIsEntity | lib/refactored-confluence-page-creator.js:39-45 | a character is left as it is iff it is not markup; a markup character becomes an entity of at least four characters from `&` to `;` |
| ConfluencePage.EscapeCharLength | lib/refactored-confluence-page-creator.js:39-45 | each entity is its character plus 3, 4 or 5 characters |
| ConfluencePage.EscapeLength | lib/refactored-confluence-page-creator.js:39-47 | the escaped length is the length plus 3 per `<` or `>`, 4 per `&` and 5 per quote |
| ConfluencePage.EscapeNotIdempotent | lib/refactored-confluence-page-creator.js:47 | escaping twice differs from escaping once: "&lt;" becomes "&amp;lt;" |
| ConfluencePage.EscapeCharNewlines | lib/refactored-confluence-page-creator.js:39-47 | one character's escape holds a line feed exactly when the character is one |
| ConfluencePage.EscapeKeepsNewlines | lib/refactored-confluence-page-creator.js:47 | escaping keeps the number of line feeds, so the line-break step that follows sees all of them |
| ConfluencePage.UnescapeEscapedChar | lib/refactored-confluence-page-creator.js:39-45 | decoding one character's escape in front of any text gives that character back |
| ConfluencePage.UnescapeEscape | lib/refactored-confluence-page-creator.js:39-47 | decoding the five entities recovers the original text |
| ConfluencePage.EscapeInjective | lib/refactored-confluence-page-creator.js:39-47 | two different texts never escape to the same text |
| ConfluencePage.BreakLines | lib/refactored-confluence-page-creator.js:57 | no line feed survives, and each one becomes a tag opening with `<` |
| ConfluencePage.UnbreakBreakLines | lib/refactored-confluence-page-creator.js:57 | on text without `<`, turning each `<br />` back into a line feed undoes the replacement |
| ConfluencePage.FormatTextForConfluence | lib/refactored-confluence-page-creator.js:55-58 | a missing or empty text gives ""; the result has no line feed; its `<` count equals the text's line-feed count, since escaping removed every other `<` |
| ConfluencePage.FormatTextRoundTrip | lib/refactored-confluence-page-creator.js:55-58 | undoing the line breaks and then the entities recovers the original text |
| Strings.OrElse | lib/refactored-confluence-page-creator.js:69-73 | the `or` of a value and its fallback keeps a non-empty value and otherwise takes the fallback |
| ConfluencePage.ExtractInputData | lib/refactored-confluence-page-creator.js:65-77 | no input gives all defaults; each text field is the input's value when non-empty, else its default; space key and parent id pass through unchanged; the five text fields are never empty |
| ConfluencePage.ExtractIdempotent | lib/refactored-confluence-page-creator.js:65-77 | extracting already extracted data changes nothing |
| ConfluencePage.EmptyFieldIsMissing | lib/refactored-confluence-page-creator.js:69-73 | an empty summary or body is treated exactly like a missing one |
| ConfluencePage.QuoteRequestSection | lib/refactored-confluence-page-creator.js:98-106 | the section is exactly its lead, the sender, the middle text, the priority and its closing text, so each field sits at a fixed offset |
| ConfluencePage.AiSummarySection | lib/refactored-confluence-page-creator.js:111-116 | the section is exactly its lead, the summary and its closing text |
| ConfluencePage.TaskBreakdownSection | lib/refactored-confluence-page-creator.js:121-132 | the section is exactly its lead, the `taskBreakdown` text and its closing text |
| ConfluencePage.OriginalEmailSection | lib/refactored-confluence-page-creator.js:137-145 | the section is exactly its lead, the e-mail body and its closing text |
| ConfluencePage.JoinOffsetsOfFour | lib/refactored-confluence-page-creator.js:92 | in a join of four sections, each one starts after the earlier ones and one separator each |
| ConfluencePage.PageContent | lib/refactored-confluence-page-creator.js:84-93 | the page is the four sections in order, separated by single line feeds |
| ConfluencePage.GeneratePageContent | lib/refactored-confluence-page-creator.js:84-93 | the page opens with the first section's lead, ends with the last section's closing text and contains the sender, the priority, the summary, the `taskBreakdown` text and the e-mail body |
| ConfluencePage.PageBoundedByTemplates | lib/refactored-confluence-page-creator.js:84-145 | for any templates the page starts with the first section's lead and ends with the last section's closing text |
| ConfluencePage.PageHoldsLeadingFields | lib/refactored-confluence-page-creator.js:84-116 | for any templates the page contains the sender, the priority and the summary |
| ConfluencePage.PageHoldsTrailingFields | lib/refactored-confluence-page-creator.js:84-145 | for any templates the page contains the `taskBreakdown` text and the e-mail body |
| ConfluencePage.PageEmbedsQuoteFields | lib/refactored-confluence-page-creator.js:84-106 | the sender and the priority appear verbatim in the page at their offsets in the first section |
| ConfluencePage.PageEmbedsSummary | lib/refactored-confluence-page-creator.js:84-116 | the summary appears verbatim in the page, right after the second section's heading |
| ConfluencePage.PageEmbedsTaskBreakdown | lib/refactored-confluence-page-creator.js:84-132 | the `taskBreakdown` text appears verbatim in the page inside the third section |
| ConfluencePage.PageEmbedsCleanBody | lib/refactored-confluence-page-creator.js:84-145 | the e-mail body appears verbatim in the page inside the fourth section |
| ConfluencePage.PageContentLength | lib/refactored-confluence-page-creator.js:84-145 | the page length is the template text, the five fields and three line feeds |
| ConfluencePage.TrimStart | lib/refactored-confluence-page-creator.js:167 | leading white space is dropped and nothing else: the result is a suffix that does not start with white space |
| ConfluencePage.TrimEnd | lib/refactored-confluence-page-creator.js:167 | trailing white space is dropped and nothing else: the result is a prefix that does not end with white space |
| ConfluencePage.Trim | lib/refactored-confluence-page-creator.js:167 | the result sits in the text where the leading white space ends; everything before and after it is white space; it neither starts nor ends with white space |
| ConfluencePage.TrimAround | lib/refactored-confluence-page-creator.js:167 | trimming white space in front of text bounded by other characters leaves that text |
| ConfluencePage.TrimIdempotent | lib/refactored-confluence-page-creator.js:167 | trimming twice is trimming once |
| ConfluencePage.BuildConfluencePayload | lib/refactored-confluence-page-creator.js:153-172 | type `page`; title is the prefix followed by the summary; space key and single ancestor from the data; storage value is the trimmed content in representation `storage` |
| ConfluencePage.PageTemplatesFramedByTags | lib/refactored-confluence-page-creator.js:99-144 | the node's page opens with a line feed and indentation before a tag and ends with a tag |
| ConfluencePage.TrimIndentedTags | lib/refactored-confluence-page-creator.js:167 | a text that opens with a line feed and indentation before a tag and ends with a tag loses exactly that opening when trimmed |
| ConfluencePage.TrimmedPageContent | lib/refactored-confluence-page-creator.js:167 | for such templates, trimming the page drops exactly the leading line feed and indentation |
| ConfluencePage.StoredContentDropsLeadingIndent | lib/refactored-confluence-page-creator.js:254-257 | the stored value is the generated page without its leading line feed and indentation |
| ConfluencePage.ProcessForConfluence | lib/refactored-confluence-page-creator.js:243-251 | sender, task breakdown and body are formatted; summary, priority, space key and parent id are kept as read |
| ConfluencePage.HasConfluenceTarget | lib/refactored-confluence-page-creator.js:238 | true iff both the space key and the parent id are present and non-empty |
| ConfluencePage.CreatePage | lib/refactored-confluence-page-creator.js:232-257 | the run fails iff the space key or the parent id is missing or empty, with the configuration message; otherwise it builds a `page` titled from the summary, targeting the given space and parent, whose storage value is the trimmed page generated from the processed data in representation `storage` |
| ConfluencePage.NoInputIsRejected | lib/refactored-confluence-page-creator.js:234-240 | without input the run fails with the configuration message |
| ConfluencePage.StoredValueHoldsCleanBody | lib/refactored-confluence-page-creator.js:254-257 | the stored page value contains the (formatted) e-mail body |
| ConfluencePage.CreatedPageCarriesBody | lib/refactored-confluence-page-creator.js:243-257 | a created page contains the formatted e-mail body, and the original body is recovered from it by undoing line breaks and entities |

## Left out

- `addMetadata` (lib/refactored-confluence-page-creator.js:180-194) and `createErrorResponse` (202-227) depend on the clock (`new Date()`). The `catch` branch (264-275) also logs to the console. `CreatePage` returns the error as `Failure(message)` where the node returns the error response built from it.
- `$input.first().json` is the node's runtime input. It becomes the parameter of `CreatePage`.
- `generateNodeId` (config/text-to-workflow.config.js:62) draws a random UUID and is not modelled.
- The keyword lists `textAnalysis.triggerKeywords`, `conditionKeywords` and `dataOpKeywords` (config/text-to-workflow.config.js:8, 10-11) and the `qualityAssurance` thresholds (232-238) are read by no modelled helper and are not modelled.
- `TextToWorkflow.GenerateStickyNote` takes its context as a record whose fields may be absent. A missing context object, which makes every branch throw a `TypeError` when it reads `context.<field>` (config/text-to-workflow.config.js:300-310), and a missing type, which makes the default branch throw at `type.toUpperCase()` (310), are not modelled.
- `TextToWorkflow.GenerateWorkflowName` takes a string. A missing description, which throws a `TypeError` at `description.split` (config/text-to-workflow.config.js:265), is not modelled.
- `TextToWorkflow.ExtractMainAction` takes a string. A missing description, which throws a `TypeError` at `description.toLowerCase()` (config/text-to-workflow.config.js:274), is not modelled.
- `TextToWorkflow.IdentifyTrigger` takes a string. A missing description is converted to the text "undefined" by `RegExp.prototype.test`; the model covers that call by passing "undefined" itself.
- scripts/validate-setup.js is not part of this model.
- The lint and reporting settings of winsurf.config.js are static data that no modelled operation reads.
- The remaining static tables of the workflow configuration are not modelled: positioning, naming rules, the other node configurations, `validation`, `errorHandling`, `outputFormatting`, `advancedPatterns` and the `workflowDescription` template.
- Floating-point values (`temperature: 0.7`) and numbers inside parameters are kept as an opaque `OtherValue`. The validators only compare strings.
- The text arguments of the helpers and the fields of the page input are modelled as strings, or as absent where the model uses `Option`. The workflow, node, target and sticky-note context arguments are records that are always present. JavaScript values of other types (numbers, objects, `null` as distinct from `undefined`) are not modelled. Examples are the `typeof` branch of `escapeXml` and the `String(...)` conversion in `formatTextForConfluence`.
- `TextToWorkflow.IdentifyTrigger`, `TextToWorkflow.ExtractMainAction`, `TextToWorkflow.GenerateWorkflowName` and `TextToWorkflow.GenericNote` use ASCII-only case mapping. The full Unicode case mapping of `toLowerCase`/`toUpperCase` is not modelled, for example "ß" upper-casing to "SS". Trigger detection is unaffected, for the reason given above.
- `WorkflowValidators.ValidateWorkflowStructure` cannot express a key that is present but holds `undefined` or `null`. `hasOwnProperty` counts such a key as present, while the model has only present-with-a-value and absent.
- `WorkflowValidators.ValidateWorkflowStructure` always receives a workflow record. A missing workflow, which throws a `TypeError` at `workflow.hasOwnProperty` (winsurf.config.js:153), is not modelled.
- `WorkflowValidators.ValidateConnections` always receives a workflow record, every entry of `nodes` is a node record, every output key holds a list and every entry of a list is a target record. The `TypeError`s thrown for a missing workflow at `workflow.nodes` (winsurf.config.js:158), for an `undefined`/`null` node at `node.id` (158), for an `undefined` output list at `for…of` (168) and for an `undefined`/`null` list entry at `connection.node` (169) are not modelled. Only the throw for a missing `nodes` is.
- `WorkflowValidators.ValidateOpenAINode` always receives a node record. A missing node, which throws a `TypeError` at `node.type` (winsurf.config.js:180), is not modelled. Only the throw for missing `parameters` is. A parameter key holding `undefined` is modelled as `OtherValue`, which counts as present, as `hasOwnProperty` (189) counts it.
- `WorkflowValidators.ValidateConnections` takes each output as a flat list of `{ node }` targets, which is how the validator's loops read it. n8n's own nested-array layout is not modelled.
- `ConfluencePage.GeneratePageContent` is stated through `PageContent` over any templates. The Vietnamese template text appears only in `PageTemplates`.
