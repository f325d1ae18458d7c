# Contract copilot canvas: a Dafny model of its four components

The repository is a React front end for a contract-drafting assistant. Four
components each keep a flat list of records in React state, and a few list
and string operations change or read that list. This project models those
operations and proves what they promise:

- **Chat panel** (`ContractCopilot`). The transcript opens with a greeting.
  A send is refused when the input is only whitespace. Otherwise the input is
  appended verbatim as a user message, the box is cleared, and the typing
  indicator is switched on. Each send schedules one reply. When a reply fires,
  the fixed reply text is appended and the indicator is switched off.
  "New Contract" cuts the transcript back to the greeting.
- **Template browser** (`TemplateLibrary`). A constant catalog of four
  templates. It is filtered by a case-insensitive substring search on name or
  description, and by an exact category match where "All" matches every
  category.
- **Section editor** (`ContractEditor`). A list of contract sections. An edit
  replaces the content of the sections with the given id. There is also a
  local/live version toggle and a constant list of issues.
- **Upload panel** (`DocumentUpload`). Picked files are appended as
  `uploading` records. A timer per file marks that record `complete`. The
  remove button drops every record with the id.

Each component is a `class` whose fields are the component's `useState`
variables plus its scheduled timers: a count of pending replies for the chat,
a multiset of pending ids for uploads. The upload panel's drag highlight is
not modelled. Its methods are the event handlers and timer callbacks, and each
method's `ensures` ties the new state to a pure function of the old one. The
properties are lemmas about those pure functions.

- The chat panel's state is also a datatype `Chat` with step functions. A run
  of events (typing, sends, reply timers, resets) is a fold over those steps.
- The editor's and upload panel's `map` and `filter` calls are recursive
  functions over sequences.
- `Text` models the JavaScript string operations used: `trim` (with the
  ECMAScript whitespace set), `toLowerCase` on ASCII letters, and `includes`.
  `includes` is a scan, proved equal to "occurs at some index".

The behaviour follows the code where a description of the system says
otherwise:

- Searching "NDA" under "All" does not return only the NDA template. It also
  returns "Digital Transformation Consulting", whose description starts with
  "Standard", and "standard" contains "nda" (`Templates.NdaSearch`).
- Replies are one fixed text, not chosen by keywords in the input.
- The editor has no auto-fill.
- Uploads have no `analyzing` stage and no analysis payload.

Two behaviours of the code are stated as lemmas. Neither is treated as a
defect:

- A reply scheduled before "New Contract" still arrives after it
  (`Copilot.ReplyAfterReset`).
- With two sends in flight, the first reply turns the typing indicator off
  (`Copilot.TypingOffWhileReplyPending`).

## Model

| member | source | states |
|---|---|---|
| `Text.Trim` | src/components/ContractCopilot.tsx:47 | the trimmed input is empty exactly when every character is ECMAScript whitespace; otherwise it is the contiguous middle of the input, it starts and ends with non-whitespace, and everything cut off is whitespace |
| `Text.IncludesIff` | src/components/TemplateLibrary.tsx:82-83 | the `includes` scan holds exactly when the needle occurs at some index of the text |
| `Text.IncludesConcat` | src/components/TemplateLibrary.tsx:82-83 | a text split before a character the needle lacks includes the needle iff one of the halves does |
| `Text.LowerIdempotent` | src/components/TemplateLibrary.tsx:82-83 | lowering an already lowered string changes nothing |
| `Copilot.SendGuard` | src/components/ContractCopilot.tsx:47 | a send leaves the whole chat state unchanged if and only if the input is only whitespace |
| `Copilot.SendAppends` | src/components/ContractCopilot.tsx:49-58 | an accepted send appends exactly one user message holding the untrimmed input, keeps every earlier message, clears the input, turns the typing indicator on and schedules one reply |
| `Copilot.ReplyAppends` | src/components/ContractCopilot.tsx:61-70 | a reply appends exactly one AI message with the fixed reply text, keeps every earlier message and the input, and turns the typing indicator off |
| `Copilot.NewContractKeepsGreeting` | src/components/ContractCopilot.tsx:88 | "New Contract" leaves exactly the one-element transcript holding the greeting |
| `Copilot.StepKeepsGreeting` | src/components/ContractCopilot.tsx:46-88 | typing, sending, a reply and a reset each keep the greeting at index 0 |
| `Copilot.RunKeepsGreeting` | src/components/ContractCopilot.tsx:35-88 | through any sequence of events the greeting stays at index 0 |
| `Copilot.InitialBalanced` | src/components/ContractCopilot.tsx:35-44 | the opening state has one AI message, no user message and no pending reply |
| `Copilot.StepKeepsBalance` | src/components/ContractCopilot.tsx:46-70 | typing, sending and replies keep "user messages + 1 = AI messages + pending replies" |
| `Copilot.RunKeepsBalance` | src/components/ContractCopilot.tsx:46-70 | in any run without a reset, every user message is matched by a reply shown or a reply scheduled |
| `Copilot.RepliesMatchSends` | src/components/ContractCopilot.tsx:46-70 | from the opening state, a reset-free run with no reply pending shows one AI message per user message plus the greeting, so n sends yield n replies |
| `Copilot.StepKeepsAnswered` | src/components/ContractCopilot.tsx:46-88 | every event, resets included, keeps each shown user message answered or scheduled for an answer |
| `Copilot.RunKeepsAnswered` | src/components/ContractCopilot.tsx:46-88 | through any run, the AI messages shown plus the pending replies are at least the user messages shown plus the greeting |
| `Copilot.ReplyAfterReset` | src/components/ContractCopilot.tsx:61-88 | "New Contract" does not cancel a scheduled reply, which then lands right after the greeting |
| `Copilot.TypingOffWhileReplyPending` | src/components/ContractCopilot.tsx:57-69 | after two sends and one reply the typing indicator is off while one reply is still scheduled |
| `Copilot.ContractCopilot.constructor` | src/components/ContractCopilot.tsx:35-44 | the transcript is the greeting alone, the input is empty, the indicator is off, nothing is scheduled |
| `Copilot.ContractCopilot.SetInputValue` | src/components/ContractCopilot.tsx:216 | typing replaces the input and nothing else |
| `Copilot.ContractCopilot.HandleSendMessage` | src/components/ContractCopilot.tsx:46-71 | whitespace-only input changes nothing; otherwise the transcript gains the verbatim user message, the input becomes empty, the indicator comes on and one reply is scheduled |
| `Copilot.ContractCopilot.DeliverReply` | src/components/ContractCopilot.tsx:61-70 | a scheduled reply appends the fixed reply text, turns the indicator off and keeps the input |
| `Copilot.ContractCopilot.NewContract` | src/components/ContractCopilot.tsx:88 | the transcript becomes the greeting alone; input, indicator and pending replies are kept |
| `Templates.FilterMembership` | src/components/TemplateLibrary.tsx:81-86 | a template is in the result iff it is in the catalog, its lowered name or description includes the lowered term, and the category is "All" or equals its category |
| `Templates.FilterSubsequence` | src/components/TemplateLibrary.tsx:81-86 | the result is a subsequence of the catalog, in catalog order |
| `Templates.FilterCounts` | src/components/TemplateLibrary.tsx:81-86 | a matching template is kept as many times as it occurs and a non-matching one is dropped; together with the subsequence lemma this fixes the result |
| `Templates.FilterNothingSelected` | src/components/TemplateLibrary.tsx:75-86 | an empty search under "All" shows the whole catalog |
| `Templates.AllIgnoresCategory` | src/components/TemplateLibrary.tsx:84 | under "All" membership is decided by the search alone |
| `Templates.EmptyTermIgnoresSearch` | src/components/TemplateLibrary.tsx:82-84 | an empty term matches every template, so only the category decides |
| `Templates.FilterCaseInsensitive` | src/components/TemplateLibrary.tsx:82-83 | two terms that lower to the same string select the same templates |
| `Templates.FilterLoweredTerm` | src/components/TemplateLibrary.tsx:82-83 | a term and its lowered form select the same templates |
| `Templates.SearchIgnoresOtherFields` | src/components/TemplateLibrary.tsx:81-86 | changing a template's industry or highlighted sections never changes whether it matches |
| `Templates.CatalogCategories` | src/components/TemplateLibrary.tsx:23-79 | every catalog template's category is one of the category buttons other than "All" |
| `Templates.NdaSearch` | src/components/TemplateLibrary.tsx:23-86 | searching "NDA" under "All" returns exactly templates 2 and 4, in that order |
| `Templates.TemplateLibrary.constructor` | src/components/TemplateLibrary.tsx:75-77 | the search is empty, the category is "All", no template is previewed |
| `Templates.TemplateLibrary.FilteredTemplates` | src/components/TemplateLibrary.tsx:81-86 | the templates shown are exactly the catalog templates matching the current inputs, in catalog order |
| `Templates.TemplateLibrary.SetSearchTerm` | src/components/TemplateLibrary.tsx:107 | the search box sets the term |
| `Templates.TemplateLibrary.SetSelectedCategory` | src/components/TemplateLibrary.tsx:117 | a category button sets the category |
| `Templates.TemplateLibrary.SelectTemplate` | src/components/TemplateLibrary.tsx:134 | clicking a card previews that template |
| `Templates.TemplateLibrary.ClosePreview` | src/components/TemplateLibrary.tsx:182 | the close button clears the preview |
| `Templates.TemplateLibrary.UseTemplate` | src/components/TemplateLibrary.tsx:88-91 | using a template changes no state |
| `Editor.ReplaceContentAt` | src/components/ContractEditor.tsx:50-56 | the edit keeps the length; at each position the id, title, status and recommendations are kept, the content becomes the new text exactly when the id matches, and a non-matching section is untouched |
| `Editor.ReplaceContentKeepsIds` | src/components/ContractEditor.tsx:50-56 | the sequence of section ids, hence their order, is unchanged |
| `Editor.ReplaceContentUnknownId` | src/components/ContractEditor.tsx:52-54 | an id no section has leaves the sections unchanged |
| `Editor.ReplaceContentLastWins` | src/components/ContractEditor.tsx:50-56 | of two edits of the same id, the second decides |
| `Editor.ReplaceContentIdempotent` | src/components/ContractEditor.tsx:50-56 | the same edit twice equals it once |
| `Editor.ReplaceContentCommutes` | src/components/ContractEditor.tsx:50-56 | edits of different ids commute |
| `Editor.ContractEditor.constructor` | src/components/ContractEditor.tsx:19-48 | the local copy is shown, the three seeded sections and the three seeded issues are loaded |
| `Editor.ContractEditor.UpdateSection` | src/components/ContractEditor.tsx:50-56 | the sections become the edited list, whose ids are unchanged; the version toggle and the constant issues are untouched |
| `Editor.ContractEditor.SetActiveVersion` | src/components/ContractEditor.tsx:68-85 | the toggle sets the version to main or local and leaves the sections untouched |
| `Upload.NewRecords` | src/components/DocumentUpload.tsx:22-31 | one record per picked file, copying its name, size and type, with the drawn id and status `uploading` |
| `Upload.MarkCompleteAt` | src/components/DocumentUpload.tsx:34-38 | completion keeps the length; a record with the id changes only its status, to `complete`; every other record is untouched |
| `Upload.MarkCompleteAbsent` | src/components/DocumentUpload.tsx:36 | completion for an id no record has is a no-op |
| `Upload.MarkCompleteIdempotent` | src/components/DocumentUpload.tsx:36 | completing twice equals completing once |
| `Upload.MarkCompleteNoErrors` | src/components/DocumentUpload.tsx:34-38 | completion never produces status `error` |
| `Upload.RemoveFileMembership` | src/components/DocumentUpload.tsx:42-44 | a record survives removal iff it was there and has another id |
| `Upload.RemoveFileSubsequence` | src/components/DocumentUpload.tsx:42-44 | the surviving records keep their order |
| `Upload.RemoveFileCounts` | src/components/DocumentUpload.tsx:42-44 | every record with another id survives as many times as it occurred, and none with the id survives; together with the subsequence lemma this fixes the result, repeated records included |
| `Upload.RemoveFileAbsent` | src/components/DocumentUpload.tsx:43 | removing an id no record has leaves the list unchanged |
| `Upload.RemoveFileRemoves` | src/components/DocumentUpload.tsx:43 | after removal no record has the id |
| `Upload.RemoveFileIdempotent` | src/components/DocumentUpload.tsx:43 | removing twice equals removing once |
| `Upload.CompleteAfterRemove` | src/components/DocumentUpload.tsx:34-44 | a completion that fires after its record was removed changes nothing |
| `Upload.RemoveFileNoErrors` | src/components/DocumentUpload.tsx:42-44 | removal never produces status `error` |
| `Upload.DocumentUpload.constructor` | src/components/DocumentUpload.tsx:16 | the list starts empty, with no completion pending |
| `Upload.DocumentUpload.HandleFileUpload` | src/components/DocumentUpload.tsx:19-40 | a null file list changes nothing; k files append their k new records after the unchanged existing ones and schedule one completion per id; no record is ever in `error` |
| `Upload.DocumentUpload.CompleteUpload` | src/components/DocumentUpload.tsx:34-38 | a scheduled completion marks the records with its id complete, and one scheduled completion for the id is consumed; no record is in `error` |
| `Upload.DocumentUpload.RemoveFileById` | src/components/DocumentUpload.tsx:42-44 | the list becomes the filtered list; no record is in `error` |

## Left out

- Rendering, CSS classes, icons and the `@/components/ui/*` wrappers. They are presentation over library code that is not part of this model.
- Timer delays. Each `setTimeout` callback is an explicit step: `DeliverReply` for the chat, `CompleteUpload` for uploads. Pending timers are counted (chat) or kept as a multiset of ids (uploads), and may fire in any order.
- Id generation (`Date.now()`, `Math.random()`). Ids are parameters. Uniqueness is not assumed: every per-id property holds for all records with that id.
- Message timestamps and `toLocaleTimeString`, which depend on the clock and the locale. The never-set `contractType` field of a message is also left out.
- The chat sidebar's `contractTemplates` and "Recent Contracts" lists, the Enter-key binding and the disabled state of the send button. They are display only, or the same guard as `handleSendMessage`.
- `formatFileSize`, which uses floating-point `Math.log`, `Math.pow` and `toFixed`.
- Template ratings are floats. They are kept as tenths of a star and take no part in any operation.
- The file picker, drag-and-drop events and the `isDragging` flag, which are browser events.
- The `console.log` in `useTemplate`, which is I/O.
- `Templates.FilterCaseInsensitive`: `toLowerCase` is modelled on ASCII letters only. Other characters are compared unchanged, so full Unicode case folding is not captured.
- `Text.Trim`: the whitespace set is the fixed list of ECMAScript WhiteSpace and LineTerminator code points. Later Unicode additions to the space separators are not tracked.
- `Copilot.ContractCopilot.HandleSendMessage`: the source reads `inputValue` from the render closure. The model reads the field when the method is called, which matches one render per event. The promise returned by the `async` handler is not modelled.
- Keyword-routed replies, auto-fill, an `analyzing` stage, analysis payloads, saving and persistence do not exist in this code, so they are not modelled.
