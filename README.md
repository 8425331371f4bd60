# Gemini Computer — a verified model of the shell's core

Gemini Computer is a desktop-like web page whose window contents are written,
page by page, by a remote text generator. The user opens an application from
the desktop and clicks or types inside the generated page. Each action becomes
an *interaction record*. The shell keeps a bounded history of these records and
sends it to the generator, which streams back the next page as HTML.

This project models the core of that loop in Dafny and proves properties of it:

- `js.dfy` (module `Js`): the JavaScript built-ins the core relies on, with
  the semantics of the ECMAScript standard for the cases the core reaches:
  - `Array.prototype.slice`, including negative indices, and `substring`;
  - `trim`, `toLowerCase` and `parseInt(s, 10)`;
  - the decimal rendering of an integer, and `join`;
  - truthiness and `||` on optional strings.
- `types.dfy` (module `Types`): the interaction record, the user profile and
  the application table entry.
- `constants.dfy` (module `Constants`): the application table, the initial
  history bound, the lookup of an application by id, and the parts of the
  system prompt that depend on its parameters.
- `gemini_service.dfy` (module `GeminiService`): `streamAppContent`.
  - It assembles the prompt from the newest interaction and the numbered list
    of the earlier ones.
  - It relays the chunks of the remote stream, dropping those without text.
  - When the remote stream throws, it yields one error chunk.
  - The remote stream is a value: the chunks it delivers and the point, if
    any, at which it throws.
- `generated_content.dfy` (module `GeneratedContent`): the content pane.
  - The document is a sequence of elements in document order. Each element
    names its parent by index, and a parent always comes first.
  - A click walks up the parent chain to the first element carrying an
    interaction id, and never walks past the container.
  - An Enter press triggers the linked submit element, or emits a terminal
    command record.
  - Records are built by `triggerInteraction`.
  - After each render, an effect re-creates the `<script>` elements of new
    content, in place, so that they run. A marker makes this happen once per
    content.
  - The pane is a class: the markup shown, the elements as an `array`, and
    the marker.
- `parameters_panel.dfy` (module `ParametersPanel`): the settings panel.
  - It is a class holding the props and the four local copies the panel edits.
  - Applying the settings validates the length (a number from 0 to 10).
  - On success it calls the callbacks in order (length, statefulness when it
    changed, profile, close). On failure it shows an alert and calls none.
- `app.dfy` (module `AppShell`): the shell component.
  - `AppState` and one transition function per handler describe the whole
    state change of each handler:
    - the interaction history, newest first and cut by the history bound;
    - the undo and redo stacks of history snapshots;
    - the path of interaction ids inside the open application, which is the
      cache key;
    - the settings, the content and the error.
  - The class `App` has the thirteen state hooks as fields and one setter
    method per hook. Its handlers call the setters in the order the source
    does, and each handler is proved to agree with its transition function.
  - The request handler appends the streamed chunks to the content one by one
    in a loop.

Each handler is one atomic transition. React's batching, its stale closures
and the asynchronous interleaving of handlers are not modelled.

Two consequences of the code are worth stating plainly:

- No handler inserts into `appContentCache`; `handleSetStatefulness` only ever
  replaces it by `{}`. The cache therefore stays empty, and the cached branch
  of `handleInteraction` never runs (see `AppShell.CacheStaysEmpty`).
- N interactions followed by N undos restore the history and the undo stack.
  The redo stack then holds N snapshots, and the path stays the one the
  interactions made, because undo does not touch the path (see
  `AppShell.InteractionsThenUndos`).

A history bound of 0, which the panel accepts, does not bound the history.
`slice(0, -1)` drops only the oldest entry, so an interaction keeps the history
at its length, and at least one entry (`AppShell.ZeroBoundHistory`).

## Model

| member | source | states |
|---|---|---|
| Js.RelativeIndex | App.tsx:201 | how `slice` places an index: counted from the end when negative, clamped to the length |
| Js.Slice | App.tsx:199-202 | `slice(start, end)`: both ends placed as `Js.RelativeIndex` says, empty when they cross (properties in `Js.SliceFromStart`) |
| Js.SliceFromStart | App.tsx:199-202 | `slice(0, n)` keeps the first `n` elements for `n >= 0` and drops the last `-n` otherwise, with the resulting length |
| Js.SubstringPrefix | services/geminiService.ts:40 | `substring(0, n)` is the prefix of length `min(n, len)` and never longer than `n` |
| Js.Substring | services/geminiService.ts:40 | `substring(start, end)`: both ends clamped to the string and swapped when reversed (properties in `Js.SubstringPrefix`) |
| Js.Truthy | services/geminiService.ts:39 | an optional string is truthy exactly when it is present and non-empty |
| Js.Or | services/geminiService.ts:38 | the logical or of two strings: the first when non-empty, else the fallback |
| Js.OrDefault | components/GeneratedContent.tsx:44-45 | the logical or of an optional string and a fallback: the string when present and non-empty, else the fallback |
| Js.TrimStart | components/GeneratedContent.tsx:53 | the result is the suffix that starts at the first non-white-space character, and all it drops is white space |
| Js.TrimEnd | components/GeneratedContent.tsx:53 | the result is the prefix that ends at the last non-white-space character, and all it drops is white space |
| Js.Trim | components/GeneratedContent.tsx:53 | `trim()`: white space stripped from both ends (characterised by `Js.TrimCharacterised`) |
| Js.TrimCharacterised | components/GeneratedContent.tsx:48-54 | the trimmed text is a contiguous piece of the input, everything cut off is white space, and it neither starts nor ends with white space |
| Js.TrimOfTrimmed | components/ParametersPanel.tsx:61 | a string without white space at either end is its own trim |
| Js.ToLower | components/GeneratedContent.tsx:47 | same length, each character lower-cased |
| Js.DigitPrefixLength | components/ParametersPanel.tsx:48 | the longest run of decimal digits at the start of a string |
| Js.ParseInt | components/ParametersPanel.tsx:48 | `parseInt(s, 10)`: leading white space and one sign skipped, the longest run of digits read, `NaN` (none) when there is no digit |
| Js.IntToString | components/ParametersPanel.tsx:31-32 | `toString()` of an integer: its decimal digits, with `-` in front when negative; never empty |
| Js.ParseIntOfIntToString | components/ParametersPanel.tsx:31-32 | `parseInt(String(n), 10) == n` for every integer |
| Js.JoinSnoc | App.tsx:209 | appending a segment appends the separator and the segment to the joined string |
| Js.Join | App.tsx:209 | `join(sep)`: the elements in order with the separator between consecutive ones (one more element: `Js.JoinSnoc`) |
| Js.Concat | App.tsx:163-165 | the chunks appended one after the other, as `+=` accumulates them |
| Js.ConcatAppend | App.tsx:163-165 | the concatenation of two lists of chunks is the concatenation of their concatenations |
| Js.ConcatContains | App.tsx:163-165 | every chunk occurs in the concatenation |
| Constants.FindIn | services/geminiService.ts:43-45 | `find` returns an entry of the table with the id sought, the first one that has it, and none exactly when no entry has it |
| Constants.AppIdsDistinct | constants.ts:9-19 | the table has nine applications with pairwise distinct ids |
| Constants.AppNamesNonEmpty | constants.ts:9-19 | every application has a non-empty name |
| Constants.FindInDistinct | services/geminiService.ts:59-61 | in a table with distinct ids, looking up an entry's own id finds that entry |
| Constants.FindApp | services/geminiService.ts:43-45 | the lookup of an `appContext` in the application table (exact by `Constants.FindAppExact`) |
| Constants.FindAppExact | services/geminiService.ts:43-45 | looking up an application's id finds exactly it; an unknown id or no id finds nothing |
| Constants.SystemPromptParameters | constants.ts:23-57 | the prompt names the user verbatim, uses the lower-cased name in the home directory and the terminal prompt, and states the history bound |
| Constants.PromptNamesUser | constants.ts:26 | the prompt contains the user line with the name verbatim |
| Constants.PromptHasHome | constants.ts:30 | the prompt contains the home directory of the lower-cased name |
| Constants.PromptHasTerminal | constants.ts:48 | the prompt contains the terminal prompt of the lower-cased name |
| Constants.PromptStatesBound | constants.ts:57 | the prompt contains the line stating the number of past interactions it receives |
| Constants.SystemPromptDefaultUser | constants.ts:23 | without a username the prompt serves the user 'Guest' |
| Constants.SystemPrompt | constants.ts:23-57 | `getSystemPrompt`: the prompt for the given username, 'Guest' when none is given |
| Constants.PromptFor | constants.ts:23-57 | the four parameter sites of the prompt, in order, for a user name |
| Constants.UserLine | constants.ts:26 | the line naming the user verbatim |
| Constants.HomeLine | constants.ts:30 | the example home directory of the lower-cased name |
| Constants.TerminalLine | constants.ts:48 | the terminal prompt prefix of the lower-cased name |
| Constants.HistoryBoundLine | constants.ts:57 | the line stating how many past interactions the prompt receives |
| GeminiService.ElementName | services/geminiService.ts:34-37 | the element's text, else its id, else 'Unknown Element'; never empty |
| GeminiService.CurrentHead | services/geminiService.ts:34-38 | the summary of the newest interaction: element name, then type and id, each 'N/A' when empty |
| GeminiService.CurrentSummary | services/geminiService.ts:38-41 | the summary followed by the value clause |
| GeminiService.AppLabel | services/geminiService.ts:43-47 | the table name of the application in the context, else the raw context; never empty |
| GeminiService.CurrentValueClause | services/geminiService.ts:39-41 | empty without a value, otherwise the first 100 characters of the value |
| GeminiService.PastValueClause | services/geminiService.ts:66-68 | empty without a value, otherwise the first 50 characters of the value |
| GeminiService.CurrentAppContext | services/geminiService.ts:46-48 | the application line names the table name or the context, and a fixed sentence without context |
| GeminiService.PastAppName | services/geminiService.ts:59-64 | the application name of a past interaction: `GeminiService.AppLabel` of its context, 'N/A' without one |
| GeminiService.PastEntry | services/geminiService.ts:57-65 | a past interaction's numbered line up to the value clause |
| GeminiService.PastLine | services/geminiService.ts:65-69 | the numbered line, its value clause, and the closing '.' |
| GeminiService.MentionCount | services/geminiService.ts:52-53 | the number of earlier interactions the header mentions: `max - 1`, and never negative |
| GeminiService.HistoryHeader | services/geminiService.ts:54 | the header of the history part, with `GeminiService.MentionCount` |
| GeminiService.Numbered | services/geminiService.ts:56-70 | one line per element, numbered on from `first`, in order (splitting: `GeminiService.NumberedSplit`) |
| GeminiService.PastLines | services/geminiService.ts:56-70 | the lines of the past interactions, numbered from 1 in the segment |
| GeminiService.HistorySegment | services/geminiService.ts:50-71 | empty exactly when there are no past interactions; otherwise it starts with the header |
| GeminiService.HistorySegmentEntry | services/geminiService.ts:56-70 | past interaction `j` is line `j + 1`, after the lines of earlier entries and before those of later ones |
| GeminiService.AppendedLine | services/geminiService.ts:65-69 | one pass of the loop appends exactly the next numbered line |
| GeminiService.AppendPastLines | services/geminiService.ts:56-70 | the loop appends one line per past interaction, numbered from 1, in order |
| GeminiService.BuildHistorySegment | services/geminiService.ts:50-71 | the segment the code builds is the header and the numbered lines, or empty |
| GeminiService.NumberedAppend | services/geminiService.ts:56-70 | numbering a concatenation numbers the second part on from where the first ends |
| GeminiService.NumberedSplit | services/geminiService.ts:56-70 | entry `j` sits between the entries before it and after it |
| GeminiService.Prompt | services/geminiService.ts:29-82 | the full prompt for a non-empty history: system prompt, summary of `history[0]`, application line, history segment of the rest, full context |
| GeminiService.PromptTemplate | services/geminiService.ts:73-82 | the template the prompt's pieces are placed in, in order |
| GeminiService.PromptTemplateContains | services/geminiService.ts:73-82 | the prompt contains the summary and the history segment whole |
| GeminiService.TemplateKeepsSegment | services/geminiService.ts:73-82 | whatever the history segment contains, the prompt contains |
| GeminiService.PromptMentionsCurrent | services/geminiService.ts:31-41 | the prompt summarises `history[0]` as the current interaction |
| GeminiService.PromptMentionsPast | services/geminiService.ts:32-77 | every later entry `history[j]` appears in the prompt as past line `j` |
| GeminiService.HistoryMentions | services/geminiService.ts:50-71 | entry `j > 0` of the history occurs in the history segment as line `j` |
| GeminiService.Delivered | services/geminiService.ts:84-94 | the chunks delivered are a prefix of the stream, all of it when it does not throw |
| GeminiService.NonEmptyTexts | services/geminiService.ts:90-94 | only chunks with text are relayed, each one a chunk of the stream |
| GeminiService.NonEmptyTextsMembers | services/geminiService.ts:90-94 | a chunk is relayed exactly when it carries text |
| GeminiService.NonEmptyTextsConcat | services/geminiService.ts:90-94 | dropping the chunks without text does not change the concatenated content |
| GeminiService.ErrorMessage | services/geminiService.ts:97-100 | the generic message, with the details appended when an `Error` was thrown |
| GeminiService.ErrorMarkup | services/geminiService.ts:102-105 | the error markup around a message |
| GeminiService.ErrorChunk | services/geminiService.ts:95-106 | the chunk yielded in the catch branch for what was thrown (contents in `GeminiService.ErrorChunkContents`) |
| GeminiService.ErrorChunkContents | services/geminiService.ts:95-106 | the error chunk announces the failure and carries the message of a thrown `Error` |
| GeminiService.ErrorMarkupContents | services/geminiService.ts:102-105 | the error markup contains its title and the message |
| GeminiService.Yields | services/geminiService.ts:14-107 | all that `streamAppContent` yields: the notice for an empty history, otherwise `GeminiService.Relayed` |
| GeminiService.Relayed | services/geminiService.ts:84-106 | the non-empty chunk texts delivered, then one error chunk when the stream throws |
| GeminiService.UsernameOf | services/geminiService.ts:29 | `userProfile?.username` |
| GeminiService.EmptyHistoryYieldsNotice | services/geminiService.ts:22-27 | an empty history yields only the notice, whatever the remote would do |
| GeminiService.SuccessfulStream | services/geminiService.ts:84-94 | a stream that ends normally yields exactly its chunks with text, which concatenate to all of its content |
| GeminiService.FailedStream | services/geminiService.ts:84-106 | a stream that throws after `k` chunks yields what those `k` chunks would, then one error chunk, then nothing |
| GeminiService.BuildPrompt | services/geminiService.ts:29-82 | the prompt assembled is the template filled with the system prompt, summary, app line, history segment and full context |
| GeminiService.RelayChunks | services/geminiService.ts:90-94 | the relay loop yields the chunks with text, in arrival order |
| GeminiService.ReportFailure | services/geminiService.ts:95-106 | the catch branch yields the error chunk for what was thrown |
| GeminiService.RelayStream | services/geminiService.ts:84-106 | what is yielded once the request is sent |
| GeminiService.StreamAppContent | services/geminiService.ts:14-107 | a request is sent exactly for a non-empty history; an empty history yields the notice, otherwise the relayed chunks |
| GeneratedContent.Chain | components/GeneratedContent.tsx:63-69 | the parent chain starts at the element and stays at or before it |
| GeneratedContent.FirstMatch | components/GeneratedContent.tsx:35-37 | the first match in document order, and none exactly when nothing matches |
| GeneratedContent.Attr | components/GeneratedContent.tsx:32-34 | an attribute's value, absent when the element does not carry it |
| GeneratedContent.DomId | components/GeneratedContent.tsx:83 | the `id` property: the `id` attribute or the empty string |
| GeneratedContent.IsDescendant | components/GeneratedContent.tsx:87-89 | an element lies strictly inside another, by the parent chain |
| GeneratedContent.GetElementById | components/GeneratedContent.tsx:35-37 | `document.getElementById`: the first element of the document with that id |
| GeneratedContent.QueryValueFrom | components/GeneratedContent.tsx:87-89 | `container.querySelector('[data-value-from="id"]')`: the first element inside the container naming the id |
| GeneratedContent.ShownText | components/GeneratedContent.tsx:48-52 | the inner text, else the value, else the empty string |
| GeneratedContent.InteractionValue | components/GeneratedContent.tsx:31-41 | `data-interaction-value`, replaced by the value of the element `data-value-from` names when it exists (`GeneratedContent.RecordValue`) |
| GeneratedContent.TriggerInteraction | components/GeneratedContent.tsx:30-58 | the record `triggerInteraction` hands to `onInteract` for an element (fields in `GeneratedContent.RecordFields`) |
| GeneratedContent.RecordFields | components/GeneratedContent.tsx:43-56 | id and type fall back to 'unknown' and 'generic_click', the element type is the lower-cased tag, the context is passed through |
| GeneratedContent.RecordValue | components/GeneratedContent.tsx:31-41 | the value comes from the element `data-value-from` names when it exists, else from `data-interaction-value` |
| GeneratedContent.RecordText | components/GeneratedContent.tsx:48-54 | the text is at most 75 characters, a prefix of the trimmed text, and all of it when it fits |
| GeneratedContent.ClickStop | components/GeneratedContent.tsx:63-69 | the walk stops at the element or above it |
| GeneratedContent.Stops | components/GeneratedContent.tsx:63-67 | the walk stops at the container or at an element with an interaction id |
| GeneratedContent.ClickOutcome | components/GeneratedContent.tsx:60-75 | the record a click emits: that of the element where the walk stops when it has an id, else none (`GeneratedContent.ClickFiresIff`) |
| GeneratedContent.ChainDescends | components/GeneratedContent.tsx:68 | each step of the chain goes to the parent, at an earlier position, and the chain ends at a root |
| GeneratedContent.ClickWalk | components/GeneratedContent.tsx:63-69 | the walk stops at the first element of the chain that is the container or carries an id, and at none exactly when none does |
| GeneratedContent.ClickStaysInside | components/GeneratedContent.tsx:63-69 | a click inside the container stops at the container or inside it |
| GeneratedContent.HandleClick | components/GeneratedContent.tsx:60-75 | the loop climbs to where the walk stops and emits that element's record exactly when it carries an id |
| GeneratedContent.ClickFiresIff | components/GeneratedContent.tsx:71-74 | a click emits exactly when the walk stops at an element with an id, and the record carries that id |
| GeneratedContent.IsTextInput | components/GeneratedContent.tsx:80 | the target is an `INPUT` or a `TEXTAREA` |
| GeneratedContent.TerminalRecord | components/GeneratedContent.tsx:102-109 | the terminal command record, carrying the input's value |
| GeneratedContent.HandleKeyDown | components/GeneratedContent.tsx:77-114 | what a key press emits: the linked submit element's record, else the terminal record, else nothing (`GeneratedContent.KeyIgnored`, `GeneratedContent.KeyLinkedSubmit`, `GeneratedContent.KeyTerminal`) |
| GeneratedContent.KeyIgnored | components/GeneratedContent.tsx:77-82 | only Enter in an input or a text area emits anything |
| GeneratedContent.KeyLinkedSubmit | components/GeneratedContent.tsx:83-96 | Enter in an input with an id triggers the first element inside the container linked to that id |
| GeneratedContent.KeyTerminal | components/GeneratedContent.tsx:98-111 | without a linked element, Enter in a terminal input emits the command record with its value; in other inputs, nothing |
| GeneratedContent.Recreate | components/GeneratedContent.tsx:131-138 | the new script keeps every attribute, takes the old markup as text, runs, and sits at the old place |
| GeneratedContent.IsScript | components/GeneratedContent.tsx:128 | the element is a `<script>` |
| GeneratedContent.Activated | components/GeneratedContent.tsx:128-143 | every script is replaced at its position by its re-creation; everything else is kept |
| GeneratedContent.ActivatedProperties | components/GeneratedContent.tsx:128-143 | re-creating twice changes nothing more, keeps the tree's shape, and leaves every script running |
| GeneratedContent.Guard | components/GeneratedContent.tsx:126-156 | scripts are activated exactly when loading is over and the content differs from the marker; loading clears the marker |
| GeneratedContent.GuardOncePerContent | components/GeneratedContent.tsx:126-156 | the same content is activated once until a loading phase, after which it is activated again |
| GeneratedContent.ContentView.constructor | components/GeneratedContent.tsx:164-169 | a fresh pane shows the markup's elements with nothing activated |
| GeneratedContent.ContentView.Render | components/GeneratedContent.tsx:164-169 | new markup replaces the elements by its parse; the same markup keeps them |
| GeneratedContent.ContentView.ReplaceScripts | components/GeneratedContent.tsx:128-143 | the loop replaces each script of the array in place by its re-creation |
| GeneratedContent.ContentView.RunEffect | components/GeneratedContent.tsx:126-156 | the effect activates the scripts exactly when the guard says so and updates the marker |
| ParametersPanel.AcceptedLengthRange | components/ParametersPanel.tsx:48-49 | a length is accepted exactly when it parses to a number from 0 to 10, and that number is the one accepted |
| ParametersPanel.AcceptedLength | components/ParametersPanel.tsx:48-49 | the length the text stands for when `parseInt` gives a number from 0 to 10, else none |
| ParametersPanel.NormalisedUsername | components/ParametersPanel.tsx:61 | the trimmed name, or 'Guest' when that is empty (`ParametersPanel.UsernameNormalised`) |
| ParametersPanel.ApplyEffects | components/ParametersPanel.tsx:47-66 | the alert for a rejected length, else `ParametersPanel.AppliedEffects` |
| ParametersPanel.AppliedEffects | components/ParametersPanel.tsx:56-65 | the callbacks for an accepted length, in order (`ParametersPanel.AppliedOrder`) |
| ParametersPanel.ShownLengthAccepted | components/ParametersPanel.tsx:39-49 | the text shown for a bound is accepted back as that bound exactly when it lies from 0 to 10 |
| ParametersPanel.InitialLengthAccepted | constants.ts:21 | the initial bound is one the panel accepts |
| ParametersPanel.RejectedInput | components/ParametersPanel.tsx:51-54 | a rejected length alerts and calls no callback, not even close |
| ParametersPanel.AppliedOrder | components/ParametersPanel.tsx:56-65 | callbacks run as length, statefulness only when changed, profile, close, with no alert |
| ParametersPanel.UsernameNormalised | components/ParametersPanel.tsx:61 | the name sent is never empty, is the trimmed name or 'Guest', and normalising twice changes nothing |
| ParametersPanel.ParametersPanel.constructor | components/ParametersPanel.tsx:31-37 | the local copies start from the props |
| ParametersPanel.ParametersPanel.ReceiveProps | components/ParametersPanel.tsx:39-45 | new props re-sync the length text and the switch only when their prop changed; the local profile is kept |
| ParametersPanel.ParametersPanel.EditLength | components/ParametersPanel.tsx:115 | typing sets the length text and nothing else |
| ParametersPanel.ParametersPanel.EditStatefulness | components/ParametersPanel.tsx:129 | the box sets the local switch and nothing else |
| ParametersPanel.ParametersPanel.EditUsername | components/ParametersPanel.tsx:81 | typing sets the local name and nothing else |
| ParametersPanel.ParametersPanel.ChooseAvatar | components/ParametersPanel.tsx:92 | picking an avatar sets the local avatar to that option and nothing else |
| ParametersPanel.ParametersPanel.ApplyParameters | components/ParametersPanel.tsx:47-66 | the callbacks called are those `ApplyEffects` gives for the local settings |
| AppShell.Initial | App.tsx:118-147 | the hooks' initial values, with the saved profile or the default one |
| AppShell.IsSystemId | App.tsx:181-194 | the ids the shell handles itself: close, undo, redo |
| AppShell.NextHistory | App.tsx:199-202 | the interaction followed by `slice(0, max - 1)` of the old history (`AppShell.NextHistoryShape`) |
| AppShell.NewPath | App.tsx:205-208 | the path extended by the id inside an open application, restarted at the id otherwise |
| AppShell.CacheKey | App.tsx:209 | the path's ids joined by `__` (`AppShell.CacheKeyOfNewPath`) |
| AppShell.Requested | App.tsx:149-177 | the state a request leaves (`AppShell.RequestEffects`) |
| AppShell.RequestError | App.tsx:151-168 | the error a request leaves: the no-data message, none, or the streaming failure |
| AppShell.RequestContent | App.tsx:159-171 | the content a request leaves: unchanged, extended by the delivered chunks, or the error markup |
| AppShell.CacheHit | App.tsx:214 | the cache holds a non-empty page for the key |
| AppShell.Interacted | App.tsx:179-230 | `handleInteraction`: close, undo and redo are dispatched, everything else is `AppShell.Recorded` |
| AppShell.Recorded | App.tsx:196-219 | an ordinary interaction: `AppShell.Pushed`, then the cached page or a request |
| AppShell.Pushed | App.tsx:196-212 | the bookkeeping of an interaction: undo push, redo cleared, new history and path, content and error cleared |
| AppShell.Undone | App.tsx:232-242 | `handleUndo` (`AppShell.UndoThenRedo`, `AppShell.InteractionThenUndo`) |
| AppShell.Redone | App.tsx:244-254 | `handleRedo` (`AppShell.RedoThenUndo`) |
| AppShell.OpeningInteraction | App.tsx:257-263 | the record opening an application adds, with the application's id, name and context |
| AppShell.Opened | App.tsx:256-281 | `handleAppOpen` (`AppShell.OpenStartsSession`) |
| AppShell.ClosedAppView | App.tsx:283-291 | `handleCloseAppView`: desktop, no content, history, path or stacks |
| AppShell.Toggled | App.tsx:293-308 | `handleToggleParametersPanel` (`AppShell.ToggleKeepsStacks`) |
| AppShell.LengthUpdated | App.tsx:310-313 | `handleUpdateHistoryLength` (`AppShell.LengthUpdateCuts`) |
| AppShell.StatefulnessSet | App.tsx:315-320 | `handleSetStatefulness` (`AppShell.StatefulnessCache`) |
| AppShell.ProfileSet | App.tsx:125 | `setUserProfile` as the settings panel calls it |
| AppShell.MasterClosed | App.tsx:328-334 | `handleMasterClose` (`AppShell.MasterCloseShowsDesktop`) |
| AppShell.WindowTitle | App.tsx:322-326 | the window title: 'Settings', the application's name, or 'Gemini Computer' |
| AppShell.InteractAll | App.tsx:179-230 | ordinary interactions in order (`AppShell.InteractAllPushes`) |
| AppShell.UndoAll | App.tsx:232-242 | `n` undos in a row (`AppShell.UndoAllPops`) |
| AppShell.Step | App.tsx:179-334 | one handler call of any kind |
| AppShell.Run | App.tsx:179-334 | a sequence of handler calls (`AppShell.CacheStaysEmpty`) |
| AppShell.NextHistoryShape | App.tsx:199-202 | the new interaction comes first, the rest is a prefix of the old history, and for a bound of at least 1 the history stays within it |
| AppShell.ZeroBoundHistory | App.tsx:199-202 | with a bound of 0 the history keeps its length (at least 1), dropping only the oldest entry |
| AppShell.CacheKeyOfNewPath | App.tsx:205-209 | inside an open application the key grows by `__` and the id; otherwise it is the id |
| AppShell.RequestEffects | App.tsx:149-177 | a request touches only the content, the loading flag and the error (not the history, stacks, path, application, settings, profile or cache); without a history it only sets the error; with one it ends loading, and appends exactly the delivered text or, on failure, replaces the content by the error markup |
| AppShell.ServiceContentShown | App.tsx:159-164 | the content shown is the concatenation of the service's chunks, and every chunk appears in it |
| AppShell.UndoRedoKeepPath | App.tsx:232-254 | undo and redo never change the path or the open application |
| AppShell.UndoThenRedo | App.tsx:232-254 | redo right after undo restores the history and both stacks |
| AppShell.RedoThenUndo | App.tsx:232-254 | undo right after redo restores the history and both stacks |
| AppShell.InteractionThenUndo | App.tsx:196-242 | undo after an interaction restores the history and the undo stack, leaves one snapshot to redo, and keeps the new path |
| AppShell.InteractAllPushes | App.tsx:196-197 | each interaction pushes one snapshot, the first being the history before them, and leaves nothing to redo |
| AppShell.UndoAllPops | App.tsx:232-242 | `n` undos pop the top `n` snapshots, the last popped becomes the history, each pushes one snapshot to redo, and the path is kept |
| AppShell.InteractionsThenUndos | App.tsx:179-242 | `N` interactions then `N` undos restore the history and the undo stack; the redo stack then holds `N` snapshots and the path stays the one the interactions made |
| AppShell.OpenStartsSession | App.tsx:256-281 | opening an application starts a fresh session in it: one opening record, its path, empty stacks, panel closed |
| AppShell.ToggleKeepsStacks | App.tsx:293-308 | the toggle flips the panel, hides the application, keeps both stacks, and on closing clears the history and the path |
| AppShell.MasterCloseShowsDesktop | App.tsx:322-334 | the window's close button always leads back to the desktop and its title |
| AppShell.LengthUpdateCuts | App.tsx:310-313 | a new bound `n` cuts the history to its first `n` entries |
| AppShell.StatefulnessCache | App.tsx:315-320 | turning statefulness off empties the cache; turning it on keeps it |
| AppShell.StepNeverCaches | App.tsx:144-146 | no handler adds a key to the cache |
| AppShell.RunKeepsEmptyCache | App.tsx:144-146 | from an empty cache, any sequence of handler calls leaves it empty |
| AppShell.CacheStaysEmpty | App.tsx:214-219 | the cache is empty in every reachable state, so the cached branch never fires |
| AppShell.App.constructor | App.tsx:118-147 | the hooks' initial values; the profile is the saved one or the default |
| AppShell.App.SetActiveApp | App.tsx:118 | replaces the open application and keeps every other hook |
| AppShell.App.SetLlmContent | App.tsx:119 | replaces the content and keeps every other hook |
| AppShell.App.SetIsLoading | App.tsx:120 | replaces the loading flag and keeps every other hook |
| AppShell.App.SetError | App.tsx:121 | replaces the error and keeps every other hook |
| AppShell.App.SetInteractionHistory | App.tsx:122 | replaces the history and keeps every other hook |
| AppShell.App.SetUserProfile | App.tsx:125-128 | replaces the profile and keeps every other hook |
| AppShell.App.SetHistoryUndoStack | App.tsx:135 | replaces the undo stack and keeps every other hook |
| AppShell.App.SetHistoryRedoStack | App.tsx:136 | replaces the redo stack and keeps every other hook |
| AppShell.App.SetIsParametersOpen | App.tsx:138 | replaces the panel flag and keeps every other hook |
| AppShell.App.SetCurrentMaxHistoryLength | App.tsx:139-140 | replaces the history bound and keeps every other hook |
| AppShell.App.SetIsStatefulnessEnabled | App.tsx:142-143 | replaces the statefulness flag and keeps every other hook |
| AppShell.App.SetAppContentCache | App.tsx:144-146 | replaces the cache and keeps every other hook |
| AppShell.App.SetCurrentAppPath | App.tsx:147 | replaces the path and keeps every other hook |
| AppShell.App.InternalHandleLlmRequest | App.tsx:149-177 | the loop appends each chunk to the content; the final state is `Requested` |
| AppShell.App.HandleInteraction | App.tsx:179-230 | the buttons close, undo or redo; every other interaction is recorded (`Interacted`) |
| AppShell.App.RecordInteraction | App.tsx:196-219 | after the bookkeeping, the content comes from the cache on a hit, otherwise from a request (`Recorded`) |
| AppShell.App.PushInteraction | App.tsx:196-212 | pushes the history on the undo stack, clears redo, stores the new history and path, and clears content and error (`Pushed`) |
| AppShell.App.HandleUndo | App.tsx:232-242 | with no snapshot nothing changes; otherwise the top snapshot becomes the history and is requested (`Undone`) |
| AppShell.App.HandleRedo | App.tsx:244-254 | with no snapshot nothing changes; otherwise the top redo snapshot becomes the history and is requested (`Redone`) |
| AppShell.App.HandleAppOpen | App.tsx:256-281 | resets the session to the opening record and requests its content (`Opened`) |
| AppShell.App.HandleCloseAppView | App.tsx:283-291 | back to the desktop with no history, path or stacks (`ClosedAppView`) |
| AppShell.App.HandleToggleParametersPanel | App.tsx:293-308 | flips the panel; closing it also clears the history and the path (`Toggled`) |
| AppShell.App.HandleUpdateHistoryLength | App.tsx:310-313 | stores the bound and cuts the history to it (`LengthUpdated`) |
| AppShell.App.HandleSetStatefulness | App.tsx:315-320 | stores the flag and empties the cache when it is turned off (`StatefulnessSet`) |
| AppShell.App.HandleMasterClose | App.tsx:328-334 | closes the panel if open, else the application if open, else nothing (`MasterClosed`) |

## Left out

- Network: the remote generator is a parameter of `streamAppContent`. It is
  given as the chunks it delivers and an optional failure point. The model name
  and the client set-up are not modelled.
- `JSON.stringify(currentInteraction, null, 1)` in the prompt is a function
  parameter of the prompt functions.
- Local storage: the saved profile is a parameter of the `App` constructor.
  Reading it back with `JSON.parse` and writing it on every profile change are
  not modelled.
- AppShell.App.InternalHandleLlmRequest: its stream is an abstract finite chunk
  sequence with an optional failure point, not the generator returned by
  `streamAppContent`. `AppShell.ServiceContentShown` connects the two.
- AppShell.App.InternalHandleLlmRequest: the history bound and the profile it
  passes on are not part of the abstract stream.
- Asynchrony: between two chunks another handler may run in the browser. The
  model runs each handler to completion. React's batching of setter calls and
  the stale values captured by `useCallback` closures are not modelled.
- `console.error`, `event.preventDefault`, scrolling the terminal to the bottom
  and focusing the terminal input have no effect on the modelled state.
- The alert is an `Alert` effect of `ApplyParameters`.
- Js.ToLower: only ASCII letters are lower-cased. JavaScript's `toLowerCase`
  covers all of Unicode.
- GeneratedContent.RecordText: lengths count characters, not UTF-16 code units,
  so `substring(0, 75)` differs for text outside the Basic Multilingual Plane.
- GeminiService.CurrentValueClause: `substring(0, 100)` counts characters, not
  UTF-16 code units, so it differs for values outside the Basic Multilingual Plane.
- GeminiService.PastValueClause: `substring(0, 50)` counts characters, not
  UTF-16 code units, so it differs for values outside the Basic Multilingual Plane.
- Js.ParseInt: `parseInt` of `"-0"` gives `-0` in JavaScript and 0 here. Digit
  strings too long for a double are exact here.
- GeneratedContent.KeyLinkedSubmit: the input's id is put into a CSS attribute
  selector unescaped. An id containing a quote would make `querySelector` throw.
  The model matches the id literally.
- GeneratedContent.Element: the class list is a set, the `innerText` is given
  per element, and the HTML parser is not modelled. A render is given the parse
  of its markup.
- Constants.SystemPrompt: only the four places where the prompt interpolates a
  parameter are kept, each with a few words around it. The fixed prose of the
  prompt is not modelled.
- `types.ts` (the record declarations), `components/Window.tsx` and `Icon.tsx`
  are not part of this model. The records' shape follows how the core files use
  them.
- Presentational code is not modelled: the desktop view, the taskbar, the clock,
  the skeleton, the loading overlay, the opacity classes and the window frame.
- Cache keys live in a plain object in the source, so a key such as `__proto__`
  or `toString` would behave specially. The model uses a map.
