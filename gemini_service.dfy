/** The content service: turns the interaction history into one prompt for the
    remote text generator and relays the generator's text stream as chunks of
    markup. The remote generator is modelled by the chunks it delivers and the
    point, if any, at which it throws. */
module GeminiService {
  import opened Js
  import opened Types
  import Constants

  /** The single chunk produced for an empty history. */
  const NoDataChunk: string :=
    "<div class=\"p-4 text-orange-700 bg-orange-100 rounded-lg\">\n      <p class=\"font-bold text-lg\">"
    + "No interaction data provided." + "</p>\n    </div>"

  /** What the remote stream throws: an `Error` carrying a message, or any other value. */
  datatype Thrown = ErrorObject(message: string) | OtherValue

  /** The remote stream throws after delivering `after` chunks
      (`after == 0` covers the request itself failing). */
  datatype Failure = Failure(after: nat, thrown: Thrown)

  /** The remote stream: the text of each chunk it delivers, in arrival order
      (the empty string stands for a chunk without text), and its failure, if any. */
  datatype RemoteStream = RemoteStream(chunks: seq<string>, failure: Option<Failure>)

  // ---------------------------------------------------------------- prompt pieces

  /** The name an interaction is shown under: its text, else its id, else a fixed placeholder. */
  function ElementName(i: InteractionData): (r: string)
    ensures r != ""
    ensures i.elementText != "" ==> r == i.elementText
    ensures i.elementText == "" && i.id != "" ==> r == i.id
    ensures i.elementText == "" && i.id == "" ==> r == "Unknown Element"
  {
    Or(Or(i.elementText, i.id), "Unknown Element")
  }

  /** `appDef?.name || appContext`: the table name of the application, else the raw context. */
  function AppLabel(appContext: Option<string>): (r: string)
    requires Truthy(appContext)
    ensures r != ""
    ensures forall a :: a in Constants.AppDefinitions && a.id == appContext.value ==> r == a.name
    ensures (forall a :: a in Constants.AppDefinitions ==> a.id != appContext.value) ==> r == appContext.value
  {
    Constants.FindAppExact(appContext.value);
    Constants.AppNamesNonEmpty();
    var def := Constants.FindApp(appContext);
    if def.Some? && def.value.name != "" then def.value.name else appContext.value
  }

  /** The optional value clause of the current interaction: the first 100 characters. */
  function CurrentValueClause(value: Option<string>): (r: string)
    ensures !Truthy(value) ==> r == ""
    ensures Truthy(value) ==> r == " Associated value: '" + value.value[..Min(100, |value.value|)] + "'."
  {
    SubstringPrefix(if value.Some? then value.value else "", 100);
    if Truthy(value) then " Associated value: '" + Substring(value.value, 0, 100) + "'." else ""
  }

  /** The optional value clause of a past interaction: the first 50 characters. */
  function PastValueClause(value: Option<string>): (r: string)
    ensures !Truthy(value) ==> r == ""
    ensures Truthy(value) ==> r == " with value '" + value.value[..Min(50, |value.value|)] + "'"
  {
    SubstringPrefix(if value.Some? then value.value else "", 50);
    if Truthy(value) then " with value '" + Substring(value.value, 0, 50) + "'" else ""
  }

  function CurrentHead(c: InteractionData): string {
    "Current User Interaction: Clicked on '" + ElementName(c) + "' (Type: " + Or(c.interactionType, "N/A")
      + ", ID: " + Or(c.id, "N/A") + ")."
  }

  /** The one-line summary of the newest interaction. */
  function CurrentSummary(c: InteractionData): string {
    CurrentHead(c) + CurrentValueClause(c.value)
  }

  /** The application line of the newest interaction. */
  function CurrentAppContext(c: InteractionData): (r: string)
    ensures !Truthy(c.appContext) ==> r == "No specific app context for current interaction."
    ensures Truthy(c.appContext) ==> r == "Current App Context: '" + AppLabel(c.appContext) + "'."
  {
    if Truthy(c.appContext) then "Current App Context: '" + AppLabel(c.appContext) + "'."
    else "No specific app context for current interaction."
  }

  /** The application name shown for a past interaction. */
  function PastAppName(p: InteractionData): string {
    if Truthy(p.appContext) then AppLabel(p.appContext) else "N/A"
  }

  function PastEntry(number: int, p: InteractionData): string {
    "\n" + IntToString(number) + ". (App: " + PastAppName(p) + ") Clicked '" + ElementName(p)
      + "' (Type: " + Or(p.interactionType, "N/A") + ", ID: " + Or(p.id, "N/A") + ")"
  }

  /** The line for a past interaction, numbered `number`. */
  function PastLine(number: int, p: InteractionData): string {
    PastEntry(number, p) + PastValueClause(p.value) + "."
  }

  /** `currentMaxHistoryLength - 1 > 0 ? currentMaxHistoryLength - 1 : 0`. */
  function MentionCount(maxHistoryLength: int): (n: nat)
    ensures n == Max(maxHistoryLength - 1, 0)
  {
    if maxHistoryLength - 1 > 0 then maxHistoryLength - 1 else 0
  }

  function HistoryHeader(maxHistoryLength: int): string {
    "\n\nPrevious User Interactions (up to " + IntToString(MentionCount(maxHistoryLength)) + " most recent):"
  }

  /** The concatenation of `line(first, xs[0])`, `line(first + 1, xs[1])`, and so on. */
  function Numbered<T>(line: (int, T) -> string, xs: seq<T>, first: int): string {
    if xs == [] then "" else line(first, xs[0]) + Numbered(line, xs[1..], first + 1)
  }

  lemma {:induction false} NumberedAppend<T>(line: (int, T) -> string, a: seq<T>, b: seq<T>, first: int)
    ensures Numbered(line, a + b, first) == Numbered(line, a, first) + Numbered(line, b, first + |a|)
    decreases |a|
  {
    if a == [] {
      AppendEmpty(a, b);
    } else {
      TailOfAppend(a, b);
      NumberedAppend(line, a[1..], b, first + 1);
      Assoc3(line(first, a[0]), Numbered(line, a[1..], first + 1), Numbered(line, b, first + |a|));
    }
  }

  lemma NumberedSingle<T>(line: (int, T) -> string, x: T, first: int)
    ensures Numbered(line, [x], first) == line(first, x)
  {
    assert [x][1..] == [];
  }

  /** Entry `j` sits between the entries before it and those after it. */
  lemma NumberedSplit<T>(line: (int, T) -> string, xs: seq<T>, first: int, j: nat)
    requires j < |xs|
    ensures Numbered(line, xs, first)
      == Numbered(line, xs[..j], first) + line(first + j, xs[j]) + Numbered(line, xs[j + 1..], first + j + 1)
  {
    assert xs == xs[..j] + xs[j..];
    NumberedAppend(line, xs[..j], xs[j..], first);
    var rest := xs[j..];
    assert rest != [] && rest[0] == xs[j] && rest[1..] == xs[j + 1..];
    Assoc3(Numbered(line, xs[..j], first), line(first + j, xs[j]), Numbered(line, xs[j + 1..], first + j + 1));
  }

  /** The lines of the past interactions, numbered from `first` on. */
  function PastLines(past: seq<InteractionData>, first: int): string {
    Numbered(PastLine, past, first)
  }

  /** The history part of the prompt: empty exactly when there is no past
      interaction, and otherwise the header followed by the numbered lines. */
  function HistorySegment(past: seq<InteractionData>, maxHistoryLength: int): (r: string)
    ensures r == "" <==> past == []
    ensures past != [] ==> HistoryHeader(maxHistoryLength) <= r
  {
    if |past| == 0 then "" else HistoryHeader(maxHistoryLength) + PastLines(past, 1)
  }

  /** Past interaction `j` (0-based) appears as line `j + 1`, after the lines of
      the interactions before it and before the lines of those after it. */
  lemma HistorySegmentEntry(past: seq<InteractionData>, maxHistoryLength: int, j: nat)
    requires j < |past|
    ensures HistorySegment(past, maxHistoryLength)
      == HistoryHeader(maxHistoryLength) + PastLines(past[..j], 1)
         + PastLine(j + 1, past[j]) + PastLines(past[j + 1..], j + 2)
  {
    NumberedSplit(PastLine, past, 1, j);
    Assoc4(HistoryHeader(maxHistoryLength), PastLines(past[..j], 1), PastLine(j + 1, past[j]), PastLines(past[j + 1..], j + 2));
  }

  /** One step of the loop below: appending the line of `past[index]`. */
  lemma AppendedLine(past: seq<InteractionData>, head: string, index: nat, before: string, after: string)
    requires index < |past|
    requires before == head + PastLines(past[..index], 1)
    requires after == before + PastEntry(index + 1, past[index]) + PastValueClause(past[index].value) + "."
    ensures after == head + PastLines(past[..index + 1], 1)
  {
    var x := past[index];
    Assoc4(before, PastEntry(index + 1, x), PastValueClause(x.value), ".");
    TakeSnoc(past, index);
    NumberedAppend(PastLine, past[..index], [x], 1);
    NumberedSingle(PastLine, x, index + 1);
    Assoc3(head, PastLines(past[..index], 1), PastLine(index + 1, x));
  }

  /** The loop of `historyPromptSegment`: one line per past interaction,
      numbered from 1, appended after `head`. */
  method AppendPastLines(past: seq<InteractionData>, head: string) returns (segment: string)
    ensures segment == head + PastLines(past, 1)
  {
    segment := head;
    AppendNothing(head, PastLines(past[..0], 1));
    var index := 0;
    while index < |past|
      invariant 0 <= index <= |past|
      invariant segment == head + PastLines(past[..index], 1)
    {
      var interaction := past[index];
      ghost var before := segment;
      segment := segment + PastEntry(index + 1, interaction);
      segment := segment + PastValueClause(interaction.value);
      segment := segment + ".";
      AppendedLine(past, head, index, before, segment);
      index := index + 1;
    }
    assert past[..index] == past;
  }

  /** `historyPromptSegment`: empty without past interactions, otherwise the
      header followed by one line per past interaction. */
  method BuildHistorySegment(past: seq<InteractionData>, maxHistoryLength: int) returns (segment: string)
    ensures segment == HistorySegment(past, maxHistoryLength)
  {
    segment := "";
    if |past| > 0 {
      var numPrevInteractionsToMention := if maxHistoryLength - 1 > 0 then maxHistoryLength - 1 else 0;
      var header := "\n\nPrevious User Interactions (up to " + IntToString(numPrevInteractionsToMention) + " most recent):";
      assert numPrevInteractionsToMention == MentionCount(maxHistoryLength);
      segment := AppendPastLines(past, header);
    }
  }

  /** The full prompt for a non-empty history: the current interaction is
      `history[0]`, the past ones are `history[1..]` in their order, and
      `stringify` stands for `JSON.stringify(current, null, 1)`. */
  function Prompt(history: seq<InteractionData>, maxHistoryLength: int, username: Option<string>,
                  stringify: InteractionData -> string): string
    requires history != []
  {
    var current := history[0];
    PromptTemplate(Constants.SystemPrompt(maxHistoryLength, username), CurrentSummary(current),
      CurrentAppContext(current), HistorySegment(history[1..], maxHistoryLength), stringify(current))
  }

  /** The template the prompt pieces are placed in. */
  function PromptTemplate(systemPrompt: string, summary: string, appContext: string, historySegment: string,
                          fullContext: string): string
  {
    systemPrompt + "\n\n" + summary + "\n" + appContext + "\n" + historySegment
      + "\n\nFull Context for Current Interaction:\n" + fullContext
      + "\n\nGenerate the HTML content for the window's content area only:"
  }

  /** The template keeps the summary and the history segment whole. */
  lemma PromptTemplateContains(systemPrompt: string, summary: string, appContext: string, historySegment: string,
                               fullContext: string)
    ensures Contains(PromptTemplate(systemPrompt, summary, appContext, historySegment, fullContext), summary)
    ensures Contains(PromptTemplate(systemPrompt, summary, appContext, historySegment, fullContext), historySegment)
  {
    var s0 := systemPrompt + "\n\n" + summary;
    ContainsEnd(systemPrompt + "\n\n", summary);
    var s1 := s0 + "\n" + appContext + "\n" + historySegment;
    ContainsExtend(s0, summary, "\n");
    ContainsExtend(s0 + "\n", summary, appContext);
    ContainsExtend(s0 + "\n" + appContext, summary, "\n");
    ContainsExtend(s0 + "\n" + appContext + "\n", summary, historySegment);
    ContainsEnd(s0 + "\n" + appContext + "\n", historySegment);
    var s2 := s1 + "\n\nFull Context for Current Interaction:\n";
    ContainsExtend(s1, summary, "\n\nFull Context for Current Interaction:\n");
    ContainsExtend(s1, historySegment, "\n\nFull Context for Current Interaction:\n");
    ContainsExtend(s2, summary, fullContext);
    ContainsExtend(s2, historySegment, fullContext);
    ContainsExtend(s2 + fullContext, summary, "\n\nGenerate the HTML content for the window's content area only:");
    ContainsExtend(s2 + fullContext, historySegment, "\n\nGenerate the HTML content for the window's content area only:");
  }

  /** The prompt summarises `history[0]` as the current interaction. */
  lemma PromptMentionsCurrent(history: seq<InteractionData>, maxHistoryLength: int, username: Option<string>,
                              stringify: InteractionData -> string)
    requires history != []
    ensures Contains(Prompt(history, maxHistoryLength, username, stringify), CurrentSummary(history[0]))
  {
    var current := history[0];
    PromptTemplateContains(Constants.SystemPrompt(maxHistoryLength, username), CurrentSummary(current),
      CurrentAppContext(current), HistorySegment(history[1..], maxHistoryLength), stringify(current));
  }

  /** The prompt lists every later entry `history[j]` as past line number `j`. */
  lemma PromptMentionsPast(history: seq<InteractionData>, maxHistoryLength: int, username: Option<string>,
                           stringify: InteractionData -> string, j: nat)
    requires 0 < j < |history|
    ensures Contains(Prompt(history, maxHistoryLength, username, stringify), PastLine(j, history[j]))
  {
    var current := history[0];
    HistoryMentions(history, maxHistoryLength, j);
    TemplateKeepsSegment(Constants.SystemPrompt(maxHistoryLength, username), CurrentSummary(current),
      CurrentAppContext(current), HistorySegment(history[1..], maxHistoryLength), stringify(current),
      PastLine(j, history[j]));
  }

  lemma TemplateKeepsSegment(systemPrompt: string, summary: string, appContext: string, historySegment: string,
                             fullContext: string, part: string)
    requires Contains(historySegment, part)
    ensures Contains(PromptTemplate(systemPrompt, summary, appContext, historySegment, fullContext), part)
  {
    PromptTemplateContains(systemPrompt, summary, appContext, historySegment, fullContext);
    ContainsTransitive(PromptTemplate(systemPrompt, summary, appContext, historySegment, fullContext),
      historySegment, part);
  }

  /** Entry `j > 0` of the history occurs in the history segment as line `j`. */
  lemma HistoryMentions(history: seq<InteractionData>, maxHistoryLength: int, j: nat)
    requires 0 < j < |history|
    ensures Contains(HistorySegment(history[1..], maxHistoryLength), PastLine(j, history[j]))
  {
    var past, k := history[1..], j - 1;
    assert past[k] == history[j] && k + 1 == j;
    HistorySegmentEntry(past, maxHistoryLength, k);
    ContainsMiddle(HistoryHeader(maxHistoryLength) + PastLines(past[..k], 1), PastLine(k + 1, past[k]),
      PastLines(past[k + 1..], k + 2));
  }

  // ---------------------------------------------------------------- the stream

  /** The chunks the remote stream delivers before it ends or throws. */
  function Delivered(remote: RemoteStream): (r: seq<string>)
    ensures r <= remote.chunks
    ensures remote.failure.None? ==> r == remote.chunks
  {
    if remote.failure.Some? && remote.failure.value.after < |remote.chunks|
    then remote.chunks[..remote.failure.value.after]
    else remote.chunks
  }

  /** The chunks that carry text, in arrival order. */
  function NonEmptyTexts(cs: seq<string>): (r: seq<string>)
    ensures |r| <= |cs|
    ensures forall x :: x in r ==> x != "" && x in cs
  {
    if cs == [] then []
    else NonEmptyTexts(cs[..|cs| - 1]) + (if cs[|cs| - 1] != "" then [cs[|cs| - 1]] else [])
  }

  /** A chunk is relayed exactly when it carries text. */
  lemma {:induction false} NonEmptyTextsMembers(cs: seq<string>, x: string)
    ensures x in NonEmptyTexts(cs) <==> x in cs && x != ""
  {
    if cs != [] {
      var init := cs[..|cs| - 1];
      assert cs == init + [cs[|cs| - 1]];
      NonEmptyTextsMembers(init, x);
    }
  }

  /** Dropping the chunks without text does not change the concatenated content. */
  lemma {:induction false} NonEmptyTextsConcat(cs: seq<string>)
    ensures Concat(NonEmptyTexts(cs)) == Concat(cs)
  {
    if cs != [] {
      var init := cs[..|cs| - 1];
      var last := cs[|cs| - 1];
      NonEmptyTextsConcat(init);
      ConcatAppend(NonEmptyTexts(init), if last != "" then [last] else []);
      assert Concat([last]) == Concat([]) + last;
      assert Concat([]) == "";
    }
  }

  const GenericErrorMessage := "An error occurred while generating content."

  function ErrorMessage(thrown: Thrown): string {
    if thrown.ErrorObject? then GenericErrorMessage + " Details: " + thrown.message else GenericErrorMessage
  }

  const ErrorOpen := "<div class=\"p-4 text-red-700 bg-red-100 rounded-lg\">\n      <p class=\"font-bold text-lg\">"

  /** The markup of the error chunk around a message. */
  function ErrorMarkup(errorMessage: string): string {
    ErrorOpen
      + "Error Generating Content" + "</p>\n      <p class=\"mt-2\">" + errorMessage + "</p>\n    </div>"
  }

  /** The single chunk yielded after the remote stream throws. */
  function ErrorChunk(thrown: Thrown): string {
    ErrorMarkup(ErrorMessage(thrown))
  }

  /** The error chunk announces the failure and, for an `Error`, carries its message. */
  lemma ErrorChunkContents(thrown: Thrown)
    ensures Contains(ErrorChunk(thrown), "Error Generating Content")
    ensures thrown.ErrorObject? ==> Contains(ErrorChunk(thrown), thrown.message)
  {
    ErrorMarkupContents(ErrorMessage(thrown));
    if thrown.ErrorObject? {
      ContainsEnd(GenericErrorMessage + " Details: ", thrown.message);
      ContainsTransitive(ErrorChunk(thrown), ErrorMessage(thrown), thrown.message);
    }
  }

  lemma ErrorMarkupContents(errorMessage: string)
    ensures Contains(ErrorMarkup(errorMessage), "Error Generating Content")
    ensures Contains(ErrorMarkup(errorMessage), errorMessage)
  {
    PartsContain(ErrorOpen
      + "Error Generating Content", "</p>\n      <p class=\"mt-2\">", errorMessage, "</p>\n    </div>");
    ContainsEnd(ErrorOpen,
      "Error Generating Content");
    ContainsTransitive(ErrorMarkup(errorMessage),
      ErrorOpen
      + "Error Generating Content", "Error Generating Content");
  }

  /** Everything `streamAppContent` yields, in order. */
  function Yields(history: seq<InteractionData>, remote: RemoteStream): seq<string> {
    if history == [] then [NoDataChunk] else Relayed(remote)
  }

  /** What is yielded once the request is sent: the chunks with text, then
      one error chunk if the remote stream throws. */
  function Relayed(remote: RemoteStream): seq<string> {
    NonEmptyTexts(Delivered(remote)) + if remote.failure.Some? then [ErrorChunk(remote.failure.value.thrown)] else []
  }

  /** An empty history yields exactly the notice, whatever the remote would have done. */
  lemma EmptyHistoryYieldsNotice(remote: RemoteStream)
    ensures Yields([], remote) == [NoDataChunk]
    ensures Contains(NoDataChunk, "No interaction data provided.")
  {
    ContainsMiddle("<div class=\"p-4 text-orange-700 bg-orange-100 rounded-lg\">\n      <p class=\"font-bold text-lg\">",
      "No interaction data provided.", "</p>\n    </div>");
  }

  /** A stream that ends normally yields only chunks with text, those are
      exactly the chunks with text, and together they make up all of the content. */
  lemma SuccessfulStream(history: seq<InteractionData>, chunks: seq<string>)
    requires history != []
    ensures var ys := Yields(history, RemoteStream(chunks, None));
      && (forall x :: x in ys <==> x in chunks && x != "")
      && Concat(ys) == Concat(chunks)
  {
    var ys := Yields(history, RemoteStream(chunks, None));
    assert ys == NonEmptyTexts(chunks);
    forall x ensures x in ys <==> x in chunks && x != "" {
      NonEmptyTextsMembers(chunks, x);
    }
    NonEmptyTextsConcat(chunks);
  }

  /** A stream that throws after `k` chunks yields what a stream of those `k`
      chunks would have yielded, then exactly one error chunk, and nothing more. */
  lemma FailedStream(history: seq<InteractionData>, chunks: seq<string>, k: nat, thrown: Thrown)
    requires history != [] && k <= |chunks|
    ensures Yields(history, RemoteStream(chunks, Some(Failure(k, thrown))))
         == Yields(history, RemoteStream(chunks[..k], None)) + [ErrorChunk(thrown)]
  {
    if k == |chunks| {
      assert chunks[..k] == chunks;
    }
  }

  /** The prompt assembly of `streamAppContent` for a non-empty history. */
  method BuildPrompt(history: seq<InteractionData>, maxHistoryLength: int, username: Option<string>,
                     stringify: InteractionData -> string) returns (fullPrompt: string)
    requires history != []
    ensures fullPrompt == Prompt(history, maxHistoryLength, username, stringify)
  {
    var systemPrompt := Constants.SystemPrompt(maxHistoryLength, username);
    var currentInteraction := history[0];
    var pastInteractions := history[1..];
    var currentInteractionSummary := CurrentSummary(currentInteraction);
    var currentAppContext := CurrentAppContext(currentInteraction);
    var historyPromptSegment := BuildHistorySegment(pastInteractions, maxHistoryLength);
    fullPrompt := PromptTemplate(systemPrompt, currentInteractionSummary, currentAppContext, historyPromptSegment,
      stringify(currentInteraction));
  }

  /** The relay loop of `streamAppContent`: every chunk with text, as it arrives. */
  method RelayChunks(delivered: seq<string>) returns (yielded: seq<string>)
    ensures yielded == NonEmptyTexts(delivered)
  {
    yielded := [];
    var i := 0;
    while i < |delivered|
      invariant 0 <= i <= |delivered|
      invariant yielded == NonEmptyTexts(delivered[..i])
    {
      var chunk := delivered[i];
      if chunk != "" {
        yielded := yielded + [chunk];
      }
      assert delivered[..i + 1][..i] == delivered[..i];
      i := i + 1;
    }
    assert delivered[..i] == delivered;
  }

  /** The `catch` branch of `streamAppContent`: the error chunk for what was thrown. */
  method ReportFailure(thrown: Thrown) returns (chunk: string)
    ensures chunk == ErrorChunk(thrown)
  {
    var errorMessage;
    if thrown.ErrorObject? {
      errorMessage := GenericErrorMessage + " Details: " + thrown.message;
    } else {
      errorMessage := GenericErrorMessage;
    }
    chunk := ErrorMarkup(errorMessage);
  }

  /** What is yielded once the request is sent. */
  method RelayStream(remote: RemoteStream) returns (yielded: seq<string>)
    ensures yielded == Relayed(remote)
  {
    yielded := RelayChunks(Delivered(remote));
    if remote.failure.Some? {
      var chunk := ReportFailure(remote.failure.value.thrown);
      yielded := yielded + [chunk];
    }
  }

  /** The user name passed to the system prompt. */
  function UsernameOf(profile: Option<UserProfile>): Option<string> {
    if profile.Some? then Some(profile.value.username) else None
  }

  /** `streamAppContent(history, maxHistoryLength, profile)`: returns the prompt
      sent to the remote generator (none for an empty history) and every chunk
      yielded, in order. */
  method StreamAppContent(history: seq<InteractionData>, maxHistoryLength: int, profile: Option<UserProfile>,
                          stringify: InteractionData -> string, remote: RemoteStream)
    returns (request: Option<string>, yielded: seq<string>)
    ensures request.None? <==> history == []
    ensures request.Some? ==> request.value == Prompt(history, maxHistoryLength, UsernameOf(profile), stringify)
    ensures history == [] ==> yielded == [NoDataChunk]
    ensures history != [] ==> yielded == Relayed(remote)
  {
    if history == [] {
      return None, [NoDataChunk];
    }
    var fullPrompt := BuildPrompt(history, maxHistoryLength, UsernameOf(profile), stringify);
    request := Some(fullPrompt);
    yielded := RelayStream(remote);
  }
}
