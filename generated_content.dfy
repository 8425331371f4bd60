/** The content pane of an application window: it turns clicks and Enter
    presses inside the generated HTML into interaction records, and
    re-creates the `<script>` elements of new content so that they run.

    The document is a sequence of elements in document order. Each element
    names its parent by index, and a parent always comes before its children,
    so the parent chain of an element only ever moves to smaller indices. */
module GeneratedContent {
  import opened Js
  import opened Types

  /** One element of the document. `tag` is the upper-case `tagName`,
      `attributes` maps attribute names to values (`data-interaction-id`
      is what the element's `dataset.interactionId` reads), `classes` is its
      class list, `value` is the `value` property (absent on elements that
      have none), `innerHtml` is its markup, and `runs` tells whether the
      browser executes it, which a script inserted through `innerHTML` does not. */
  datatype Element = Element(
    tag: string,
    attributes: map<string, string>,
    classes: set<string>,
    parent: Option<nat>,
    innerText: string,
    value: Option<string>,
    innerHtml: string,
    runs: bool)

  /** Every parent comes before its child in document order. */
  predicate WellFormed(doc: seq<Element>) {
    forall i :: 0 <= i < |doc| && doc[i].parent.Some? ==> doc[i].parent.value < i
  }

  /** The value of an attribute, absent when the element does not carry it. */
  function Attr(e: Element, name: string): Option<string> {
    if name in e.attributes then Some(e.attributes[name]) else None
  }

  /** The `id` property: the `id` attribute, or the empty string. */
  function DomId(e: Element): string {
    OrDefault(Attr(e, "id"), "")
  }

  /** The element, its parent, its parent's parent, and so on up to the root. */
  function Chain(doc: seq<Element>, i: nat): (c: seq<nat>)
    requires i < |doc|
    ensures |c| >= 1 && c[0] == i
    ensures forall k :: 0 <= k < |c| ==> c[k] <= i
    decreases i
  {
    if doc[i].parent.Some? && doc[i].parent.value < i then [i] + Chain(doc, doc[i].parent.value) else [i]
  }

  /** `j` lies inside `a` (and is not `a` itself). */
  predicate IsDescendant(doc: seq<Element>, a: nat, j: nat)
    requires j < |doc|
  {
    j != a && a in Chain(doc, j)
  }

  /** The first element from position `from` on, in document order, that `matches`. */
  function FirstMatch(doc: seq<Element>, from: nat, matches: nat -> bool): (r: Option<nat>)
    ensures r.Some? ==> from <= r.value < |doc| && matches(r.value)
    ensures r.Some? ==> forall j :: from <= j < r.value ==> !matches(j)
    ensures r.None? ==> forall j :: from <= j < |doc| ==> !matches(j)
    decreases |doc| - from
  {
    if from >= |doc| then None
    else if matches(from) then Some(from)
    else FirstMatch(doc, from + 1, matches)
  }

  /** `document.getElementById(id)`: the first element of the whole document with that id. */
  function GetElementById(doc: seq<Element>, id: string): Option<nat> {
    FirstMatch(doc, 0, (j: nat) => j < |doc| && Attr(doc[j], "id") == Some(id))
  }

  /** `container.querySelector('[data-value-from="v"]')`: the first element
      inside the container, in document order, whose `data-value-from` is `v`. */
  function QueryValueFrom(doc: seq<Element>, container: nat, v: string): Option<nat> {
    FirstMatch(doc, container + 1,
      (j: nat) => j < |doc| && IsDescendant(doc, container, j) && Attr(doc[j], "data-value-from") == Some(v))
  }

  // ---------------------------------------------------------------- records

  /** How many characters of an element's text a record keeps. */
  const MaxElementText := 75

  /** The text a record describes an element by: its inner text, else its
      value, else nothing. */
  function ShownText(e: Element): string {
    if e.innerText != "" then e.innerText else OrDefault(e.value, "")
  }

  /** The value a record carries: `data-interaction-value`, replaced by the
      value of the element that `data-value-from` names when there is one. */
  function InteractionValue(doc: seq<Element>, t: nat): Option<string>
    requires t < |doc|
  {
    var source := Attr(doc[t], "data-value-from");
    if Truthy(source) then
      match GetElementById(doc, source.value)
      case Some(input) => doc[input].value
      case None => Attr(doc[t], "data-interaction-value")
    else Attr(doc[t], "data-interaction-value")
  }

  /** `triggerInteraction(target)`: the record handed to `onInteract`. */
  function TriggerInteraction(doc: seq<Element>, t: nat, appContext: Option<string>): InteractionData
    requires t < |doc|
  {
    var e := doc[t];
    InteractionData(
      OrDefault(Attr(e, "data-interaction-id"), "unknown"),
      OrDefault(Attr(e, "data-interaction-type"), "generic_click"),
      InteractionValue(doc, t),
      ToLower(e.tag),
      Substring(Trim(ShownText(e)), 0, MaxElementText),
      appContext)
  }

  /** The record's id and type fall back to 'unknown' and 'generic_click',
      its element type is the lower-cased tag, and the application context is
      passed through. */
  lemma RecordFields(doc: seq<Element>, t: nat, appContext: Option<string>)
    requires t < |doc|
    ensures var r := TriggerInteraction(doc, t, appContext);
      && (Truthy(Attr(doc[t], "data-interaction-id")) ==> r.id == doc[t].attributes["data-interaction-id"])
      && (!Truthy(Attr(doc[t], "data-interaction-id")) ==> r.id == "unknown")
      && (Truthy(Attr(doc[t], "data-interaction-type")) ==> r.interactionType == doc[t].attributes["data-interaction-type"])
      && (!Truthy(Attr(doc[t], "data-interaction-type")) ==> r.interactionType == "generic_click")
      && |r.elementType| == |doc[t].tag|
      && (forall i :: 0 <= i < |doc[t].tag| ==> r.elementType[i] == LowerChar(doc[t].tag[i]))
      && r.appContext == appContext
  {
  }

  /** The record's value comes from the element that `data-value-from`
      names when that attribute is set and such an element exists, and from
      `data-interaction-value` otherwise. */
  lemma RecordValue(doc: seq<Element>, t: nat, appContext: Option<string>)
    requires t < |doc|
    ensures var r := TriggerInteraction(doc, t, appContext);
      var source := Attr(doc[t], "data-value-from");
      && (Truthy(source) && GetElementById(doc, source.value).Some? ==>
            exists j :: 0 <= j < |doc| && Attr(doc[j], "id") == source && r.value == doc[j].value)
      && (!(Truthy(source) && GetElementById(doc, source.value).Some?) ==>
            r.value == Attr(doc[t], "data-interaction-value"))
  {
    var source := Attr(doc[t], "data-value-from");
    if Truthy(source) && GetElementById(doc, source.value).Some? {
      var j := GetElementById(doc, source.value).value;
      assert Attr(doc[j], "id") == source;
    }
  }

  /** The record's text is the element's trimmed text cut to its first 75
      characters: never longer than 75, and the whole trimmed text when it fits. */
  lemma RecordText(doc: seq<Element>, t: nat, appContext: Option<string>)
    requires t < |doc|
    ensures var text := TriggerInteraction(doc, t, appContext).elementText;
      var trimmed := Trim(ShownText(doc[t]));
      && |text| <= MaxElementText
      && text <= trimmed
      && (|trimmed| <= MaxElementText ==> text == trimmed)
  {
    var trimmed := Trim(ShownText(doc[t]));
    SubstringPrefix(trimmed, MaxElementText);
  }

  // ---------------------------------------------------------------- clicks

  /** The click walk stops at an element with an interaction id or at the container. */
  predicate Stops(doc: seq<Element>, container: nat, i: nat)
    requires i < |doc|
  {
    i == container || Truthy(Attr(doc[i], "data-interaction-id"))
  }

  /** Where the click walk from `i` stops: the first element up the parent
      chain that stops it, or none when the walk passes the root. */
  function ClickStop(doc: seq<Element>, container: nat, i: nat): (r: Option<nat>)
    requires WellFormed(doc) && i < |doc|
    ensures r.Some? ==> r.value <= i
    decreases i
  {
    if Stops(doc, container, i) then Some(i)
    else if doc[i].parent.None? then None
    else ClickStop(doc, container, doc[i].parent.value)
  }

  /** What a click on `target` hands to `onInteract`, if anything. */
  function ClickOutcome(doc: seq<Element>, container: nat, target: nat, appContext: Option<string>): Option<InteractionData>
    requires WellFormed(doc) && target < |doc|
  {
    var stop := ClickStop(doc, container, target);
    if stop.Some? && Truthy(Attr(doc[stop.value], "data-interaction-id")) then
      Some(TriggerInteraction(doc, stop.value, appContext))
    else None
  }

  /** The parent chain only moves to earlier elements. */
  lemma {:induction false} ChainDescends(doc: seq<Element>, i: nat)
    requires WellFormed(doc) && i < |doc|
    ensures var c := Chain(doc, i);
      forall k :: 0 < k < |c| ==> c[k] < c[k - 1] && doc[c[k - 1]].parent == Some(c[k])
    ensures var c := Chain(doc, i); doc[c[|c| - 1]].parent.None?
    decreases i
  {
    if doc[i].parent.Some? {
      ChainDescends(doc, doc[i].parent.value);
    }
  }

  /** The walk stops at the first element of the parent chain that stops it
      (every element it passed lies after it in document order), and at none
      exactly when no element of the chain does. */
  lemma {:induction false} ClickWalk(doc: seq<Element>, container: nat, i: nat)
    requires WellFormed(doc) && i < |doc|
    ensures var c := Chain(doc, i); var r := ClickStop(doc, container, i);
      && (r.None? <==> forall x :: x in c ==> !Stops(doc, container, x))
      && (r.Some? ==> r.value in c && Stops(doc, container, r.value))
      && (r.Some? ==> forall x :: x in c && x > r.value ==> !Stops(doc, container, x))
    decreases i
  {
    if !Stops(doc, container, i) && doc[i].parent.Some? {
      var p := doc[i].parent.value;
      ClickWalk(doc, container, p);
      assert Chain(doc, i) == [i] + Chain(doc, p);
    }
  }

  /** A click inside the container never walks past it: the walk stops at
      the container or inside it. */
  lemma {:induction false} ClickStaysInside(doc: seq<Element>, container: nat, target: nat)
    requires WellFormed(doc) && target < |doc|
    requires container in Chain(doc, target)
    ensures ClickStop(doc, container, target).Some?
    ensures container in Chain(doc, ClickStop(doc, container, target).value)
    decreases target
  {
    if !Stops(doc, container, target) {
      ClickStaysInside(doc, container, doc[target].parent.value);
    }
  }

  /** `handleClick`: climbs from the clicked element while it is neither the
      container nor carries an interaction id, then triggers the interaction
      of the element it stopped at if that one carries an id. */
  method HandleClick(doc: seq<Element>, container: nat, target: nat, appContext: Option<string>)
    returns (emitted: Option<InteractionData>)
    requires WellFormed(doc) && target < |doc|
    ensures emitted == ClickOutcome(doc, container, target, appContext)
  {
    var targetElement: Option<nat> := Some(target);
    while targetElement.Some? && targetElement.value != container
      && !Truthy(Attr(doc[targetElement.value], "data-interaction-id"))
      invariant targetElement.Some? ==> (targetElement.value < |doc|
        && ClickStop(doc, container, targetElement.value) == ClickStop(doc, container, target))
      invariant targetElement.None? ==> ClickStop(doc, container, target).None?
      decreases if targetElement.Some? then targetElement.value + 1 else 0
    {
      targetElement := doc[targetElement.value].parent;
    }
    if targetElement.Some? && Truthy(Attr(doc[targetElement.value], "data-interaction-id")) {
      emitted := Some(TriggerInteraction(doc, targetElement.value, appContext));
    } else {
      emitted := None;
    }
  }

  /** A click emits a record exactly when the walk stops at an element with
      an interaction id, and the record is that element's. */
  lemma ClickFiresIff(doc: seq<Element>, container: nat, target: nat, appContext: Option<string>)
    requires WellFormed(doc) && target < |doc|
    ensures var stop := ClickStop(doc, container, target);
      var fires := stop.Some? && Truthy(Attr(doc[stop.value], "data-interaction-id"));
      ClickOutcome(doc, container, target, appContext).Some? <==> fires
    ensures var stop := ClickStop(doc, container, target);
      stop.Some? && Truthy(Attr(doc[stop.value], "data-interaction-id")) ==>
        ClickOutcome(doc, container, target, appContext).value.id == doc[stop.value].attributes["data-interaction-id"]
  {
  }

  // ---------------------------------------------------------------- keys

  predicate IsTextInput(e: Element) { e.tag == "INPUT" || e.tag == "TEXTAREA" }

  /** The record a terminal input emits when Enter is pressed in it. */
  function TerminalRecord(e: Element, appContext: Option<string>): InteractionData {
    InteractionData("terminal_execute", "command_run", e.value, "input", "Run Command", appContext)
  }

  /** `handleKeyDown`: what a key press on `target` hands to `onInteract`.
      Only Enter on an input or text area acts. An input with an id whose
      linked submit element is inside the container triggers that element;
      otherwise an input of class `terminal-input` emits a command record. */
  function HandleKeyDown(doc: seq<Element>, container: nat, target: nat, key: string, appContext: Option<string>)
    : Option<InteractionData>
    requires target < |doc|
  {
    var e := doc[target];
    if key != "Enter" || !IsTextInput(e) then None
    else
      var inputId := DomId(e);
      var submitButton := if inputId != "" then QueryValueFrom(doc, container, inputId) else None;
      if submitButton.Some? && submitButton.value < |doc| then
        Some(TriggerInteraction(doc, submitButton.value, appContext))
      else if "terminal-input" in e.classes then Some(TerminalRecord(e, appContext))
      else None
  }

  /** Keys other than Enter, and Enter outside an input or text area, do nothing. */
  lemma KeyIgnored(doc: seq<Element>, container: nat, target: nat, key: string, appContext: Option<string>)
    requires target < |doc|
    ensures HandleKeyDown(doc, container, target, key, appContext).Some? ==> key == "Enter" && IsTextInput(doc[target])
  {
  }

  /** Enter in an input with an id triggers the first element inside the
      container whose `data-value-from` is that id, whatever the input's class. */
  lemma KeyLinkedSubmit(doc: seq<Element>, container: nat, target: nat, appContext: Option<string>)
    requires target < |doc| && IsTextInput(doc[target])
    requires DomId(doc[target]) != ""
    requires QueryValueFrom(doc, container, DomId(doc[target])).Some?
    ensures var b := QueryValueFrom(doc, container, DomId(doc[target])).value;
      && b < |doc| && IsDescendant(doc, container, b)
      && Attr(doc[b], "data-value-from") == Some(DomId(doc[target]))
      && HandleKeyDown(doc, container, target, "Enter", appContext) == Some(TriggerInteraction(doc, b, appContext))
  {
  }

  /** Without a linked submit element, Enter in a terminal input emits exactly
      the command record carrying the input's value, and Enter in any other
      input emits nothing. */
  lemma KeyTerminal(doc: seq<Element>, container: nat, target: nat, appContext: Option<string>)
    requires target < |doc| && IsTextInput(doc[target])
    requires DomId(doc[target]) == "" || QueryValueFrom(doc, container, DomId(doc[target])).None?
    ensures "terminal-input" in doc[target].classes ==>
      HandleKeyDown(doc, container, target, "Enter", appContext)
        == Some(InteractionData("terminal_execute", "command_run", doc[target].value, "input", "Run Command", appContext))
    ensures "terminal-input" !in doc[target].classes ==>
      HandleKeyDown(doc, container, target, "Enter", appContext).None?
  {
  }

  // ---------------------------------------------------------------- activation

  /** A re-created script: a new element with every attribute of the old one
      and its markup as text, which the browser now runs. */
  function Recreate(script: Element): (r: Element)
    ensures r.tag == "SCRIPT" && r.attributes == script.attributes && r.innerHtml == script.innerHtml
    ensures r.runs && r.parent == script.parent
  {
    Element("SCRIPT", script.attributes, script.classes, script.parent, script.innerHtml, None, script.innerHtml, true)
  }

  predicate IsScript(e: Element) { e.tag == "SCRIPT" }

  /** The document after every script is replaced, at its own position, by its re-creation. */
  function Activated(nodes: seq<Element>): (r: seq<Element>)
    ensures |r| == |nodes|
    ensures forall i :: 0 <= i < |nodes| ==> r[i] == if IsScript(nodes[i]) then Recreate(nodes[i]) else nodes[i]
  {
    seq(|nodes|, i requires 0 <= i < |nodes| => if IsScript(nodes[i]) then Recreate(nodes[i]) else nodes[i])
  }

  /** Re-creating is idempotent, keeps the tree's shape, and leaves every script running. */
  lemma ActivatedProperties(nodes: seq<Element>)
    ensures Activated(Activated(nodes)) == Activated(nodes)
    ensures forall i :: 0 <= i < |nodes| ==> Activated(nodes)[i].parent == nodes[i].parent
    ensures forall i :: 0 <= i < |nodes| && IsScript(nodes[i]) ==> Activated(nodes)[i].runs
    ensures WellFormed(nodes) ==> WellFormed(Activated(nodes))
  {
    var a := Activated(nodes);
    forall i | 0 <= i < |nodes|
      ensures Activated(a)[i] == a[i]
    {
      if IsScript(nodes[i]) {
        assert Recreate(a[i]) == a[i];
      }
    }
  }

  /** What the effect decides for the content `htmlContent`, given the
      marker of the last activated content: whether to activate the scripts,
      and the new marker. */
  datatype GuardStep = GuardStep(activate: bool, marker: Option<string>)

  function Guard(marker: Option<string>, htmlContent: string, isLoading: bool): (g: GuardStep)
    ensures g.activate <==> !isLoading && marker != Some(htmlContent)
    ensures isLoading ==> g.marker.None?
    ensures !isLoading ==> g.marker == Some(htmlContent)
  {
    if isLoading then GuardStep(false, None)
    else if marker != Some(htmlContent) then GuardStep(true, Some(htmlContent))
    else GuardStep(false, marker)
  }

  /** The same content is activated once, however often the effect re-runs,
      until a loading phase resets the marker; after that it is activated again. */
  lemma GuardOncePerContent(marker: Option<string>, htmlContent: string)
    ensures var first := Guard(marker, htmlContent, false);
      !Guard(first.marker, htmlContent, false).activate
      && Guard(first.marker, htmlContent, false).marker == first.marker
    ensures var loading := Guard(marker, htmlContent, true);
      Guard(loading.marker, htmlContent, false).activate
  {
  }

  /** The content pane: the markup it shows, the elements of that markup,
      and the marker of the last content whose scripts were activated
      (`processedHtmlContentRef`). */
  class ContentView {
    var shown: string
    var nodes: array<Element>
    var processed: Option<string>

    /** A fresh pane showing `htmlContent`, whose elements are `parsed`, with nothing activated yet. */
    constructor(htmlContent: string, parsed: seq<Element>)
      ensures shown == htmlContent && fresh(nodes) && nodes[..] == parsed && processed.None?
    {
      shown := htmlContent;
      nodes := new Element[|parsed|](i requires 0 <= i < |parsed| => parsed[i]);
      processed := None;
    }

    /** A render with `htmlContent`: new markup replaces the elements by
        `parsed`, its parse (whose scripts do not run); the same markup leaves
        the elements, activated scripts included, as they are. */
    method Render(htmlContent: string, parsed: seq<Element>)
      modifies this
      ensures processed == old(processed)
      ensures htmlContent != old(shown) ==> shown == htmlContent && fresh(nodes) && nodes[..] == parsed
      ensures htmlContent == old(shown) ==> shown == old(shown) && nodes == old(nodes)
    {
      if htmlContent != shown {
        shown := htmlContent;
        nodes := new Element[|parsed|](i requires 0 <= i < |parsed| => parsed[i]);
      }
    }

    /** The scripts of the current content, re-created in place, one by one in document order. */
    method ReplaceScripts()
      modifies nodes
      ensures nodes[..] == Activated(old(nodes[..]))
    {
      var i := 0;
      while i < nodes.Length
        invariant 0 <= i <= nodes.Length
        invariant forall j :: 0 <= j < i ==> nodes[j] == Activated(old(nodes[..]))[j]
        invariant forall j :: i <= j < nodes.Length ==> nodes[j] == old(nodes[j])
      {
        var oldScript := nodes[i];
        if IsScript(oldScript) {
          nodes[i] := Recreate(oldScript);
        }
        i := i + 1;
      }
    }

    /** The effect that runs after each render: activates the scripts of
        content it has not activated yet, and forgets the marker while loading. */
    method RunEffect(htmlContent: string, isLoading: bool)
      modifies this, nodes
      ensures shown == old(shown) && nodes == old(nodes) && processed == Guard(old(processed), htmlContent, isLoading).marker
      ensures Guard(old(processed), htmlContent, isLoading).activate ==> nodes[..] == Activated(old(nodes[..]))
      ensures !Guard(old(processed), htmlContent, isLoading).activate ==> nodes[..] == old(nodes[..])
    {
      if !isLoading {
        if processed != Some(htmlContent) {
          ReplaceScripts();
          processed := Some(htmlContent);
        }
      } else {
        processed := None;
      }
    }
  }
}
