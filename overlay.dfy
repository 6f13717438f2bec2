/**
 * The tour's overlay: the singleton nodes it keeps in the document (start
 * button, cursor, highlight, notification, two style nodes), the cursor
 * caption, the highlight box, and the notification options.  The body and
 * head are modelled as the id attributes of their nodes, in order.
 */
module Overlay {
  import opened Wrappers
  import opened JsString
  import opened Dom
  import opened Recordings

  const StartButtonId: string := "cursor-flow-start-button"
  const CursorId: string := "cursor-flow-cursor"
  const HighlightId: string := "cursor-flow-highlight"
  const NotificationId: string := "cursor-flow-notification"
  const StylesId: string := "cursor-flow-styles"
  const NotificationStylesId: string := "cursor-flow-notification-styles"

  // ---- the remove-before-append registry ----

  /** `document.getElementById(id).remove()` when present: the first node with that id goes. */
  function RemoveFirst(nodes: seq<string>, id: string): (r: seq<string>)
    ensures id in nodes ==> multiset(r) == multiset(nodes) - multiset{id}
    ensures id !in nodes ==> r == nodes
  {
    if |nodes| == 0 then []
    else if nodes[0] == id then
      assert nodes == [nodes[0]] + nodes[1..];
      nodes[1..]
    else
      assert nodes == [nodes[0]] + nodes[1..];
      [nodes[0]] + RemoveFirst(nodes[1..], id)
  }

  /** Remove any node with the id, then append a fresh one. */
  function Replace(nodes: seq<string>, id: string): seq<string> {
    RemoveFirst(nodes, id) + [id]
  }

  /** Append a node only when none with the id exists (the style nodes). */
  function AddOnce(nodes: seq<string>, id: string): seq<string> {
    if id in nodes then nodes else nodes + [id]
  }

  /** How many nodes carry the id. */
  function Count(nodes: seq<string>, id: string): nat { multiset(nodes)[id] }

  /** Creating a singleton leaves exactly one node with its id, and every other id's count unchanged. */
  lemma ReplaceKeepsOne(nodes: seq<string>, id: string)
    requires Count(nodes, id) <= 1
    ensures Count(Replace(nodes, id), id) == 1
    ensures forall other :: other != id ==> Count(Replace(nodes, id), other) == Count(nodes, other)
    ensures Replace(nodes, id)[|Replace(nodes, id)| - 1] == id
  {
    var r := RemoveFirst(nodes, id);
    assert multiset(Replace(nodes, id)) == multiset(r) + multiset{id};
  }

  /** Creating a singleton any number of times, starting with at most one, leaves exactly one. */
  lemma {:induction false} RepeatedReplace(nodes: seq<string>, id: string, n: nat)
    requires Count(nodes, id) <= 1 && n >= 1
    ensures Count(ReplaceTimes(nodes, id, n), id) == 1
    ensures forall other :: other != id ==> Count(ReplaceTimes(nodes, id, n), other) == Count(nodes, other)
    decreases n
  {
    ReplaceKeepsOne(nodes, id);
    if n > 1 {
      RepeatedReplace(Replace(nodes, id), id, n - 1);
    }
  }

  function ReplaceTimes(nodes: seq<string>, id: string, n: nat): seq<string>
    decreases n
  {
    if n == 0 then nodes else ReplaceTimes(Replace(nodes, id), id, n - 1)
  }

  /** A style node appears at most once however often it is requested. */
  lemma AddOnceKeepsOne(nodes: seq<string>, id: string)
    requires Count(nodes, id) <= 1
    ensures Count(AddOnce(nodes, id), id) == 1
    ensures AddOnce(AddOnce(nodes, id), id) == AddOnce(nodes, id)
  {
    if id !in nodes {
      assert multiset(nodes + [id]) == multiset(nodes) + multiset{id};
    }
  }

  // ---- geometry ----

  /** A highlight box in viewport coordinates. */
  datatype Box = Box(left: real, top: real, width: real, height: real)

  /** The highlight box: the target rect grown by 4 on every side (`width + 8`, `height + 8`). */
  function HighlightBox(r: Rect): (b: Box)
    ensures b.left == r.left - 4.0 && b.top == r.top - 4.0
    ensures b.left + b.width == r.Right() + 4.0 && b.top + b.height == r.Bottom() + 4.0
  {
    Box(r.left - 4.0, r.top - 4.0, r.width + 8.0, r.height + 8.0)
  }

  /** The box the first script draws (`width + 4`, `height + 4`). */
  function PlaybackHighlightBox(r: Rect): (b: Box)
    ensures b.left == r.left - 4.0 && b.top == r.top - 4.0
    ensures b.left + b.width == r.Right() && b.top + b.height == r.Bottom()
  {
    Box(r.left - 4.0, r.top - 4.0, r.width + 4.0, r.height + 4.0)
  }

  /** The first script's box has no margin on the right or bottom, unlike the 4-pixel margin on the left and top. */
  lemma PlaybackHighlightIsLopsided(r: Rect)
    ensures PlaybackHighlightBox(r).left + PlaybackHighlightBox(r).width - r.Right() == 0.0
    ensures r.left - PlaybackHighlightBox(r).left == 4.0
    ensures PlaybackHighlightBox(r) != HighlightBox(r)
  {
  }

  /** A point in viewport coordinates. */
  datatype Point = Point(x: real, y: real)

  /** Where the later scripts put the cursor: the rect's bottom-right corner. */
  function CornerPoint(r: Rect): (p: Point)
    ensures p.x == r.Right() && p.y == r.Bottom()
  {
    Point(r.left + r.width, r.top + r.height)
  }

  /** Where the first script puts the cursor: the rect's centre. */
  function CentrePoint(r: Rect): (p: Point)
    ensures r.width >= 0.0 && r.height >= 0.0 ==> r.left <= p.x <= r.Right() && r.top <= p.y <= r.Bottom()
    ensures p.x - r.left == r.Right() - p.x && p.y - r.top == r.Bottom() - p.y
  {
    Point(r.left + r.width / 2.0, r.top + r.height / 2.0)
  }

  // ---- updateCursorText ----

  /** The caption's two parts: the element label and the page line (path, or external URL). */
  datatype Caption = Caption(elementLabel: string, external: bool, pageLine: string)

  /** The element label: "this element" for empty text, the first 25 characters plus "..." for longer text. */
  function CaptionLabel(text: string): (r: string)
    ensures text == "" ==> r == "this element"
    ensures 0 < |text| <= 25 ==> r == text
    ensures |text| > 25 ==> r == text[..25] + "..."
    ensures |r| <= 28
  {
    var name := if text != "" then text else "this element";
    if |name| > 25 then Substring(name, 0, 25) + "..." else name
  }

  /** The page counts as external when its path mentions "/machine_learning" or is not rooted. */
  predicate IsExternalPath(path: string) {
    Includes(path, "/machine_learning") || !StartsWith(path, "/")
  }

  /** The caption `updateCursorText` writes; `None` when the step has no page info (the access throws). */
  function CursorCaption(text: string, page: Option<PageInfo>): (r: Option<Caption>)
    ensures r.None? <==> page.None?
    ensures r.Some? ==> r.value.elementLabel == CaptionLabel(text)
    ensures r.Some? ==> (r.value.external <==> IsExternalPath(page.value.path))
    ensures r.Some? ==> r.value.pageLine == (if r.value.external then page.value.url else page.value.path)
  {
    match page
    case None => None
    case Some(info) =>
      var external := Includes(info.path, "/machine_learning") || !StartsWith(info.path, "/");
      Some(Caption(CaptionLabel(text), external, if external then info.url else info.path))
  }

  /** Site pages are local; machine-learning pages and absolute URLs are external. */
  lemma ExternalExamples()
    ensures !IsExternalPath("/writing")
    ensures IsExternalPath("/machine_learning/intro")
    ensures IsExternalPath("https://example.com/")
  {
    assert StartsWith("/writing", "/");
    assert OccursAt("/machine_learning/intro", "/machine_learning", 0);
    IncludesIff("/machine_learning/intro", "/machine_learning");
    assert !StartsWith("https://example.com/", "/") by { assert "https://example.com/"[0] != '/'; }
    assert !Includes("/writing", "/machine_learning") by {
      IncludesIff("/writing", "/machine_learning");
    }
  }

  // ---- showNotification ----

  /** A notification button: its label and its `primary` field (absent or explicit). */
  datatype ButtonSpec = ButtonSpec(text: string, primary: Option<bool>)

  /** The options object: every field may be absent. */
  datatype Options = Options(
    title: Option<string>, message: Option<string>, kind: Option<string>,
    buttons: Option<seq<ButtonSpec>>, autoClose: Option<int>, id: Option<string>)

  /** The merged settings. */
  datatype Settings = Settings(
    title: string, message: string, kind: string, buttons: seq<ButtonSpec>, autoClose: int, id: Option<string>)

  /** `{...defaults, ...options}`: a given field wins, an absent one takes its default. */
  function Merge(o: Options): (s: Settings)
    ensures s.title == o.title.GetOr("") && s.message == o.message.GetOr("")
    ensures s.kind == o.kind.GetOr("info") && s.buttons == o.buttons.GetOr([])
    ensures s.autoClose == o.autoClose.GetOr(4000) && s.id == o.id
  {
    Settings(o.title.GetOr(""), o.message.GetOr(""), o.kind.GetOr("info"),
             o.buttons.GetOr([]), o.autoClose.GetOr(4000), o.id)
  }

  /** Settings seen as fully given options. */
  function AsOptions(s: Settings): Options {
    Options(Some(s.title), Some(s.message), Some(s.kind), Some(s.buttons), Some(s.autoClose), s.id)
  }

  /** Empty options give the defaults, and merging is idempotent. */
  lemma MergeDefaults(o: Options)
    ensures Merge(Options(None, None, None, None, None, None)) == Settings("", "", "info", [], 4000, None)
    ensures Merge(AsOptions(Merge(o))) == Merge(o)
  {
  }

  /** `button.primary !== false` */
  predicate IsPrimary(b: ButtonSpec) { b.primary != Some(false) }

  /** `settings.autoClose > 0` */
  predicate AutoDismiss(s: Settings) { s.autoClose > 0 }

  /** The new node's id: the custom id when it is a non-empty string, else the shared default. */
  function NotificationNodeId(s: Settings): (r: string)
    ensures s.id.Some? && s.id.value != "" ==> r == s.id.value
    ensures s.id.None? || s.id.value == "" ==> r == NotificationId
  {
    if s.id.Some? && s.id.value != "" then s.id.value else NotificationId
  }

  /** The body after `showNotification`: the default-id node is removed, the new node appended. */
  function AfterNotification(body: seq<string>, s: Settings): seq<string> {
    RemoveFirst(body, NotificationId) + [NotificationNodeId(s)]
  }

  /** Without a custom id at most one default-id notification is ever on the page. */
  lemma DefaultNotificationUnique(body: seq<string>, s: Settings)
    requires Count(body, NotificationId) <= 1
    requires NotificationNodeId(s) == NotificationId
    ensures Count(AfterNotification(body, s), NotificationId) == 1
  {
    ReplaceKeepsOne(body, NotificationId);
  }

  /** A custom-id notification is never removed by a later one; each adds another node. */
  lemma CustomIdEscapesRemoval(body: seq<string>, s: Settings)
    requires NotificationNodeId(s) != NotificationId
    ensures Count(AfterNotification(body, s), NotificationNodeId(s)) == Count(body, NotificationNodeId(s)) + 1
    ensures Count(AfterNotification(body, s), NotificationId) == if NotificationId in body then Count(body, NotificationId) - 1 else 0
  {
    var r := RemoveFirst(body, NotificationId);
    assert multiset(AfterNotification(body, s)) == multiset(r) + multiset{NotificationNodeId(s)};
  }

  function ExternalSiteMessage(url: string): string {
    "This guide continues on an external site:<br><a href=\"" + url
      + "\" target=\"_blank\" style=\"color: white; text-decoration: underline;\">" + url + "</a>"
  }

  /** `showExternalSiteAlert` */
  function ExternalSiteAlert(url: string): Options {
    Options(Some("External Site"), Some(ExternalSiteMessage(url)), Some("warning"), None, Some(8000), None)
  }

  /** `showPageMismatchAlert` (the cursor-flow-ui variant) */
  function PageMismatchAlert(expectedPath: string): Options {
    Options(Some("Wrong Page"), Some("This guide requires you to be on page: " + expectedPath), Some("warning"),
            Some([ButtonSpec("Go There Now", Some(true))]), Some(0), None)
  }

  /** `showMidFlowNotification` */
  function MidFlowNotice(stepNumber: nat, totalSteps: nat): Options {
    Options(None, Some("Starting from step " + NatToString(stepNumber) + " of " + NatToString(totalSteps)),
            Some("info"), None, Some(4000), None)
  }

  /** `showHomePageNavigationPrompt` */
  function HomePagePrompt(): Options {
    Options(Some("Not on Guide Path"), Some("This guide starts from the home page."), Some("action"),
            Some([ButtonSpec("Go to Home Page", Some(true)), ButtonSpec("Cancel Guide", None)]), Some(0), None)
  }

  /** `showNavigationPrompt`: an empty message falls back to the default text. */
  function NavigationPrompt(path: string, message: string): Options {
    Options(Some("Navigation Required"),
            Some(if message != "" then message else "Please navigate to " + path + " to continue."),
            Some("action"),
            Some([ButtonSpec("Go to Page", Some(true)), ButtonSpec("Cancel Guide", None)]), Some(0), None)
  }

  /** `showFlowResumptionNotification` */
  function ResumptionNotice(currentStep: nat, totalSteps: nat): Options {
    Options(None, Some("Continuing from step " + NatToString(currentStep) + " of " + NatToString(totalSteps)),
            Some("info"), None, Some(4000), None)
  }

  /** The wrong-page alert and both navigation prompts stay until dismissed; the others close by themselves. */
  lemma AutoDismissOfWrappers(url: string, path: string, message: string, a: nat, b: nat)
    ensures !AutoDismiss(Merge(PageMismatchAlert(path)))
    ensures !AutoDismiss(Merge(HomePagePrompt()))
    ensures !AutoDismiss(Merge(NavigationPrompt(path, message)))
    ensures AutoDismiss(Merge(ExternalSiteAlert(url))) && Merge(ExternalSiteAlert(url)).autoClose == 8000
    ensures AutoDismiss(Merge(MidFlowNotice(a, b))) && AutoDismiss(Merge(ResumptionNotice(a, b)))
  {
  }

  /** Every button of the prompts renders as primary, "Cancel Guide" included, since its `primary` is absent. */
  lemma PromptButtonsArePrimary(path: string, message: string)
    ensures forall k :: 0 <= k < |Merge(HomePagePrompt()).buttons| ==> IsPrimary(Merge(HomePagePrompt()).buttons[k])
    ensures forall k :: 0 <= k < |Merge(NavigationPrompt(path, message)).buttons| ==>
              IsPrimary(Merge(NavigationPrompt(path, message)).buttons[k])
    ensures !IsPrimary(ButtonSpec("Cancel Guide", Some(false)))
  {
  }

  /** The navigation prompt shows the given message, or the default when it is empty. */
  lemma NavigationPromptMessage(path: string, message: string)
    ensures message != "" ==> Merge(NavigationPrompt(path, message)).message == message
    ensures message == "" ==> StartsWith(Merge(NavigationPrompt(path, message)).message, "Please navigate to ")
  {
    if message == "" {
      var m := "Please navigate to " + path + " to continue.";
      assert m[..|"Please navigate to "|] == "Please navigate to ";
    }
  }

  // ---- the overlay's mutable state ----

  /** The text box of the cursor: the text it is created with, or a caption written for a step. */
  datatype CursorText = Plain(text: string) | Described(caption: Caption)

  /** The text a fresh cursor's box carries. */
  const DefaultCursorText := "Click this element to continue"

  /** The cursor node: whether it is displayed, where it was last put, and its text. */
  datatype CursorView = CursorView(shown: bool, at: Option<Point>, text: CursorText)

  /** The highlight node: its box, and whether the pulse animation runs. */
  datatype HighlightView = HighlightView(box: Option<Box>, pulsing: bool)

  /**
   * The document as the UI helpers change it: body and head node ids, the
   * current cursor and highlight nodes (`None` until created), and
   * `state.targetElement`.
   */
  class Screen {
    var body: seq<string>
    var head: seq<string>
    var cursor: Option<CursorView>
    var highlight: Option<HighlightView>
    var targetElement: Option<Node>

    constructor (initialBody: seq<string>, initialHead: seq<string>)
      ensures body == initialBody && head == initialHead
      ensures cursor == None && highlight == None && targetElement == None
    {
      body := initialBody;
      head := initialHead;
      cursor := None;
      highlight := None;
      targetElement := None;
    }

    /** `createButton` */
    method CreateButton()
      modifies this
      ensures body == Replace(old(body), StartButtonId)
      ensures head == old(head) && cursor == old(cursor) && highlight == old(highlight)
      ensures targetElement == old(targetElement)
    {
      body := RemoveFirst(body, StartButtonId) + [StartButtonId];
    }

    /**
     * `createCursor`: a fresh cursor node, not yet placed.  Its style names
     * `display` twice and the later `flex` wins, so it is displayed from the
     * start, with the default text in its box.
     */
    method CreateCursor()
      modifies this
      ensures body == Replace(old(body), CursorId)
      ensures cursor == Some(CursorView(true, None, Plain(DefaultCursorText)))
      ensures head == old(head) && highlight == old(highlight) && targetElement == old(targetElement)
    {
      body := RemoveFirst(body, CursorId) + [CursorId];
      cursor := Some(CursorView(true, None, Plain(DefaultCursorText)));
    }

    /** `createHighlight`: a fresh hidden highlight, and the pulse style node if missing. */
    method CreateHighlight()
      modifies this
      ensures body == Replace(old(body), HighlightId) && head == AddOnce(old(head), StylesId)
      ensures highlight == Some(HighlightView(None, false))
      ensures cursor == old(cursor) && targetElement == old(targetElement)
    {
      body := RemoveFirst(body, HighlightId) + [HighlightId];
      if StylesId !in head {
        head := head + [StylesId];
      }
      highlight := Some(HighlightView(None, false));
    }

    /**
     * `moveCursorToElement`: nothing without an element or a cursor; else
     * the cursor goes to the element's bottom-right corner and, given a step,
     * its caption is rewritten.  `threw` reports a step without page info.
     */
    method MoveCursorToElement(element: Option<Node>, interaction: Option<Interaction>) returns (threw: bool)
      modifies this
      ensures element.None? || old(cursor).None? ==> cursor == old(cursor) && !threw
      ensures element.Some? && old(cursor).Some? ==>
        && cursor.Some? && cursor.value.shown && cursor.value.at == Some(CornerPoint(element.value.rect))
        && threw == (interaction.Some? && interaction.value.pageInfo.None?)
        && cursor.value.text == (if interaction.Some? && !threw
                                 then Described(CursorCaption(interaction.value.element.textContent, interaction.value.pageInfo).value)
                                 else old(cursor).value.text)
      ensures body == old(body) && head == old(head) && highlight == old(highlight)
      ensures targetElement == old(targetElement)
    {
      threw := false;
      if element.None? || cursor.None? { return; }
      var r := element.value.rect;
      var text := cursor.value.text;
      if interaction.Some? {
        var c := CursorCaption(interaction.value.element.textContent, interaction.value.pageInfo);
        if c.None? {
          threw := true;
        } else {
          text := Described(c.value);
        }
      }
      cursor := Some(CursorView(true, Some(Point(r.left + r.width, r.top + r.height)), text));
    }

    /**
     * `highlightElement`: nothing without an element or a highlight; else the
     * box is drawn around the element and pulses.  The cursor-flow-ui copy
     * also records the element as `state.targetElement` (`recordTarget`).
     */
    method HighlightElement(element: Option<Node>, recordTarget: bool)
      modifies this
      ensures element.None? || old(highlight).None? ==> highlight == old(highlight) && targetElement == old(targetElement)
      ensures element.Some? && old(highlight).Some? ==>
        && highlight == Some(HighlightView(Some(HighlightBox(element.value.rect)), true))
        && targetElement == (if recordTarget then element else old(targetElement))
      ensures body == old(body) && head == old(head) && cursor == old(cursor)
    {
      if element.None? || highlight.None? { return; }
      if recordTarget {
        targetElement := element;
      }
      var r := element.value.rect;
      highlight := Some(HighlightView(Some(Box(r.left - 4.0, r.top - 4.0, r.width + 8.0, r.height + 8.0)), true));
    }

    /** `showNotification`: returns the merged settings and whether auto-dismiss is scheduled. */
    method ShowNotification(options: Options) returns (settings: Settings, autoDismiss: bool)
      modifies this
      ensures settings == Merge(options) && autoDismiss == AutoDismiss(settings)
      ensures body == AfterNotification(old(body), settings)
      ensures head == AddOnce(old(head), NotificationStylesId)
      ensures cursor == old(cursor) && highlight == old(highlight) && targetElement == old(targetElement)
    {
      settings := Settings(
        if options.title.Some? then options.title.value else "",
        if options.message.Some? then options.message.value else "",
        if options.kind.Some? then options.kind.value else "info",
        if options.buttons.Some? then options.buttons.value else [],
        if options.autoClose.Some? then options.autoClose.value else 4000,
        options.id);
      var id := NotificationId;
      if settings.id.Some? && settings.id.value != "" {
        id := settings.id.value;
      }
      body := RemoveFirst(body, NotificationId) + [id];
      if NotificationStylesId !in head {
        head := head + [NotificationStylesId];
      }
      autoDismiss := settings.autoClose > 0;
    }
  }
}
