/**
 * The element locator: resolves a recorded element descriptor to a live
 * node by a fixed cascade of strategies, the first success winning
 * (`findElementFromInteraction`).  It exists in two versions:
 * `Playback` is the copy inside the playback script, `Library` the
 * identical copies in the two utility scripts.  They differ in two places:
 * the playback copy trims the recorded text before taking the 20-character
 * partial needle, and tries the point fallback only for texts longer than 30.
 */
module Locator {
  import opened Wrappers
  import opened JsString
  import opened Dom
  import opened Recordings

  datatype Variant = Playback | Library

  /** The selector fragment the CSS step rewrites into a text scan. */
  const ContainsMarker := ":contains("

  // ---- node predicates used by the scans ----

  function HasId(id: string): Node -> bool { (n: Node) => n.id == id }
  function TextStartsWith(p: string): Node -> bool { (n: Node) => StartsWith(n.text, p) }
  function TextIncludes(p: string): Node -> bool { (n: Node) => Includes(n.text, p) }
  function TrimmedTextIs(t: string): Node -> bool { (n: Node) => Trim(n.text) == Trim(t) }
  predicate IsClickable(n: Node) { n.tag == "A" || n.tag == "BUTTON" || n.hasOnclick }

  /** `document.querySelectorAll('a')` */
  function Links(page: Page): seq<Node> { ByTagName(page, "A") }

  // ---- the strategies, in cascade order ----

  /** 1. `getElementById(element.id)`: the first node carrying that id. */
  function IdStrategy(d: Descriptor, page: Page): Option<Node> {
    if d.id != "" then FirstMatch(page.nodes, HasId(d.id)) else None
  }

  /**
   * 2. Long link text: for an `A` whose text exceeds 30 characters, the first
   * link starting with its first 30 characters, else the first link containing
   * characters 5..25.
   */
  function LongLinkStrategy(d: Descriptor, page: Page): Option<Node> {
    if d.tagName == "A" && |d.textContent| > 30 then
      FirstMatch(Links(page), TextStartsWith(Substring(d.textContent, 0, 30)))
        .OrElse(FirstMatch(Links(page), TextIncludes(Substring(d.textContent, 5, 25))))
    else None
  }

  /**
   * 3. DOM path: the fragments joined with " > ", then, for more than three
   * fragments, only the last three.  A rejected selector abandons the step.
   */
  function PathStrategy(d: Descriptor, page: Page): Option<Node> {
    if |d.path| == 0 then None
    else match QueryFirst(page, Join(d.path, " > "))
      case None => None
      case Some(Some(n)) => Some(n)
      case Some(None) =>
        if |d.path| > 3 then
          match QueryFirst(page, Join(d.path[|d.path| - 3..], " > "))
          case None => None
          case Some(hit) => hit
        else None
  }

  /**
   * `querySelector` once patched for `:contains(`: `tag:contains("text")`
   * becomes the first `tag` match whose text includes `text` (the piece
   * after the first marker, up to the next one, minus its last character and
   * its double quotes); any other selector goes to the engine.
   * The outer `None` is a thrown exception.
   */
  function ContainsAwareQuery(page: Page, sel: string): Option<Option<Node>> {
    match IndexOf(sel, ContainsMarker)
    case None => QueryFirst(page, sel)
    case Some(i) =>
      var after := sel[i + |ContainsMarker|..];
      var arg := match IndexOf(after, ContainsMarker) case Some(j) => after[..j] case None => after;
      var text := RemoveAll(DropLast(arg), '"');
      match page.select(sel[..i])
      case None => None
      case Some(els) => Some(FirstMatch(els, TextIncludes(text)))
  }

  /**
   * 4. CSS selector.  The probe `querySelector(':contains')` runs first; the
   * patch is installed only when it returns no element; an exception from
   * the probe or from the query abandons the step.
   */
  function CssStrategy(d: Descriptor, page: Page): Option<Node> {
    if d.cssSelector == "" then None
    else match page.select(":contains")
      case None => None
      case Some(probe) =>
        var q := if |probe| == 0 && Includes(d.cssSelector, ContainsMarker)
                 then ContainsAwareQuery(page, d.cssSelector)
                 else QueryFirst(page, d.cssSelector);
        match q
        case None => None
        case Some(hit) => hit
  }

  /** The needle of the partial-text match: 20 characters, of the trimmed text in the playback copy. */
  function PartialNeedle(v: Variant, text: string): string {
    Substring(if v == Playback then Trim(text) else text, 0, 20)
  }

  /**
   * 5./6. Tag plus text: the first node of the tag whose trimmed text equals
   * the trimmed recorded text; then, for `A` and `BUTTON` only, the first
   * node of the tag whose text includes the partial needle.
   */
  function TagTextStrategy(v: Variant, d: Descriptor, page: Page): Option<Node> {
    if d.tagName != "" && d.textContent != "" then
      FirstMatch(ByTagName(page, d.tagName), TrimmedTextIs(d.textContent))
        .OrElse(
          if d.tagName == "A" || d.tagName == "BUTTON"
          then FirstMatch(ByTagName(page, d.tagName), TextIncludes(PartialNeedle(v, d.textContent)))
          else None)
    else None
  }

  /** Whether the point fallback is tried at all. */
  predicate PointEnabled(v: Variant, d: Descriptor) {
    d.elementRect.Some? && (v == Library || |d.textContent| > 30)
  }

  /** The nodes stacked at the centre of the recorded rectangle. */
  function PointStack(d: Descriptor, page: Page): seq<Node>
    requires d.elementRect.Some?
  {
    var r := d.elementRect.value;
    page.atPoint(r.left + r.width / 2.0, r.top + r.height / 2.0)
  }

  /** 7. Point fallback: the first clickable node at the centre point, else the topmost one. */
  function PointStrategy(v: Variant, d: Descriptor, page: Page): Option<Node> {
    if PointEnabled(v, d) && |PointStack(d, page)| > 0 then
      FirstMatch(PointStack(d, page), IsClickable).OrElse(Some(PointStack(d, page)[0]))
    else None
  }

  /** The whole cascade: the first strategy that yields a node; `None` (null) when all fail. */
  function Locate(v: Variant, d: Descriptor, page: Page): Option<Node> {
    IdStrategy(d, page)
      .OrElse(LongLinkStrategy(d, page))
      .OrElse(PathStrategy(d, page))
      .OrElse(CssStrategy(d, page))
      .OrElse(TagTextStrategy(v, d, page))
      .OrElse(PointStrategy(v, d, page))
  }

  // ---- the imperative locator ----

  /** The patched `querySelector`, with its scan over the tag's matches. */
  method QuerySelectorPatched(page: Page, sel: string) returns (r: Option<Option<Node>>)
    ensures r == ContainsAwareQuery(page, sel)
  {
    var at := IndexOf(sel, ContainsMarker);
    if at.None? {
      return QueryFirst(page, sel);
    }
    var i := at.value;
    var after := sel[i + |ContainsMarker|..];
    var next := IndexOf(after, ContainsMarker);
    var arg := if next.Some? then after[..next.value] else after;
    var text := RemoveAll(DropLast(arg), '"');
    var elements := page.select(sel[..i]);
    if elements.None? {
      return None;
    }
    var hit := Scan(elements.value, TextIncludes(text));
    return Some(hit);
  }

  method TryId(d: Descriptor, page: Page) returns (r: Option<Node>)
    ensures r == IdStrategy(d, page)
  {
    r := None;
    if d.id != "" {
      r := Scan(page.nodes, HasId(d.id));
    }
  }

  method TryLongLink(d: Descriptor, page: Page) returns (r: Option<Node>)
    ensures r == LongLinkStrategy(d, page)
  {
    r := None;
    if d.tagName == "A" && |d.textContent| > 30 {
      var links := Links(page);
      r := Scan(links, TextStartsWith(Substring(d.textContent, 0, 30)));
      if r.Some? { return; }
      r := Scan(links, TextIncludes(Substring(d.textContent, 5, 25)));
    }
  }

  method TryPath(d: Descriptor, page: Page) returns (r: Option<Node>)
    ensures r == PathStrategy(d, page)
  {
    r := None;
    if |d.path| > 0 {
      var q := QueryFirst(page, Join(d.path, " > "));
      if q.Some? {
        if q.value.Some? { return q.value; }
        if |d.path| > 3 {
          var q2 := QueryFirst(page, Join(d.path[|d.path| - 3..], " > "));
          if q2.Some? { r := q2.value; }
        }
      }
    }
  }

  method TryCss(d: Descriptor, page: Page) returns (r: Option<Node>)
    ensures r == CssStrategy(d, page)
  {
    r := None;
    if d.cssSelector != "" {
      var probe := page.select(":contains");
      if probe.Some? {
        var q;
        if |probe.value| == 0 && Includes(d.cssSelector, ContainsMarker) {
          q := QuerySelectorPatched(page, d.cssSelector);
        } else {
          q := QueryFirst(page, d.cssSelector);
        }
        if q.Some? { r := q.value; }
      }
    }
  }

  method TryTagText(v: Variant, d: Descriptor, page: Page) returns (r: Option<Node>)
    ensures r == TagTextStrategy(v, d, page)
  {
    r := None;
    if d.tagName != "" && d.textContent != "" {
      var elements := ByTagName(page, d.tagName);
      r := Scan(elements, TrimmedTextIs(d.textContent));
      if r.Some? { return; }
      if d.tagName == "A" || d.tagName == "BUTTON" {
        r := Scan(elements, TextIncludes(PartialNeedle(v, d.textContent)));
      }
    }
  }

  method TryPoint(v: Variant, d: Descriptor, page: Page) returns (r: Option<Node>)
    ensures r == PointStrategy(v, d, page)
  {
    r := None;
    if PointEnabled(v, d) {
      var stack := PointStack(d, page);
      if |stack| > 0 {
        r := Scan(stack, IsClickable);
        if r.Some? { return; }
        r := Some(stack[0]);
      }
    }
  }

  /** `findElementFromInteraction`: tries each strategy in turn and returns on the first hit. */
  method FindElementFromInteraction(v: Variant, d: Descriptor, page: Page) returns (r: Option<Node>)
    ensures r == Locate(v, d, page)
  {
    r := TryId(d, page);
    if r.Some? { return; }
    r := TryLongLink(d, page);
    if r.Some? { return; }
    r := TryPath(d, page);
    if r.Some? { return; }
    r := TryCss(d, page);
    if r.Some? { return; }
    r := TryTagText(v, d, page);
    if r.Some? { return; }
    r := TryPoint(v, d, page);
  }

  // ---- what the cascade guarantees ----

  /** A recorded id that exists on the page wins: the first node with that id, whatever decoys match later strategies. */
  lemma IdLookupWins(v: Variant, d: Descriptor, page: Page, k: nat)
    requires d.id != "" && k < |page.nodes| && page.nodes[k].id == d.id
    requires forall j :: 0 <= j < k ==> page.nodes[j].id != d.id
    ensures Locate(v, d, page) == Some(page.nodes[k])
  {
    FirstMatchAt(page.nodes, HasId(d.id), k);
  }

  /** For a long link text, the first link starting with its first 30 characters wins once no id matched. */
  lemma LongLinkPrefixWins(v: Variant, d: Descriptor, page: Page, k: nat)
    requires IdStrategy(d, page).None?
    requires d.tagName == "A" && |d.textContent| > 30
    requires k < |Links(page)| && StartsWith(Links(page)[k].text, d.textContent[..30])
    requires forall j :: 0 <= j < k ==> !StartsWith(Links(page)[j].text, d.textContent[..30])
    ensures Locate(v, d, page) == Some(Links(page)[k])
  {
    assert Substring(d.textContent, 0, 30) == d.textContent[..30];
    FirstMatchAt(Links(page), TextStartsWith(d.textContent[..30]), k);
  }

  /** Only when no link has that prefix: the first link containing characters 5..25 wins. */
  lemma LongLinkSubstringWins(v: Variant, d: Descriptor, page: Page, k: nat)
    requires IdStrategy(d, page).None?
    requires d.tagName == "A" && |d.textContent| > 30
    requires forall j :: 0 <= j < |Links(page)| ==> !StartsWith(Links(page)[j].text, d.textContent[..30])
    requires k < |Links(page)| && Includes(Links(page)[k].text, d.textContent[5..25])
    requires forall j :: 0 <= j < k ==> !Includes(Links(page)[j].text, d.textContent[5..25])
    ensures Locate(v, d, page) == Some(Links(page)[k])
  {
    assert Substring(d.textContent, 0, 30) == d.textContent[..30];
    assert Substring(d.textContent, 5, 25) == d.textContent[5..25];
    FirstMatchNone(Links(page), TextStartsWith(d.textContent[..30]));
    FirstMatchAt(Links(page), TextIncludes(d.textContent[5..25]), k);
  }

  /** Once the first four strategies fail, the first node of the tag with equal trimmed text wins. */
  lemma TagTextExactWins(v: Variant, d: Descriptor, page: Page, k: nat)
    requires IdStrategy(d, page).None? && LongLinkStrategy(d, page).None?
    requires PathStrategy(d, page).None? && CssStrategy(d, page).None?
    requires d.tagName != "" && d.textContent != ""
    requires k < |ByTagName(page, d.tagName)|
    requires Trim(ByTagName(page, d.tagName)[k].text) == Trim(d.textContent)
    requires forall j :: 0 <= j < k ==> Trim(ByTagName(page, d.tagName)[j].text) != Trim(d.textContent)
    ensures Locate(v, d, page) == Some(ByTagName(page, d.tagName)[k])
  {
    FirstMatchAt(ByTagName(page, d.tagName), TrimmedTextIs(d.textContent), k);
  }

  /** The partial-text match is tried for links and buttons only: other tags with no exact match go on to the point fallback. */
  lemma PartialOnlyForLinksAndButtons(v: Variant, d: Descriptor, page: Page)
    requires IdStrategy(d, page).None? && LongLinkStrategy(d, page).None?
    requires PathStrategy(d, page).None? && CssStrategy(d, page).None?
    requires d.tagName != "A" && d.tagName != "BUTTON"
    requires forall j :: 0 <= j < |ByTagName(page, d.tagName)| ==> Trim(ByTagName(page, d.tagName)[j].text) != Trim(d.textContent)
    ensures Locate(v, d, page) == PointStrategy(v, d, page)
  {
    FirstMatchNone(ByTagName(page, d.tagName), TrimmedTextIs(d.textContent));
  }

  /** The point fallback returns the first link, button or onclick node in the stack ... */
  lemma PointPrefersClickable(v: Variant, d: Descriptor, page: Page, k: nat)
    requires PointEnabled(v, d)
    requires k < |PointStack(d, page)| && IsClickable(PointStack(d, page)[k])
    requires forall j :: 0 <= j < k ==> !IsClickable(PointStack(d, page)[j])
    ensures PointStrategy(v, d, page) == Some(PointStack(d, page)[k])
  {
    FirstMatchAt(PointStack(d, page), IsClickable, k);
  }

  /** ... and the topmost node when none of them is clickable. */
  lemma PointFallsBackToTop(v: Variant, d: Descriptor, page: Page)
    requires PointEnabled(v, d) && |PointStack(d, page)| > 0
    requires forall j :: 0 <= j < |PointStack(d, page)| ==> !IsClickable(PointStack(d, page)[j])
    ensures PointStrategy(v, d, page) == Some(PointStack(d, page)[0])
  {
    FirstMatchNone(PointStack(d, page), IsClickable);
  }

  /** The locator yields null exactly when every strategy fails; otherwise it yields the first strategy's hit. */
  lemma NotFoundIffAllFail(v: Variant, d: Descriptor, page: Page)
    ensures Locate(v, d, page).None? <==>
      IdStrategy(d, page).None? && LongLinkStrategy(d, page).None? && PathStrategy(d, page).None?
      && CssStrategy(d, page).None? && TagTextStrategy(v, d, page).None? && PointStrategy(v, d, page).None?
  {
  }

  /** The playback copy never uses the point fallback for texts of at most 30 characters. */
  lemma PlaybackPointNeedsLongText(d: Descriptor, page: Page)
    requires |d.textContent| <= 30
    ensures PointStrategy(Playback, d, page).None?
  {
  }

  /** For a recorded text without surrounding white space, longer than 30 characters, the two copies agree. */
  lemma VariantsAgree(d: Descriptor, page: Page)
    requires |d.textContent| > 0 ==> !IsWhitespace(d.textContent[0]) && !IsWhitespace(d.textContent[|d.textContent| - 1])
    requires |d.textContent| > 30 || d.elementRect.None?
    ensures Locate(Playback, d, page) == Locate(Library, d, page)
  {
    TrimNoop(d.textContent);
  }

  /** A selector engine that rejects `:contains` (as standard engines do) throws at the probe, so the CSS step never yields a node. */
  lemma CssStepNeedsProbe(d: Descriptor, page: Page)
    requires page.select(":contains").None?
    ensures CssStrategy(d, page).None?
  {
  }

  // ---- helpers the callers use ----

  /** `shouldWaitForContent`: no `h2 a, main a` node yet on a writing page. */
  function ShouldWaitForContent(containerFound: bool, currentPath: string): (r: bool)
    ensures r <==> !containerFound && Includes(currentPath, "/writing")
  {
    if !containerFound && (Includes(currentPath, "/writing/ideas") || Includes(currentPath, "/writing")) then
      (IdeasIsWriting(currentPath); true)
    else false
  }

  /** A path mentioning "/writing/ideas" mentions "/writing". */
  lemma IdeasIsWriting(path: string)
    ensures Includes(path, "/writing/ideas") ==> Includes(path, "/writing")
  {
    if Includes(path, "/writing/ideas") {
      IncludesIff(path, "/writing/ideas");
      var j: nat :| OccursAt(path, "/writing/ideas", j);
      assert path[j..j + 8] == path[j..j + 14][..8];
      assert OccursAt(path, "/writing", j);
      IncludesIff(path, "/writing");
    }
  }

  /** The computed style fields `isElementVisible` reads. */
  datatype Style = Style(display: string, visibility: string, opacity: string)

  /** `isElementVisible`: displayed, not hidden, not transparent, and of non-zero size. */
  function IsElementVisible(element: Option<(Style, Rect)>): (r: bool)
    ensures r ==> element.Some? && element.value.1.width > 0.0 && element.value.1.height > 0.0
    ensures element.Some? && element.value.0.display == "none" ==> !r
    ensures element.Some? && element.value.0.visibility == "hidden" ==> !r
    ensures element.Some? && element.value.0.opacity == "0" ==> !r
    ensures (&& element.Some? && element.value.0.display != "none" && element.value.0.visibility != "hidden"
             && element.value.0.opacity != "0" && element.value.1.width > 0.0 && element.value.1.height > 0.0) ==> r
  {
    match element
    case None => false
    case Some((style, rect)) =>
      if style.display == "none" || style.visibility == "hidden" || style.opacity == "0" then false
      else rect.width > 0.0 && rect.height > 0.0
  }
}
