/**
 * The live document as the locator sees it: element nodes in document
 * order, plus the two browser services the scripts call but cannot see
 * into, given as oracles: the CSS selector engine and the point query.
 */
module Dom {
  import opened Wrappers

  /** An on-screen rectangle (`getBoundingClientRect`, or a recorded `elementRect`). */
  datatype Rect = Rect(left: real, top: real, width: real, height: real) {
    function Right(): real { left + width }
    function Bottom(): real { top + height }
  }

  /**
   * An element: `handle` is its identity, `tag` its upper-case `tagName`,
   * `id` its id attribute ("" when none), `text` its `textContent`,
   * `hasOnclick` whether its `onclick` property is set, `rect` its layout box.
   */
  datatype Node = Node(handle: nat, tag: string, id: string, text: string, hasOnclick: bool, rect: Rect)

  /**
   * A document.  `select(sel)` is `querySelectorAll(sel)`: the matches in
   * document order, or `None` when the engine rejects `sel` (it throws a
   * SyntaxError).  `atPoint(x, y)` is `elementsFromPoint(x, y)`, topmost first.
   */
  datatype Page = Page(nodes: seq<Node>, select: string -> Option<seq<Node>>, atPoint: (real, real) -> seq<Node>)

  /** First index at or after `from` whose element satisfies `p`. */
  function FirstIndexFrom<T>(s: seq<T>, p: T -> bool, from: nat): (r: Option<nat>)
    decreases |s| - from
    ensures r.Some? ==> from <= r.value < |s| && p(s[r.value])
    ensures r.Some? ==> forall j :: from <= j < r.value ==> !p(s[j])
    ensures r.None? ==> forall j :: from <= j < |s| ==> !p(s[j])
  {
    if from >= |s| then None
    else if p(s[from]) then Some(from)
    else FirstIndexFrom(s, p, from + 1)
  }

  /** First element satisfying `p`: the value of a `for` loop that returns on the first hit. */
  function FirstMatch<T>(s: seq<T>, p: T -> bool): Option<T> {
    match FirstIndexFrom(s, p, 0)
    case Some(i) => Some(s[i])
    case None => None
  }

  /** `FirstMatch` finds `s[k]` exactly when `k` is the first index satisfying `p`. */
  lemma FirstMatchAt<T>(s: seq<T>, p: T -> bool, k: nat)
    requires k < |s| && p(s[k])
    requires forall j :: 0 <= j < k ==> !p(s[j])
    ensures FirstIndexFrom(s, p, 0) == Some(k)
    ensures FirstMatch(s, p) == Some(s[k])
  {
  }

  /** `FirstMatch` fails exactly when no element satisfies `p`. */
  lemma FirstMatchNone<T>(s: seq<T>, p: T -> bool)
    ensures FirstMatch(s, p).None? <==> forall j :: 0 <= j < |s| ==> !p(s[j])
  {
    if FirstMatch(s, p).Some? {
      var i := FirstIndexFrom(s, p, 0).value;
      assert p(s[i]);
    }
  }

  /** A found element is in the sequence and satisfies `p`. */
  lemma FirstMatchSome<T>(s: seq<T>, p: T -> bool)
    requires FirstMatch(s, p).Some?
    ensures FirstMatch(s, p).value in s && p(FirstMatch(s, p).value)
  {
  }

  /** `for (let i = 0; i < s.length; i++) if (p(s[i])) return s[i];` */
  method Scan<T>(s: seq<T>, p: T -> bool) returns (r: Option<T>)
    ensures r == FirstMatch(s, p)
  {
    var i := 0;
    while i < |s|
      invariant 0 <= i <= |s|
      invariant FirstIndexFrom(s, p, 0) == FirstIndexFrom(s, p, i)
    {
      if p(s[i]) {
        return Some(s[i]);
      }
      i := i + 1;
    }
    return None;
  }

  /** Elements satisfying `p`, in order (`Array.prototype.filter`). */
  function Filter(s: seq<Node>, p: Node -> bool): (r: seq<Node>)
    ensures |r| <= |s|
    ensures forall x :: x in r <==> x in s && p(x)
  {
    if |s| == 0 then [] else (if p(s[0]) then [s[0]] else []) + Filter(s[1..], p)
  }

  /** Both tests at once. */
  function Both<T>(q: T -> bool, p: T -> bool): T -> bool {
    (x: T) => q(x) && p(x)
  }

  /** The first match in `[x] + s` is `x` itself when it qualifies, else the first match in `s`. */
  lemma FirstMatchCons<T>(x: T, s: seq<T>, p: T -> bool)
    ensures FirstMatch([x] + s, p) == if p(x) then Some(x) else FirstMatch(s, p)
  {
    var t := [x] + s;
    if p(x) {
      FirstMatchAt(t, p, 0);
    } else {
      match FirstIndexFrom(s, p, 0)
      case Some(k) =>
        assert forall j :: 0 <= j < k + 1 ==> !p(t[j]) by {
          forall j | 0 <= j < k + 1 ensures !p(t[j]) {
            if j > 0 { assert t[j] == s[j - 1]; }
          }
        }
        FirstMatchAt(t, p, k + 1);
      case None =>
        assert forall j :: 0 <= j < |t| ==> !p(t[j]) by {
          forall j | 0 <= j < |t| ensures !p(t[j]) {
            if j > 0 { assert t[j] == s[j - 1]; }
          }
        }
        FirstMatchNone(t, p);
    }
  }

  /**
   * Filtering keeps document order: the first element of `Filter(s, q)`
   * satisfying `p` is the first element of `s` satisfying both.
   */
  lemma {:induction false} FilterFirstMatch(s: seq<Node>, q: Node -> bool, p: Node -> bool)
    ensures FirstMatch(Filter(s, q), p) == FirstMatch(s, Both(q, p))
  {
    if |s| > 0 {
      assert s == [s[0]] + s[1..];
      FilterFirstMatch(s[1..], q, p);
      FirstMatchCons(s[0], s[1..], Both(q, p));
      assert Both(q, p)(s[0]) == (q(s[0]) && p(s[0]));
      if q(s[0]) {
        assert Filter(s, q) == [s[0]] + Filter(s[1..], q);
        FirstMatchCons(s[0], Filter(s[1..], q), p);
      } else {
        assert Filter(s, q) == Filter(s[1..], q);
      }
    }
  }

  /** `getElementsByTagName(tag)` for an upper-case tag name. */
  function ByTagName(page: Page, tag: string): seq<Node> {
    Filter(page.nodes, HasTag(tag))
  }

  function HasTag(tag: string): Node -> bool {
    (n: Node) => n.tag == tag
  }

  /** Searching the tag's elements finds the first element of the whole document with that tag that passes `p`. */
  lemma ByTagNameFirstMatch(page: Page, tag: string, p: Node -> bool)
    ensures FirstMatch(ByTagName(page, tag), p) == FirstMatch(page.nodes, Both(HasTag(tag), p))
  {
    FilterFirstMatch(page.nodes, HasTag(tag), p);
  }

  /** `querySelector(sel)`: the first match, `None` for no match, and an exception for a rejected selector. */
  function QueryFirst(page: Page, sel: string): Option<Option<Node>> {
    match page.select(sel)
    case None => None
    case Some(hits) => Some(if |hits| > 0 then Some(hits[0]) else None)
  }
}
