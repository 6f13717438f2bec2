/** The recording format the tour engine plays back. */
module Recordings {
  import opened Wrappers
  import opened Dom

  /**
   * A serialized element: `id`, `tagName`, `textContent` and `cssSelector`
   * ("" when absent), the ancestor `path` fragments, and the captured `elementRect`.
   */
  datatype Descriptor = Descriptor(
    id: string, tagName: string, textContent: string,
    path: seq<string>, cssSelector: string, elementRect: Option<Rect>)

  /** `pageInfo`: recorded pathname, full URL ("" when absent), and that URL's hostname. */
  datatype PageInfo = PageInfo(path: string, url: string, host: string)

  /** A page fingerprint: pathname plus the four collected string lists. */
  datatype Fingerprint = Fingerprint(
    url: string, headings: seq<string>, navItems: seq<string>,
    contentElements: seq<string>, formElements: seq<string>)

  /** One recorded step. */
  datatype Interaction = Interaction(
    kind: string, element: Descriptor, pageInfo: Option<PageInfo>, pageFingerprint: Option<Fingerprint>)

  datatype Recording = Recording(interactions: seq<Interaction>)
}
