/** The page as the extension sees it: a read-only document behind a query capability.
    Nodes are opaque handles, compared by identity as `indexOf` does; CSS selectors are
    opaque strings whose meaning lies entirely in the query functions. */
module Dom {
  import opened Wrappers
  import opened Strings

  type NodeId = nat
  type Selector = string

  datatype Document = Document(
    /** `document.querySelectorAll(sel)`, in document order */
    query: Selector -> seq<NodeId>,
    /** `node.querySelectorAll(sel)`: the matching descendants, in document order */
    queryWithin: (NodeId, Selector) -> seq<NodeId>,
    /** `node.closest(sel) !== null`: the node itself or an ancestor matches */
    closest: (NodeId, Selector) -> bool,
    /** `node.className` */
    className: NodeId -> string,
    /** `node.getAttribute(name)`; `None` is `null` */
    attribute: (NodeId, string) -> Option<string>,
    /** the rendered text of a node (`innerText`, or `textContent` where the code uses it) */
    text: NodeId -> string,
    /** `node.parentElement` */
    parent: NodeId -> Option<NodeId>,
    /** the values of the text nodes under `node` whose parent element is not a button,
        in document order: what the extension's tree walker visits before its
        emptiness test */
    textNodes: NodeId -> seq<string>)

  /** `document.querySelector(sel) !== null` */
  predicate Exists(doc: Document, sel: Selector) {
    |doc.query(sel)| > 0
  }

  /** `node.querySelector(sel) !== null` */
  predicate HasDescendant(doc: Document, n: NodeId, sel: Selector) {
    |doc.queryWithin(n, sel)| > 0
  }

  /** `node.getAttribute(name) || ''` */
  function Attr(doc: Document, n: NodeId, name: string): string {
    OrElse(doc.attribute(n, name), "")
  }

  /** `node.getAttribute(name)?.includes(sub)`: false when the attribute is absent. */
  predicate AttrContains(doc: Document, n: NodeId, name: string, sub: string) {
    doc.attribute(n, name).Some? && Contains(doc.attribute(n, name).value, sub)
  }

  /** `node.classList.contains(token)`: `token` is one of the class names, which are the
      pieces of `className` between ASCII white space. */
  predicate HasClass(doc: Document, n: NodeId, token: string) {
    token != "" && token in SplitOn(doc.className(n), {' ', '\t', '\n', '\r', '\U{000C}'})
  }
}
