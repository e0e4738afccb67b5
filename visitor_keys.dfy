/**
 * The visitor-key registry: for every node type the parser can produce, the
 * ordered list of the fields that hold child nodes, in the order a generic
 * traversal visits them (src/visitor-keys.ts).
 */
module VisitorKeys {

  /** Every node type tag the registry knows about, in table order. */
  datatype NodeType =
    | Program
    | SvelteScriptElement
    | SvelteStyleElement
    | SvelteElement
    | SvelteStartTag
    | SvelteEndTag
    | SvelteName
    | SvelteMemberExpressionName
    | SvelteLiteral
    | SvelteMustacheTag
    | SvelteDebugTag
    | SvelteConstTag
    | SvelteRenderTag
    | SvelteIfBlock
    | SvelteElseBlock
    | SvelteEachBlock
    | SvelteAwaitBlock
    | SvelteAwaitPendingBlock
    | SvelteAwaitThenBlock
    | SvelteAwaitCatchBlock
    | SvelteKeyBlock
    | SvelteSnippetBlock
    | SvelteAttribute
    | SvelteShorthandAttribute
    | SvelteSpreadAttribute
    | SvelteDirective
    | SvelteStyleDirective
    | SvelteSpecialDirective
    | SvelteDirectiveKey
    | SvelteSpecialDirectiveKey
    | SvelteText
    | SvelteHTMLComment
    | SvelteReactiveStatement

  /** The node types whose entry lists no field: nothing below them is visited. */
  predicate IsLeaf(t: NodeType) {
    t in {SvelteEndTag, SvelteName, SvelteLiteral, SvelteSpecialDirectiveKey, SvelteText, SvelteHTMLComment}
  }

  /** A case split over the node types, used to show the registry is total. */
  lemma OneOfTheTypes(t: NodeType)
    ensures t == Program ||
      t == SvelteScriptElement ||
      t == SvelteStyleElement ||
      t == SvelteElement ||
      t == SvelteStartTag ||
      t == SvelteEndTag ||
      t == SvelteName ||
      t == SvelteMemberExpressionName ||
      t == SvelteLiteral ||
      t == SvelteMustacheTag ||
      t == SvelteDebugTag ||
      t == SvelteConstTag ||
      t == SvelteRenderTag ||
      t == SvelteIfBlock ||
      t == SvelteElseBlock ||
      t == SvelteEachBlock ||
      t == SvelteAwaitBlock ||
      t == SvelteAwaitPendingBlock ||
      t == SvelteAwaitThenBlock ||
      t == SvelteAwaitCatchBlock ||
      t == SvelteKeyBlock ||
      t == SvelteSnippetBlock ||
      t == SvelteAttribute ||
      t == SvelteShorthandAttribute ||
      t == SvelteSpreadAttribute ||
      t == SvelteDirective ||
      t == SvelteStyleDirective ||
      t == SvelteSpecialDirective ||
      t == SvelteDirectiveKey ||
      t == SvelteSpecialDirectiveKey ||
      t == SvelteText ||
      t == SvelteHTMLComment ||
      t == SvelteReactiveStatement
  {
  }

  /** The entry of one node type in the table (src/visitor-keys.ts:12-53). */
  function KeysOf(t: NodeType): seq<string> {
    match t
    case Program => ["body"]
    case SvelteScriptElement => ["name", "startTag", "body", "endTag"]
    case SvelteStyleElement => ["name", "startTag", "children", "endTag"]
    case SvelteElement => ["name", "startTag", "children", "endTag"]
    case SvelteStartTag => ["attributes"]
    case SvelteEndTag => []
    case SvelteName => []
    case SvelteMemberExpressionName => ["object", "property"]
    case SvelteLiteral => []
    case SvelteMustacheTag => ["expression"]
    case SvelteDebugTag => ["identifiers"]
    case SvelteConstTag => ["declaration"]
    case SvelteRenderTag => ["callee", "argument"]
    case SvelteIfBlock => ["expression", "children", "else"]
    case SvelteElseBlock => ["children"]
    case SvelteEachBlock => ["expression", "context", "index", "key", "children", "else"]
    case SvelteAwaitBlock => ["expression", "pending", "then", "catch"]
    case SvelteAwaitPendingBlock => ["children"]
    case SvelteAwaitThenBlock => ["value", "children"]
    case SvelteAwaitCatchBlock => ["error", "children"]
    case SvelteKeyBlock => ["expression", "children"]
    case SvelteSnippetBlock => ["id", "context", "children"]
    case SvelteAttribute => ["key", "value"]
    case SvelteShorthandAttribute => ["key", "value"]
    case SvelteSpreadAttribute => ["argument"]
    case SvelteDirective => ["key", "expression"]
    case SvelteStyleDirective => ["key", "value"]
    case SvelteSpecialDirective => ["key", "expression"]
    case SvelteDirectiveKey => ["name"]
    case SvelteSpecialDirectiveKey => []
    case SvelteText => []
    case SvelteHTMLComment => []
    case SvelteReactiveStatement => ["label", "body"]
  }

  /** The registry as a map; it has an entry for every node type. */
  function SvelteKeys(): (keys: map<NodeType, seq<string>>)
    ensures forall t: NodeType :: t in keys
  {
    var keys := map t | t in {
      Program, SvelteScriptElement, SvelteStyleElement, SvelteElement, SvelteStartTag,
      SvelteEndTag, SvelteName, SvelteMemberExpressionName, SvelteLiteral, SvelteMustacheTag,
      SvelteDebugTag, SvelteConstTag, SvelteRenderTag, SvelteIfBlock, SvelteElseBlock,
      SvelteEachBlock, SvelteAwaitBlock, SvelteAwaitPendingBlock, SvelteAwaitThenBlock,
      SvelteAwaitCatchBlock, SvelteKeyBlock, SvelteSnippetBlock, SvelteAttribute,
      SvelteShorthandAttribute, SvelteSpreadAttribute, SvelteDirective, SvelteStyleDirective,
      SvelteSpecialDirective, SvelteDirectiveKey, SvelteSpecialDirectiveKey, SvelteText,
      SvelteHTMLComment, SvelteReactiveStatement
    } :: KeysOf(t);
    forall t: NodeType ensures t in keys {
      OneOfTheTypes(t);
    }
    keys
  }

  /** A node type's entry is empty exactly when it is one of the leaf types. */
  lemma LeafTypesHaveNoKeys(t: NodeType)
    ensures SvelteKeys()[t] == [] <==> IsLeaf(t)
  {
  }

  /** No entry names the same field twice, so a traversal visits each child field once. */
  lemma NoRepeatedKeys(t: NodeType, i: int, j: int)
    requires 0 <= i < j < |SvelteKeys()[t]|
    ensures SvelteKeys()[t][i] != SvelteKeys()[t][j]
  {
    OneOfTheTypes(t);
  }

  /** The root is visited through its statement list only. */
  lemma ProgramVisitsOnlyBody()
    ensures SvelteKeys()[Program] == ["body"]
  {
  }

  /**
   * Script and style elements visit their name, then the start tag, then the
   * contents (body or children), then the end tag; a markup element has the
   * style element's layout.
   */
  lemma TagElementKeyOrder()
    ensures SvelteKeys()[SvelteScriptElement] == ["name", "startTag", "body", "endTag"]
    ensures SvelteKeys()[SvelteStyleElement] == SvelteKeys()[SvelteScriptElement][2 := "children"]
    ensures SvelteKeys()[SvelteElement] == SvelteKeys()[SvelteStyleElement]
  {
  }

  /** The start tag visits its attribute list only; conditional blocks visit test, branch, else. */
  lemma StartTagAndIfBlockKeys()
    ensures SvelteKeys()[SvelteStartTag] == ["attributes"]
    ensures SvelteKeys()[SvelteIfBlock] == ["expression", "children", "else"]
  {
  }

  /** Iteration and await blocks visit their parts in source order. */
  lemma EachAndAwaitBlockKeys()
    ensures SvelteKeys()[SvelteEachBlock] == ["expression", "context", "index", "key", "children", "else"]
    ensures SvelteKeys()[SvelteAwaitBlock] == ["expression", "pending", "then", "catch"]
  {
  }
}
