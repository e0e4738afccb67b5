/**
 * The data the root converter reads and builds: offsets, tokens, the foreign
 * compiler's root as given input, the converted node shapes, and the external
 * collaborators the converter calls (src/parser/converts/root.ts).
 */
module Ast {
  import opened Wrappers
  import opened VisitorKeys

  /** A half-open source range `[start, end)` in character offsets. */
  datatype Range = Range(start: int, end: int)

  datatype TokenKind = HTMLIdentifier | HTMLText

  /** One entry of the synthetic token stream. */
  datatype Token = Token(kind: TokenKind, range: Range)

  /** A node of the foreign compiler's tree, seen only through its offsets. */
  datatype ForeignNode = ForeignNode(id: nat, start: int, end: int)

  /** The source block the context finds for an element, carrying its raw attributes. */
  datatype Block = Block(attrs: seq<ForeignNode>)

  /**
   * The foreign root as the compatibility getters present it: the children of
   * the markup fragment (None when there is no fragment), the `<svelte:options>`
   * node, the instance script, the module script (`moduleScript`), and the style region.
   */
  datatype ForeignRoot = ForeignRoot(
    fragmentChildren: Option<seq<ForeignNode>>,
    options: Option<ForeignNode>,
    instance: Option<ForeignNode>,
    moduleScript: Option<ForeignNode>,
    css: Option<ForeignNode>)

  /** A node built by a collaborator (a converted markup child or attribute). */
  datatype Converted = Converted(nodeType: NodeType, range: Range)

  /** The synthesized tag name: the literal `script` or `style` and its range. */
  datatype Name = Name(name: string, range: Range)

  /**
   * A start tag. Its end offset is `None` while the tag is a placeholder, and is
   * filled in once the tag extractor has found the closing `>`.
   */
  datatype StartTag = StartTag(attributes: seq<Converted>, selfClosing: bool, start: int, end: Option<int>)

  datatype EndTag = EndTag(range: Range)

  /** A raw text node. */
  datatype Text = Text(value: string, range: Range)

  /**
   * A top-level entry of the Program body. `name` and `startTag` are `None` only
   * while the element is under construction.
   */
  datatype Node =
    | Markup(node: Converted)
    | ScriptElement(name: Option<Name>, startTag: Option<StartTag>, body: seq<Converted>, endTag: Option<EndTag>, range: Range)
    | StyleElement(name: Option<Name>, startTag: Option<StartTag>, children: seq<Text>, endTag: Option<EndTag>, range: Range)

  /** The unified root. Its tokens and comments live in the conversion context. */
  datatype SvelteProgram = SvelteProgram(body: seq<Node>, range: Range)

  /**
   * What the tag extractor determines for an element: the range of the tag name
   * inside the opening tag, the offset just past the opening tag, and the end tag
   * when there is one.
   */
  datatype TagBounds = TagBounds(openTokenRange: Range, startTagEnd: int, endTag: Option<EndTag>)

  /** The converter's external collaborators, as total functions of what they are given. */
  datatype Collaborators = Collaborators(
    convertChildren: seq<ForeignNode> -> seq<Converted>,
    findBlock: Range -> Option<Block>,
    convertAttributes: seq<ForeignNode> -> seq<Converted>,
    extractTags: Range -> TagBounds)

  /** The range the context assigns to a foreign node. */
  function RangeOf(n: ForeignNode): Range {
    Range(n.start, n.end)
  }

  /** The node type of a body entry. */
  function TypeOf(n: Node): NodeType {
    match n
    case Markup(c) => c.nodeType
    case ScriptElement(_, _, _, _, _) => SvelteScriptElement
    case StyleElement(_, _, _, _, _) => SvelteStyleElement
  }

  /**
   * The child-bearing fields this model declares for each node type the root
   * converter builds, in declaration order; None for the types built elsewhere.
   */
  function DeclaredChildFields(t: NodeType): Option<seq<string>> {
    match t
    case Program => Some(["body"])
    case SvelteScriptElement => Some(["name", "startTag", "body", "endTag"])
    case SvelteStyleElement => Some(["name", "startTag", "children", "endTag"])
    case SvelteStartTag => Some(["attributes"])
    case SvelteEndTag => Some([])
    case SvelteName => Some([])
    case SvelteText => Some([])
    case _ => None
  }

  /**
   * The node types present in a script or style element built by the converter:
   * the element, its name, start tag, end tag and text children.
   */
  function BuiltTypes(n: Node): set<NodeType> {
    match n
    case Markup(_) => {}
    case ScriptElement(name, startTag, _, endTag, _) =>
      {SvelteScriptElement} + (if name.Some? then {SvelteName} else {})
      + (if startTag.Some? then {SvelteStartTag} else {}) + (if endTag.Some? then {SvelteEndTag} else {})
    case StyleElement(name, startTag, children, endTag, _) =>
      {SvelteStyleElement} + (if name.Some? then {SvelteName} else {})
      + (if startTag.Some? then {SvelteStartTag} else {}) + (if endTag.Some? then {SvelteEndTag} else {})
      + (if children != [] then {SvelteText} else {})
  }
}
