/**
 * convertSvelteRoot (src/parser/converts/root.ts): assembles the Program node
 * from the markup children (with `<svelte:options>` spliced in by position),
 * the instance script, the module script and the style element, and appends
 * the synthesized tokens to the context's token stream.
 *
 * The first half gives the result as functions of the input (the
 * specification); the methods after it build it step by step as the source
 * does, and are proved to produce exactly that result.
 */
module Root {
  import opened Wrappers
  import opened VisitorKeys
  import opened Ast
  import opened ConvertContext

  // ---------------------------------------------------------------------------
  // String slicing

  /** How `String.prototype.slice` reads one bound: negative counts from the end, then clamped. */
  function SliceBound(k: int, len: nat): (i: nat)
    ensures i <= len
    ensures 0 <= k <= len ==> i == k
  {
    if k < 0 then (if len + k < 0 then 0 else len + k)
    else if k > len then len
    else k
  }

  /** `code.slice(from, to)`: the text between the two bounds, empty when they cross. */
  function JsSlice(code: string, from: int, to: int): string {
    var i, j := SliceBound(from, |code|), SliceBound(to, |code|);
    if i < j then code[i..j] else ""
  }

  /** Within the text, a slice is exactly the characters between the bounds, untrimmed. */
  lemma JsSliceInBounds(code: string, from: int, to: int)
    requires 0 <= from <= to <= |code|
    ensures JsSlice(code, from, to) == code[from..to]
    ensures |JsSlice(code, from, to)| == to - from
  {
  }

  // ---------------------------------------------------------------------------
  // Options splice (root.ts:41-56)

  /**
   * The position the options node takes among the markup children: the first
   * child that starts at or after the end of the options node (a tie counts as
   * "before"), or the end of the list when no child does.
   */
  function SpliceIndex(children: seq<ForeignNode>, options: ForeignNode): (k: nat)
    ensures k <= |children|
    ensures forall j :: 0 <= j < k ==> children[j].start < options.end
    ensures k < |children| ==> options.end <= children[k].start
  {
    if children == [] || options.end <= children[0].start then 0
    else 1 + SpliceIndex(children[1..], options)
  }

  /** The children with the options node inserted at its splice position. */
  function Spliced(children: seq<ForeignNode>, options: ForeignNode): seq<ForeignNode> {
    var k := SpliceIndex(children, options);
    children[..k] + [options] + children[k..]
  }

  /**
   * The splice adds exactly one element, the options node, at the splice
   * position; removing it gives back the children in their original order.
   */
  lemma SplicedContents(children: seq<ForeignNode>, options: ForeignNode)
    ensures var r, k := Spliced(children, options), SpliceIndex(children, options);
      |r| == |children| + 1 && r[k] == options && r[..k] + r[k + 1..] == children
      && multiset(r) == multiset(children) + multiset{options}
  {
    var r, k := Spliced(children, options), SpliceIndex(children, options);
    assert r[..k] == children[..k];
    assert r[k + 1..] == children[k..];
    assert children == children[..k] + children[k..];
  }

  /** Markup nodes listed so that each one ends before the next one starts. */
  predicate InSourceOrder(nodes: seq<ForeignNode>) {
    forall i :: 0 <= i < |nodes| - 1 ==> nodes[i].end <= nodes[i + 1].start
  }

  /** A node that does not overlap any of the given nodes. */
  predicate FitsBetween(nodes: seq<ForeignNode>, n: ForeignNode) {
    forall i :: 0 <= i < |nodes| ==> nodes[i].end <= n.start || n.end <= nodes[i].start
  }

  /**
   * When the children are in source order and the options node overlaps none of
   * them, the spliced list is still in source order.
   */
  lemma {:induction false} SplicedKeepsSourceOrder(children: seq<ForeignNode>, options: ForeignNode)
    requires InSourceOrder(children) && FitsBetween(children, options)
    ensures InSourceOrder(Spliced(children, options))
  {
    var r := Spliced(children, options);
    var k: int := SpliceIndex(children, options);
    assert |r| == |children| + 1;
    forall i | 0 <= i < |r| - 1
      ensures r[i].end <= r[i + 1].start
    {
      if i + 1 < k {
        assert r[i] == children[i] && r[i + 1] == children[i + 1];
      } else if i == k - 1 {
        assert r[i] == children[k - 1] && r[i + 1] == options;
        assert children[k - 1].start < options.end;
      } else if i == k {
        assert r[i] == options && r[i + 1] == children[k];
      } else {
        assert r[i] == children[i - 1] && r[i + 1] == children[i];
      }
    }
  }

  /**
   * The options splice as the source performs it: copy the children, scan them,
   * insert the options node before the first child starting at or after its end
   * and stop; append it when the scan finds none.
   */
  method SpliceOptions(children: seq<ForeignNode>, options: ForeignNode) returns (r: seq<ForeignNode>)
    ensures r == Spliced(children, options)
  {
    r := children;
    var idx := 0;
    while idx < |r|
      invariant idx <= |children| && r == children
      invariant forall j :: 0 <= j < idx ==> children[j].start < options.end
    {
      if options.end <= r[idx].start {
        r := r[..idx] + [options] + r[idx..];
        assert idx == SpliceIndex(children, options);
        return;
      }
      idx := idx + 1;
    }
    r := r + [options];
  }

  // ---------------------------------------------------------------------------
  // The converted Program, as a function of the input

  /** The markup children handed to the child converter. */
  function MarkupChildren(root: ForeignRoot): seq<ForeignNode>
    requires root.fragmentChildren.Some?
  {
    if root.options.Some? then Spliced(root.fragmentChildren.value, root.options.value)
    else root.fragmentChildren.value
  }

  /** Converted markup children as body entries. */
  function AsMarkup(cs: seq<Converted>): (r: seq<Node>)
    ensures |r| == |cs| && forall i :: 0 <= i < |r| ==> r[i] == Markup(cs[i])
  {
    seq(|cs|, i requires 0 <= i < |cs| => Markup(cs[i]))
  }

  /** The markup portion of the body; empty when the root has no fragment. */
  function MarkupPart(root: ForeignRoot, env: Collaborators): seq<Node> {
    if root.fragmentChildren.Some? then AsMarkup(env.convertChildren(MarkupChildren(root))) else []
  }

  /** The attributes of an element's start tag: those of the block the context finds for it, if any. */
  function AttributesFor(element: Range, env: Collaborators): seq<Converted> {
    match env.findBlock(element)
    case None => []
    case Some(block) => env.convertAttributes(block.attrs)
  }

  /** A finished start tag: from the element's start to just past the opening tag. */
  function StartTagFor(element: Range, env: Collaborators): StartTag {
    StartTag(AttributesFor(element, env), false, element.start, Some(env.extractTags(element).startTagEnd))
  }

  /** The script element built for an instance or module script region. */
  function ScriptFor(region: ForeignNode, env: Collaborators): Node {
    var r := RangeOf(region);
    var bounds := env.extractTags(r);
    ScriptElement(Some(Name("script", bounds.openTokenRange)), Some(StartTagFor(r, env)), [], bounds.endTag, r)
  }

  /** Whether a style element gets a text child: an end tag exists and the content between the tags is non-empty. */
  predicate HasStyleGap(startTagEnd: int, endTag: Option<EndTag>) {
    endTag.Some? && startTagEnd < endTag.value.range.start
  }

  /** The children of a style element. */
  function StyleChildren(code: string, startTagEnd: int, endTag: Option<EndTag>): seq<Text> {
    if HasStyleGap(startTagEnd, endTag) then
      [Text(JsSlice(code, startTagEnd, endTag.value.range.start), Range(startTagEnd, endTag.value.range.start))]
    else []
  }

  /** The style element built for the style region. */
  function StyleFor(css: ForeignNode, code: string, env: Collaborators): Node {
    var r := RangeOf(css);
    var bounds := env.extractTags(r);
    StyleElement(Some(Name("style", bounds.openTokenRange)), Some(StartTagFor(r, env)),
                 StyleChildren(code, bounds.startTagEnd, bounds.endTag), bounds.endTag, r)
  }

  /** One element for a present region, nothing for an absent one. */
  function ScriptPart(region: Option<ForeignNode>, env: Collaborators): seq<Node> {
    if region.Some? then [ScriptFor(region.value, env)] else []
  }

  function StylePart(css: Option<ForeignNode>, code: string, env: Collaborators): seq<Node> {
    if css.Some? then [StyleFor(css.value, code, env)] else []
  }

  /** The Program body: markup, then the instance script, then the module script, then the style. */
  function ConvertedBody(root: ForeignRoot, code: string, env: Collaborators): seq<Node> {
    MarkupPart(root, env) + ScriptPart(root.instance, env) + ScriptPart(root.moduleScript, env)
    + StylePart(root.css, code, env)
  }

  /** The token the name builder emits for an element: the tag name as an identifier. */
  function NameToken(region: ForeignNode, env: Collaborators): Token {
    Token(HTMLIdentifier, env.extractTags(RangeOf(region)).openTokenRange)
  }

  /** The tokens emitted for the style element: its name, then its text when there is a gap. */
  function StyleTokens(css: ForeignNode, env: Collaborators): seq<Token> {
    var bounds := env.extractTags(RangeOf(css));
    [NameToken(css, env)]
    + (if HasStyleGap(bounds.startTagEnd, bounds.endTag)
       then [Token(HTMLText, Range(bounds.startTagEnd, bounds.endTag.value.range.start))] else [])
  }

  /** Every token the conversion appends to the context, in order. */
  function EmittedTokens(root: ForeignRoot, env: Collaborators): seq<Token> {
    (if root.instance.Some? then [NameToken(root.instance.value, env)] else [])
    + (if root.moduleScript.Some? then [NameToken(root.moduleScript.value, env)] else [])
    + (if root.css.Some? then StyleTokens(root.css.value, env) else [])
  }

  // ---------------------------------------------------------------------------
  // Building the Program step by step (root.ts:25-208)

  /**
   * extractAttributes: gives the element a placeholder start tag that begins at
   * the element's start, is not self-closing and has no end yet, then fills its
   * attributes from the block the context finds for the element.
   */
  method ExtractAttributes(element: Node, env: Collaborators) returns (e: Node)
    requires !element.Markup?
    ensures !e.Markup? && e.startTag.Some?
    ensures e.startTag.value.start == element.range.start
    ensures e.startTag.value.end.None? && !e.startTag.value.selfClosing
    ensures env.findBlock(element.range).None? ==> e.startTag.value.attributes == []
    ensures env.findBlock(element.range).Some? ==>
      e.startTag.value.attributes == env.convertAttributes(env.findBlock(element.range).value.attrs)
    ensures e.(startTag := element.startTag) == element
  {
    var startTag := StartTag([], false, element.range.start, None);
    e := element.(startTag := Some(startTag));
    var block := env.findBlock(e.range);
    if block.Some? {
      startTag := startTag.(attributes := startTag.attributes + env.convertAttributes(block.value.attrs));
      e := e.(startTag := Some(startTag));
    }
  }

  /** The name-builder callback: emits an identifier token for the tag name and returns the literal name node. */
  method BuildNameNode(ctx: Context, literal: string, openTokenRange: Range) returns (name: Name)
    modifies ctx
    ensures ctx.tokens == old(ctx.tokens) + [Token(HTMLIdentifier, openTokenRange)]
    ensures name.name == literal && name.range == openTokenRange
  {
    ctx.AddToken(HTMLIdentifier, openTokenRange);
    name := Name(literal, openTokenRange);
  }

  /**
   * The effect of the tag extractor on an element: it calls the name builder on
   * the tag-name range, then completes the start tag's end and sets the end tag.
   */
  method ExtractElementTags(element: Node, ctx: Context, env: Collaborators, literal: string) returns (e: Node)
    requires !element.Markup? && element.startTag.Some?
    modifies ctx
    ensures var bounds := env.extractTags(element.range);
      e == element.(name := Some(Name(literal, bounds.openTokenRange)),
                    startTag := Some(element.startTag.value.(end := Some(bounds.startTagEnd))),
                    endTag := bounds.endTag)
    ensures ctx.tokens == old(ctx.tokens) + [Token(HTMLIdentifier, env.extractTags(element.range).openTokenRange)]
  {
    var bounds := env.extractTags(element.range);
    var name := BuildNameNode(ctx, literal, bounds.openTokenRange);
    e := element.(name := Some(name));
    e := e.(startTag := Some(e.startTag.value.(end := Some(bounds.startTagEnd))));
    e := e.(endTag := bounds.endTag);
  }

  /** Builds the element for an instance or module script (root.ts:61-82 and 88-109). */
  method ConvertScriptElement(region: ForeignNode, ctx: Context, env: Collaborators) returns (script: Node)
    modifies ctx
    ensures script == ScriptFor(region, env)
    ensures ctx.tokens == old(ctx.tokens) + [NameToken(region, env)]
  {
    script := ScriptElement(None, None, [], None, RangeOf(region));
    script := ExtractAttributes(script, env);
    script := ExtractElementTags(script, ctx, env, "script");
  }

  /**
   * The style text rule (root.ts:137-151): when there is an end tag and content
   * between the tags, one text node holding exactly that slice of the source,
   * and an HTMLText token over the same range.
   */
  method AddStyleText(style: Node, ctx: Context) returns (e: Node)
    requires style.StyleElement? && style.startTag.Some? && style.startTag.value.end.Some?
    modifies ctx
    ensures var s, t := style.startTag.value.end.value, style.endTag;
      if HasStyleGap(s, t) then
        e == style.(children := [Text(JsSlice(ctx.code, s, t.value.range.start), Range(s, t.value.range.start))])
        && ctx.tokens == old(ctx.tokens) + [Token(HTMLText, Range(s, t.value.range.start))]
      else
        e == style && ctx.tokens == old(ctx.tokens)
  {
    e := style;
    if style.endTag.Some? && style.startTag.value.end.value < style.endTag.value.range.start {
      var contentRange := Range(style.startTag.value.end.value, style.endTag.value.range.start);
      ctx.AddToken(HTMLText, contentRange);
      e := e.(children := [Text(JsSlice(ctx.code, contentRange.start, contentRange.end), contentRange)]);
    }
  }

  /** Builds the style element (root.ts:112-151). */
  method ConvertStyleElement(css: ForeignNode, ctx: Context, env: Collaborators) returns (style: Node)
    modifies ctx
    ensures style == StyleFor(css, ctx.code, env)
    ensures ctx.tokens == old(ctx.tokens) + StyleTokens(css, env)
  {
    style := StyleElement(None, None, [], None, RangeOf(css));
    style := ExtractAttributes(style, env);
    style := ExtractElementTags(style, ctx, env, "style");
    style := AddStyleText(style, ctx);
  }

  /**
   * The markup portion (root.ts:40-58): the fragment's children, with the options
   * node spliced into a copy when there is one, handed to the child converter.
   */
  method ConvertMarkup(fragmentChildren: seq<ForeignNode>, options: Option<ForeignNode>, env: Collaborators)
    returns (markup: seq<Node>)
    ensures markup == MarkupPart(ForeignRoot(Some(fragmentChildren), options, None, None, None), env)
  {
    var children := fragmentChildren;
    if options.Some? {
      children := SpliceOptions(children, options.value);
    }
    markup := AsMarkup(env.convertChildren(children));
  }

  /**
   * convertSvelteRoot: a Program spanning the whole source whose body is the
   * converted markup (options spliced in), then the instance script, the module
   * script and the style element, each present only when its region is.
   */
  method ConvertSvelteRoot(root: ForeignRoot, ctx: Context, env: Collaborators) returns (p: SvelteProgram)
    modifies ctx
    ensures p.range == Range(0, |ctx.code|)
    ensures p.body == ConvertedBody(root, ctx.code, env)
    ensures ctx.tokens == old(ctx.tokens) + EmittedTokens(root, env)
  {
    p := SvelteProgram([], Range(0, |ctx.code|));
    if root.fragmentChildren.Some? {
      var markup := ConvertMarkup(root.fragmentChildren.value, root.options, env);
      p := p.(body := p.body + markup);
    }
    assert p.body == MarkupPart(root, env);
    assert ctx.tokens == old(ctx.tokens);
    if root.instance.Some? {
      var script := ConvertScriptElement(root.instance.value, ctx, env);
      p := p.(body := p.body + [script]);
    }
    assert p.body == MarkupPart(root, env) + ScriptPart(root.instance, env);
    assert ctx.tokens == old(ctx.tokens) + (if root.instance.Some? then [NameToken(root.instance.value, env)] else []);
    if root.moduleScript.Some? {
      var script := ConvertScriptElement(root.moduleScript.value, ctx, env);
      p := p.(body := p.body + [script]);
    }
    assert p.body == MarkupPart(root, env) + ScriptPart(root.instance, env) + ScriptPart(root.moduleScript, env);
    assert ctx.tokens == old(ctx.tokens) + (if root.instance.Some? then [NameToken(root.instance.value, env)] else [])
      + (if root.moduleScript.Some? then [NameToken(root.moduleScript.value, env)] else []);
    if root.css.Some? {
      var style := ConvertStyleElement(root.css.value, ctx, env);
      p := p.(body := p.body + [style]);
    }
  }

  // ---------------------------------------------------------------------------
  // Properties of the converted body

  /** The script elements of a body, in order. */
  function Scripts(body: seq<Node>): seq<Node> {
    if body == [] then []
    else (if body[0].ScriptElement? then [body[0]] else []) + Scripts(body[1..])
  }

  lemma {:induction false} ScriptsAppend(a: seq<Node>, b: seq<Node>)
    ensures Scripts(a + b) == Scripts(a) + Scripts(b)
  {
    if a != [] {
      assert (a + b)[0] == a[0] && (a + b)[1..] == a[1..] + b;
      ScriptsAppend(a[1..], b);
    } else {
      assert a + b == b;
    }
  }

  lemma {:induction false} NoScriptsInMarkup(cs: seq<Converted>)
    ensures Scripts(AsMarkup(cs)) == []
  {
    if cs != [] {
      assert AsMarkup(cs)[1..] == AsMarkup(cs[1..]);
      NoScriptsInMarkup(cs[1..]);
    }
  }

  /**
   * The script elements of the body are exactly the instance script followed by
   * the module script, each present iff its region is: at most one of each, and
   * the instance one first.
   */
  lemma ScriptsInOrder(root: ForeignRoot, code: string, env: Collaborators)
    ensures Scripts(ConvertedBody(root, code, env)) == ScriptPart(root.instance, env) + ScriptPart(root.moduleScript, env)
    ensures |Scripts(ConvertedBody(root, code, env))| <= 2
  {
    var m, i, s := MarkupPart(root, env), ScriptPart(root.instance, env), ScriptPart(root.moduleScript, env);
    var st := StylePart(root.css, code, env);
    if root.fragmentChildren.Some? {
      NoScriptsInMarkup(env.convertChildren(MarkupChildren(root)));
    }
    ScriptsAppend(m + i + s, st);
    ScriptsAppend(m + i, s);
    ScriptsAppend(m, i);
    assert Scripts(st) == [] by {
      if st != [] { assert st[1..] == []; }
    }
  }

  /** The body holds a style element iff the root has a style region, and then it is the last entry. */
  lemma StylePresentIff(root: ForeignRoot, code: string, env: Collaborators)
    ensures var body := ConvertedBody(root, code, env);
      (exists i :: 0 <= i < |body| && body[i].StyleElement?) <==> root.css.Some?
    ensures var body := ConvertedBody(root, code, env);
      forall i :: 0 <= i < |body| && body[i].StyleElement? ==> i == |body| - 1
  {
    var body := ConvertedBody(root, code, env);
    var m, i, s := MarkupPart(root, env), ScriptPart(root.instance, env), ScriptPart(root.moduleScript, env);
    var st := StylePart(root.css, code, env);
    assert body == (m + i + s) + st;
    forall j | 0 <= j < |m + i + s|
      ensures !(m + i + s)[j].StyleElement?
    {
      if j >= |m| + |i| {
        assert (m + i + s)[j] == s[j - |m| - |i|];
      } else if j >= |m| {
        assert (m + i + s)[j] == i[j - |m|];
      } else {
        assert (m + i + s)[j] == m[j];
      }
    }
    if root.css.Some? {
      assert body[|body| - 1].StyleElement?;
    }
  }

  /** An entry of a body that is a script or style element, i.e. one the root converter built itself. */
  predicate IsBuiltElement(body: seq<Node>, i: int) {
    0 <= i < |body| && !body[i].Markup?
  }

  /** Every built entry of the body comes from one of the three optional regions. */
  lemma BuiltEntriesAreRegions(root: ForeignRoot, code: string, env: Collaborators, i: int)
    requires IsBuiltElement(ConvertedBody(root, code, env), i)
    ensures var e := ConvertedBody(root, code, env)[i];
      (root.instance.Some? && e == ScriptFor(root.instance.value, env))
      || (root.moduleScript.Some? && e == ScriptFor(root.moduleScript.value, env))
      || (root.css.Some? && e == StyleFor(root.css.value, code, env))
  {
    var m, a, b := MarkupPart(root, env), ScriptPart(root.instance, env), ScriptPart(root.moduleScript, env);
    var st := StylePart(root.css, code, env);
    var body := ConvertedBody(root, code, env);
    assert body == m + a + b + st;
    forall j | 0 <= j < |m|
      ensures body[j].Markup?
    {
      assert body[j] == m[j];
    }
    if i < |m| + |a| {
      assert body[i] == a[i - |m|];
    } else if i < |m| + |a| + |b| {
      assert body[i] == b[i - |m| - |a|];
    } else {
      assert body[i] == st[i - |m| - |a| - |b|];
    }
  }

  /**
   * Every script element in the body: its name is the literal "script" over the
   * tag-name range, its body is still empty, and its start tag begins at the
   * element's start, is not self-closing and carries the block's attributes.
   */
  lemma ScriptElementShape(root: ForeignRoot, code: string, env: Collaborators, i: int)
    requires IsBuiltElement(ConvertedBody(root, code, env), i)
    requires ConvertedBody(root, code, env)[i].ScriptElement?
    ensures var e := ConvertedBody(root, code, env)[i];
      && e.name == Some(Name("script", env.extractTags(e.range).openTokenRange))
      && e.body == []
      && e.startTag.Some? && e.startTag.value.start == e.range.start && !e.startTag.value.selfClosing
      && e.startTag.value.attributes == AttributesFor(e.range, env)
      && e.endTag == env.extractTags(e.range).endTag
  {
    BuiltEntriesAreRegions(root, code, env, i);
  }

  /**
   * Every style element in the body: its name is the literal "style"; it has
   * one text child iff it has an end tag that starts after the start tag ends,
   * and that child covers exactly the gap and holds exactly that slice of the
   * source.
   */
  lemma StyleTextRule(root: ForeignRoot, code: string, env: Collaborators, i: int)
    requires IsBuiltElement(ConvertedBody(root, code, env), i)
    requires ConvertedBody(root, code, env)[i].StyleElement?
    ensures var e := ConvertedBody(root, code, env)[i];
      && e.name == Some(Name("style", env.extractTags(e.range).openTokenRange))
      && e.startTag.Some? && e.startTag.value.end.Some?
      && |e.children| <= 1
      && (|e.children| == 1 <==> e.endTag.Some? && e.startTag.value.end.value < e.endTag.value.range.start)
      && (|e.children| == 1 ==>
            var s, t := e.startTag.value.end.value, e.endTag.value.range.start;
            e.children[0].range == Range(s, t)
            && (0 <= s && t <= |code| ==> e.children[0].value == code[s..t]))
  {
    BuiltEntriesAreRegions(root, code, env, i);
    var e := ConvertedBody(root, code, env)[i];
    if |e.children| == 1 {
      var s, t := e.startTag.value.end.value, e.endTag.value.range.start;
      if 0 <= s && t <= |code| {
        JsSliceInBounds(code, s, t);
      }
    }
  }

  /**
   * Every name the converter synthesizes has an HTMLIdentifier token over its
   * range, and every style text child an HTMLText token over its range.
   */
  lemma TokensCoverSynthesizedNodes(root: ForeignRoot, code: string, env: Collaborators, i: int)
    requires IsBuiltElement(ConvertedBody(root, code, env), i)
    ensures var e := ConvertedBody(root, code, env)[i];
      && e.name.Some? && Token(HTMLIdentifier, e.name.value.range) in EmittedTokens(root, env)
      && (e.StyleElement? && |e.children| == 1 ==> Token(HTMLText, e.children[0].range) in EmittedTokens(root, env))
  {
    BuiltEntriesAreRegions(root, code, env, i);
    var toks := EmittedTokens(root, env);
    var a := if root.instance.Some? then [NameToken(root.instance.value, env)] else [];
    var b := if root.moduleScript.Some? then [NameToken(root.moduleScript.value, env)] else [];
    var c := if root.css.Some? then StyleTokens(root.css.value, env) else [];
    assert toks == a + b + c;
    var e := ConvertedBody(root, code, env)[i];
    if root.instance.Some? && e == ScriptFor(root.instance.value, env) {
      assert toks[0] == NameToken(root.instance.value, env);
    } else if root.moduleScript.Some? && e == ScriptFor(root.moduleScript.value, env) {
      assert toks[|a|] == NameToken(root.moduleScript.value, env);
    } else {
      assert toks[|a| + |b|] == NameToken(root.css.value, env);
      if |e.children| == 1 {
        assert toks[|a| + |b| + 1] == Token(HTMLText, e.children[0].range);
      }
    }
  }

  /**
   * For every node type this model declares child-bearing fields for, the
   * visitor-key entry lists exactly those fields, in the same order.
   */
  lemma DeclaredFieldsMatchRegistry(t: NodeType)
    requires DeclaredChildFields(t).Some?
    ensures DeclaredChildFields(t) == Some(SvelteKeys()[t])
  {
    match t {
      case Program =>
      case SvelteScriptElement =>
      case SvelteStyleElement =>
      case SvelteStartTag =>
      case SvelteEndTag =>
      case SvelteName =>
      case SvelteText =>
      case _ =>
    }
  }

  lemma BuiltTypesAreDeclared(n: Node, t: NodeType)
    requires t in BuiltTypes(n)
    ensures DeclaredChildFields(t).Some?
  {
  }

  /**
   * Every node type the root converter builds itself (the Program, script and
   * style elements, their names, start and end tags, and style text) has a
   * visitor-key entry, and that entry lists exactly the child-bearing fields the
   * model declares for the type, in order.
   */
  lemma BuiltTypesAreRegistered(root: ForeignRoot, code: string, env: Collaborators)
    ensures DeclaredChildFields(Program) == Some(SvelteKeys()[Program])
    ensures var body := ConvertedBody(root, code, env);
      forall i, t :: 0 <= i < |body| && t in BuiltTypes(body[i]) ==> DeclaredChildFields(t) == Some(SvelteKeys()[t])
  {
    DeclaredFieldsMatchRegistry(Program);
    var body := ConvertedBody(root, code, env);
    forall i, t | 0 <= i < |body| && t in BuiltTypes(body[i])
      ensures DeclaredChildFields(t) == Some(SvelteKeys()[t])
    {
      BuiltTypesAreDeclared(body[i], t);
      DeclaredFieldsMatchRegistry(t);
    }
  }
}
