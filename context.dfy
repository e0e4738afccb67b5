/**
 * The part of the conversion context the root converter uses: the source text
 * and the token stream it appends to (src/context is not part of this model;
 * only these two members are).
 */
module ConvertContext {
  import opened Ast

  class Context {
    /** The whole source text. */
    const code: string
    /** The token stream, shared with the Program being built. */
    var tokens: seq<Token>

    constructor (code: string, tokens: seq<Token>)
      ensures this.code == code && this.tokens == tokens
    {
      this.code := code;
      this.tokens := tokens;
    }

    /** `ctx.addToken(kind, range)`: appends one token. */
    method AddToken(kind: TokenKind, range: Range)
      modifies this
      ensures tokens == old(tokens) + [Token(kind, range)]
    {
      tokens := tokens + [Token(kind, range)];
    }
  }
}
