/**
  marked's block level: the lexer, which emits a flat list of tokens with start and
  end marks, and the parser, which renders that list with a stack. Regular
  expressions and inline rendering are functions that may be anything.
*/
module Markdown {
  import opened ActionGraph

  datatype Token =
    | Space
    | Hr
    | Heading(depth: nat, text: string)
    | Code(text: string, lang: string)
    | Table(content: string)
    | Html(pre: bool, text: string)
    | Paragraph(text: string)
    | Text(text: string)
    | BlockquoteStart
    | BlockquoteEnd
    | ListStart(ordered: bool)
    | ListItemStart
    | LooseItemStart
    | ListItemEnd
    | ListEnd

  predicate IsLeaf(t: Token) {
    t.Space? || t.Hr? || t.Heading? || t.Code? || t.Table? || t.Html? || t.Paragraph? || t.Text?
  }

  /** What the tokens stand for: a block, or an item of a list. */
  datatype Block =
    | Leaf(token: Token)
    | Quote(body: seq<Block>)
    | List(ordered: bool, items: seq<Block>)
    | Item(loose: bool, content: seq<Block>)

  predicate Proper(b: Block) {
    match b
    case Leaf(t) => IsLeaf(t)
    case Quote(body) => forall c | c in body :: Proper(c) && !c.Item?
    case List(_, items) => forall c | c in items :: Proper(c) && c.Item?
    case Item(_, content) => forall c | c in content :: Proper(c) && !c.Item?
  }

  /** Blocks that may stand side by side in a text. */
  predicate Body(blocks: seq<Block>) {
    forall c | c in blocks :: Proper(c) && !c.Item?
  }

  // ------------------------------------------------------------------------
  // Tokens of blocks
  // ------------------------------------------------------------------------

  function Opening(b: Block): Token {
    match b
    case Leaf(t) => t
    case Quote(_) => BlockquoteStart
    case List(ordered, _) => ListStart(ordered)
    case Item(loose, _) => if loose then LooseItemStart else ListItemStart
  }

  function Closing(b: Block): seq<Token> {
    match b
    case Leaf(_) => []
    case Quote(_) => [BlockquoteEnd]
    case List(_, _) => [ListEnd]
    case Item(_, _) => [ListItemEnd]
  }

  function Inside(b: Block): seq<Block> {
    match b
    case Leaf(_) => []
    case Quote(body) => body
    case List(_, items) => items
    case Item(_, content) => content
  }

  function Flatten(b: Block): seq<Token>
    decreases b, 0, 0
  {
    match b
    case Leaf(t) => [t]
    case Quote(body) => [BlockquoteStart] + FlattenAll(body) + [BlockquoteEnd]
    case List(ordered, items) => [ListStart(ordered)] + FlattenAll(items) + [ListEnd]
    case Item(loose, content) => [Opening(b)] + FlattenAll(content) + [ListItemEnd]
  }

  function FlattenAll(blocks: seq<Block>): seq<Token>
    decreases blocks, 1, |blocks|
  {
    if blocks == [] then [] else Flatten(blocks[0]) + FlattenAll(blocks[1..])
  }

  lemma {:induction false} FlattenShape(b: Block)
    ensures Flatten(b) == [Opening(b)] + FlattenAll(Inside(b)) + Closing(b)
  {
  }

  lemma {:induction false} FlattenJoin(a: seq<Block>, b: seq<Block>)
    ensures FlattenAll(a + b) == FlattenAll(a) + FlattenAll(b)
    decreases |a|
  {
    if a == [] {
      assert a + b == b;
    } else {
      assert (a + b)[1..] == a[1..] + b;
      FlattenJoin(a[1..], b);
    }
  }

  lemma {:induction false} FlattenOne(b: Block)
    ensures FlattenAll([b]) == Flatten(b)
  {
    assert [b][1..] == [];
  }

  // ------------------------------------------------------------------------
  // Rendering blocks directly
  // ------------------------------------------------------------------------

  /** The renderer and the inline lexer. */
  datatype Renderer = Renderer(
    inline: string -> string,
    leaf: Token -> string,
    paragraph: string -> string,
    blockquote: string -> string,
    list: (string, bool) -> string,
    item: string -> string)

  /** How many texts stand side by side at the start. */
  function Run(blocks: seq<Block>): (n: nat)
    ensures n <= |blocks|
  {
    if blocks != [] && blocks[0].Leaf? && blocks[0].token.Text? then 1 + Run(blocks[1..]) else 0
  }

  /** The texts of a run, each on its own line. */
  function Joined(blocks: seq<Block>): string {
    if blocks == [] || !blocks[0].Leaf? || !blocks[0].token.Text? then ""
    else if Run(blocks) == 1 then blocks[0].token.text
    else blocks[0].token.text + "\n" + Joined(blocks[1..])
  }

  /** A maximal run of texts makes a paragraph, except in a list item that is not loose. */
  function RenderText(r: Renderer, texts: string, tight: bool): string {
    if tight then r.inline(texts) else r.paragraph(r.inline(texts))
  }

  function Render(r: Renderer, b: Block): string
    decreases b, 0, 0
  {
    match b
    case Leaf(t) =>
      (match t
       case Space => ""
       case Text(text) => RenderText(r, text, false)
       case Paragraph(text) => r.paragraph(r.inline(text))
       case _ => r.leaf(t))
    case Quote(body) => r.blockquote(RenderAll(r, body, false))
    case List(ordered, items) => r.list(RenderAll(r, items, false), ordered)
    case Item(loose, content) => r.item(RenderAll(r, content, !loose))
  }

  function RenderAll(r: Renderer, blocks: seq<Block>, tight: bool): string
    decreases blocks, 1, |blocks|
  {
    if blocks == [] then ""
    else if Run(blocks) > 0 then
      RenderText(r, Joined(blocks), tight) + RenderAll(r, blocks[Run(blocks)..], tight)
    else
      Render(r, blocks[0]) + RenderAll(r, blocks[1..], tight)
  }

  // ------------------------------------------------------------------------
  // The parser
  // ------------------------------------------------------------------------

  class Parser {
    /** The tokens to come, the next one last. */
    var tokens: seq<Token>
    var token: Option<Token>
    const renderer: Renderer

    constructor (renderer: Renderer)
      ensures tokens == [] && token == None && this.renderer == renderer
    {
      this.renderer := renderer;
      tokens, token := [], None;
    }

    /** The tokens to come, in reading order. */
    ghost function Ahead(): seq<Token>
      reads this
    {
      Reverse(tokens)
    }

    /** `next` */
    method Next()
      modifies this`tokens, this`token
      ensures old(Ahead()) == [] ==> Ahead() == [] && token == None
      ensures old(Ahead()) != [] ==> token == Some(old(Ahead())[0]) && Ahead() == old(Ahead())[1..]
    {
      if tokens == [] {
        token := None;
      } else {
        ReverseLast(tokens);
        token := Some(tokens[|tokens| - 1]);
        tokens := tokens[..|tokens| - 1];
      }
    }

    /** `peek().type === 'text'` */
    predicate PeeksText()
      reads this
      ensures PeeksText() <==> Ahead() != [] && Ahead()[0].Text?
    {
      tokens != [] && tokens[|tokens| - 1].Text?
    }

    /** `parseText`: all the texts that stand side by side. */
    method ParseText(ghost blocks: seq<Block>, ghost after: seq<Token>) returns (out: string)
      requires AllProper(blocks) && Run(blocks) > 0 && token == Some(Opening(blocks[0]))
      requires Ahead() == Flatten(blocks[0])[1..] + (FlattenAll(blocks[1..]) + after) && !StartsWithText(after)
      modifies this`tokens, this`token
      ensures out == renderer.inline(Joined(blocks))
      ensures Ahead() == FlattenAll(blocks[Run(blocks)..]) + after
    {
      hide *;
      JoinedStarts(blocks, after);
      var body := token.value.text;
      ghost var k := 1;
      while PeeksText()
        invariant 1 <= k <= Run(blocks)
        invariant Ahead() == FlattenAll(blocks[k..]) + after
        invariant body + JoinedRest(blocks, k) == Joined(blocks)
        decreases Run(blocks) - k
      {
        TextMeans(Ahead());
        NextText(blocks, k, after);
        Next();
        assert body + ("\n" + token.value.text + JoinedRest(blocks, k + 1)) == body + "\n" + token.value.text + JoinedRest(blocks, k + 1);
        body := body + "\n" + token.value.text;
        k := k + 1;
      }
      TextMeans(Ahead());
      RunEnds(blocks, k, after);
      assert body + "" == body;
      out := renderer.inline(body);
    }

    /** `tok`: the block, or the run of texts, that the current token starts. */
    method Tok(ghost blocks: seq<Block>, ghost after: seq<Token>) returns (out: string)
      requires blocks != [] && AllProper(blocks) && token == Some(Opening(blocks[0]))
      requires Ahead() == Flatten(blocks[0])[1..] + (FlattenAll(blocks[1..]) + after) && !StartsWithText(after)
      modifies this`tokens, this`token
      ensures out == RenderFirst(renderer, blocks, false)
      ensures Ahead() == FlattenAll(blocks[Step(blocks)..]) + after
      decreases |FlattenAll(blocks)|, 0
    {
      hide *;
      ghost var b := blocks[0];
      ghost var rest := FlattenAll(blocks[1..]) + after;
      TokCases(renderer, blocks, after);
      TokInside(blocks, after);
      match token.value {
        case Space => out := "";
        case Text(_) =>
          out := ParseText(blocks, after);
          out := renderer.paragraph(out);
        case Paragraph(text) => out := renderer.paragraph(renderer.inline(text));
        case BlockquoteStart =>
          out := ParseBody(BlockquoteEnd, false, Inside(b), rest);
          out := renderer.blockquote(out);
        case ListStart(ordered) =>
          out := ParseBody(ListEnd, false, Inside(b), rest);
          out := renderer.list(out, ordered);
        case ListItemStart =>
          out := ParseBody(ListItemEnd, true, Inside(b), rest);
          out := renderer.item(out);
        case LooseItemStart =>
          out := ParseBody(ListItemEnd, false, Inside(b), rest);
          out := renderer.item(out);
        case _ => out := renderer.leaf(token.value);
      }
    }

    /** The body of the loops below: only a list item that is not loose takes its texts as they are. */
    method Piece(tight: bool, ghost blocks: seq<Block>, ghost after: seq<Token>) returns (out: string)
      requires blocks != [] && AllProper(blocks) && token == Some(Opening(blocks[0]))
      requires Ahead() == Flatten(blocks[0])[1..] + (FlattenAll(blocks[1..]) + after) && !StartsWithText(after)
      modifies this`tokens, this`token
      ensures out == RenderFirst(renderer, blocks, tight)
      ensures Ahead() == FlattenAll(blocks[Step(blocks)..]) + after
      decreases |FlattenAll(blocks)|, 1
    {
      hide *;
      TokCases(renderer, blocks, after);
      FirstTight(renderer, blocks, tight);
      if tight && token.value.Text? {
        out := ParseText(blocks, after);
      } else {
        out := Tok(blocks, after);
      }
    }

    /** The loop over what stands between a start and its end. */
    method ParseBody(end: Token, tight: bool, ghost body: seq<Block>, ghost after: seq<Token>) returns (out: string)
      requires AllProper(body) && IsEnd(end)
      requires Ahead() == FlattenAll(body) + ([end] + after)
      modifies this`tokens, this`token
      ensures out == RenderAll(renderer, body, tight) && Ahead() == after
      decreases |FlattenAll(body)|, 2
    {
      hide *;
      out := "";
      ghost var k := 0;
      assert body[0..] == body;
      BodyNext(body, end, after);
      Next();
      while token != Some(end)
        invariant 0 <= k <= |body| && AllProper(body[k..]) && token.Some?
        invariant out + RenderAll(renderer, body[k..], tight) == RenderAll(renderer, body, tight)
        invariant [token.value] + Ahead() == FlattenAll(body[k..]) + ([end] + after)
        decreases |body| - k
      {
        ghost var blocks := body[k..];
        BodyNext(blocks, end, after);
        BodyStep(renderer, body, k, tight);
        EndIsNoText(end, after);
        var piece := Piece(tight, blocks, [end] + after);
        assert out + (piece + RenderAll(renderer, body[k + Step(blocks)..], tight)) ==
          out + piece + RenderAll(renderer, body[k + Step(blocks)..], tight);
        out := out + piece;
        k := k + Step(blocks);
        BodyNext(body[k..], end, after);
        Next();
      }
      BodyNext(body[k..], end, after);
      RenderNothing(renderer, tight);
      assert out + "" == out;
    }

    /** `parse`: the text of the blocks whose tokens these are. */
    method Parse(source: seq<Token>, ghost blocks: seq<Block>) returns (out: string)
      requires AllProper(blocks) && source == FlattenAll(blocks)
      modifies this`tokens, this`token
      ensures out == RenderAll(renderer, blocks, false) && Ahead() == []
    {
      hide *;
      tokens := Reverse(source);
      AheadOf(this, source);
      out := "";
      ghost var k := 0;
      assert blocks[0..] == blocks;
      Next();
      while token.Some?
        invariant 0 <= k <= |blocks| && AllProper(blocks[k..])
        invariant out + RenderAll(renderer, blocks[k..], false) == RenderAll(renderer, blocks, false)
        invariant (if token.Some? then [token.value] else []) + Ahead() == FlattenAll(blocks[k..])
        invariant token.None? ==> Ahead() == []
        decreases |blocks| - k
      {
        ghost var here := blocks[k..];
        TopNext(here);
        BodyStep(renderer, blocks, k, false);
        TextMeans([]);
        var piece := Tok(here, []);
        assert out + (piece + RenderAll(renderer, blocks[k + Step(here)..], false)) ==
          out + piece + RenderAll(renderer, blocks[k + Step(here)..], false);
        out := out + piece;
        k := k + Step(here);
        assert FlattenAll(blocks[k..]) + [] == FlattenAll(blocks[k..]);
        Next();
      }
      NoTokens(blocks[k..]);
      RenderNothing(renderer, false);
      assert out + "" == out;
    }
  }

  lemma {:induction false} AheadOf(p: Parser, source: seq<Token>)
    requires p.tokens == Reverse(source)
    ensures p.Ahead() == source
  {
    ReverseTwice(source);
  }

  lemma {:induction false} EndIsNoText(end: Token, after: seq<Token>)
    requires IsEnd(end)
    ensures !StartsWithText([end] + after)
  {
  }

  lemma {:induction false} RenderNothing(r: Renderer, tight: bool)
    ensures RenderAll(r, [], tight) == ""
  {
  }

  lemma {:induction false} FirstTight(r: Renderer, blocks: seq<Block>, tight: bool)
    requires blocks != [] && AllProper(blocks)
    ensures RenderFirst(r, blocks, tight) ==
      if tight && Opening(blocks[0]).Text? then r.inline(Joined(blocks)) else RenderFirst(r, blocks, false)
  {
    assert Proper(blocks[0]);
  }

  /** One step of the rendering, with what is left. */
  lemma {:induction false} BodyStep(r: Renderer, body: seq<Block>, k: nat, tight: bool)
    requires k < |body| && AllProper(body[k..])
    ensures var blocks := body[k..];
            && 0 < Step(blocks) <= |blocks| && blocks[Step(blocks)..] == body[k + Step(blocks)..]
            && AllProper(body[k + Step(blocks)..]) && |FlattenAll(blocks)| <= |FlattenAll(body)|
            && RenderAll(r, blocks, tight) == RenderFirst(r, blocks, tight) + RenderAll(r, body[k + Step(blocks)..], tight)
  {
    var blocks := body[k..];
    RenderStep(r, blocks, tight);
    FlattenSuffix(body, k);
    assert Proper(blocks[0]);
    forall c | c in body[k + Step(blocks)..] ensures Proper(c) {
      assert c in blocks;
    }
  }

  lemma {:induction false} TopNext(blocks: seq<Block>)
    requires AllProper(blocks) && FlattenAll(blocks) != []
    ensures blocks != [] && FlattenAll(blocks)[0] == Opening(blocks[0])
    ensures FlattenAll(blocks)[1..] == Flatten(blocks[0])[1..] + (FlattenAll(blocks[1..]) + [])
  {
    FirstToken(blocks, []);
    assert FlattenAll(blocks) + [] == FlattenAll(blocks);
  }

  lemma {:induction false} NoTokens(blocks: seq<Block>)
    requires FlattenAll(blocks) == []
    ensures blocks == []
  {
  }

  lemma {:induction false} FlattenSuffix(blocks: seq<Block>, k: nat)
    requires k <= |blocks|
    ensures |FlattenAll(blocks[k..])| <= |FlattenAll(blocks)|
  {
    assert blocks == blocks[..k] + blocks[k..];
    FlattenJoin(blocks[..k], blocks[k..]);
  }

  /** The tokens of the first block, and then those of the others. */
  lemma {:induction false} FirstToken(blocks: seq<Block>, after: seq<Token>)
    requires blocks != []
    ensures FlattenAll(blocks) + after == [Opening(blocks[0])] + (Flatten(blocks[0])[1..] + (FlattenAll(blocks[1..]) + after))
  {
    FlattenShape(blocks[0]);
  }

  /** The next token is the end, or starts a block. */
  lemma {:induction false} BodyNext(blocks: seq<Block>, end: Token, after: seq<Token>)
    requires AllProper(blocks) && IsEnd(end)
    ensures var all := FlattenAll(blocks) + ([end] + after);
            && all != []
            && (all[0] == end <==> blocks == [])
            && (blocks == [] ==> all[1..] == after)
            && (blocks != [] ==>
                  && all[0] == Opening(blocks[0])
                  && all[1..] == Flatten(blocks[0])[1..] + (FlattenAll(blocks[1..]) + ([end] + after)))
  {
    if blocks != [] {
      assert Proper(blocks[0]);
      FirstToken(blocks, [end] + after);
    }
  }

  /** What the parser does with each kind of token, said of the block that it starts. */
  lemma {:induction false} TokCases(r: Renderer, blocks: seq<Block>, after: seq<Token>)
    requires blocks != [] && AllProper(blocks)
    ensures var b, out := blocks[0], RenderFirst(r, blocks, false);
            match Opening(b) {
              case Space => b.Leaf? && out == ""
              case Text(_) => b.Leaf? && out == r.paragraph(r.inline(Joined(blocks)))
              case Paragraph(text) => b.Leaf? && out == r.paragraph(r.inline(text))
              case BlockquoteStart => !b.Leaf? && Closing(b) == [BlockquoteEnd] && out == r.blockquote(RenderAll(r, Inside(b), false))
              case ListStart(ordered) => !b.Leaf? && Closing(b) == [ListEnd] && out == r.list(RenderAll(r, Inside(b), false), ordered)
              case ListItemStart => !b.Leaf? && Closing(b) == [ListItemEnd] && out == r.item(RenderAll(r, Inside(b), true))
              case LooseItemStart => !b.Leaf? && Closing(b) == [ListItemEnd] && out == r.item(RenderAll(r, Inside(b), false))
              case t => b.Leaf? && out == r.leaf(t)
            }
    ensures Step(blocks) == if Opening(blocks[0]).Text? then Run(blocks) else 1
    ensures Opening(blocks[0]).Text? ==> Run(blocks) > 0
  {
    assert Proper(blocks[0]);
  }

  /** Where the tokens of a block that is not a leaf go on. */
  lemma {:induction false} TokInside(blocks: seq<Block>, after: seq<Token>)
    requires blocks != [] && AllProper(blocks)
    ensures var b, rest := blocks[0], FlattenAll(blocks[1..]) + after;
            if b.Leaf? then Flatten(b)[1..] + rest == rest
            else
              && |Closing(b)| == 1 && IsEnd(Closing(b)[0]) && AllProper(Inside(b))
              && |FlattenAll(Inside(b))| < |FlattenAll(blocks)|
              && Flatten(b)[1..] + rest == FlattenAll(Inside(b)) + ([Closing(b)[0]] + rest)
  {
    assert Proper(blocks[0]);
    FlattenShape(blocks[0]);
    var b, rest := blocks[0], FlattenAll(blocks[1..]) + after;
    if !b.Leaf? {
      assert Flatten(b)[1..] == FlattenAll(Inside(b)) + Closing(b);
      assert FlattenAll(Inside(b)) + Closing(b) + rest == FlattenAll(Inside(b)) + ([Closing(b)[0]] + rest);
    }
  }

  predicate AllProper(blocks: seq<Block>) {
    forall c | c in blocks :: Proper(c)
  }

  predicate IsEnd(t: Token) {
    t in {BlockquoteEnd, ListEnd, ListItemEnd}
  }

  predicate StartsWithText(tokens: seq<Token>) {
    tokens != [] && tokens[0].Text?
  }

  /** What is left of the run after `k` texts of it. */
  function JoinedRest(blocks: seq<Block>, k: nat): string
    requires k <= |blocks|
  {
    if k < Run(blocks) then "\n" + Joined(blocks[k..]) else ""
  }

  lemma {:induction false} RunFrom(blocks: seq<Block>, k: nat)
    requires k <= Run(blocks)
    ensures Run(blocks[k..]) == Run(blocks) - k
    decreases k
  {
    if k > 0 {
      RunFrom(blocks[1..], k - 1);
      assert blocks[1..][k - 1..] == blocks[k..];
    }
  }

  lemma {:induction false} TextMeans(tokens: seq<Token>)
    ensures StartsWithText(tokens) <==> tokens != [] && tokens[0].Text?
  {
  }

  lemma {:induction false} JoinedStarts(blocks: seq<Block>, after: seq<Token>)
    requires Run(blocks) > 0
    ensures Opening(blocks[0]).Text? && Opening(blocks[0]).text + JoinedRest(blocks, 1) == Joined(blocks)
    ensures Flatten(blocks[0])[1..] + (FlattenAll(blocks[1..]) + after) == FlattenAll(blocks[1..]) + after
  {
    RunFrom(blocks, 1);
    assert Flatten(blocks[0])[1..] == [];
  }

  lemma {:induction false} NextText(blocks: seq<Block>, k: nat, after: seq<Token>)
    requires 1 <= k <= Run(blocks) && !StartsWithText(after) && StartsWithText(FlattenAll(blocks[k..]) + after)
    ensures k < Run(blocks) && Opening(blocks[k]).Text?
    ensures FlattenAll(blocks[k..]) + after == [Opening(blocks[k])] + (FlattenAll(blocks[k + 1..]) + after)
    ensures JoinedRest(blocks, k) == "\n" + Opening(blocks[k]).text + JoinedRest(blocks, k + 1)
  {
    var rest := blocks[k..];
    RunFrom(blocks, k);
    assert rest == [] ==> FlattenAll(rest) + after == after;
    if rest != [] {
      FirstToken(rest, after);
      JoinedStarts(rest, after);
      assert rest[1..] == blocks[k + 1..];
      assert "\n" + (Opening(rest[0]).text + JoinedRest(rest, 1)) == "\n" + Opening(rest[0]).text + JoinedRest(rest, 1);
    }
  }

  lemma {:induction false} RunEnds(blocks: seq<Block>, k: nat, after: seq<Token>)
    requires 1 <= k <= Run(blocks) && !StartsWithText(FlattenAll(blocks[k..]) + after)
    ensures k == Run(blocks) && JoinedRest(blocks, k) == ""
  {
    RunFrom(blocks, k);
  }

  /** How many blocks the parser renders at once. */
  function Step(blocks: seq<Block>): (n: nat)
    requires blocks != []
    ensures 0 < n <= |blocks|
  {
    if Run(blocks) > 0 then Run(blocks) else 1
  }

  /** What it renders of them. */
  function RenderFirst(r: Renderer, blocks: seq<Block>, tight: bool): string
    requires blocks != []
  {
    if Run(blocks) > 0 then RenderText(r, Joined(blocks), tight) else Render(r, blocks[0])
  }

  lemma {:induction false} RenderStep(r: Renderer, blocks: seq<Block>, tight: bool)
    requires blocks != []
    ensures RenderAll(r, blocks, tight) == RenderFirst(r, blocks, tight) + RenderAll(r, blocks[Step(blocks)..], tight)
  {
  }

  function Reverse<T>(s: seq<T>): (r: seq<T>)
    ensures |r| == |s| && forall i :: 0 <= i < |s| ==> r[i] == s[|s| - 1 - i]
  {
    if s == [] then [] else Reverse(s[1..]) + [s[0]]
  }

  lemma {:induction false} ReverseLast<T>(s: seq<T>)
    requires s != []
    ensures Reverse(s) == [s[|s| - 1]] + Reverse(s[..|s| - 1])
  {
  }

  lemma {:induction false} ReverseTwice<T>(s: seq<T>)
    ensures Reverse(Reverse(s)) == s
  {
  }

  // ------------------------------------------------------------------------
  // Tokens determine the blocks
  // ------------------------------------------------------------------------

  predicate EndsHere(tokens: seq<Token>) {
    tokens == [] || IsEnd(tokens[0])
  }

  lemma {:induction false} OpeningDetermines(a: Block, b: Block)
    requires Proper(a) && Proper(b) && Opening(a) == Opening(b)
    ensures a.Leaf? == b.Leaf? && Closing(a) == Closing(b) && !IsEnd(Opening(a))
    ensures Inside(a) == Inside(b) ==> a == b
  {
  }

  /** Up to where neither goes on with a block, two lists of blocks with the same tokens are the same. */
  lemma {:induction false} SameTokens(a: seq<Block>, b: seq<Block>, x: seq<Token>, y: seq<Token>)
    requires AllProper(a) && AllProper(b) && EndsHere(x) && EndsHere(y) && FlattenAll(a) + x == FlattenAll(b) + y
    ensures a == b && x == y
    decreases |FlattenAll(a)| + |FlattenAll(b)|
  {
    hide Flatten, Proper;
    if a == [] || b == [] {
      EmptySide(a, b, x, y);
    } else {
      FirstToken(a, x);
      FirstToken(b, y);
      assert Proper(a[0]) && Proper(b[0]);
      var restA, restB := FlattenAll(a[1..]) + x, FlattenAll(b[1..]) + y;
      assert (FlattenAll(a) + x)[0] == Opening(a[0]) && (FlattenAll(b) + y)[0] == Opening(b[0]);
      assert (FlattenAll(a) + x)[1..] == Flatten(a[0])[1..] + restA;
      assert (FlattenAll(b) + y)[1..] == Flatten(b[0])[1..] + restB;
      OpeningDetermines(a[0], b[0]);
      TokInside(a, x);
      TokInside(b, y);
      SizeOfFirst(a);
      SizeOfFirst(b);
      if !a[0].Leaf? {
        SameTokens(Inside(a[0]), Inside(b[0]), [Closing(a[0])[0]] + restA, [Closing(b[0])[0]] + restB);
        assert ([Closing(a[0])[0]] + restA)[1..] == restA && ([Closing(b[0])[0]] + restB)[1..] == restB;
      } else {
        assert Inside(a[0]) == [] && Inside(b[0]) == [];
      }
      SameTokens(a[1..], b[1..], x, y);
      assert a == [a[0]] + a[1..] && b == [b[0]] + b[1..];
    }
  }

  lemma {:induction false} SizeOfFirst(a: seq<Block>)
    requires a != []
    ensures |FlattenAll(a[1..])| < |FlattenAll(a)|
    ensures a[0].Leaf? ==> Inside(a[0]) == []
  {
    FlattenShape(a[0]);
  }

  lemma {:induction false} EmptySide(a: seq<Block>, b: seq<Block>, x: seq<Token>, y: seq<Token>)
    requires AllProper(a) && AllProper(b) && EndsHere(x) && EndsHere(y) && FlattenAll(a) + x == FlattenAll(b) + y
    requires a == [] || b == []
    ensures a == b && x == y
  {
    assert FlattenAll([]) + x == x && FlattenAll([]) + y == y;
    if a != [] {
      FirstToken(a, x);
      OpeningDetermines(a[0], a[0]);
    }
    if b != [] {
      FirstToken(b, y);
      OpeningDetermines(b[0], b[0]);
    }
  }

  /** A token list is that of one list of blocks at most, so the rendering depends on the tokens alone. */
  lemma {:induction false} TokensDetermineBlocks(a: seq<Block>, b: seq<Block>)
    requires AllProper(a) && AllProper(b) && FlattenAll(a) == FlattenAll(b)
    ensures a == b
  {
    SameTokens(a, b, [], []);
  }
}
