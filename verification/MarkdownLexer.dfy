/**
  marked's block lexer: whatever its regular expressions match, the tokens it emits are exactly those of the blocks
  of its source. So every start has its end, and all are properly nested.
*/
module MarkdownLexer {
  import opened ActionGraph
  import opened Markdown
  import opened MarkdownBlocks

  // ------------------------------------------------------------------------
  // Blocks are proper
  // ------------------------------------------------------------------------

  /** The blocks of any source may stand side by side: items stand in lists only. */
  lemma {:induction false} BlocksAreProper(rules: Rules, options: Options, src: string, top: bool, bq: bool)
    requires Shrinks(rules)
    ensures Blocks(rules, options, src, top, bq).Some? ==> Body(Blocks(rules, options, src, top, bq).value)
    decreases |src|, 2, 0
  {
    hide Shrinks, First;
    if src != "" {
      var newline := rules.newline(src);
      var rest := src;
      if newline.Some? {
        NewlineFits(rules, src);
        rest := src[newline.value.taken..];
      }
      if rest != "" && First(rules, options, rest, top, bq).Some? {
        FirstIsProper(rules, options, rest, top, bq);
        BlocksAreProper(rules, options, First(rules, options, rest, top, bq).value.rest, top, bq);
      }
    }
  }

  lemma {:induction false} FirstIsProper(rules: Rules, options: Options, src: string, top: bool, bq: bool)
    requires Shrinks(rules)
    ensures First(rules, options, src, top, bq).Some? ==> Body(First(rules, options, src, top, bq).value.blocks)
    decreases |src|, 1, 0
  {
    hide Shrinks, Items, Blocks, FirstOf, AfterList, Members;
    match FirstOf(rules, ORDER, src, top, bq)
    case None =>
    case Some(Quotation) =>
      QuoteFits(rules, src);
      BlocksAreProper(rules, options, rules.clean(rules.blockquote(src).value.text), top, true);
    case Some(Listing) =>
      ListFits(rules, options, src);
      ItemsAreProper(rules, options, src, rules.list(src).value, 0, bq);
    case Some(k) =>
  }

  lemma {:induction false} ItemsAreProper(rules: Rules, options: Options, src: string, m: ListMatch, i: nat, bq: bool)
    requires Shrinks(rules) && ListShrinks(rules, src, m) && i <= Members(rules, options, m)
    ensures Items(rules, options, src, m, i, bq).Some? ==> AllItems(Items(rules, options, src, m, i, bq).value)
    decreases |src|, 0, |m.items| - i
  {
    hide Shrinks, ListShrinks, Blocks, Members;
    if i != Members(rules, options, m) {
      ItemFits(rules, src, m, i);
      BlocksAreProper(rules, options, rules.clean(rules.strip(m.items[i])), false, bq);
      ItemsAreProper(rules, options, src, m, i + 1, bq);
    }
  }

  // ------------------------------------------------------------------------
  // The order of the rules
  // ------------------------------------------------------------------------

  /** The rules before the n-th do not apply. */
  ghost predicate Passed(rules: Rules, n: nat, src: string, top: bool, bq: bool)
    requires n <= |ORDER|
  {
    FirstOf(rules, ORDER, src, top, bq) == FirstOf(rules, ORDER[n..], src, top, bq)
  }

  lemma {:induction false} NonePassed(rules: Rules, src: string, top: bool, bq: bool)
    ensures Passed(rules, 0, src, top, bq)
  {
    assert ORDER[0..] == ORDER;
  }

  lemma {:induction false} Look(rules: Rules, n: nat, src: string, top: bool, bq: bool)
    requires n < |ORDER| && Passed(rules, n, src, top, bq)
    ensures if Taken(rules, ORDER[n], src, top, bq).Some? then FirstOf(rules, ORDER, src, top, bq) == Some(ORDER[n])
            else Passed(rules, n + 1, src, top, bq)
  {
    assert ORDER[n..][0] == ORDER[n] && ORDER[n..][1..] == ORDER[n + 1..];
  }

  lemma {:induction false} AllPassed(rules: Rules, options: Options, src: string, top: bool, bq: bool)
    requires Shrinks(rules) && Passed(rules, |ORDER|, src, top, bq)
    ensures First(rules, options, src, top, bq) == None
  {
    assert ORDER[|ORDER|..] == [];
  }

  lemma {:induction false} IsAlone(rules: Rules, options: Options, k: Kind, src: string, top: bool, bq: bool)
    requires Shrinks(rules) && FirstOf(rules, ORDER, src, top, bq) == Some(k) && k != Quotation && k != Listing
    ensures 0 < Taken(rules, k, src, top, bq).value <= |src|
    ensures First(rules, options, src, top, bq)
         == Some(Part(Simple(rules, options, k, src, top, bq), src[Taken(rules, k, src, top, bq).value..]))
  {
    TakenFits(rules, k, src, top, bq);
  }

  // ------------------------------------------------------------------------
  // The lexer
  // ------------------------------------------------------------------------

  class Lexer {
    var tokens: seq<Token>
    const rules: Rules
    const options: Options

    constructor (rules: Rules, options: Options)
      ensures tokens == [] && this.rules == rules && this.options == options
    {
      this.rules, this.options := rules, options;
      tokens := [];
    }

    /** `token`: appends exactly the tokens of the blocks of the source, or fails on a character that no rule takes. */
    method Lex(source: string, top: bool, bq: bool) returns (ok: bool)
      requires Shrinks(rules)
      modifies this`tokens
      ensures var r := Blocks(rules, options, rules.clean(source), top, bq);
              ok == r.Some? && (ok ==> tokens == old(tokens) + FlattenAll(r.value))
      decreases |source|, 6
    {
      hide Shrinks, Blocks, FlattenAll;
      var src := rules.clean(source);
      CleanFits(rules, source);
      ghost var blocks := [];
      ghost var all := Blocks(rules, options, src, top, bq);
      ThenNothing(all);
      NothingFlat();
      while src != ""
        invariant |src| <= |source|
        invariant all == Then(blocks, Blocks(rules, options, src, top, bq))
        invariant tokens == old(tokens) + FlattenAll(blocks)
        decreases |src|
      {
        ghost var own;
        ghost var was := src;
        ok, src, own := LexOne(src, top, bq);
        if !ok {
          return;
        }
        ThenThen(blocks, own, Blocks(rules, options, src, top, bq));
        FlattenJoin(blocks, own);
        assert old(tokens) + FlattenAll(blocks) + FlattenAll(own) == old(tokens) + (FlattenAll(blocks) + FlattenAll(own));
        blocks := blocks + own;
      }
      BlocksOfNothing(rules, options, top, bq);
      assert all == Some(blocks + []) && blocks + [] == blocks;
      ok := true;
    }

    /** One turn of the loop of `token`: a newline is taken first, and then what the first rule takes. */
    method LexOne(source: string, top: bool, bq: bool) returns (ok: bool, src: string, ghost own: seq<Block>)
      requires Shrinks(rules) && source != ""
      modifies this`tokens
      ensures !ok ==> Blocks(rules, options, source, top, bq) == None
      ensures ok ==> |src| < |source| && tokens == old(tokens) + FlattenAll(own)
      ensures ok ==> Blocks(rules, options, source, top, bq) == Then(own, Blocks(rules, options, src, top, bq))
      decreases |source|, 5
    {
      hide Shrinks, First, FlattenAll;
      src, own := source, [];
      NothingFlat();
      var newline := rules.newline(src);
      if newline.Some? {
        NewlineFits(rules, source);
        src := src[newline.value.taken..];
        if newline.value.taken > 1 {
          tokens := tokens + [Space];
          own := [Leaf(Space)];
          FlattenOne(Leaf(Space));
        }
      }
      ghost var space, rest, before := own, src, old(tokens);
      ok, src, own := LexRule(src, top, bq, |source|);
      FlattenJoin(space, own);
      assert before + FlattenAll(space) + FlattenAll(own) == before + (FlattenAll(space) + FlattenAll(own));
      own := space + own;
      if rest == "" {
        BlocksOfNothing(rules, options, top, bq);
        assert space + [] == space;
      }
    }

    /** The rules after the newline, in their order. An empty source is left to the loop. */
    method LexRule(source: string, top: bool, bq: bool, ghost limit: nat) returns (ok: bool, src: string, ghost own: seq<Block>)
      requires Shrinks(rules) && |source| <= limit
      modifies this`tokens
      ensures source == "" ==> ok && src == "" && own == []
      ensures source != "" ==> First(rules, options, source, top, bq) == if ok then Some(Part(own, src)) else None
      ensures ok ==> tokens == old(tokens) + FlattenAll(own)
      decreases limit, 4
    {
      hide Shrinks, First, FlattenAll, FirstOf, Passed;
      NonePassed(rules, source, top, bq);
      var code := rules.code(source);
      Look(rules, 0, source, top, bq);
      if code.Some? {
        own := Simply(Indented, source, top, bq);
        tokens := tokens + [Code(code.value.text, "")];
        return true, source[code.value.taken..], own;
      }
      var fences := rules.fences(source);
      Look(rules, 1, source, top, bq);
      if fences.Some? {
        own := Simply(Fenced, source, top, bq);
        tokens := tokens + [Code(fences.value.text, fences.value.more)];
        return true, source[fences.value.taken..], own;
      }
      ok, src, own := LexHeading(source, top, bq, limit);
    }

    /** Headings with hashes, and tables without leading pipes. */
    method LexHeading(source: string, top: bool, bq: bool, ghost limit: nat) returns (ok: bool, src: string, ghost own: seq<Block>)
      requires Shrinks(rules) && |source| <= limit && Passed(rules, 2, source, top, bq)
      modifies this`tokens
      ensures source == "" ==> ok && src == "" && own == []
      ensures source != "" ==> First(rules, options, source, top, bq) == if ok then Some(Part(own, src)) else None
      ensures ok ==> tokens == old(tokens) + FlattenAll(own)
      decreases limit, 3
    {
      hide Shrinks, First, FlattenAll, FirstOf, Passed;
      var heading := rules.heading(source);
      Look(rules, 2, source, top, bq);
      if heading.Some? {
        own := Simply(Hashes, source, top, bq);
        tokens := tokens + [Heading(heading.value.depth, heading.value.text)];
        return true, source[heading.value.taken..], own;
      }
      var nptable := rules.nptable(source);
      Look(rules, 3, source, top, bq);
      if top && nptable.Some? {
        own := Simply(BareTable, source, top, bq);
        tokens := tokens + [Table(nptable.value.text)];
        return true, source[nptable.value.taken..], own;
      }
      ok, src, own := LexLine(source, top, bq, limit);
    }

    /** Headings with a line below, and rulers. */
    method LexLine(source: string, top: bool, bq: bool, ghost limit: nat) returns (ok: bool, src: string, ghost own: seq<Block>)
      requires Shrinks(rules) && |source| <= limit && Passed(rules, 4, source, top, bq)
      modifies this`tokens
      ensures source == "" ==> ok && src == "" && own == []
      ensures source != "" ==> First(rules, options, source, top, bq) == if ok then Some(Part(own, src)) else None
      ensures ok ==> tokens == old(tokens) + FlattenAll(own)
      decreases limit, 2
    {
      hide Shrinks, First, FlattenAll, FirstOf, Passed;
      var lheading := rules.lheading(source);
      Look(rules, 4, source, top, bq);
      if lheading.Some? {
        own := Simply(Underlined, source, top, bq);
        tokens := tokens + [Heading(if lheading.value.more == "=" then 1 else 2, lheading.value.text)];
        return true, source[lheading.value.taken..], own;
      }
      var hr := rules.hr(source);
      Look(rules, 5, source, top, bq);
      if hr.Some? {
        own := Simply(Ruler, source, top, bq);
        tokens := tokens + [Hr];
        return true, source[hr.value.taken..], own;
      }
      ok, src, own := LexHolder(source, top, bq, limit);
    }

    /** Quotes and lists, which hold other blocks. */
    method LexHolder(source: string, top: bool, bq: bool, ghost limit: nat) returns (ok: bool, src: string, ghost own: seq<Block>)
      requires Shrinks(rules) && |source| <= limit && Passed(rules, 6, source, top, bq)
      modifies this`tokens
      ensures source == "" ==> ok && src == "" && own == []
      ensures source != "" ==> First(rules, options, source, top, bq) == if ok then Some(Part(own, src)) else None
      ensures ok ==> tokens == old(tokens) + FlattenAll(own)
      decreases limit, 1
    {
      hide Shrinks, First, FlattenAll, FirstOf, Passed;
      var quote := rules.blockquote(source);
      Look(rules, 6, source, top, bq);
      if quote.Some? {
        ok, src, own := LexQuote(source, quote.value, top, bq, limit);
        return;
      }
      var list := rules.list(source);
      Look(rules, 7, source, top, bq);
      if list.Some? {
        ok, src, own := LexList(source, list.value, top, bq, limit);
        return;
      }
      ok, src, own := LexLate(source, top, bq);
    }

    /** The rules after the list. */
    method LexLate(source: string, top: bool, bq: bool) returns (ok: bool, src: string, ghost own: seq<Block>)
      requires Shrinks(rules) && Passed(rules, 8, source, top, bq)
      modifies this`tokens
      ensures source == "" ==> ok && src == "" && own == []
      ensures source != "" ==> First(rules, options, source, top, bq) == if ok then Some(Part(own, src)) else None
      ensures ok ==> tokens == old(tokens) + FlattenAll(own)
    {
      hide Shrinks, First, FlattenAll, FirstOf, Passed;
      var html := rules.html(source);
      Look(rules, 8, source, top, bq);
      if html.Some? {
        own := Simply(Markup, source, top, bq);
        if options.sanitize {
          tokens := tokens + [Paragraph(html.value.text)];
        } else {
          var pre := html.value.more == "pre" || html.value.more == "script" || html.value.more == "style";
          tokens := tokens + [Html(pre, html.value.text)];
        }
        return true, source[html.value.taken..], own;
      }
      var def := rules.def(source);
      Look(rules, 9, source, top, bq);
      if !bq && top && def.Some? {
        own := Simply(Definition, source, top, bq);
        return true, source[def.value.taken..], own;
      }
      var table := rules.table(source);
      Look(rules, 10, source, top, bq);
      if top && table.Some? {
        own := Simply(PipeTable, source, top, bq);
        tokens := tokens + [Table(table.value.text)];
        return true, source[table.value.taken..], own;
      }
      ok, src, own := LexText(source, top, bq);
    }

    /** Paragraphs and texts. */
    method LexText(source: string, top: bool, bq: bool) returns (ok: bool, src: string, ghost own: seq<Block>)
      requires Shrinks(rules) && Passed(rules, 11, source, top, bq)
      modifies this`tokens
      ensures source == "" ==> ok && src == "" && own == []
      ensures source != "" ==> First(rules, options, source, top, bq) == if ok then Some(Part(own, src)) else None
      ensures ok ==> tokens == old(tokens) + FlattenAll(own)
    {
      hide Shrinks, First, FlattenAll, FirstOf, Passed;
      var paragraph := rules.paragraph(source);
      Look(rules, 11, source, top, bq);
      if top && paragraph.Some? {
        own := Simply(Prose, source, top, bq);
        var content := paragraph.value.text;
        if content != "" && content[|content| - 1] == '\n' {
          content := content[..|content| - 1];
        }
        tokens := tokens + [Paragraph(content)];
        return true, source[paragraph.value.taken..], own;
      }
      var text := rules.text(source);
      Look(rules, 12, source, top, bq);
      if text.Some? {
        own := Simply(Plain, source, top, bq);
        tokens := tokens + [Text(text.value.text)];
        return true, source[text.value.taken..], own;
      }
      if source != "" {
        AllPassed(rules, options, source, top, bq);
        return false, source, [];
      }
      NothingFlat();
      return true, source, [];
    }

    /** The block of a rule that decides, with its token. */
    ghost method Simply(k: Kind, source: string, top: bool, bq: bool) returns (own: seq<Block>)
      requires Shrinks(rules) && FirstOf(rules, ORDER, source, top, bq) == Some(k) && k != Quotation && k != Listing
      ensures own == Simple(rules, options, k, source, top, bq)
      ensures source != "" && 0 < Taken(rules, k, source, top, bq).value <= |source|
      ensures First(rules, options, source, top, bq) == Some(Part(own, source[Taken(rules, k, source, top, bq).value..]))
      ensures FlattenAll(own) == if own == [] then [] else [own[0].token]
    {
      hide Shrinks, First, FirstOf, FlattenAll;
      IsAlone(rules, options, k, source, top, bq);
      own := Simple(rules, options, k, source, top, bq);
      if own == [] {
        NothingFlat();
      } else {
        FlattenOne(own[0]);
        assert own == [own[0]];
      }
    }

    method LexQuote(source: string, m: Match, top: bool, bq: bool, ghost limit: nat) returns (ok: bool, src: string, ghost own: seq<Block>)
      requires Shrinks(rules) && |source| <= limit && rules.blockquote(source) == Some(m) && FirstOf(rules, ORDER, source, top, bq) == Some(Quotation)
      modifies this`tokens
      ensures source != "" && First(rules, options, source, top, bq) == if ok then Some(Part(own, src)) else None
      ensures ok ==> tokens == old(tokens) + FlattenAll(own)
      decreases limit, 0
    {
      hide Shrinks, Blocks, FirstOf, FlattenAll;
      ghost var before := tokens;
      QuoteFits(rules, source);
      src := source[m.taken..];
      tokens := tokens + [BlockquoteStart];
      TextFits(rules, source);
      ok := Lex(m.text, top, true);
      tokens := tokens + [BlockquoteEnd];
      ghost var body := Blocks(rules, options, rules.clean(m.text), top, true);
      own := if ok then [Quote(body.value)] else [];
      if ok {
        FlattenOne(Quote(body.value));
        QuoteTokens(body.value);
        assert before + [BlockquoteStart] + FlattenAll(body.value) + [BlockquoteEnd] ==
          before + ([BlockquoteStart] + FlattenAll(body.value) + [BlockquoteEnd]);
      }
    }

    /** A list, with its items lexed one by one, and the source that is left. */
    method LexList(source: string, m: ListMatch, top: bool, bq: bool, ghost limit: nat) returns (ok: bool, src: string, ghost own: seq<Block>)
      requires Shrinks(rules) && |source| <= limit && rules.list(source) == Some(m) && FirstOf(rules, ORDER, source, top, bq) == Some(Listing)
      modifies this`tokens
      ensures source != "" && First(rules, options, source, top, bq) == if ok then Some(Part(own, src)) else None
      ensures ok ==> tokens == old(tokens) + FlattenAll(own)
      decreases limit, 0
    {
      hide *;
      ghost var before := tokens;
      ListFits(rules, options, source);
      src := source[m.taken..];
      tokens := tokens + [ListStart(|m.bullet| > 1)];
      var next := false;
      var i, l := 0, |m.items|;
      ghost var members := Members(rules, options, m);
      ghost var all := Items(rules, options, source, m, 0, bq);
      ghost var items, n := [], 0;
      ThenNothing(all);
      NothingFlat();
      MembersStart(rules, options, m);
      AfterListIs(rules, options, m, source);
      while i < l
        invariant 0 <= i <= l == |m.items| && n <= members <= l
        invariant i < l ==> n == i && members == Kept(rules, options, m, i)
        invariant i == l ==> n == members
        invariant next == (n > 0 && i < l && EndsLine(rules.strip(m.items[n - 1]))) || i == l
        invariant src == if i < l then source[m.taken..] else AfterList(rules, options, m, source)
        invariant all == Then(items, Items(rules, options, source, m, n, bq))
        invariant tokens == before + [ListStart(|m.bullet| > 1)] + FlattenAll(items)
        decreases l - i
      {
        var item := rules.strip(m.items[i]);
        KeptStep(rules, options, m, i);
        if options.smartLists && i != l - 1 {
          var b := rules.bullet(m.items[i + 1]);
          if m.bullet != b && !(|m.bullet| > 1 && |b| > 1) {
            src := Lines(m.items[i + 1..]) + src;
            i := l - 1;
          }
        }
        var loose := next || rules.blankLine(item);
        if i != l - 1 {
          next := item != "" && item[|item| - 1] == '\n';
          if !loose {
            loose := next;
          }
        }
        LooseIs(rules, m, members, n);
        MemberFits(rules, source, m, n);
        ok, items := LexMember(item, loose, bq, source, m, n, items, before + [ListStart(|m.bullet| > 1)]);
        if !ok {
          ListFails(rules, options, source, top, bq);
          return false, src, [];
        }
        n := n + 1;
        i := i + 1;
      }
      tokens := tokens + [ListEnd];
      ok := true;
      own := [List(|m.bullet| > 1, items)];
      ListEnds(rules, options, source, m, top, bq, items, before);
    }

    /** One member of a list after those lexed so far. */
    method LexMember(item: string, loose: bool, bq: bool, ghost source: string, ghost m: ListMatch, ghost n: nat, ghost items: seq<Block>, ghost before: seq<Token>)
      returns (ok: bool, ghost more: seq<Block>)
      requires Shrinks(rules) && ListShrinks(rules, source, m) && n < Members(rules, options, m)
      requires item == rules.strip(m.items[n]) && loose == IsLoose(rules, m, Members(rules, options, m), n)
      requires tokens == before + FlattenAll(items)
      modifies this`tokens
      ensures var all := Then(items, Items(rules, options, source, m, n, bq));
              if ok then all == Then(more, Items(rules, options, source, m, n + 1, bq)) else all == None
      ensures ok ==> tokens == before + FlattenAll(more)
      decreases |item|, 8
    {
      hide Shrinks, ListShrinks, Blocks, Items, FlattenAll, Flatten, Members, IsLoose, Then;
      ItemStep(rules, options, source, m, n, bq);
      ok := LexItem(item, loose, bq);
      more := [];
      if ok {
        ghost var one := Item(loose, Blocks(rules, options, rules.clean(item), false, bq).value);
        ThenThen(items, [one], Items(rules, options, source, m, n + 1, bq));
        FlattenJoin(items, [one]);
        FlattenOne(one);
        assert before + FlattenAll(items) + Flatten(one) == before + (FlattenAll(items) + Flatten(one));
        more := items + [one];
      } else {
        ThenEnds(items);
      }
    }

    method LexItem(item: string, loose: bool, bq: bool) returns (ok: bool)
      requires Shrinks(rules)
      modifies this`tokens
      ensures var r := Blocks(rules, options, rules.clean(item), false, bq);
              ok == r.Some? && (ok ==> tokens == old(tokens) + Flatten(Item(loose, r.value)))
      decreases |item|, 7
    {
      hide Shrinks, Blocks, FlattenAll;
      ghost var before := tokens;
      tokens := tokens + [if loose then LooseItemStart else ListItemStart];
      ok := Lex(item, false, bq);
      tokens := tokens + [ListItemEnd];
      if ok {
        ghost var body := Blocks(rules, options, rules.clean(item), false, bq).value;
        ItemTokens(loose, body);
        assert before + [Opening(Item(loose, body))] + FlattenAll(body) + [ListItemEnd] ==
          before + ([Opening(Item(loose, body))] + FlattenAll(body) + [ListItemEnd]);
      }
    }
  }

  /** Lexing and then parsing: the rendering of the blocks of the source. */
  method Compile(rules: Rules, options: Options, renderer: Renderer, source: string) returns (ok: bool, out: string)
    requires Shrinks(rules)
    ensures var r := Blocks(rules, options, rules.clean(source), true, false);
            ok == r.Some? && (ok ==> Body(r.value) && out == RenderAll(renderer, r.value, false))
  {
    hide FlattenAll, Shrinks, RenderAll, Blocks;
    var lexer := new Lexer(rules, options);
    ok := lexer.Lex(source, true, false);
    out := "";
    if ok {
      ghost var blocks := Blocks(rules, options, rules.clean(source), true, false).value;
      BlocksAreProper(rules, options, rules.clean(source), true, false);
      assert [] + FlattenAll(blocks) == FlattenAll(blocks);
      var parser := new Parser(renderer);
      out := parser.Parse(lexer.tokens, blocks);
    }
  }

  // ------------------------------------------------------------------------
  // Steps of the proofs
  // ------------------------------------------------------------------------

  lemma {:induction false} CleanFits(rules: Rules, s: string)
    requires Shrinks(rules)
    ensures |rules.clean(s)| <= |s|
  {
  }

  lemma {:induction false} TextFits(rules: Rules, src: string)
    requires Shrinks(rules) && rules.blockquote(src).Some?
    ensures |rules.blockquote(src).value.text| < |src|
  {
  }

  lemma {:induction false} NothingFlat()
    ensures FlattenAll([]) == []
  {
  }

  lemma {:induction false} ThenNothing(more: Option<seq<Block>>)
    ensures Then([], more) == more
  {
    if more.Some? {
      assert [] + more.value == more.value;
    }
  }

  lemma {:induction false} ThenThen(a: seq<Block>, b: seq<Block>, more: Option<seq<Block>>)
    ensures Then(a, Then(b, more)) == Then(a + b, more)
  {
    if more.Some? {
      assert a + (b + more.value) == a + b + more.value;
    }
  }

  lemma {:induction false} ThenEnds(blocks: seq<Block>)
    ensures Then(blocks, None) == None && Then(blocks, Some([])) == Some(blocks)
  {
    assert blocks + [] == blocks;
  }

  lemma {:induction false} BlocksOfNothing(rules: Rules, options: Options, top: bool, bq: bool)
    requires Shrinks(rules)
    ensures Blocks(rules, options, "", top, bq) == Some([])
  {
  }

  lemma {:induction false} QuoteTokens(body: seq<Block>)
    ensures Flatten(Quote(body)) == [BlockquoteStart] + FlattenAll(body) + [BlockquoteEnd]
  {
  }

  lemma {:induction false} ItemTokens(loose: bool, body: seq<Block>)
    ensures Flatten(Item(loose, body)) == [Opening(Item(loose, body))] + FlattenAll(body) + [ListItemEnd]
  {
  }

  lemma {:induction false} ListTokens(ordered: bool, items: seq<Block>)
    ensures FlattenAll([List(ordered, items)]) == [ListStart(ordered)] + FlattenAll(items) + [ListEnd]
  {
    FlattenOne(List(ordered, items));
  }

  lemma {:induction false} MembersStart(rules: Rules, options: Options, m: ListMatch)
    ensures Members(rules, options, m) == if m.items == [] then 0 else Kept(rules, options, m, 0)
  {
  }

  lemma {:induction false} KeptStep(rules: Rules, options: Options, m: ListMatch, i: nat)
    requires i < |m.items|
    ensures Kept(rules, options, m, i)
         == if i + 1 == |m.items| then i + 1
            else
              var b := rules.bullet(m.items[i + 1]);
              if options.smartLists && m.bullet != b && !(|m.bullet| > 1 && |b| > 1) then i + 1 else Kept(rules, options, m, i + 1)
  {
  }

  lemma {:induction false} LooseIs(rules: Rules, m: ListMatch, members: nat, i: nat)
    requires i < members <= |m.items|
    ensures IsLoose(rules, m, members, i)
         == (|| (i > 0 && EndsLine(rules.strip(m.items[i - 1]))) || rules.blankLine(rules.strip(m.items[i]))
             || (i + 1 < members && EndsLine(rules.strip(m.items[i]))))
    ensures var item := rules.strip(m.items[i]); EndsLine(item) == (item != "" && item[|item| - 1] == '\n')
  {
  }

  lemma {:induction false} ItemStep(rules: Rules, options: Options, src: string, m: ListMatch, i: nat, bq: bool)
    requires Shrinks(rules) && ListShrinks(rules, src, m) && i < Members(rules, options, m)
    ensures var content := Blocks(rules, options, rules.clean(rules.strip(m.items[i])), false, bq);
            Items(rules, options, src, m, i, bq)
            == if content.None? then None
               else Then([Item(IsLoose(rules, m, Members(rules, options, m), i), content.value)], Items(rules, options, src, m, i + 1, bq))
  {
    hide Blocks, Shrinks, Members;
  }

  lemma {:induction false} MemberFits(rules: Rules, src: string, m: ListMatch, i: nat)
    requires Shrinks(rules) && ListShrinks(rules, src, m) && i < |m.items|
    ensures |rules.strip(m.items[i])| < |src|
  {
  }

  lemma {:induction false} AfterListIs(rules: Rules, options: Options, m: ListMatch, src: string)
    requires m.taken <= |src|
    ensures var n := Members(rules, options, m);
            AfterList(rules, options, m, src) == if n < |m.items| then Lines(m.items[n..]) + src[m.taken..] else src[m.taken..]
  {
    hide Members, Lines;
    assert "" + src[m.taken..] == src[m.taken..];
  }

  lemma {:induction false} NoMoreItems(rules: Rules, options: Options, src: string, m: ListMatch, bq: bool)
    requires Shrinks(rules) && ListShrinks(rules, src, m)
    ensures Items(rules, options, src, m, Members(rules, options, m), bq) == Some([])
  {
  }

  lemma {:induction false} ListIs(rules: Rules, options: Options, src: string, top: bool, bq: bool)
    requires Shrinks(rules) && FirstOf(rules, ORDER, src, top, bq) == Some(Listing) && rules.list(src).Some?
    ensures var m := rules.list(src).value;
            && src != "" && ListShrinks(rules, src, m) && m.taken <= |src|
            && First(rules, options, src, top, bq)
               == (var items := Items(rules, options, src, m, 0, bq);
                   if items.None? then None else Some(Part([List(|m.bullet| > 1, items.value)], AfterList(rules, options, m, src))))
  {
    hide Items, FirstOf, Members;
    ListFits(rules, options, src);
  }

  lemma {:induction false} ListEnds(rules: Rules, options: Options, src: string, m: ListMatch, top: bool, bq: bool,
                                    items: seq<Block>, before: seq<Token>)
    requires Shrinks(rules) && FirstOf(rules, ORDER, src, top, bq) == Some(Listing) && rules.list(src) == Some(m)
    requires ListShrinks(rules, src, m) && m.taken <= |src|
    requires Items(rules, options, src, m, 0, bq) == Then(items, Items(rules, options, src, m, Members(rules, options, m), bq))
    ensures var own := [List(|m.bullet| > 1, items)];
            && src != "" && First(rules, options, src, top, bq) == Some(Part(own, AfterList(rules, options, m, src)))
            && before + [ListStart(|m.bullet| > 1)] + FlattenAll(items) + [ListEnd] == before + FlattenAll(own)
  {
    hide Items, FirstOf, Members, AfterList, FlattenAll, First, Then, Shrinks;
    NoMoreItems(rules, options, src, m, bq);
    ThenEnds(items);
    ListTokens(|m.bullet| > 1, items);
    ListIs(rules, options, src, top, bq);
    assert before + [ListStart(|m.bullet| > 1)] + FlattenAll(items) + [ListEnd] ==
      before + ([ListStart(|m.bullet| > 1)] + FlattenAll(items) + [ListEnd]);
  }

  lemma {:induction false} ListFails(rules: Rules, options: Options, src: string, top: bool, bq: bool)
    requires Shrinks(rules) && FirstOf(rules, ORDER, src, top, bq) == Some(Listing) && rules.list(src).Some?
    requires ListShrinks(rules, src, rules.list(src).value) && Items(rules, options, src, rules.list(src).value, 0, bq).None?
    ensures src != "" && First(rules, options, src, top, bq).None?
  {
    hide Items, FirstOf, Members, AfterList;
    ListFits(rules, options, src);
  }
}
