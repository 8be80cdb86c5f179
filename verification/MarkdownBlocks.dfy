/**
  What a source of marked's block level is made of: the blocks that its rules, taken in their order, make of it. The
  regular expressions may match whatever they like.
*/
module MarkdownBlocks {
  import opened ActionGraph
  import opened Markdown

  /** What a rule found at the start of the source: how much it took, and the captures in use. */
  datatype Match = Match(taken: nat, text: string, more: string, depth: nat)

  datatype ListMatch = ListMatch(taken: nat, bullet: string, items: seq<string>)

  type Rule = string -> Option<Match>

  /**
    The regular expressions. `blockquote` gives the quoted text without its marks; `strip`
    takes the bullet off an item and outdents it; `clean` is the replacement that `token` starts with.
  */
  datatype Rules = Rules(
    newline: Rule, code: Rule, fences: Rule, heading: Rule, nptable: Rule, lheading: Rule, hr: Rule,
    blockquote: Rule, list: string -> Option<ListMatch>, html: Rule, def: Rule, table: Rule,
    paragraph: Rule, text: Rule,
    strip: string -> string, bullet: string -> string, blankLine: string -> bool, clean: string -> string)

  datatype Options = Options(smartLists: bool, sanitize: bool)

  /** A rule takes something, and no more than there is. */
  ghost predicate Takes(rule: Rule) {
    forall s :: rule(s).Some? ==> 0 < rule(s).value.taken <= |s|
  }

  function Lines(items: seq<string>): string {
    if items == [] then "" else if |items| == 1 then items[0] else items[0] + "\n" + Lines(items[1..])
  }

  /** What is lexed again inside a block, or after backpedalling from a list, is shorter. */
  ghost predicate Shrinks(rules: Rules) {
    && Takes(rules.newline) && Takes(rules.code) && Takes(rules.fences) && Takes(rules.heading)
    && Takes(rules.nptable) && Takes(rules.lheading) && Takes(rules.hr) && Takes(rules.blockquote)
    && Takes(rules.html) && Takes(rules.def) && Takes(rules.table) && Takes(rules.paragraph) && Takes(rules.text)
    && (forall s :: |rules.clean(s)| <= |s|)
    && (forall s :: rules.blockquote(s).Some? ==> |rules.blockquote(s).value.text| < |s|)
    && (forall s :: rules.list(s).Some? ==> ListShrinks(rules, s, rules.list(s).value))
  }

  ghost predicate ListShrinks(rules: Rules, s: string, m: ListMatch) {
    && 0 < m.taken <= |s|
    && (forall i :: 0 <= i < |m.items| ==> |rules.strip(m.items[i])| < |s|)
    && (forall i :: 0 < i <= |m.items| ==> |Lines(m.items[i..])| < m.taken)
  }

  // ------------------------------------------------------------------------
  // The rules and their order
  // ------------------------------------------------------------------------

  /** The rules that make blocks, by their names. */
  datatype Kind = Indented | Fenced | Hashes | BareTable | Underlined | Ruler | Quotation | Listing | Markup | Definition
                | PipeTable | Prose | Plain

  const ORDER: seq<Kind> :=
    [Indented, Fenced, Hashes, BareTable, Underlined, Ruler, Quotation, Listing, Markup, Definition, PipeTable, Prose, Plain]

  function TakenBy(m: Option<Match>): Option<nat> {
    if m.Some? then Some(m.value.taken) else None
  }

  /** How much the rule takes of the source, if it applies: some do at the top level only. */
  function Taken(rules: Rules, k: Kind, src: string, top: bool, bq: bool): Option<nat> {
    match k
    case Indented => TakenBy(rules.code(src))
    case Fenced => TakenBy(rules.fences(src))
    case Hashes => TakenBy(rules.heading(src))
    case BareTable => if top then TakenBy(rules.nptable(src)) else None
    case Underlined => TakenBy(rules.lheading(src))
    case Ruler => TakenBy(rules.hr(src))
    case Quotation => TakenBy(rules.blockquote(src))
    case Listing => if rules.list(src).Some? then Some(rules.list(src).value.taken) else None
    case Markup => TakenBy(rules.html(src))
    case Definition => if top && !bq then TakenBy(rules.def(src)) else None
    case PipeTable => if top then TakenBy(rules.table(src)) else None
    case Prose => if top then TakenBy(rules.paragraph(src)) else None
    case Plain => TakenBy(rules.text(src))
  }

  /** The first of some rules that applies. */
  function FirstOf(rules: Rules, ks: seq<Kind>, src: string, top: bool, bq: bool): (r: Option<Kind>)
    ensures r.Some? ==> Taken(rules, r.value, src, top, bq).Some?
  {
    if ks == [] then None
    else if Taken(rules, ks[0], src, top, bq).Some? then Some(ks[0])
    else FirstOf(rules, ks[1..], src, top, bq)
  }

  function WithoutNewline(text: string): string {
    if text != "" && text[|text| - 1] == '\n' then text[..|text| - 1] else text
  }

  /** The blocks that hold no others. A definition makes none. */
  function Simple(rules: Rules, options: Options, k: Kind, src: string, top: bool, bq: bool): seq<Block>
    requires k != Quotation && k != Listing && Taken(rules, k, src, top, bq).Some?
  {
    match k
    case Indented => [Leaf(Code(rules.code(src).value.text, ""))]
    case Fenced => [Leaf(Code(rules.fences(src).value.text, rules.fences(src).value.more))]
    case Hashes => [Leaf(Heading(rules.heading(src).value.depth, rules.heading(src).value.text))]
    case BareTable => [Leaf(Table(rules.nptable(src).value.text))]
    case Underlined => [Leaf(Heading(if rules.lheading(src).value.more == "=" then 1 else 2, rules.lheading(src).value.text))]
    case Ruler => [Leaf(Hr)]
    case Markup =>
      var m := rules.html(src).value;
      [Leaf(if options.sanitize then Paragraph(m.text) else Html(m.more in {"pre", "script", "style"}, m.text))]
    case Definition => []
    case PipeTable => [Leaf(Table(rules.table(src).value.text))]
    case Prose => [Leaf(Paragraph(WithoutNewline(rules.paragraph(src).value.text)))]
    case Plain => [Leaf(Text(rules.text(src).value.text))]
  }

  // ------------------------------------------------------------------------
  // Lists
  // ------------------------------------------------------------------------

  /** Bullets of different lists: not the same, and not both numbers. */
  predicate OtherList(a: string, b: string) {
    a != b && (|a| <= 1 || |b| <= 1)
  }

  /** How many items belong to the list, if the first i + 1 do: with smart lists those up to a bullet of another list. */
  function Kept(rules: Rules, options: Options, m: ListMatch, i: nat): (n: nat)
    requires i < |m.items|
    ensures i < n <= |m.items|
    decreases |m.items| - i
  {
    if i + 1 == |m.items| || (options.smartLists && OtherList(m.bullet, rules.bullet(m.items[i + 1]))) then i + 1
    else Kept(rules, options, m, i + 1)
  }

  function Members(rules: Rules, options: Options, m: ListMatch): (n: nat)
    ensures n <= |m.items| && (n == 0 ==> m.items == [])
  {
    if m.items == [] then 0 else Kept(rules, options, m, 0)
  }

  predicate EndsLine(item: string) {
    item != "" && item[|item| - 1] == '\n'
  }

  /** An item is loose if a blank line is in it, before it, or between it and the next. */
  predicate IsLoose(rules: Rules, m: ListMatch, members: nat, i: nat)
    requires i < members <= |m.items|
  {
    || rules.blankLine(rules.strip(m.items[i]))
    || (i > 0 && EndsLine(rules.strip(m.items[i - 1])))
    || (i + 1 < members && EndsLine(rules.strip(m.items[i])))
  }

  /** The source after the list: items that are not members come back in front of it. */
  function AfterList(rules: Rules, options: Options, m: ListMatch, src: string): string
    requires m.taken <= |src|
  {
    var n := Members(rules, options, m);
    (if n < |m.items| then Lines(m.items[n..]) else "") + src[m.taken..]
  }

  // ------------------------------------------------------------------------
  // Blocks
  // ------------------------------------------------------------------------

  /** The blocks at the start of a source, and what remains. */
  datatype Part = Part(blocks: seq<Block>, rest: string)

  /** `more` after `blocks`, if there is any. */
  function Then(blocks: seq<Block>, more: Option<seq<Block>>): Option<seq<Block>> {
    if more.None? then None else Some(blocks + more.value)
  }

  lemma {:induction false} TakenFits(rules: Rules, k: Kind, src: string, top: bool, bq: bool)
    requires Shrinks(rules) && Taken(rules, k, src, top, bq).Some?
    ensures 0 < Taken(rules, k, src, top, bq).value <= |src|
  {
    hide Takes, ListShrinks;
    match k
    case Indented => OneTakes(rules.code, src);
    case Fenced => OneTakes(rules.fences, src);
    case Hashes => OneTakes(rules.heading, src);
    case BareTable => OneTakes(rules.nptable, src);
    case Underlined => OneTakes(rules.lheading, src);
    case Ruler => OneTakes(rules.hr, src);
    case Quotation => OneTakes(rules.blockquote, src);
    case Listing => ListTakes(rules, src, rules.list(src).value);
    case Markup => OneTakes(rules.html, src);
    case Definition => OneTakes(rules.def, src);
    case PipeTable => OneTakes(rules.table, src);
    case Prose => OneTakes(rules.paragraph, src);
    case Plain => OneTakes(rules.text, src);
  }

  lemma {:induction false} OneTakes(rule: Rule, src: string)
    requires Takes(rule) && rule(src).Some?
    ensures 0 < rule(src).value.taken <= |src|
  {
  }

  lemma {:induction false} ListTakes(rules: Rules, src: string, m: ListMatch)
    requires ListShrinks(rules, src, m)
    ensures 0 < m.taken <= |src|
  {
  }

  lemma {:induction false} QuoteFits(rules: Rules, src: string)
    requires Shrinks(rules) && rules.blockquote(src).Some?
    ensures |rules.clean(rules.blockquote(src).value.text)| < |src| && 0 < rules.blockquote(src).value.taken <= |src|
  {
  }

  lemma {:induction false} ListFits(rules: Rules, options: Options, src: string)
    requires Shrinks(rules) && rules.list(src).Some?
    ensures ListShrinks(rules, src, rules.list(src).value) && 0 < rules.list(src).value.taken <= |src|
    ensures |AfterList(rules, options, rules.list(src).value, src)| < |src|
  {
    hide Members;
    var m := rules.list(src).value;
    assert ListShrinks(rules, src, m);
    var n := Members(rules, options, m);
    assert n < |m.items| ==> |Lines(m.items[n..])| < m.taken;
  }

  lemma {:induction false} ItemFits(rules: Rules, src: string, m: ListMatch, i: nat)
    requires Shrinks(rules) && ListShrinks(rules, src, m) && i < |m.items|
    ensures |rules.clean(rules.strip(m.items[i]))| < |src|
  {
  }

  lemma {:induction false} NewlineFits(rules: Rules, src: string)
    requires Shrinks(rules) && rules.newline(src).Some?
    ensures 0 < rules.newline(src).value.taken <= |src|
  {
  }

  /** The blocks of a source; none if it comes to a character that no rule takes. */
  ghost function Blocks(rules: Rules, options: Options, src: string, top: bool, bq: bool): (r: Option<seq<Block>>)
    requires Shrinks(rules)
    decreases |src|, 2, 0
  {
    hide Shrinks, FirstOf;
    if src == "" then Some([])
    else
      var newline := rules.newline(src);
      var space := if newline.Some? && newline.value.taken > 1 then [Leaf(Space)] else [];
      var rest := if newline.Some? then NewlineFits(rules, src); src[newline.value.taken..] else src;
      if rest == "" then Some(space)
      else
        var part := First(rules, options, rest, top, bq);
        if part.None? then None
        else Then(space + part.value.blocks, Blocks(rules, options, part.value.rest, top, bq))
  }

  /** What the first rule that applies makes of a source. */
  ghost function First(rules: Rules, options: Options, src: string, top: bool, bq: bool): (r: Option<Part>)
    requires Shrinks(rules)
    ensures r.Some? ==> |r.value.rest| < |src|
    decreases |src|, 1, 1
  {
    hide Shrinks, FirstOf, Taken;
    match FirstOf(rules, ORDER, src, top, bq)
    case None => None
    case Some(Quotation) => Quoted(rules, options, src, top)
    case Some(Listing) => Listed(rules, options, src, bq)
    case Some(k) => Some(Alone(rules, options, k, src, top, bq))
  }

  function Alone(rules: Rules, options: Options, k: Kind, src: string, top: bool, bq: bool): (part: Part)
    requires Shrinks(rules) && k != Quotation && k != Listing && Taken(rules, k, src, top, bq).Some?
    ensures |part.rest| < |src|
  {
    TakenFits(rules, k, src, top, bq);
    Part(Simple(rules, options, k, src, top, bq), src[Taken(rules, k, src, top, bq).value..])
  }

  /** A quote holds the blocks of its text without the marks, which know that they are quoted. */
  ghost function Quoted(rules: Rules, options: Options, src: string, top: bool): (r: Option<Part>)
    requires Shrinks(rules) && rules.blockquote(src).Some?
    ensures r.Some? ==> |r.value.rest| < |src|
    decreases |src|, 1, 0
  {
    QuoteFits(rules, src);
    var m := rules.blockquote(src).value;
    var body := Blocks(rules, options, rules.clean(m.text), top, true);
    if body.None? then None else Some(Part([Quote(body.value)], src[m.taken..]))
  }

  /** A list holds its members; it is ordered if its bullet is longer than a single mark. */
  ghost function Listed(rules: Rules, options: Options, src: string, bq: bool): (r: Option<Part>)
    requires Shrinks(rules) && rules.list(src).Some?
    ensures r.Some? ==> |r.value.rest| < |src|
    decreases |src|, 1, 0
  {
    ListFits(rules, options, src);
    var m := rules.list(src).value;
    var items := Items(rules, options, src, m, 0, bq);
    if items.None? then None else Some(Part([List(|m.bullet| > 1, items.value)], AfterList(rules, options, m, src)))
  }

  /** The items of a list from the i-th on. */
  ghost function Items(rules: Rules, options: Options, src: string, m: ListMatch, i: nat, bq: bool): (r: Option<seq<Block>>)
    requires Shrinks(rules) && ListShrinks(rules, src, m) && i <= Members(rules, options, m)
    decreases |src|, 0, |m.items| - i
  {
    hide Shrinks, ListShrinks;
    var members := Members(rules, options, m);
    if i == members then Some([])
    else
      ItemFits(rules, src, m, i);
      var content := Blocks(rules, options, rules.clean(rules.strip(m.items[i])), false, bq);
      if content.None? then None
      else Then([Item(IsLoose(rules, m, members, i), content.value)], Items(rules, options, src, m, i + 1, bq))
  }

  predicate AllItems(items: seq<Block>) {
    forall c | c in items :: Proper(c) && c.Item?
  }
}
