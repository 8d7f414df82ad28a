/** The stylesheet parser (`src/css/parser/mod.rs`).

    The parser reads its own token vocabulary, a superset of the tokenizer's: numbers,
    `.`, `~`, `+`, `::`, `px` and a `None` token that stands for "no token yet".

    `parse_stylesheet` cuts the token stream at braces into (selector part,
    declaration part) pairs, then parses every selector part as a comma-separated list
    of selectors and every declaration part as a semicolon-separated list of
    declarations. Selector parsing fails loudly; declaration parsing skips whatever it
    does not understand. */
module CssParser {
  import opened Results
  import opened Split

  datatype Token = GT | BraceOpen | BraceClose | Comma | ParOpen | ParClose | SemiColon
                 | Colon | Hash | Star | RGB | NoToken | Dot | Tilde | Plus | DoubleColon | Px

  /** An item of the token stream; the source calls the `Symbol` case `Token`. The
      number payload is kept opaque. */
  datatype Lexed = Identifier(name: string) | String(text: string) | Number(value: int)
                 | Symbol(token: Token)

  datatype Stylesheet = Stylesheet(rules: seq<Rule>)

  datatype Rule = Rule(selectors: seq<Selector>, declarations: seq<Declaration>)

  datatype Selector = Selector(identifier: Option<Identifier>, pseudo: seq<Pseudo>, child: Option<SelectorChild>)

  datatype SelectorChild = SelectorChild(selector: Selector, childType: SelectorChildType)

  datatype SelectorChildType = Descendant | Child | GeneralSibling | AdjacentSibling

  datatype Pseudo = Match(matched: PseudoType) | Not(negated: PseudoType)

  datatype PseudoType = FirstChild | LastChild

  datatype Identifier = Identifier(id: seq<string>, classes: seq<string>, iType: IdentifierType)

  datatype IdentifierType = Simple(tagName: Option<string>) | Everything | Any

  datatype Declaration = Declaration(name: string, value: Value)

  datatype Value = Keyword(keyword: string) | Length(number: int, unit: Unit)

  datatype Unit = Px

  /** The `Debug` name of a token, as it appears in error messages. */
  function TokenName(t: Token): string
  {
    match t
    case GT => "GT" case BraceOpen => "BraceOpen" case BraceClose => "BraceClose"
    case Comma => "Comma" case ParOpen => "ParOpen" case ParClose => "ParClose"
    case SemiColon => "SemiColon" case Colon => "Colon" case Hash => "Hash"
    case Star => "Star" case RGB => "RGB" case NoToken => "None" case Dot => "Dot"
    case Tilde => "Tilde" case Plus => "Plus" case DoubleColon => "DoubleColon" case Px => "Px"
  }

  // --------------------------------------------------------------------- split

  /** `split`: the groups of `lexed` between occurrences of the separator. */
  method SplitTokens(lexed: seq<Lexed>, with: Token) returns (r: Result<seq<seq<Lexed>>>)
    ensures r == Ok(SplitBy(lexed, {Symbol(with)}))
  {
    var splitted: seq<seq<Lexed>> := [];
    var buf: seq<Lexed> := [];
    for i := 0 to |lexed|
      invariant splitted + [buf] == SplitBy(lexed[..i], {Symbol(with)})
    {
      assert lexed[..i + 1] == lexed[..i] + [lexed[i]];
      if lexed[i] == Symbol(with) {
        SplitAppendSep(lexed[..i], lexed[i], {Symbol(with)});
        splitted := splitted + [buf];
        buf := [];
      } else {
        SplitAppendOther(lexed[..i], lexed[i], {Symbol(with)});
        assert (splitted + [buf])[..|splitted|] == splitted;
        buf := buf + [lexed[i]];
      }
    }
    assert lexed[..|lexed|] == lexed;
    return Ok(splitted + [buf]);
  }

  // ---------------------------------------------------------- brace splitting

  const Braces: set<Lexed> := {Symbol(BraceOpen), Symbol(BraceClose)}

  /** The pairs built so far and the tokens since the last brace. */
  datatype BraceState = BraceState(pairs: seq<(seq<Lexed>, seq<Lexed>)>, buf: seq<Lexed>)

  /** The source unwraps the last pair at every `}`: a `}` needs an earlier `{`, or a
      pair already built. */
  predicate CanFeed(s: BraceState, xs: seq<Lexed>)
  {
    forall i :: 0 <= i < |xs| && xs[i] == Symbol(BraceClose) ==>
      |s.pairs| > 0 || Symbol(BraceOpen) in xs[..i]
  }

  /** One iteration of the brace loop of `parse_stylesheet`. */
  function BraceStep(s: BraceState, x: Lexed): (r: BraceState)
    requires x == Symbol(BraceClose) ==> |s.pairs| > 0
    ensures |r.pairs| > 0 <==> |s.pairs| > 0 || x == Symbol(BraceOpen)
  {
    if x == Symbol(BraceOpen) then BraceState(s.pairs + [(s.buf, [])], [])
    else if x == Symbol(BraceClose) then
      var last := s.pairs[|s.pairs| - 1];
      BraceState(s.pairs[..|s.pairs| - 1] + [(last.0, s.buf)], [])
    else BraceState(s.pairs, s.buf + [x])
  }

  /** The brace loop run over `xs` from state `s`. */
  function Feed(s: BraceState, xs: seq<Lexed>): (r: BraceState)
    requires CanFeed(s, xs)
    ensures |r.pairs| > 0 <==> |s.pairs| > 0 || Symbol(BraceOpen) in xs
  {
    if |xs| == 0 then s
    else
      var init := xs[..|xs| - 1];
      assert forall i :: 0 <= i < |init| ==> init[..i] == xs[..i];
      assert Symbol(BraceOpen) in xs <==> Symbol(BraceOpen) in init || xs[|xs| - 1] == Symbol(BraceOpen);
      BraceStep(Feed(s, init), xs[|xs| - 1])
  }

  /** The (selector part, declaration part) pairs of `parse_stylesheet`. */
  function Pairs(lexed: seq<Lexed>): seq<(seq<Lexed>, seq<Lexed>)>
    requires CanFeed(BraceState([], []), lexed)
  {
    Feed(BraceState([], []), lexed).pairs
  }

  /** The brace loop of `parse_stylesheet`. */
  method SplitRules(lexed: seq<Lexed>) returns (splitted: seq<(seq<Lexed>, seq<Lexed>)>)
    requires CanFeed(BraceState([], []), lexed)
    ensures splitted == Pairs(lexed)
  {
    splitted := [];
    var buf: seq<Lexed> := [];
    for i := 0 to |lexed|
      invariant CanFeed(BraceState([], []), lexed[..i])
      invariant Feed(BraceState([], []), lexed[..i]) == BraceState(splitted, buf)
    {
      assert lexed[..i + 1][..i] == lexed[..i];
      assert forall j :: 0 <= j <= i ==> lexed[..i + 1][..j] == lexed[..j];
      if lexed[i] == Symbol(BraceOpen) {
        splitted := splitted + [(buf, [])];
        buf := [];
        continue;
      } else if lexed[i] == Symbol(BraceClose) {
        var last := splitted[|splitted| - 1];
        splitted := splitted[..|splitted| - 1];
        last := (last.0, buf);
        splitted := splitted + [last];
        buf := [];
        continue;
      }
      buf := buf + [lexed[i]];
    }
    assert lexed[..|lexed|] == lexed;
  }

  /** No brace among the tokens. */
  predicate BraceFree(xs: seq<Lexed>)
  {
    forall i :: 0 <= i < |xs| ==> xs[i] !in Braces
  }

  lemma CanFeedPrefix(s: BraceState, xs: seq<Lexed>, k: nat)
    requires k <= |xs| && CanFeed(s, xs)
    ensures CanFeed(s, xs[..k])
  {
    forall i | 0 <= i < k
      ensures xs[..k][..i] == xs[..i]
    {
    }
  }

  /** Running the loop over `xs + ys` is running it over `xs`, then over `ys`. */
  lemma {:induction false} FeedAppend(s: BraceState, xs: seq<Lexed>, ys: seq<Lexed>)
    requires CanFeed(s, xs + ys)
    ensures CanFeed(s, xs) && CanFeed(Feed(s, xs), ys)
    ensures Feed(s, xs + ys) == Feed(Feed(s, xs), ys)
    decreases |ys|
  {
    CanFeedPrefix(s, xs + ys, |xs|);
    assert (xs + ys)[..|xs|] == xs;
    forall i | 0 <= i < |ys| && ys[i] == Symbol(BraceClose)
      ensures |Feed(s, xs).pairs| > 0 || Symbol(BraceOpen) in ys[..i]
    {
      assert (xs + ys)[|xs| + i] == ys[i];
      assert (xs + ys)[..|xs| + i] == xs + ys[..i];
    }
    if |ys| == 0 {
      assert xs + ys == xs;
    } else {
      var ys' := ys[..|ys| - 1];
      assert (xs + ys)[..|xs + ys| - 1] == xs + ys';
      CanFeedPrefix(s, xs + ys, |xs + ys| - 1);
      FeedAppend(s, xs, ys');
    }
  }

  /** Brace-free tokens only extend the buffer. */
  lemma {:induction false} FeedPlain(s: BraceState, seg: seq<Lexed>)
    requires BraceFree(seg)
    ensures CanFeed(s, seg) && Feed(s, seg) == BraceState(s.pairs, s.buf + seg)
    decreases |seg|
  {
    if |seg| == 0 {
      assert s.buf + seg == s.buf;
    } else {
      var init := seg[..|seg| - 1];
      FeedPlain(s, init);
      assert s.buf + init + [seg[|seg| - 1]] == s.buf + seg;
    }
  }

  /** A `{` after brace-free tokens opens a pair whose selector part is everything since
      the previous brace, with an empty declaration part. */
  lemma OpenAppends(s: BraceState, seg: seq<Lexed>)
    requires BraceFree(seg)
    ensures CanFeed(s, seg + [Symbol(BraceOpen)])
    ensures Feed(s, seg + [Symbol(BraceOpen)]) == BraceState(s.pairs + [(s.buf + seg, [])], [])
  {
    FeedPlain(s, seg);
    var xs := seg + [Symbol(BraceOpen)];
    assert xs[..|seg|] == seg;
    assert forall i :: 0 <= i < |seg| ==> xs[i] == seg[i];
  }

  /** A `}` after brace-free tokens overwrites the declaration part of the most recent
      pair with everything since the previous brace. */
  lemma CloseOverwrites(s: BraceState, seg: seq<Lexed>)
    requires |s.pairs| > 0 && BraceFree(seg)
    ensures CanFeed(s, seg + [Symbol(BraceClose)])
    ensures var n := |s.pairs|;
      Feed(s, seg + [Symbol(BraceClose)])
      == BraceState(s.pairs[..n - 1] + [(s.pairs[n - 1].0, s.buf + seg)], [])
  {
    FeedPlain(s, seg);
    var xs := seg + [Symbol(BraceClose)];
    assert xs[..|seg|] == seg;
  }

  /** Tokens after the last brace never reach a pair. */
  lemma TailDropped(xs: seq<Lexed>, tail: seq<Lexed>)
    requires CanFeed(BraceState([], []), xs) && BraceFree(tail)
    ensures CanFeed(BraceState([], []), xs + tail) && Pairs(xs + tail) == Pairs(xs)
  {
    var s := BraceState([], []);
    FeedPlain(Feed(s, xs), tail);
    assert CanFeed(s, xs + tail) by {
      forall i | 0 <= i < |xs + tail| && (xs + tail)[i] == Symbol(BraceClose)
        ensures Symbol(BraceOpen) in (xs + tail)[..i]
      {
        assert i < |xs|;
        assert (xs + tail)[..i] == xs[..i];
      }
    }
    FeedAppend(s, xs, tail);
  }

  /** One rule written `selector { declarations }`. */
  function RuleTokens(sel: seq<Lexed>, decl: seq<Lexed>): seq<Lexed>
  {
    sel + [Symbol(BraceOpen)] + decl + [Symbol(BraceClose)]
  }

  /** A well-formed stylesheet: every rule written `selector { declarations }`. */
  function Join(rules: seq<(seq<Lexed>, seq<Lexed>)>): seq<Lexed>
  {
    if |rules| == 0 then []
    else
      var r := rules[|rules| - 1];
      Join(rules[..|rules| - 1]) + RuleTokens(r.0, r.1)
  }

  /** Feeding `xs` and then `ys` is allowed whenever each part is allowed on its own. */
  lemma CanFeedConcat(s: BraceState, xs: seq<Lexed>, ys: seq<Lexed>)
    requires CanFeed(s, xs) && CanFeed(Feed(s, xs), ys)
    ensures CanFeed(s, xs + ys)
  {
    var all := xs + ys;
    forall i | 0 <= i < |all| && all[i] == Symbol(BraceClose)
      ensures |s.pairs| > 0 || Symbol(BraceOpen) in all[..i]
    {
      if i < |xs| {
        assert all[..i] == xs[..i];
      } else {
        assert all[..i] == xs + ys[..i - |xs|];
        assert ys[i - |xs|] == Symbol(BraceClose);
      }
    }
  }

  /** One rule written `selector { declarations }` adds exactly its pair. */
  lemma JoinOne(s: BraceState, sel: seq<Lexed>, decl: seq<Lexed>)
    requires BraceFree(sel) && BraceFree(decl) && s.buf == []
    ensures CanFeed(s, RuleTokens(sel, decl))
    ensures Feed(s, RuleTokens(sel, decl)) == BraceState(s.pairs + [(sel, decl)], [])
  {
    var open := sel + [Symbol(BraceOpen)];
    var close := decl + [Symbol(BraceClose)];
    assert RuleTokens(sel, decl) == open + close;
    OpenAppends(s, sel);
    var s' := Feed(s, open);
    assert s.buf + sel == sel;
    assert s' == BraceState(s.pairs + [(sel, [])], []);
    CloseOverwrites(s', decl);
    assert s'.buf + decl == decl;
    assert s'.pairs[..|s.pairs|] == s.pairs;
    CanFeedConcat(s, open, close);
    FeedAppend(s, open, close);
  }

  /** No brace inside any selector or declaration part. */
  predicate BraceFreeRules(rules: seq<(seq<Lexed>, seq<Lexed>)>)
  {
    forall i :: 0 <= i < |rules| ==> BraceFree(rules[i].0) && BraceFree(rules[i].1)
  }

  /** Round trip: brace splitting recovers the rules of a well-formed stylesheet. */
  lemma {:induction false} PairsJoin(rules: seq<(seq<Lexed>, seq<Lexed>)>)
    requires BraceFreeRules(rules)
    ensures CanFeed(BraceState([], []), Join(rules))
    ensures Feed(BraceState([], []), Join(rules)) == BraceState(rules, [])
    decreases |rules|
  {
    if |rules| > 0 {
      var init := rules[..|rules| - 1];
      var r := rules[|rules| - 1];
      assert BraceFreeRules(init);
      PairsJoin(init);
      JoinStep(init, r);
      Snoc(rules);
    }
  }

  lemma JoinStep(init: seq<(seq<Lexed>, seq<Lexed>)>, r: (seq<Lexed>, seq<Lexed>))
    requires BraceFree(r.0) && BraceFree(r.1)
    requires CanFeed(BraceState([], []), Join(init))
    requires Feed(BraceState([], []), Join(init)) == BraceState(init, [])
    ensures CanFeed(BraceState([], []), Join(init + [r]))
    ensures Feed(BraceState([], []), Join(init + [r])) == BraceState(init + [r], [])
  {
    var tail := RuleTokens(r.0, r.1);
    assert (init + [r])[..|init|] == init;
    assert Join(init + [r]) == Join(init) + tail;
    JoinOne(BraceState(init, []), r.0, r.1);
    CanFeedConcat(BraceState([], []), Join(init), tail);
    FeedAppend(BraceState([], []), Join(init), tail);
  }

  /** One pair per `{`. */
  lemma {:induction false} PairsCount(s: BraceState, xs: seq<Lexed>)
    requires CanFeed(s, xs)
    ensures |Feed(s, xs).pairs| == |s.pairs| + |Filter(xs, {Symbol(BraceOpen)})|
    decreases |xs|
  {
    if |xs| > 0 {
      CanFeedPrefix(s, xs, |xs| - 1);
      PairsCount(s, xs[..|xs| - 1]);
    }
  }

  // ----------------------------------------------------------- parse_selector

  /** The tokens after which an identifier is a class, id or pseudo-class name, which
      the parser skips. */
  const Qualifiers: set<Token> := {Hash, Dot, Colon, DoubleColon}

  /** The tokens after which an identifier starts a nested selector. */
  const Combinators: set<Token> := {NoToken, GT, Tilde, Plus}

  function KindOf(prev: Token): (k: SelectorChildType)
    requires prev in Combinators
  {
    match prev
    case GT => Child
    case Tilde => GeneralSibling
    case Plus => AdjacentSibling
    case _ => Descendant
  }

  const Empty: Selector := Selector(None, [], None)

  function Tag(name: string): Identifier
  {
    Identifier.Identifier([], [], Simple(Some(name)))
  }

  /** The loop of `parse_selector`, from cursor `cur` over the whole group `xs`.
      `first` holds before the first item this call looks at, and `prev` is the last
      token seen (`NoToken` after an identifier). An identifier that follows a
      combinator starts a nested parse AT THE SAME cursor, which shares the cursor
      with its caller: the nested parse runs to the end of the group, and the caller
      then steps past the end and stops. The result carries the final cursor. */
  function ParseLoop(xs: seq<Lexed>, cur: nat, first: bool, prev: Token, sel: Selector)
    : (r: Result<(Selector, nat)>)
    ensures r.Ok? ==> r.value.1 >= |xs| && r.value.1 >= cur
    decreases (if cur < |xs| then |xs| - cur else 0), (if first then 0 else 1)
  {
    if cur >= |xs| then Ok((sel, cur))
    else
      match xs[cur]
      case String(text) => Err("Unexpected string in selector: \"" + text + "\"")
      case Identifier(name) =>
        if first then ParseLoop(xs, cur + 1, false, NoToken, sel.(identifier := Some(Tag(name))))
        else if prev in Qualifiers then ParseLoop(xs, cur + 1, false, NoToken, sel)
        else if prev in Combinators then
          match ParseLoop(xs, cur, true, NoToken, Empty)
          case Err(e) => Err(e)
          case Ok((child, end)) =>
            ParseLoop(xs, end + 1, false, NoToken, sel.(child := Some(SelectorChild(child, KindOf(prev)))))
        else Err("Unexpected token in selector: '" + TokenName(prev) + "'")
      case Number(_) => ParseLoop(xs, cur + 1, false, prev, sel)
      case Symbol(t) =>
        if t == Star && !first then Err("Unexpected '*' in selector")
        else
          var sel' := if t == Star then sel.(identifier := Some(Identifier.Identifier([], [], Everything))) else sel;
          ParseLoop(xs, cur + 1, false, t, sel')
  }

  /** `parse_selector` on one comma-separated group, with the cursor reset to 0. */
  function ParseSelector(xs: seq<Lexed>): (r: Result<Selector>)
  {
    match ParseLoop(xs, 0, true, NoToken, Empty)
    case Err(e) => Err(e)
    case Ok((sel, _)) => Ok(sel)
  }

  /** The token that announces each kind of nesting; `NoToken` stands for a
      descendant, which nothing but whitespace announces. */
  function Joiner(k: SelectorChildType): (t: Token)
    ensures t in Combinators && KindOf(t) == k
  {
    match k
    case Descendant => NoToken
    case Child => GT
    case GeneralSibling => Tilde
    case AdjacentSibling => Plus
  }

  /** The tokens written between a selector's element and its nested selector. A
      descendant needs nothing after a tag name; with no element it needs a number
      (skipped, but it ends the first position); after `*` it needs a qualified name
      such as `.x`, since `*` itself would stay the previous token. */
  function Link(id: Option<Identifier>, k: SelectorChildType): seq<Lexed>
  {
    if k != Descendant then [Symbol(Joiner(k))]
    else match id
      case None => [Number(0)]
      case Some(Identifier(_, _, Everything)) => [Symbol(Dot), Lexed.Identifier("x")]
      case _ => []
  }

  /** The token naming a selector's element: its tag name, `*`, or nothing. */
  function HeadTokens(id: Option<Identifier>): seq<Lexed>
  {
    match id
    case Some(Identifier(_, _, Simple(Some(name)))) => [Lexed.Identifier(name)]
    case Some(Identifier(_, _, Everything)) => [Symbol(Star)]
    case _ => []
  }

  /** Writes a selector back as tokens: its element, then its nested selector. */
  function Render(s: Selector): seq<Lexed>
    decreases s
  {
    match s.child
    case None => HeadTokens(s.identifier)
    case Some(ch) => HeadTokens(s.identifier) + Link(s.identifier, ch.childType) + Render(ch.selector)
  }

  /** The shape of the selectors `parse_selector` returns: no ids, classes or
      pseudo-classes; at the top an element that is a tag name, `*`, or absent; in
      every nested selector a tag name. `Producible` shows these are exactly the
      parser's results. */
  predicate Renderable(s: Selector, top: bool)
    decreases s
  {
    && s.pseudo == []
    && (match s.identifier
        case None => top
        case Some(id) =>
          && id.id == [] && id.classes == []
          && (match id.iType
              case Simple(name) => name.Some?
              case Everything => top
              case Any => false))
    && (s.child.Some? ==> Renderable(s.child.value.selector, false))
  }

  /** The first item of a parse sets the element name. */
  lemma HeadStep(xs: seq<Lexed>, c: nat, id: Identifier)
    requires c < |xs| && Renderable(Selector(Some(id), [], None), true)
    requires xs[c] == HeadTokens(Some(id))[0]
    ensures ParseLoop(xs, c, true, NoToken, Empty)
         == ParseLoop(xs, c + 1, false, if id.iType.Everything? then Star else NoToken,
                      Selector(Some(id), [], None))
  {
  }

  /** A first item that is a number or a symbol other than `*` leaves the element empty. */
  lemma HeadlessStep(xs: seq<Lexed>, c: nat)
    requires c < |xs| && (xs[c].Number? || (xs[c].Symbol? && xs[c].token != Star))
    ensures ParseLoop(xs, c, true, NoToken, Empty)
         == ParseLoop(xs, c + 1, false, if xs[c].Number? then NoToken else xs[c].token, Empty)
  {
  }

  /** An identifier after a qualifier is read past. */
  lemma QualifiedStep(xs: seq<Lexed>, c: nat, q: Token, sel: Selector)
    requires c < |xs| && xs[c].Identifier? && q in Qualifiers
    ensures ParseLoop(xs, c, false, q, sel) == ParseLoop(xs, c + 1, false, NoToken, sel)
  {
  }

  /** An identifier after a combinator nests the parse that starts at it. */
  lemma ChildStep(xs: seq<Lexed>, d: nat, p: Token, sel: Selector)
    requires d < |xs| && xs[d].Identifier? && p in Combinators
    requires ParseLoop(xs, d, true, NoToken, Empty).Ok?
    ensures ParseLoop(xs, d, false, p, sel).Ok?
    ensures ParseLoop(xs, d, false, p, sel).value.0
         == sel.(child := Some(SelectorChild(ParseLoop(xs, d, true, NoToken, Empty).value.0, KindOf(p))))
  {
    var end := ParseLoop(xs, d, true, NoToken, Empty).value.1;
    assert ParseLoop(xs, end + 1, false, NoToken, sel.(child := Some(SelectorChild(ParseLoop(xs, d, true, NoToken, Empty).value.0, KindOf(p))))).Ok?;
  }

  /** A token other than `*` only becomes the previous token. */
  lemma SymbolStep(xs: seq<Lexed>, c: nat, prev: Token, sel: Selector)
    requires c < |xs| && xs[c].Symbol? && xs[c].token != Star
    ensures ParseLoop(xs, c, false, prev, sel) == ParseLoop(xs, c + 1, false, xs[c].token, sel)
  {
  }

  /** Where the nested selector of a written selector starts. */
  function ChildStart(c: nat, s: Selector): nat
    requires s.child.Some?
  {
    c + |HeadTokens(s.identifier)| + |Link(s.identifier, s.child.value.childType)|
  }

  /** A written selector without nesting parses to its element alone. */
  lemma RenderParseLeaf(xs: seq<Lexed>, c: nat, s: Selector, top: bool)
    requires c <= |xs| && xs[c..] == Render(s) && Renderable(s, top) && s.child.None?
    ensures ParseLoop(xs, c, true, NoToken, Empty).Ok?
    ensures ParseLoop(xs, c, true, NoToken, Empty).value.0 == s
  {
    if s.identifier.Some? {
      var id := s.identifier.value;
      assert xs[c] == HeadTokens(s.identifier)[0];
      HeadStep(xs, c, id);
      assert |xs| == c + 1;
    } else {
      assert |xs| == c;
    }
  }

  /** Reading past the element and the link of a written selector without element. */
  lemma HeadlessPrefix(xs: seq<Lexed>, c: nat, s: Selector)
    requires c <= |xs| && xs[c..] == Render(s) && Renderable(s, true)
    requires s.child.Some? && s.identifier.None?
    ensures ParseLoop(xs, c, true, NoToken, Empty)
         == ParseLoop(xs, ChildStart(c, s), false, Joiner(s.child.value.childType), Empty)
  {
    var k := s.child.value.childType;
    assert Render(s) == Link(None, k) + Render(s.child.value.selector);
    assert xs[c] == Link(None, k)[0];
    HeadlessStep(xs, c);
  }

  /** Reading past the element and the link of a written selector with an element. */
  lemma HeadedPrefix(xs: seq<Lexed>, c: nat, s: Selector, top: bool)
    requires c <= |xs| && xs[c..] == Render(s) && Renderable(s, top)
    requires s.child.Some? && s.identifier.Some?
    ensures ParseLoop(xs, c, true, NoToken, Empty)
         == ParseLoop(xs, ChildStart(c, s), false, Joiner(s.child.value.childType),
                      Selector(s.identifier, [], None))
  {
    var id := s.identifier.value;
    var ch := s.child.value;
    var head := HeadTokens(s.identifier);
    var sel := Selector(Some(id), [], None);
    var prev := if id.iType.Everything? then Star else NoToken;
    var link := Link(s.identifier, ch.childType);
    assert Render(s) == head + link + Render(ch.selector);
    assert xs[c] == head[0];
    HeadStep(xs, c, id);
    if link != [] {
      assert xs[c + 1] == link[0];
      SymbolStep(xs, c + 1, prev, sel);
      if |link| == 2 {
        assert xs[c + 2] == link[1];
        QualifiedStep(xs, c + 2, Dot, sel);
      }
    }
  }

  /** A written selector with nesting parses to its element and the nested parse. */
  lemma RenderParseNested(xs: seq<Lexed>, c: nat, s: Selector, top: bool)
    requires c <= |xs| && xs[c..] == Render(s) && Renderable(s, top) && s.child.Some?
    requires ChildStart(c, s) < |xs| && xs[ChildStart(c, s)].Identifier?
    requires ParseLoop(xs, ChildStart(c, s), true, NoToken, Empty).Ok?
    requires ParseLoop(xs, ChildStart(c, s), true, NoToken, Empty).value.0 == s.child.value.selector
    ensures ParseLoop(xs, c, true, NoToken, Empty).Ok?
    ensures ParseLoop(xs, c, true, NoToken, Empty).value.0 == s
  {
    if s.identifier.Some? {
      HeadedPrefix(xs, c, s, top);
    } else {
      HeadlessPrefix(xs, c, s);
    }
    ChildStep(xs, ChildStart(c, s), Joiner(s.child.value.childType), Selector(s.identifier, [], None));
  }

  lemma {:induction false} RenderParseFrom(xs: seq<Lexed>, c: nat, s: Selector, top: bool)
    requires c <= |xs| && xs[c..] == Render(s) && Renderable(s, top)
    ensures ParseLoop(xs, c, true, NoToken, Empty).Ok?
    ensures ParseLoop(xs, c, true, NoToken, Empty).value.0 == s
    decreases s
  {
    match s.child
    case None =>
      RenderParseLeaf(xs, c, s, top);
    case Some(ch) =>
      var d := ChildStart(c, s);
      assert Render(s) == HeadTokens(s.identifier) + Link(s.identifier, ch.childType) + Render(ch.selector);
      assert xs[d..] == Render(ch.selector);
      RenderParseFrom(xs, d, ch.selector, false);
      assert xs[d] == Render(ch.selector)[0];
      RenderParseNested(xs, c, s, top);
  }

  /** Round trip: parsing a written selector gives the selector back. */
  lemma RenderParse(s: Selector)
    requires Renderable(s, true)
    ensures ParseSelector(Render(s)) == Ok(s)
  {
    RenderParseFrom(Render(s), 0, s, true);
  }

  // ---------------------------------------------- parse_selector, by position

  /* The nested parses share one cursor and never revisit an item, so the whole run
     reads the group left to right once. The definitions below describe the outcome
     by position instead: the previous token at each position, the positions that make
     the parse fail, and the positions where a nested selector starts. */

  /** The previous token when the parser reaches position `k`: the last token before
      `k`, where an identifier counts as `NoToken` and numbers are skipped. */
  function PrevAt(xs: seq<Lexed>, k: nat): Token
    requires k <= |xs|
  {
    if k == 0 then NoToken
    else match xs[k - 1]
      case Symbol(t) => t
      case Number(_) => PrevAt(xs, k - 1)
      case _ => NoToken
  }

  /** The error raised at position `k`, if any: a string anywhere, a `*` after the
      first position, or an identifier after a token that neither qualifies it nor
      nests it. */
  function Fault(xs: seq<Lexed>, k: nat): Option<string>
    requires k < |xs|
  {
    match xs[k]
    case String(text) => Some("Unexpected string in selector: \"" + text + "\"")
    case Symbol(t) => if t == Star && k > 0 then Some("Unexpected '*' in selector") else None
    case Identifier(_) =>
      var prev := PrevAt(xs, k);
      if k > 0 && prev !in Qualifiers && prev !in Combinators
      then Some("Unexpected token in selector: '" + TokenName(prev) + "'")
      else None
    case Number(_) => None
  }

  /** The first error at or after position `k`. */
  function FirstFault(xs: seq<Lexed>, k: nat): Option<string>
    decreases |xs| - k
  {
    if k >= |xs| then None
    else if Fault(xs, k).Some? then Fault(xs, k)
    else FirstFault(xs, k + 1)
  }

  /** Is position `j` an identifier that starts a nested selector? */
  predicate Nests(xs: seq<Lexed>, j: nat)
    requires j < |xs|
  {
    xs[j].Identifier? && PrevAt(xs, j) in Combinators
  }

  /** The first position at or after `k` that starts a nested selector. */
  function NextChild(xs: seq<Lexed>, k: nat): (r: Option<nat>)
    ensures r.Some? ==> k <= r.value < |xs| && Nests(xs, r.value)
    decreases |xs| - k
  {
    if k >= |xs| then None
    else if Nests(xs, k) then Some(k)
    else NextChild(xs, k + 1)
  }

  /** What the first item of a selector contributes as its element. */
  function HeadOf(x: Lexed): Option<Identifier>
  {
    match x
    case Identifier(name) => Some(Tag(name))
    case Symbol(Star) => Some(Identifier.Identifier([], [], Everything))
    case _ => None
  }

  /** The selector whose first item is at position `c`: its element comes from that
      item, and it nests the selector starting at the next nesting position. */
  function Nest(xs: seq<Lexed>, c: nat): Selector
    decreases |xs| - c, 1
  {
    Selector(if c < |xs| then HeadOf(xs[c]) else None, [], ChildAt(xs, c + 1))
  }

  function ChildAt(xs: seq<Lexed>, k: nat): Option<SelectorChild>
    requires k >= 1
    decreases |xs| - k + 1, 0
  {
    match NextChild(xs, k)
    case None => None
    case Some(j) => Some(SelectorChild(Nest(xs, j), KindOf(PrevAt(xs, j))))
  }

  /** `parse_selector` described by position: the first error, or the nested selectors. */
  function Selected(xs: seq<Lexed>): Result<Selector>
  {
    match FirstFault(xs, 0)
    case Some(e) => Err(e)
    case None => Ok(Nest(xs, 0))
  }

  /** Agreement of a loop result with the description by position. */
  predicate Agrees(r: Result<(Selector, nat)>, fault: Option<string>, expected: Selector)
  {
    match fault
    case Some(e) => r == Err(e)
    case None => r.Ok? && r.value.0 == expected
  }

  /** The loop after its first item, at a position `cur` with no nested selector yet. */
  lemma {:induction false} ContinueAgrees(xs: seq<Lexed>, cur: nat, sel: Selector)
    requires 1 <= cur <= |xs| && sel.child.None?
    ensures Agrees(ParseLoop(xs, cur, false, PrevAt(xs, cur), sel),
                   FirstFault(xs, cur), sel.(child := ChildAt(xs, cur)))
    decreases |xs| - cur, 1
  {
    if cur < |xs| {
      var prev := PrevAt(xs, cur);
      match xs[cur]
      case String(_) =>
      case Identifier(_) =>
        if prev in Qualifiers {
          ContinueAgrees(xs, cur + 1, sel);
        } else if prev in Combinators {
          HeadAgrees(xs, cur);
        }
      case Number(_) =>
        ContinueAgrees(xs, cur + 1, sel);
      case Symbol(t) =>
        if t != Star {
          ContinueAgrees(xs, cur + 1, sel);
        }
    }
  }

  /** The loop from the first item of a selector: the start of the group, or an
      identifier that nests. */
  lemma {:induction false} HeadAgrees(xs: seq<Lexed>, c: nat)
    requires c <= |xs|
    requires c == 0 || (c < |xs| && xs[c].Identifier? && Fault(xs, c).None?)
    ensures Agrees(ParseLoop(xs, c, true, NoToken, Empty), FirstFault(xs, c), Nest(xs, c))
    decreases |xs| - c, 0
  {
    if c < |xs| {
      match xs[c]
      case String(_) =>
      case Identifier(name) =>
        ContinueAgrees(xs, c + 1, Empty.(identifier := Some(Tag(name))));
      case Number(_) =>
        assert c == 0 && PrevAt(xs, 1) == PrevAt(xs, 0) == NoToken;
        ContinueAgrees(xs, c + 1, Empty);
      case Symbol(t) =>
        ContinueAgrees(xs, c + 1, Empty.(identifier := HeadOf(xs[c])));
    }
  }

  /** `parse_selector` fails with the first error by position, and otherwise builds
      the nested selectors by position. */
  lemma SelectorByPosition(xs: seq<Lexed>)
    ensures ParseSelector(xs) == Selected(xs)
  {
    HeadAgrees(xs, 0);
  }

  lemma {:induction false} FirstFaultNone(xs: seq<Lexed>, k: nat)
    ensures FirstFault(xs, k).None? <==> forall i :: k <= i < |xs| ==> Fault(xs, i).None?
    decreases |xs| - k
  {
    if k < |xs| {
      FirstFaultNone(xs, k + 1);
    }
  }

  /** A selector parses exactly when no position is at fault. */
  lemma SelectorAccepted(xs: seq<Lexed>)
    ensures ParseSelector(xs).Ok? <==> forall i :: 0 <= i < |xs| ==> Fault(xs, i).None?
  {
    SelectorByPosition(xs);
    FirstFaultNone(xs, 0);
  }

  /** A string anywhere in a selector is an error. */
  lemma StringRejected(xs: seq<Lexed>, i: nat)
    requires i < |xs| && xs[i].String?
    ensures ParseSelector(xs).Err?
  {
    SelectorAccepted(xs);
    assert Fault(xs, i).Some?;
  }

  /** A `*` after the first position is an error. */
  lemma StarRejected(xs: seq<Lexed>, i: nat)
    requires 0 < i < |xs| && xs[i] == Symbol(Star)
    ensures ParseSelector(xs).Err?
  {
    SelectorAccepted(xs);
    assert Fault(xs, i).Some?;
  }

  /** No id, class or pseudo-class is ever recorded, at any level of nesting. */
  predicate Bare(s: Selector)
    decreases s
  {
    && s.pseudo == []
    && (s.identifier.Some? ==> s.identifier.value.id == [] && s.identifier.value.classes == [])
    && (s.child.Some? ==> Bare(s.child.value.selector))
  }

  lemma {:induction false} NestBare(xs: seq<Lexed>, c: nat)
    ensures Bare(Nest(xs, c))
    decreases |xs| - c
  {
    var n := NextChild(xs, c + 1);
    if n.Some? {
      NestBare(xs, n.value);
    }
  }

  /** Whatever `parse_selector` builds carries no id, class or pseudo-class. */
  lemma SelectorBare(xs: seq<Lexed>)
    requires ParseSelector(xs).Ok?
    ensures Bare(ParseSelector(xs).value)
  {
    SelectorByPosition(xs);
    NestBare(xs, 0);
  }

  lemma {:induction false} NestRenderable(xs: seq<Lexed>, c: nat)
    requires c == 0 || (c < |xs| && xs[c].Identifier?)
    ensures Renderable(Nest(xs, c), c == 0)
    decreases |xs| - c
  {
    var n := NextChild(xs, c + 1);
    if n.Some? {
      NestRenderable(xs, n.value);
    }
  }

  /** Whatever `parse_selector` returns has the shape `Renderable` describes. */
  lemma ParsedRenderable(xs: seq<Lexed>)
    requires ParseSelector(xs).Ok?
    ensures Renderable(ParseSelector(xs).value, true)
  {
    SelectorByPosition(xs);
    NestRenderable(xs, 0);
  }

  /** The selectors `parse_selector` can return are exactly the `Renderable` ones:
      each of those is the parse of its written form. */
  lemma Producible(s: Selector)
    ensures Renderable(s, true) <==> exists xs :: ParseSelector(xs) == Ok(s)
  {
    if Renderable(s, true) {
      RenderParse(s);
    }
    if exists xs :: ParseSelector(xs) == Ok(s) {
      var xs :| ParseSelector(xs) == Ok(s);
      ParsedRenderable(xs);
    }
  }

  /** `* a`: the universal selector followed by a descendant is rejected, because `*`
      stays the previous token when the identifier arrives. */
  lemma UniversalDescendantRejected(name: string)
    ensures ParseSelector([Symbol(Star), Lexed.Identifier(name)])
         == Err("Unexpected token in selector: 'Star'")
  {
    var xs := [Symbol(Star), Lexed.Identifier(name)];
    var sel := Empty.(identifier := Some(Identifier.Identifier([], [], Everything)));
    assert Star !in Qualifiers && Star !in Combinators;
    assert ParseLoop(xs, 1, false, Star, sel) == Err("Unexpected token in selector: 'Star'");
    assert ParseLoop(xs, 0, true, NoToken, Empty) == ParseLoop(xs, 1, false, Star, sel);
  }

  /** `a.b`: a class name is read past and dropped. */
  lemma ClassDropped(a: string, b: string)
    ensures ParseSelector([Lexed.Identifier(a), Symbol(Dot), Lexed.Identifier(b)])
         == Ok(Selector(Some(Tag(a)), [], None))
  {
    var xs := [Lexed.Identifier(a), Symbol(Dot), Lexed.Identifier(b)];
    var sel := Selector(Some(Tag(a)), [], None);
    assert ParseLoop(xs, 3, false, NoToken, sel) == Ok((sel, 3));
    assert Dot in Qualifiers;
    assert ParseLoop(xs, 2, false, Dot, sel) == ParseLoop(xs, 3, false, NoToken, sel);
    assert ParseLoop(xs, 1, false, NoToken, sel) == ParseLoop(xs, 2, false, Dot, sel);
    assert ParseLoop(xs, 0, true, NoToken, Empty) == ParseLoop(xs, 1, false, NoToken, sel);
  }

  /** `a > b`. */
  lemma ChildExample(a: string, b: string)
    ensures ParseSelector([Lexed.Identifier(a), Symbol(GT), Lexed.Identifier(b)])
         == Ok(Selector(Some(Tag(a)), [], Some(SelectorChild(Selector(Some(Tag(b)), [], None), Child))))
  {
    var xs := [Lexed.Identifier(a), Symbol(GT), Lexed.Identifier(b)];
    var sel := Selector(Some(Tag(a)), [], None);
    var inner := Selector(Some(Tag(b)), [], None);
    var whole := sel.(child := Some(SelectorChild(inner, Child)));
    assert ParseLoop(xs, 3, false, NoToken, inner) == Ok((inner, 3));
    assert ParseLoop(xs, 2, true, NoToken, Empty) == Ok((inner, 3));
    assert ParseLoop(xs, 4, false, NoToken, whole) == Ok((whole, 4));
    assert GT in Combinators && KindOf(GT) == Child;
    assert ParseLoop(xs, 2, false, GT, sel) == Ok((whole, 4));
    assert ParseLoop(xs, 1, false, NoToken, sel) == ParseLoop(xs, 2, false, GT, sel);
    assert ParseLoop(xs, 0, true, NoToken, Empty) == ParseLoop(xs, 1, false, NoToken, sel);
  }

  /** Selectors without an element: an empty group (as in `a,` or `{ }`), and `> a`. */
  lemma HeadlessExamples(a: string)
    ensures ParseSelector([]) == Ok(Empty)
    ensures ParseSelector([Symbol(GT), Lexed.Identifier(a)])
         == Ok(Selector(None, [], Some(SelectorChild(Selector(Some(Tag(a)), [], None), Child))))
  {
    var s := Selector(None, [], Some(SelectorChild(Selector(Some(Tag(a)), [], None), Child)));
    assert Render(s) == [Symbol(GT), Lexed.Identifier(a)];
    RenderParse(s);
  }

  /** `*.x a`: after a qualified name, `*` does take a descendant. */
  lemma UniversalQualifiedDescendant(a: string)
    ensures ParseSelector([Symbol(Star), Symbol(Dot), Lexed.Identifier("x"), Lexed.Identifier(a)])
         == Ok(Selector(Some(Identifier.Identifier([], [], Everything)), [],
                        Some(SelectorChild(Selector(Some(Tag(a)), [], None), Descendant))))
  {
    var s := Selector(Some(Identifier.Identifier([], [], Everything)), [],
                      Some(SelectorChild(Selector(Some(Tag(a)), [], None), Descendant)));
    assert Render(s) == [Symbol(Star), Symbol(Dot), Lexed.Identifier("x"), Lexed.Identifier(a)];
    RenderParse(s);
  }

  // ---------------------------------------------------------- parse_selectors

  const CommaSep: set<Lexed> := {Symbol(Comma)}

  /** `parse_selectors`: one selector per comma-separated group, or the first error. */
  function Selectors(lexed: seq<Lexed>): Result<seq<Selector>>
  {
    Traverse(ParseSelector, SplitBy(lexed, CommaSep))
  }

  method ParseSelectors(lexed: seq<Lexed>) returns (r: Result<seq<Selector>>)
    ensures r == Selectors(lexed)
  {
    var split := SplitTokens(lexed, Comma);
    var groups := split.value;
    var selectors: seq<Selector> := [];
    for i := 0 to |groups|
      invariant Traverse(ParseSelector, groups[..i]) == Ok(selectors)
    {
      TraverseStep(ParseSelector, groups, i, selectors);
      var parsed := ParseSelector(groups[i]);
      if parsed.Err? {
        return Err(parsed.error);
      }
      selectors := selectors + [parsed.value];
    }
    assert groups[..|groups|] == groups;
    return Ok(selectors);
  }

  /** Written selectors contain no comma. */
  lemma {:induction false} RenderNoComma(s: Selector)
    ensures forall i :: 0 <= i < |Render(s)| ==> Render(s)[i] != Symbol(Comma)
    decreases s
  {
    if s.child.Some? {
      RenderNoComma(s.child.value.selector);
    }
  }

  /** Written selectors contain no brace. */
  lemma {:induction false} RenderBraceFree(s: Selector)
    ensures BraceFree(Render(s))
    decreases s
  {
    if s.child.Some? {
      RenderBraceFree(s.child.value.selector);
    }
  }

  function Commas(n: nat): (r: seq<Lexed>)
    ensures |r| == n && AllIn(r, CommaSep)
  {
    seq(n, _ => Symbol(Comma))
  }

  function Rendered(ss: seq<Selector>): (r: seq<seq<Lexed>>)
    ensures |r| == |ss| && forall i :: 0 <= i < |ss| ==> r[i] == Render(ss[i])
  {
    seq(|ss|, i requires 0 <= i < |ss| => Render(ss[i]))
  }

  /** A selector list written with commas between the selectors. */
  function RenderList(ss: seq<Selector>): seq<Lexed>
    requires |ss| > 0
  {
    Weave(Rendered(ss), Commas(|ss| - 1))
  }

  /** Round trip: parsing a written selector list gives the list back. */
  lemma SelectorsRoundTrip(ss: seq<Selector>)
    requires |ss| > 0 && forall i :: 0 <= i < |ss| ==> Renderable(ss[i], true)
    ensures Selectors(RenderList(ss)) == Ok(ss)
  {
    var pieces := Rendered(ss);
    forall i | 0 <= i < |ss|
      ensures forall j :: 0 <= j < |pieces[i]| ==> pieces[i][j] !in CommaSep
    {
      RenderNoComma(ss[i]);
    }
    assert Clean(pieces, CommaSep);
    SplitUnique(RenderList(ss), CommaSep, pieces, Commas(|ss| - 1));
    forall i | 0 <= i < |ss|
      ensures ParseSelector(pieces[i]) == Ok(ss[i])
    {
      RenderParse(ss[i]);
    }
    TraverseAll(ParseSelector, pieces);
    assert Traverse(ParseSelector, pieces).value == ss;
  }

  // ------------------------------------------- parse_length and parse_keyword

  /** `parse_keyword`: the first token must be an identifier; the rest is ignored. */
  function ParseKeyword(xs: seq<Lexed>): (r: Result<Value>)
    ensures r.Ok? <==> |xs| > 0 && xs[0].Identifier?
    ensures r.Ok? ==> r.value == Keyword(xs[0].name)
  {
    if |xs| == 0 then Err("Length too small for parse_keyword")
    else if !xs[0].Identifier? then Err("Not a keyword for parse_keyword")
    else Ok(Keyword(xs[0].name))
  }

  /** `parse_length`: a number and then `px`; the rest is ignored. */
  function ParseLength(xs: seq<Lexed>): (r: Result<Value>)
    ensures r.Ok? <==> |xs| >= 2 && xs[0].Number? && xs[1] == Symbol(Token.Px)
    ensures r.Ok? ==> r.value == Length(xs[0].value, Unit.Px)
  {
    if |xs| <= 1 then Err("Length too small for parse_length")
    else if !xs[0].Number? then Err("Length not a number for parse_length")
    else if xs[1] != Symbol(Token.Px) then Err("Unknown unit for parse_length")
    else Ok(Length(xs[0].value, Unit.Px))
  }

  /** How a value is written. */
  function ValueTokens(v: Value): seq<Lexed>
  {
    match v
    case Keyword(k) => [Lexed.Identifier(k)]
    case Length(n, _) => [Number(n), Symbol(Token.Px)]
  }

  /** Round trip for values, whatever follows them. */
  lemma ValueRoundTrip(v: Value, tail: seq<Lexed>)
    ensures v.Length? ==> ParseLength(ValueTokens(v) + tail) == Ok(v)
    ensures v.Keyword? ==> ParseKeyword(ValueTokens(v) + tail) == Ok(v)
  {
    var xs := ValueTokens(v) + tail;
    assert xs[0] == ValueTokens(v)[0];
    if v.Length? {
      assert xs[1] == Symbol(Token.Px);
      assert v.unit.Px? && v == Length(v.number, Unit.Px);
    }
  }

  /** Each length error names the first thing that is wrong. */
  lemma LengthErrors(xs: seq<Lexed>)
    ensures |xs| <= 1 ==> ParseLength(xs) == Err("Length too small for parse_length")
    ensures |xs| > 1 && !xs[0].Number? ==> ParseLength(xs) == Err("Length not a number for parse_length")
    ensures |xs| > 1 && xs[0].Number? && xs[1] != Symbol(Token.Px) ==> ParseLength(xs) == Err("Unknown unit for parse_length")
  {
  }

  // ------------------------------------------------------- parse_declarations

  const SemiSep: set<Lexed> := {Symbol(SemiColon)}

  /** The declarations the parser knows: `width` with a length, `display` with a keyword. */
  predicate Known(d: Declaration)
  {
    (d.name == "width" && d.value.Length?) || (d.name == "display" && d.value.Keyword?)
  }

  /** One semicolon-separated group as a declaration, or nothing when the group is
      too short, lacks the colon, has no name, names an unknown property, or has a
      value that does not parse: every such group is skipped. */
  function DeclOf(g: seq<Lexed>): (r: Option<Declaration>)
    ensures r.Some? ==> Known(r.value)
  {
    if |g| <= 2 || g[1] != Symbol(Colon) || !g[0].Identifier? then None
    else
      var name := g[0].name;
      var value := if name == "width" then ParseLength(g[2..])
                   else if name == "display" then ParseKeyword(g[2..])
                   else Err("");
      if value.Ok? then Some(Declaration(name, value.value)) else None
  }

  /** The declarations of the groups, in order, skipping the groups that are none. */
  function Decls(groups: seq<seq<Lexed>>): (r: seq<Declaration>)
    ensures |r| <= |groups| && forall i :: 0 <= i < |r| ==> Known(r[i])
  {
    if |groups| == 0 then []
    else
      var init := Decls(groups[..|groups| - 1]);
      match DeclOf(groups[|groups| - 1])
      case None => init
      case Some(d) => init + [d]
  }

  /** `parse_declarations`, which never fails. */
  method ParseDeclarations(lexed: seq<Lexed>) returns (r: Result<seq<Declaration>>)
    ensures r == Ok(Decls(SplitBy(lexed, SemiSep)))
  {
    var split := SplitTokens(lexed, SemiColon);
    var groups := split.value;
    var declarations: seq<Declaration> := [];
    for i := 0 to |groups|
      invariant declarations == Decls(groups[..i])
    {
      assert groups[..i + 1][..i] == groups[..i];
      var g := groups[i];
      if |g| <= 2 {
        continue;
      }
      if g[1] != Symbol(Colon) {
        continue;
      }
      if !g[0].Identifier? {
        continue;
      }
      var name := g[0].name;
      var value;
      if name == "width" {
        value := ParseLength(g[2..]);
      } else if name == "display" {
        value := ParseKeyword(g[2..]);
      } else {
        continue;
      }
      if value.Err? {
        continue;
      }
      declarations := declarations + [Declaration(name, value.value)];
    }
    assert groups[..|groups|] == groups;
    return Ok(declarations);
  }

  /** How a declaration is written: name, colon, value. */
  function Emit(d: Declaration): seq<Lexed>
  {
    [Lexed.Identifier(d.name), Symbol(Colon)] + ValueTokens(d.value)
  }

  /** A group is read as a declaration exactly when it starts with that declaration
      written out; anything after the value is ignored. */
  lemma DeclOfIsPrefix(g: seq<Lexed>, d: Declaration)
    ensures DeclOf(g) == Some(d) <==> Known(d) && Emit(d) <= g
  {
    if Known(d) && Emit(d) <= g {
      assert g[2..] == ValueTokens(d.value) + g[|Emit(d)|..];
      ValueRoundTrip(d.value, g[|Emit(d)|..]);
    }
    if DeclOf(g) == Some(d) {
      if d.value.Length? {
        assert g[..4] == Emit(d);
      } else {
        assert g[..3] == Emit(d);
      }
    }
  }

  /** A known declaration written out reads back as itself. */
  lemma EmitRead(d: Declaration)
    requires Known(d)
    ensures DeclOf(Emit(d)) == Some(d)
  {
    DeclOfIsPrefix(Emit(d), d);
  }

  function Semis(n: nat): (r: seq<Lexed>)
    ensures |r| == n && AllIn(r, SemiSep)
  {
    seq(n, _ => Symbol(SemiColon))
  }

  function Emitted(ds: seq<Declaration>): (r: seq<seq<Lexed>>)
    ensures |r| == |ds| && forall i :: 0 <= i < |ds| ==> r[i] == Emit(ds[i])
  {
    seq(|ds|, i requires 0 <= i < |ds| => Emit(ds[i]))
  }

  /** A declaration list written with a semicolon after every declaration. */
  function RenderDecls(ds: seq<Declaration>): seq<Lexed>
  {
    Weave(Emitted(ds) + [[]], Semis(|ds|))
  }

  lemma {:induction false} DeclsEmitted(ds: seq<Declaration>)
    requires forall i :: 0 <= i < |ds| ==> Known(ds[i])
    ensures Decls(Emitted(ds)) == ds
    decreases |ds|
  {
    if |ds| > 0 {
      var init := ds[..|ds| - 1];
      var gs := Emitted(ds);
      assert gs[..|gs| - 1] == Emitted(init);
      DeclsEmitted(init);
      EmitRead(ds[|ds| - 1]);
      Snoc(ds);
    }
  }

  lemma EmittedClean(ds: seq<Declaration>)
    ensures Clean(Emitted(ds) + [[]], SemiSep)
  {
    var pieces := Emitted(ds) + [[]];
    forall i, j | 0 <= i < |pieces| && 0 <= j < |pieces[i]|
      ensures pieces[i][j] !in SemiSep
    {
      assert pieces[i] == Emit(ds[i]);
    }
  }

  /** Round trip: parsing a written declaration list gives the list back. */
  lemma DeclsRoundTrip(ds: seq<Declaration>)
    requires forall i :: 0 <= i < |ds| ==> Known(ds[i])
    ensures Decls(SplitBy(RenderDecls(ds), SemiSep)) == ds
  {
    var gs := Emitted(ds);
    var pieces := gs + [[]];
    EmittedClean(ds);
    SplitUnique(RenderDecls(ds), SemiSep, pieces, Semis(|ds|));
    assert pieces[..|pieces| - 1] == gs;
    DeclsEmitted(ds);
  }

  // --------------------------------------------------------- parse_stylesheet

  /** One (selector part, declaration part) pair as a rule. */
  function RuleOf(pair: (seq<Lexed>, seq<Lexed>)): Result<Rule>
  {
    match Selectors(pair.0)
    case Err(e) => Err(e)
    case Ok(ss) => Ok(Rule(ss, Decls(SplitBy(pair.1, SemiSep))))
  }

  /** `parse_stylesheet`: the rules of every brace pair, or the first error. */
  function Sheet(lexed: seq<Lexed>): Result<Stylesheet>
    requires CanFeed(BraceState([], []), lexed)
  {
    match Traverse(RuleOf, Pairs(lexed))
    case Err(e) => Err(e)
    case Ok(rules) => Ok(Stylesheet(rules))
  }

  method ParseStylesheet(lexed: seq<Lexed>) returns (r: Result<Stylesheet>)
    requires CanFeed(BraceState([], []), lexed)
    ensures r == Sheet(lexed)
  {
    var splitted := SplitRules(lexed);
    var rules: seq<Rule> := [];
    for i := 0 to |splitted|
      invariant Traverse(RuleOf, splitted[..i]) == Ok(rules)
    {
      TraverseStep(RuleOf, splitted, i, rules);
      var selectors := ParseSelectors(splitted[i].0);
      if selectors.Err? {
        return Err(selectors.error);
      }
      var declarations := ParseDeclarations(splitted[i].1);
      rules := rules + [Rule(selectors.value, declarations.value)];
    }
    assert splitted[..|splitted|] == splitted;
    return Ok(Stylesheet(rules));
  }

  /** The rules the parser can produce from a written form. */
  predicate Writable(rule: Rule)
  {
    && |rule.selectors| > 0
    && (forall i :: 0 <= i < |rule.selectors| ==> Renderable(rule.selectors[i], true))
    && (forall i :: 0 <= i < |rule.declarations| ==> Known(rule.declarations[i]))
  }

  /** How a rule is written, as its (selector part, declaration part) pair. */
  function Written(rule: Rule): (seq<Lexed>, seq<Lexed>)
    requires Writable(rule)
  {
    (RenderList(rule.selectors), RenderDecls(rule.declarations))
  }

  lemma RenderListBraceFree(ss: seq<Selector>)
    requires |ss| > 0
    ensures BraceFree(RenderList(ss))
  {
    var xs := RenderList(ss);
    forall k | 0 <= k < |xs|
      ensures xs[k] !in Braces
    {
      WeaveElements(Rendered(ss), Commas(|ss| - 1), xs[k]);
      if exists i :: 0 <= i < |ss| && xs[k] in Rendered(ss)[i] {
        var i :| 0 <= i < |ss| && xs[k] in Rendered(ss)[i];
        RenderBraceFree(ss[i]);
      }
    }
  }

  lemma RenderDeclsBraceFree(ds: seq<Declaration>)
    ensures BraceFree(RenderDecls(ds))
  {
    var xs := RenderDecls(ds);
    var pieces := Emitted(ds) + [[]];
    forall k | 0 <= k < |xs|
      ensures xs[k] !in Braces
    {
      WeaveElements(pieces, Semis(|ds|), xs[k]);
      if exists i :: 0 <= i < |pieces| && xs[k] in pieces[i] {
        var i :| 0 <= i < |pieces| && xs[k] in pieces[i];
        assert i < |ds|;
        assert pieces[i] == Emit(ds[i]);
      }
    }
  }

  /** The written form of every rule, as (selector part, declaration part) pairs. */
  function WrittenAll(rules: seq<Rule>): (r: seq<(seq<Lexed>, seq<Lexed>)>)
    requires forall i :: 0 <= i < |rules| ==> Writable(rules[i])
    ensures |r| == |rules| && forall i :: 0 <= i < |rules| ==> r[i] == Written(rules[i])
  {
    seq(|rules|, i requires 0 <= i < |rules| && Writable(rules[i]) => Written(rules[i]))
  }

  lemma RuleRoundTrip(rule: Rule)
    requires Writable(rule)
    ensures RuleOf(Written(rule)) == Ok(rule)
  {
    SelectorsRoundTrip(rule.selectors);
    DeclsRoundTrip(rule.declarations);
  }

  /** Round trip: parsing a written stylesheet gives its rules back. */
  lemma SheetRoundTrip(rules: seq<Rule>)
    requires forall i :: 0 <= i < |rules| ==> Writable(rules[i])
    ensures CanFeed(BraceState([], []), Join(WrittenAll(rules)))
    ensures Sheet(Join(WrittenAll(rules))) == Ok(Stylesheet(rules))
  {
    var pairs := WrittenAll(rules);
    forall i | 0 <= i < |pairs|
      ensures BraceFree(pairs[i].0) && BraceFree(pairs[i].1)
    {
      RenderListBraceFree(rules[i].selectors);
      RenderDeclsBraceFree(rules[i].declarations);
    }
    assert BraceFreeRules(pairs);
    PairsJoin(pairs);
    forall i | 0 <= i < |pairs|
      ensures RuleOf(pairs[i]) == Ok(rules[i])
    {
      RuleRoundTrip(rules[i]);
    }
    TraverseAll(RuleOf, pairs);
    assert Traverse(RuleOf, pairs).value == rules;
  }

  /** A rule whose selector part fails makes the whole stylesheet fail, with the error
      of the first such rule. */
  lemma SheetFirstError(lexed: seq<Lexed>)
    requires CanFeed(BraceState([], []), lexed) && Sheet(lexed).Err?
    ensures exists i :: (0 <= i < |Pairs(lexed)|
      && Selectors(Pairs(lexed)[i].0) == Err(Sheet(lexed).error)
      && forall j :: 0 <= j < i ==> Selectors(Pairs(lexed)[j].0).Ok?)
  {
    var pairs := Pairs(lexed);
    TraverseFirstError(RuleOf, pairs);
    var i :| 0 <= i < |pairs| && RuleOf(pairs[i]) == Err(Traverse(RuleOf, pairs).error)
             && forall j :: 0 <= j < i ==> RuleOf(pairs[j]).Ok?;
    forall j | 0 <= j < i
      ensures Selectors(pairs[j].0).Ok?
    {
      assert RuleOf(pairs[j]).Ok?;
    }
  }
}
