/** The markup tokenizer and tag builder (`src/dom/lexer/mod.rs`).

    `tokenize` scans every unquoted span with the greedy window of module `Window`:
    a window is first looked up in a five-entry symbol table (`<`, `>`, `=`, `</`,
    `/>`), then accepted as content when it is non-empty and made of letters, digits,
    `_`, space, tab and newline only. There is no trimming, so content keeps its
    spaces. A cursor from which no window is accepted silently ends the span: the rest
    of it is dropped and tokenizing never fails.

    `taginize` folds the items through a small state machine: `<` or `</` opens a tag,
    the first content word names it, further words are attributes with an empty value,
    a quoted string after `=` becomes the value of the last attribute, and `>` or `/>`
    closes the tag. Content and strings outside a tag are ignored. */
module DomLexer {
  import opened Results
  import opened Split
  import opened Window
  import Helper

  datatype Token = LT | GT | Equals | CloseTag | SelfClose

  /** An item of the token stream; the source calls the `Symbol` case `Token`. */
  datatype Lexed = Content(text: string) | String(text: string) | Symbol(token: Token)

  // ------------------------------------------------------------------ tokenize

  /** The symbol table of `tokenize`. */
  const Table: map<string, Token> :=
    map["<" := LT, ">" := GT, "=" := Equals, "</" := CloseTag, "/>" := Token.SelfClose]

  /** The `is_token` closure: the whole window looked up in the table. */
  function TokenOf(window: string): (r: Option<Token>)
    ensures r.Some? ==> 1 <= |window| <= 2
  {
    if window == "<" then Some(LT)
    else if window == ">" then Some(GT)
    else if window == "=" then Some(Equals)
    else if window == "</" then Some(CloseTag)
    else if window == "/>" then Some(Token.SelfClose)
    else None
  }

  /** The case split is the table lookup. */
  lemma TokenOfIsLookup(window: string)
    ensures TokenOf(window) == (if window in Table then Some(Table[window]) else None)
  {
  }

  /** The characters the `is_string` closure accepts. */
  predicate IsContentChar(c: char)
  {
    ('a' <= c <= 'z') || ('A' <= c <= 'Z') || c == '_' || ('0' <= c <= '9')
    || c == '\n' || c == '\t' || c == ' '
  }

  /** The `is_string` closure: a non-empty run of content characters. */
  predicate IsContent(window: string)
  {
    |window| > 0 && forall i :: 0 <= i < |window| ==> IsContentChar(window[i])
  }

  /** What the tokenizer can emit for an unquoted span. */
  predicate Scanned(item: Lexed)
  {
    match item
    case Symbol(_) => true
    case Content(text) => IsContent(text)
    case String(_) => false
  }

  /** A window: first the table, then the content rule. */
  function Classify(window: string): (r: Option<Lexed>)
    ensures r.Some? ==> Scanned(r.value)
    ensures r.Some? && r.value.Content? ==> r.value.text == window
    ensures r.None? <==> TokenOf(window).None? && !IsContent(window)
    ensures TokenOf(window).Some? ==> r == Some(Symbol(TokenOf(window).value))
    ensures TokenOf(window).None? && IsContent(window) ==> r == Some(Content(window))
  {
    match TokenOf(window)
    case Some(t) => Some(Symbol(t))
    case None => if IsContent(window) then Some(Content(window)) else None
  }

  /** A slash is accepted only inside the two-character symbols. */
  lemma {:induction false} SlashOnlyInSymbols(window: string, i: nat)
    requires i < |window| && window[i] == '/'
    ensures Classify(window).Some? <==> window == "</" || window == "/>"
  {
    assert !IsContentChar(window[i]);
  }

  /** The items of one unquoted span: the greedy scan from its start, whatever it
      leaves unscanned dropped. */
  function SpanItems(rest: string): (r: seq<Lexed>)
    ensures forall i :: 0 <= i < |r| ==> Scanned(r[i])
  {
    ScanItems(Classify, Scanned, rest, 0);
    Scan(Classify, rest, 0).0
  }

  /** No window longer than two characters that starts with `<` or `/` is accepted. */
  lemma LongWindowRejected(rest: string, pos: nat, e: nat)
    requires pos + 2 < e <= |rest|
    requires rest[pos] == '<' || rest[pos] == '/'
    ensures Classify(rest[pos..e]).None?
  {
    assert rest[pos..e][0] == rest[pos];
  }

  /** A window of two or more characters that starts with `<` is rejected unless it is
      `</`. */
  lemma OpenerWindowRejected(w: string)
    requires |w| >= 2 && w[0] == '<' && w[1] != '/'
    ensures Classify(w).None?
  {
    assert w != "</" by { assert "</"[1] == '/'; }
    assert !IsContentChar(w[0]);
  }

  /** `</` wins over `<`: at a cursor facing `</` the scan emits `CloseTag` and moves
      past both characters. */
  lemma CloseTagWins(rest: string, pos: nat)
    requires pos + 2 <= |rest| && rest[pos..pos + 2] == "</"
    ensures Scan(Classify, rest, pos)
            == ([Symbol(CloseTag)] + Scan(Classify, rest, pos + 2).0, Scan(Classify, rest, pos + 2).1)
  {
    forall e' | pos + 2 < e' <= |rest|
      ensures Classify(rest[pos..e']).None?
    {
      LongWindowRejected(rest, pos, e');
    }
    ScanLongest(Classify, rest, pos, pos + 2);
  }

  /** `/>` is one symbol, not a stray slash before `>`. */
  lemma SelfCloseWins(rest: string, pos: nat)
    requires pos + 2 <= |rest| && rest[pos..pos + 2] == "/>"
    ensures Scan(Classify, rest, pos)
            == ([Symbol(Token.SelfClose)] + Scan(Classify, rest, pos + 2).0, Scan(Classify, rest, pos + 2).1)
  {
    forall e' | pos + 2 < e' <= |rest|
      ensures Classify(rest[pos..e']).None?
    {
      LongWindowRejected(rest, pos, e');
    }
    ScanLongest(Classify, rest, pos, pos + 2);
  }

  /** A slash not followed by `>` strands the cursor: the scan ends there and the rest
      of the span is dropped without an error. */
  lemma StraySlashDropsRest(rest: string, pos: nat)
    requires pos < |rest| && rest[pos] == '/'
    requires pos + 1 == |rest| || rest[pos + 1] != '>'
    ensures Scan(Classify, rest, pos) == ([], pos)
  {
    forall e | pos < e <= |rest|
      ensures Classify(rest[pos..e]).None?
    {
      SlashOnlyInSymbols(rest[pos..e], 0);
      if e == pos + 2 {
        assert rest[pos..e][1] == rest[pos + 1];
      }
    }
    ScanHere(Classify, rest, pos);
  }

  /** The text of a quoted item. */
  function Quoted(item: Lexed): Option<string>
  {
    if item.String? then Some(item.text) else None
  }

  /** The token stream of a sequence of spans: quoted spans pass through as strings,
      unquoted spans are scanned. */
  function TokenStream(spans: seq<Helper.PreLexed>): (r: seq<Lexed>)
    ensures forall i :: 0 <= i < |r| ==> r[i].String? || Scanned(r[i])
    ensures Helper.Strings(r, Quoted) == Helper.QuotedTexts(spans)
  {
    if |spans| == 0 then []
    else
      var init := TokenStream(spans[..|spans| - 1]);
      match spans[|spans| - 1]
      case String(s) => Helper.StringsAppend(init, [String(s)], Quoted); init + [String(s)]
      case Rest(rest) =>
        var items := SpanItems(rest);
        Helper.StringsAppend(init, items, Quoted);
        Helper.StringsOfUnquoted(items, Quoted);
        init + items
  }

  /** The fold law of `TokenStream`: one more span appends its items. */
  lemma TokenStreamSnoc(spans: seq<Helper.PreLexed>, span: Helper.PreLexed)
    ensures TokenStream(spans + [span])
            == TokenStream(spans) + match span case String(s) => [String(s)] case Rest(r) => SpanItems(r)
  {
    assert (spans + [span])[..|spans|] == spans;
  }

  /** The inner loop of `tokenize` over one unquoted span; the stop cursor is ignored. */
  method TokenizeSpan(rest: string) returns (items: seq<Lexed>)
    ensures items == SpanItems(rest)
  {
    var stop;
    items, stop := GreedyScan(Classify, rest);
  }

  /** `tokenize`: it never fails. */
  method Tokenize(preLexed: seq<Helper.PreLexed>) returns (r: Result<seq<Lexed>>)
    ensures r == Ok(TokenStream(preLexed))
  {
    var result: seq<Lexed> := [];
    for k := 0 to |preLexed|
      invariant TokenStream(preLexed[..k]) == result
    {
      assert preLexed[..k + 1][..k] == preLexed[..k];
      match preLexed[k]
      case String(s) =>
        result := result + [String(s)];
      case Rest(rest) =>
        var items := TokenizeSpan(rest);
        result := result + items;
    }
    assert preLexed[..|preLexed|] == preLexed;
    return Ok(result);
  }

  // ------------------------------------------------------------------ taginize

  /** The source's `TagStatus::None` is `NoStatus` here. */
  datatype TagStatus = NoStatus | Open | Close | SelfClose

  /** A finished tag; attribute names map to values (`AttrMap`). */
  datatype Tag = Tag(name: string, attrs: map<string, string>, status: TagStatus)

  /** The source also declares a content case, which `taginize` never produces. */
  datatype TagContents = TagItem(tag: Tag) | ContentItem(text: string)

  /** The local variables of `taginize`. */
  datatype State = State(
    tags: seq<TagContents>,
    inTag: bool,
    afterEquals: bool,
    status: TagStatus,
    name: Option<string>,
    attrs: seq<(string, string)>)

  const Start: State := State([], false, false, NoStatus, None, [])

  const Space: set<char> := {' '}

  /** Attribute pairs with empty values, one per word. */
  function Blank(words: seq<string>): (r: seq<(string, string)>)
    ensures |r| == |words|
    ensures forall i :: 0 <= i < |r| ==> r[i] == (words[i], "")
  {
    seq(|words|, i requires 0 <= i < |words| => (words[i], ""))
  }

  /** The names of attribute pairs, in order. */
  function Names(pairs: seq<(string, string)>): (r: seq<string>)
    ensures |r| == |pairs|
    ensures forall i :: 0 <= i < |r| ==> r[i] == pairs[i].0
  {
    seq(|pairs|, i requires 0 <= i < |pairs| => pairs[i].0)
  }

  /** The attribute map built by inserting the pairs in order. */
  function BuildAttrs(pairs: seq<(string, string)>): (r: map<string, string>)
    ensures r.Keys == set i | 0 <= i < |pairs| :: pairs[i].0
  {
    if |pairs| == 0 then map[]
    else
      var init := pairs[..|pairs| - 1];
      var last := pairs[|pairs| - 1];
      var m := BuildAttrs(init);
      assert forall i :: 0 <= i < |init| ==> init[i] == pairs[i];
      m[last.0 := last.1]
  }

  /** The `Debug` name of a closing symbol, used in the error message. */
  function CloserName(t: Token): string
  {
    if t == GT then "GT" else "SelfClose"
  }

  /** One iteration of the loop of `taginize`. */
  function Step(s: State, item: Lexed): (r: Result<State>)
    ensures r.Ok? ==> |r.value.tags| >= |s.tags| && r.value.tags[..|s.tags|] == s.tags
  {
    match item
    case String(v) =>
      if !s.afterEquals then Ok(s)
      else if |s.attrs| == 0 then Err("Wrong equals")
      else
        var last := s.attrs[|s.attrs| - 1];
        Ok(s.(afterEquals := false, attrs := s.attrs[..|s.attrs| - 1] + [(last.0, v)]))
    case Content(v) =>
      if !s.inTag then Ok(s)
      else
        var words := SplitBy(v, Space);
        if s.name.None? then Ok(s.(name := Some(words[0]), attrs := s.attrs + Blank(words[1..])))
        else Ok(s.(attrs := s.attrs + Blank(words)))
    case Symbol(t) =>
      match t
      case LT =>
        if s.inTag then Err("Tag error: <") else Ok(s.(inTag := true, status := Open))
      case CloseTag =>
        if s.inTag then Err("Tag error: <") else Ok(s.(inTag := true, status := Close))
      case Equals =>
        if s.inTag then Ok(s.(afterEquals := true)) else Ok(s)
      case _ =>
        if !s.inTag then Err("Tag error: " + CloserName(t))
        else if s.name.None? then Err("No tag name")
        else if t == Token.SelfClose && s.status != Open then Err("Cannot have self close and close on same tag")
        else
          var tag := Tag(s.name.value, BuildAttrs(s.attrs), if t == GT then s.status else TagStatus.SelfClose);
          assert (s.tags + [TagItem(tag)])[..|s.tags|] == s.tags;
          Ok(Start.(tags := s.tags + [TagItem(tag)]))
  }

  /** The state after folding `items` through the loop, or its first error. */
  function Run(items: seq<Lexed>): Result<State>
  {
    if |items| == 0 then Ok(Start)
    else
      match Run(items[..|items| - 1])
      case Err(e) => Err(e)
      case Ok(s) => Step(s, items[|items| - 1])
  }

  /** The fold law of `Run`: one more item is one more step. */
  lemma RunSnoc(items: seq<Lexed>, item: Lexed)
    ensures Run(items + [item]) == match Run(items) case Err(e) => Err(e) case Ok(s) => Step(s, item)
  {
    assert (items + [item])[..|items|] == items;
  }

  /** `taginize`: the finished tags; a tag still open at the end is dropped. */
  function Tags(items: seq<Lexed>): Result<seq<TagContents>>
  {
    match Run(items)
    case Err(e) => Err(e)
    case Ok(s) => Ok(s.tags)
  }

  /** The loop of `taginize`. */
  method Taginize(tokenized: seq<Lexed>) returns (r: Result<seq<TagContents>>)
    ensures r == Tags(tokenized)
  {
    var state := Start;
    for k := 0 to |tokenized|
      invariant Run(tokenized[..k]) == Ok(state)
    {
      assert tokenized[..k + 1][..k] == tokenized[..k];
      var next := Step(state, tokenized[k]);
      if next.Err? {
        RunErrSticky(tokenized, k + 1, next.error);
        return Err(next.error);
      }
      state := next.value;
    }
    assert tokenized[..|tokenized|] == tokenized;
    return Ok(state.tags);
  }

  lemma {:induction false} RunErrSticky(items: seq<Lexed>, k: nat, e: string)
    requires k <= |items| && Run(items[..k]) == Err(e)
    ensures Run(items) == Err(e)
    decreases |items| - k
  {
    if k < |items| {
      assert items[..k + 1][..k] == items[..k];
      RunErrSticky(items, k + 1, e);
    } else {
      assert items[..k] == items;
    }
  }

  // ---------------------------------------------------------------- properties

  /** The combinations of the loop variables that can occur: outside a tag everything
      is reset, inside one the status is `Open` or `Close`, and every finished item is
      a tag with a status. */
  predicate Reachable(s: State)
  {
    && (!s.inTag ==> !s.afterEquals && s.status == NoStatus && s.name.None? && s.attrs == [])
    && (s.inTag ==> s.status == Open || s.status == Close)
    && forall i :: 0 <= i < |s.tags| ==> s.tags[i].TagItem? && s.tags[i].tag.status != NoStatus
  }

  lemma StepReachable(s: State, item: Lexed)
    requires Reachable(s) && Step(s, item).Ok?
    ensures Reachable(Step(s, item).value)
  {
  }

  lemma {:induction false} RunReachable(items: seq<Lexed>)
    ensures Run(items).Ok? ==> Reachable(Run(items).value)
  {
    if |items| > 0 {
      RunReachable(items[..|items| - 1]);
      if Run(items).Ok? {
        StepReachable(Run(items[..|items| - 1]).value, items[|items| - 1]);
      }
    }
  }

  /** `taginize` only ever produces tags, and each has a status. */
  lemma TagsAreTags(items: seq<Lexed>)
    ensures Tags(items).Ok? ==>
      forall i :: 0 <= i < |Tags(items).value| ==>
        Tags(items).value[i].TagItem? && Tags(items).value[i].tag.status != NoStatus
  {
    RunReachable(items);
  }

  /** When a step fails, in the states that can occur. */
  lemma StepFails(s: State, item: Lexed)
    requires Reachable(s)
    ensures Step(s, item).Err? <==>
      match item
      case String(_) => s.afterEquals && |s.attrs| == 0
      case Content(_) => false
      case Symbol(t) =>
        if t == LT || t == CloseTag then s.inTag
        else if t == GT || t == Token.SelfClose then !s.inTag || s.name.None? || (t == Token.SelfClose && s.status == Close)
        else false
  {
  }

  /** Whether an item closes a tag. */
  predicate Closer(item: Lexed)
  {
    item == Symbol(GT) || item == Symbol(Token.SelfClose)
  }

  function CountClosers(items: seq<Lexed>): nat
  {
    if |items| == 0 then 0
    else CountClosers(items[..|items| - 1]) + (if Closer(items[|items| - 1]) then 1 else 0)
  }

  /** One step adds a tag exactly when it closes one. */
  lemma StepTags(s: State, item: Lexed)
    requires Step(s, item).Ok?
    ensures |Step(s, item).value.tags| == |s.tags| + (if Closer(item) then 1 else 0)
  {
  }

  /** Closing a named tag emits it: `>` keeps the status its opener set (open or
      close), `/>` on an open tag makes it self-closing, the attribute pairs become its
      map, and the state is reset for the next tag. */
  lemma CloseEmits(s: State, t: Token)
    requires Reachable(s) && s.inTag && s.name.Some?
    requires t == GT || (t == Token.SelfClose && s.status == Open)
    ensures Step(s, Symbol(t)).Ok?
    ensures var r := Step(s, Symbol(t)).value;
      && r.tags == s.tags + [TagItem(Tag(s.name.value, BuildAttrs(s.attrs),
                                         if t == GT then s.status else TagStatus.SelfClose))]
      && !r.inTag && !r.afterEquals && r.status == NoStatus && r.name.None? && r.attrs == []
  {
  }

  /** On success there is one tag per `>` or `/>`. */
  lemma {:induction false} TagCount(items: seq<Lexed>)
    ensures Tags(items).Ok? ==> |Tags(items).value| == CountClosers(items)
  {
    if |items| > 0 {
      TagCount(items[..|items| - 1]);
      if Run(items).Ok? {
        StepTags(Run(items[..|items| - 1]).value, items[|items| - 1]);
      }
    }
  }

  /** Every attribute name is kept, and a repeated name keeps the value of its last
      occurrence. */
  lemma {:induction false} LastWins(pairs: seq<(string, string)>, i: nat)
    requires i < |pairs|
    requires forall j :: i < j < |pairs| ==> pairs[j].0 != pairs[i].0
    ensures pairs[i].0 in BuildAttrs(pairs) && BuildAttrs(pairs)[pairs[i].0] == pairs[i].1
    decreases |pairs|
  {
    if i < |pairs| - 1 {
      var init := pairs[..|pairs| - 1];
      assert init[i] == pairs[i];
      LastWins(init, i);
    }
  }

  /** Appending blank attributes for some words keeps the old ones, gives every new
      one the empty value, and lists the words as the new names. */
  lemma BlankAppended(attrs: seq<(string, string)>, words: seq<string>)
    ensures var r := attrs + Blank(words);
      && |r| == |attrs| + |words|
      && r[..|attrs|] == attrs
      && (forall i :: |attrs| <= i < |r| ==> r[i].1 == "")
      && Names(r[|attrs|..]) == words
  {
    var r := attrs + Blank(words);
    assert r[|attrs|..] == Blank(words);
  }

  /** The first content in a tag names it with the text up to the first space; the
      remaining space-separated words (possibly empty) are appended as attributes with
      empty values, so that the name and the new attribute names, joined by the
      spaces, give back the content. Nothing else in the state changes. */
  lemma NameIsFirstWord(s: State, v: string)
    requires s.inTag && s.name.None?
    ensures var r := Step(s, Content(v)).value;
      && r.name.Some? && ' ' !in r.name.value
      && r.name.value <= v
      && (|r.name.value| < |v| ==> v[|r.name.value|] == ' ')
      && |r.attrs| == |s.attrs| + |Filter(v, Space)|
      && r.attrs[..|s.attrs|] == s.attrs
      && (forall i :: |s.attrs| <= i < |r.attrs| ==> r.attrs[i].1 == "")
      && Weave([r.name.value] + Names(r.attrs[|s.attrs|..]), Filter(v, Space)) == v
      && r == s.(name := r.name, attrs := r.attrs)
  {
    var words := SplitBy(v, Space);
    var r := s.(name := Some(words[0]), attrs := s.attrs + Blank(words[1..]));
    assert Step(s, Content(v)) == Ok(r);
    FirstWord(v);
    BlankAppended(s.attrs, words[1..]);
  }

  /** The first group of a split at spaces is a space-free prefix followed by a space
      or the end, and with the other groups it weaves back to the text. */
  lemma FirstWord(v: string)
    ensures var words := SplitBy(v, Space);
      && ' ' !in words[0] && words[0] <= v
      && (|words[0]| < |v| ==> v[|words[0]|] == ' ')
      && Weave([words[0]] + words[1..], Filter(v, Space)) == v
  {
    var words := SplitBy(v, Space);
    SplitFirst(v, Space);
    assert forall j :: 0 <= j < |words[0]| ==> words[0][j] !in Space;
    assert [words[0]] + words[1..] == words;
    WeaveSplit(v, Space);
  }

  /** Content in a tag that already has a name appends every space-separated word
      (possibly empty) as an attribute with an empty value; the new names, joined by
      the spaces, give back the content. Nothing else in the state changes. */
  lemma MoreWordsAreAttributes(s: State, v: string)
    requires s.inTag && s.name.Some?
    ensures var r := Step(s, Content(v)).value;
      && |r.attrs| == |s.attrs| + |Filter(v, Space)| + 1
      && r.attrs[..|s.attrs|] == s.attrs
      && (forall i :: |s.attrs| <= i < |r.attrs| ==> r.attrs[i].1 == "")
      && Weave(Names(r.attrs[|s.attrs|..]), Filter(v, Space)) == v
      && r == s.(attrs := r.attrs)
  {
    var words := SplitBy(v, Space);
    assert Step(s, Content(v)) == Ok(s.(attrs := s.attrs + Blank(words)));
    BlankAppended(s.attrs, words);
    WeaveSplit(v, Space);
  }

  /** A quoted string right after `=` replaces the value of the last attribute and
      nothing else, so the finished tag maps that attribute's name to the string. */
  lemma ValueSetsLastAttribute(s: State, v: string)
    requires s.afterEquals && |s.attrs| > 0
    ensures Step(s, String(v)).Ok?
    ensures var r := Step(s, String(v)).value; var n := |s.attrs|;
      && |r.attrs| == n
      && r.attrs[..n - 1] == s.attrs[..n - 1]
      && r.attrs[n - 1].0 == s.attrs[n - 1].0
      && r == s.(afterEquals := false, attrs := r.attrs)
      && s.attrs[n - 1].0 in BuildAttrs(r.attrs)
      && BuildAttrs(r.attrs)[s.attrs[n - 1].0] == v
  {
    var r := Step(s, String(v)).value;
    LastWins(r.attrs, |r.attrs| - 1);
  }

  /** `lex`: the three passes in order, stopping at the first failure. When all three
      succeed the tags are discarded and `lex` fails with the placeholder "test". */
  method Lex(query: string) returns (r: Result<seq<TagContents>>)
    ensures r.Err?
    ensures var tags := Tags(TokenStream(Helper.Spans(query)));
      r.error == if tags.Err? then tags.error else "test"
  {
    // neither of the first two passes can fail
    var preLexed := Helper.PreLex(query);
    var tokenized := Tokenize(preLexed.value);
    var taginized := Taginize(tokenized.value);
    if taginized.Err? {
      return Err(taginized.error);
    }
    return Err("test");
  }

  // ----------------------------------------------------------------- examples

  /** `<a href="x">` is one open tag named `a` whose `href` is `x`. */
  lemma ExampleAnchor()
    ensures Tags(TokenStream(Helper.Spans("<a href=\"x\">")))
            == Ok([TagItem(Tag("a", map["href" := "x"], Open))])
  {
    ExampleAnchorSpans();
    ExampleAnchorStream();
    ExampleAnchorTags([Symbol(LT), Content("a href"), Symbol(Equals), String("x"), Symbol(GT)]);
  }

  lemma ExampleAnchorStream()
    ensures TokenStream([Helper.Rest("<a href="), Helper.String("x"), Helper.Rest(">")])
            == [Symbol(LT), Content("a href"), Symbol(Equals), String("x"), Symbol(GT)]
  {
    ExampleAnchorHead("<a href=");
    ExampleAnchorClose();
    var q0: seq<Helper.PreLexed> := [];
    var q1 := q0 + [Helper.Rest("<a href=")];
    var q2 := q1 + [Helper.String("x")];
    TokenStreamSnoc(q0, Helper.Rest("<a href="));
    TokenStreamSnoc(q1, Helper.String("x"));
    TokenStreamSnoc(q2, Helper.Rest(">"));
  }

  lemma ExampleAnchorSpans()
    ensures Helper.Spans("<a href=\"x\">")
            == [Helper.Rest("<a href="), Helper.String("x"), Helper.Rest(">")]
  {
    SplitUnique("<a href=\"x\">", Helper.Quote, ["<a href=", "x", ">"], "\"\"");
  }

  lemma ExampleAnchorHead(head: string)
    requires head == "<a href="
    ensures SpanItems(head) == [Symbol(LT), Content("a href"), Symbol(Equals)]
  {
    ExampleAnchorAfterOpen(head);
    // from the start only `<` itself is accepted
    assert head[0..1] == "<";
    assert Classify(head[0..1]).value == Symbol(LT);
    ExampleAnchorOpenerOnly(head);
    ScanLongest(Classify, head, 0, 1);
    assert [Symbol(LT)] + [Content("a href"), Symbol(Equals)]
        == [Symbol(LT), Content("a href"), Symbol(Equals)];
  }

  lemma ExampleAnchorOpenerOnly(head: string)
    requires head == "<a href="
    ensures forall e :: 1 < e <= |head| ==> Classify(head[0..e]).None?
  {
    forall e | 1 < e <= |head| ensures Classify(head[0..e]).None? {
      assert head[0..e][0] == '<' && head[0..e][1] == 'a';
      OpenerWindowRejected(head[0..e]);
    }
  }

  lemma ExampleAnchorClose()
    ensures SpanItems(">") == [Symbol(GT)]
  {
    assert ">"[0..1] == ">";
    assert Classify(">") == Some(Symbol(GT));
    ScanLongest(Classify, ">", 0, 1);
    ScanHere(Classify, ">", 1);
  }

  lemma ExampleAnchorAfterOpen(head: string)
    requires head == "<a href="
    ensures Scan(Classify, head, 1) == ([Content("a href"), Symbol(Equals)], 8)
  {
    // from the cursor at `=`
    assert head[7..8] == "=";
    assert Classify("=") == Some(Symbol(Equals));
    ScanLongest(Classify, head, 7, 8);
    ScanHere(Classify, head, 8);
    assert Classify(head[7..8]).value == Symbol(Equals);
    assert Scan(Classify, head, 8) == ([], 8);
    assert [Symbol(Equals)] + [] == [Symbol(Equals)];
    assert Scan(Classify, head, 7) == ([Symbol(Equals)], 8);
    // from the cursor at `a` the window stops before `=`
    assert head[1..7] == "a href";
    assert IsContent("a href");
    assert !IsContent(head[1..8]) by {
      assert head[1..8][6] == '=';
    }
    ScanLongest(Classify, head, 1, 7);
    assert [Content("a href")] + [Symbol(Equals)] == [Content("a href"), Symbol(Equals)];
  }

  /** The fold through `<`, `a href`, `=`, `"x"` and `>`, one state per item. */
  lemma ExampleAnchorTags(items: seq<Lexed>)
    requires items == [Symbol(LT), Content("a href"), Symbol(Equals), String("x"), Symbol(GT)]
    ensures Tags(items) == Ok([TagItem(Tag("a", map["href" := "x"], Open))])
  {
    var s2 := Start.(inTag := true, status := Open, name := Some("a"), attrs := [("href", "")]);
    ExampleAnchorOpen(s2);
    ExampleAnchorSteps(s2);
    var p3 := [Symbol(LT), Content("a href"), Symbol(Equals)];
    var p4 := p3 + [String("x")];
    assert p4 + [Symbol(GT)] == items;
    RunSnoc(p3, String("x"));
    RunSnoc(p4, Symbol(GT));
  }

  lemma ExampleAnchorOpen(s2: State)
    requires s2 == Start.(inTag := true, status := Open, name := Some("a"), attrs := [("href", "")])
    ensures Run([Symbol(LT), Content("a href"), Symbol(Equals)]) == Ok(s2.(afterEquals := true))
  {
    ExampleAnchorContent(Start.(inTag := true, status := Open), s2);
    var p0: seq<Lexed> := [];
    var p1 := p0 + [Symbol(LT)];
    var p2 := p1 + [Content("a href")];
    assert p2 + [Symbol(Equals)] == [Symbol(LT), Content("a href"), Symbol(Equals)];
    RunSnoc(p0, Symbol(LT));
    RunSnoc(p1, Content("a href"));
    RunSnoc(p2, Symbol(Equals));
  }

  lemma ExampleAnchorSteps(s2: State)
    requires s2 == Start.(inTag := true, status := Open, name := Some("a"), attrs := [("href", "")])
    ensures Step(s2.(afterEquals := true), String("x")) == Ok(s2.(attrs := [("href", "x")]))
    ensures Step(s2.(attrs := [("href", "x")]), Symbol(GT))
            == Ok(Start.(tags := [TagItem(Tag("a", map["href" := "x"], Open))]))
  {
    assert [("href", "")][..0] + [("href", "x")] == [("href", "x")];
    assert BuildAttrs([("href", "x")]) == map["href" := "x"] by {
      assert [("href", "x")][..0] == [];
    }
  }

  lemma ExampleAnchorContent(s1: State, s2: State)
    requires s1 == Start.(inTag := true, status := Open)
    requires s2 == s1.(name := Some("a"), attrs := [("href", "")])
    ensures Step(s1, Content("a href")) == Ok(s2)
  {
    assert SplitBy("a href", Space) == ["a", "href"] by {
      SplitUnique("a href", Space, ["a", "href"], " ");
    }
    assert s1.attrs + Blank(["a", "href"][1..]) == [("href", "")];
  }
}
