/** The stylesheet tokenizer (`src/css/lexer/mod.rs`).

    Quoted spans pass through as `String` items. Every unquoted span is scanned with the
    greedy window of module `Window`: each window is trimmed, then looked up in a
    six-entry symbol table, then checked against the identifier rule. The cursor moves over the
    untrimmed window, so whitespace around an item is consumed and never emitted.
    When no window at the start of a span classifies, the span yields nothing; when no
    window at a later cursor classifies, tokenizing fails. */
module CssLexer {
  import opened Results
  import opened Split
  import opened Window
  import Helper

  datatype Token = GT | BraceOpen | BraceClose | Comma | ParOpen | ParClose
                 | SemiColon | Colon | Hash | Star | RGB

  datatype Lexed = Identifier(name: string) | String(text: string) | Symbol(token: Token)

  /** The symbol table of `get_tokens`. */
  const Table: map<string, Token> :=
    map[">" := GT, "{" := BraceOpen, "}" := BraceClose, ":" := Colon, ";" := SemiColon, "#" := Hash]

  /** The symbols the table yields. */
  const TableTokens: set<Token> := {GT, BraceOpen, BraceClose, Colon, SemiColon, Hash}

  /** Symbols the source declares but the table never yields. */
  const Unused: set<Token> := {Comma, ParOpen, ParClose, Star, RGB}

  /** `TableTokens` is what the table yields, and together with `Unused` it covers
      every token exactly once. */
  lemma TableAvoidsUnused()
    ensures Table.Values == TableTokens
    ensures TableTokens !! Unused
    ensures forall t: Token :: t in TableTokens || t in Unused
  {
    assert Table[">"] == GT && Table["{"] == BraceOpen && Table["}"] == BraceClose;
    assert Table[":"] == Colon && Table[";"] == SemiColon && Table["#"] == Hash;
    forall t: Token
      ensures t in TableTokens || t in Unused
    {
      match t
      case GT => case BraceOpen => case BraceClose => case Colon => case SemiColon => case Hash =>
      case Comma => case ParOpen => case ParClose => case Star => case RGB =>
    }
  }

  /** The `is_token` closure: the whole window text looked up in the table. Every key
      is a single character, so the lookup is a case split on that character. */
  function TokenOf(query: string): (r: Option<Token>)
    ensures r.Some? ==> |query| == 1 && r.value in TableTokens && r.value !in Unused
  {
    if |query| != 1 then None
    else match query[0]
      case '>' => Some(GT)
      case '{' => Some(BraceOpen)
      case '}' => Some(BraceClose)
      case ':' => Some(Colon)
      case ';' => Some(SemiColon)
      case '#' => Some(Hash)
      case _ => None
  }

  /** The case split is the table lookup. */
  lemma TokenOfIsLookup(query: string)
    ensures TokenOf(query) == (if query in Table then Some(Table[query]) else None)
  {
    if |query| == 1 {
      assert query == [query[0]];
    }
  }

  // ---------------------------------------------------------------- trimming

  /** Rust's `char::is_whitespace`: the Unicode White_Space characters. */
  predicate IsWhitespace(c: char)
  {
    || c == ' ' || ('\t' <= c <= '\r') || c == '\U{85}' || c == '\U{A0}' || c == '\U{1680}'
    || ('\U{2000}' <= c <= '\U{200A}') || c == '\U{2028}' || c == '\U{2029}'
    || c == '\U{202F}' || c == '\U{205F}' || c == '\U{3000}'
  }

  function TrimStart(s: string): (r: string)
    ensures |r| <= |s| && r == s[|s| - |r|..]
    ensures forall i :: 0 <= i < |s| - |r| ==> IsWhitespace(s[i])
    ensures |r| > 0 ==> !IsWhitespace(r[0])
  {
    if |s| > 0 && IsWhitespace(s[0]) then TrimStart(s[1..]) else s
  }

  function TrimEnd(s: string): (r: string)
    ensures |r| <= |s| && r == s[..|r|]
    ensures forall i :: |r| <= i < |s| ==> IsWhitespace(s[i])
    ensures |r| > 0 ==> !IsWhitespace(r[|r| - 1])
  {
    if |s| > 0 && IsWhitespace(s[|s| - 1]) then TrimEnd(s[..|s| - 1]) else s
  }

  /** `str::trim`: both ends stripped of whitespace. */
  function Trim(s: string): string
  {
    TrimEnd(TrimStart(s))
  }

  // ------------------------------------------------------------- identifiers

  predicate IsLetter(c: char) { ('a' <= c <= 'z') || ('A' <= c <= 'Z') }

  predicate IsDigit(c: char) { '0' <= c <= '9' }

  predicate IsNameChar(c: char) { IsLetter(c) || IsDigit(c) || c == '_' || c == '-' }

  /** The loop of the `is_identifier` closure over the characters still to read: a
      letter clears `expectMore`, and `_`, `-` or a digit sets it only when it is the
      first character; anything else rejects. */
  function IdentifierScan(query: string, first: bool, expectMore: bool): bool
    decreases |query|
  {
    if |query| == 0 then !expectMore
    else if IsLetter(query[0]) then IdentifierScan(query[1..], false, false)
    else if query[0] == '_' || query[0] == '-' || IsDigit(query[0]) then IdentifierScan(query[1..], false, first)
    else false
  }

  /** The `is_identifier` closure. */
  predicate IsIdentifier(query: string)
  {
    |query| > 0 && IdentifierScan(query, true, false)
  }

  /** What `is_identifier` accepts: non-empty words over letters, digits, `_` and `-`,
      except a single `_`, `-` or digit. A leading digit is allowed ("12", "1a"). */
  lemma IdentifierExactly(query: string)
    ensures IsIdentifier(query) <==>
      && |query| > 0
      && (forall i :: 0 <= i < |query| ==> IsNameChar(query[i]))
      && !(|query| == 1 && !IsLetter(query[0]))
  {
    if |query| > 0 {
      ScanAfterFirst(query[1..], IsLetter(query[0]) == false);
      ScanAfterFirst(query[1..], false);
      if IsNameChar(query[0]) {
        assert forall i :: 1 <= i < |query| ==> query[i] == query[1..][i - 1];
      }
    }
  }

  /** After the first character, the scan accepts exactly the all-name-character rests,
      and an empty rest only when nothing more was expected. */
  lemma {:induction false} ScanAfterFirst(rest: string, expectMore: bool)
    ensures IdentifierScan(rest, false, expectMore) <==>
      (forall i :: 0 <= i < |rest| ==> IsNameChar(rest[i])) && (|rest| == 0 ==> !expectMore)
    decreases |rest|
  {
    if |rest| > 0 {
      ScanAfterFirst(rest[1..], false);
      assert forall i :: 1 <= i < |rest| ==> rest[i] == rest[1..][i - 1];
    }
  }

  // ---------------------------------------------------------- classification

  /** What the tokenizer can emit for an unquoted span: a table symbol or an identifier. */
  predicate Scanned(item: Lexed)
  {
    match item
    case Symbol(t) => t in TableTokens
    case Identifier(name) => IsIdentifier(name)
    case String(_) => false
  }

  /** A trimmed window: first the table, then the identifier rule. */
  function Classify(content: string): (r: Option<Lexed>)
    ensures r.Some? ==> Scanned(r.value)
    ensures r.Some? && r.value.Identifier? ==> r.value.name == content && TokenOf(content).None?
    ensures TokenOf(content).Some? ==> r == Some(Symbol(TokenOf(content).value))
    ensures r.None? <==> TokenOf(content).None? && !IsIdentifier(content)
  {
    match TokenOf(content)
    case Some(t) => Some(Symbol(t))
    case None => if IsIdentifier(content) then Some(Identifier(content)) else None
  }

  function ClassifyWindow(window: string): (r: Option<Lexed>)
    ensures r.Some? ==> Scanned(r.value)
  {
    Classify(Trim(window))
  }

  function NotRecognized(text: string): string
  {
    "Token not recognized: '" + text + "'"
  }

  /** The items of one unquoted span: the greedy scan from the span's start. A scan
      stranded at a cursor past the start fails, naming the character there; a scan
      stranded at the very start yields nothing and does not fail. */
  function SpanTokens(rest: string): (r: Result<seq<Lexed>>)
    ensures r.Ok? ==> forall i :: 0 <= i < |r.value| ==> Scanned(r.value[i])
  {
    ScanItems(ClassifyWindow, Scanned, rest, 0);
    Verdict(rest, Scan(ClassifyWindow, rest, 0))
  }

  /** What the scan of an unquoted span amounts to: its items, unless it stopped at a
      cursor strictly inside the span. `LeadingJunkIgnored` and `StrandedFails` state
      when each case arises, in terms of the windows at the cursor. */
  function Verdict(rest: string, scan: (seq<Lexed>, nat)): (r: Result<seq<Lexed>>)
    requires scan.1 <= |rest|
    ensures r.Ok? <==> scan.1 == 0 || scan.1 == |rest|
    ensures r.Ok? ==> r.value == scan.0
    ensures r.Err? ==> scan.1 < |rest| && r.error == NotRecognized(rest[scan.1..scan.1 + 1])
  {
    var (items, stop) := scan;
    if stop == 0 || stop == |rest| then Ok(items)
    else Err(NotRecognized(rest[stop..stop + 1]))
  }

  /** A span none of whose leading windows classifies yields nothing, without failing:
      the window loop runs out before the "not recognized" check can fire. */
  lemma LeadingJunkIgnored(rest: string)
    requires forall e :: 0 < e <= |rest| ==> ClassifyWindow(rest[0..e]).None?
    ensures SpanTokens(rest) == Ok([])
  {
    if |rest| > 0 {
      assert Longest(ClassifyWindow, rest, 0, |rest|).None?;
    }
    ScanHere(ClassifyWindow, rest, 0);
  }

  /** After an accepted first item ending at `e`, a cursor from which no window
      classifies makes the whole span fail, naming the character at the cursor. */
  lemma StrandedFails(rest: string, e: nat)
    requires 0 < e < |rest| && ClassifyWindow(rest[0..e]).Some?
    requires forall e' :: e < e' <= |rest| ==> ClassifyWindow(rest[0..e']).None?
    requires forall e' :: e < e' <= |rest| ==> ClassifyWindow(rest[e..e']).None?
    ensures SpanTokens(rest) == Err(NotRecognized(rest[e..e + 1]))
  {
    assert Longest(ClassifyWindow, rest, e, |rest|).None?;
    ScanHere(ClassifyWindow, rest, e);
    ScanLongest(ClassifyWindow, rest, 0, e);
    var scan := Scan(ClassifyWindow, rest, 0);
    assert scan.1 == e;
    assert Verdict(rest, scan) == Err(NotRecognized(rest[e..e + 1]));
  }

  /** The text of a quoted item. */
  function Quoted(item: Lexed): Option<string>
  {
    if item.String? then Some(item.text) else None
  }

  /** The output of `tokenize` for a list of spans: every quoted span as one `String`
      item, every unquoted span as its scanned items, in order; the first failing span
      fails the whole. */
  function TokenStream(spans: seq<Helper.PreLexed>): (r: Result<seq<Lexed>>)
    ensures r.Ok? ==> forall i :: 0 <= i < |r.value| ==> r.value[i].String? || Scanned(r.value[i])
    ensures r.Ok? ==> Helper.Strings(r.value, Quoted) == Helper.QuotedTexts(spans)
  {
    if |spans| == 0 then Ok([])
    else
      match TokenStream(spans[..|spans| - 1])
      case Err(e) => Err(e)
      case Ok(init) =>
        match spans[|spans| - 1]
        case String(s) => Helper.StringsAppend(init, [String(s)], Quoted); Ok(init + [String(s)])
        case Rest(rest) =>
          match SpanTokens(rest)
          case Err(e) => Err(e)
          case Ok(items) => Helper.StringsAppend(init, items, Quoted); Helper.StringsOfUnquoted(items, Quoted); Ok(init + items)
  }

  /** What one more span does to a successful stream: a quoted span is appended as a
      string, an unquoted one as its items, or its error replaces the stream. */
  function Next(init: seq<Lexed>, span: Helper.PreLexed): Result<seq<Lexed>>
  {
    match span
    case String(s) => Ok(init + [String(s)])
    case Rest(rest) =>
      match SpanTokens(rest)
      case Err(e) => Err(e)
      case Ok(items) => Ok(init + items)
  }

  /** The fold law of `TokenStream`, for the prefixes the loop of `tokenize` visits. */
  lemma TokenStreamStep(spans: seq<Helper.PreLexed>, k: nat, init: seq<Lexed>)
    requires k < |spans| && TokenStream(spans[..k]) == Ok(init)
    ensures TokenStream(spans[..k + 1]) == Next(init, spans[k])
  {
    assert spans[..k + 1][..k] == spans[..k];
  }

  // ------------------------------------------------------------------ the loops

  lemma {:induction false} TokenStreamErrSticky(spans: seq<Helper.PreLexed>, k: nat, e: string)
    requires k <= |spans| && TokenStream(spans[..k]) == Err(e)
    ensures TokenStream(spans) == Err(e)
    decreases |spans| - k
  {
    if k < |spans| {
      assert spans[..k + 1][..k] == spans[..k];
      TokenStreamErrSticky(spans, k + 1, e);
    } else {
      assert spans[..k] == spans;
    }
  }

  /** The inner loop of `tokenize` over one unquoted span: `pos` is the cursor and
      `offset` the right end of the window, reset to the span's length after every
      emission. */
  method TokenizeSpan(rest: string) returns (r: Result<seq<Lexed>>)
    ensures r == SpanTokens(rest)
  {
    var items, stop := GreedyScan(ClassifyWindow, rest);
    r := Verdict(rest, (items, stop));
  }

  /** One iteration of the outer loop of `tokenize`: a quoted span passes through, an
      unquoted one is scanned. */
  method TokenizeNext(result: seq<Lexed>, span: Helper.PreLexed) returns (r: Result<seq<Lexed>>)
    ensures r == Next(result, span)
  {
    match span
    case String(s) =>
      r := Ok(result + [String(s)]);
    case Rest(rest) =>
      var items := TokenizeSpan(rest);
      r := if items.Err? then Err(items.error) else Ok(result + items.value);
  }

  /** The outer loop of `tokenize`: quoted spans pass through, unquoted spans are
      scanned, and the first failure aborts. */
  method Tokenize(preLexed: seq<Helper.PreLexed>) returns (r: Result<seq<Lexed>>)
    ensures r == TokenStream(preLexed)
  {
    var result: seq<Lexed> := [];
    for k := 0 to |preLexed|
      invariant TokenStream(preLexed[..k]) == Ok(result)
    {
      var next := TokenizeNext(result, preLexed[k]);
      TokenStreamStep(preLexed, k, result);
      if next.Err? {
        TokenStreamErrSticky(preLexed, k + 1, next.error);
        return Err(next.error);
      }
      result := next.value;
    }
    assert preLexed[..|preLexed|] == preLexed;
    return Ok(result);
  }

  /** The `lex` entry point: quote splitting, then tokenizing. */
  method Lex(query: string) returns (r: Result<seq<Lexed>>)
    ensures r == TokenStream(Helper.Spans(query))
    ensures r.Ok? ==> Helper.Strings(r.value, Quoted) == Helper.QuotedTexts(Helper.Spans(query))
  {
    var preLexed := Helper.PreLex(query);
    r := Tokenize(preLexed.value);
  }
}
