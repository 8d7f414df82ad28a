/** The quote splitter shared by both front ends (`pre_lex`).

    Raw text is cut at every `"` into spans. Spans alternate between unquoted text
    (`Rest`) and quoted text (`String`), starting with `Rest`; the text after the last
    quote is always a `Rest`, even when a quote was opened and never closed. Quotes
    themselves are dropped and there are no escapes. */
module Helper {
  import opened Results
  import opened Split

  datatype PreLexed = String(text: string) | Rest(text: string)

  const Quote: set<char> := {'"'}

  /** The kind of span number `i` of `n` spans: the last one and every even one are
      unquoted, every other one is quoted. */
  function Label(pieces: seq<string>): (r: seq<PreLexed>)
    requires |pieces| >= 1
    ensures |r| == |pieces|
    ensures forall i :: 0 <= i < |r| ==> r[i].text == pieces[i]
  {
    seq(|pieces|, i requires 0 <= i < |pieces| =>
      if i == |pieces| - 1 || i % 2 == 0 then Rest(pieces[i]) else String(pieces[i]))
  }

  function Texts(spans: seq<PreLexed>): (r: seq<string>)
    ensures |r| == |spans|
  {
    seq(|spans|, i requires 0 <= i < |spans| => spans[i].text)
  }

  /** The spans `pre_lex` produces for `query`. */
  function Spans(query: string): (r: seq<PreLexed>)
    ensures |r| == |Filter(query, Quote)| + 1
    ensures r[|r| - 1].Rest?
    ensures forall i :: 0 <= i < |r| - 1 ==> (r[i].Rest? <==> i % 2 == 0)
    ensures forall i, j :: 0 <= i < |r| && 0 <= j < |r[i].text| ==> r[i].text[j] != '"'
  {
    Label(SplitBy(query, Quote))
  }

  /** The loop of `pre_lex`: a buffer collects characters and every quote flushes it,
      as a `String` when a quoted span was open and as a `Rest` otherwise. It never
      fails. */
  method PreLex(query: string) returns (r: Result<seq<PreLexed>>)
    ensures r == Ok(Spans(query))
  {
    var result: seq<PreLexed> := [];
    var buf: string := [];
    var isString := false;
    for i := 0 to |query|
      invariant PreLexing(query, i, result, buf, isString)
    {
      var c := query[i];
      if c == '"' {
        PreLexQuote(query, i, result, buf, isString);
        if isString {
          result := result + [String(buf)];
          buf := [];
          isString := false;
        } else {
          result := result + [Rest(buf)];
          buf := [];
          isString := true;
        }
      } else {
        PreLexOther(query, i, result, buf, isString);
        buf := buf + [c];
      }
    }
    PreLexDone(query, result, buf, isString);
    return Ok(result + [Rest(buf)]);
  }

  /** The state of `pre_lex` after the first `i` characters: the pieces split so far are
      flushed but for the last, which is the buffer, and a quoted span is open exactly
      when the last span pushed was unquoted. */
  ghost predicate PreLexing(query: string, i: nat, result: seq<PreLexed>, buf: string, isString: bool)
  {
    && i <= |query|
    && var pieces := SplitBy(query[..i], Quote);
    && Flushed(result, pieces)
    && buf == pieces[|pieces| - 1]
    && (isString <==> InString(result))
  }

  lemma PreLexQuote(query: string, i: nat, result: seq<PreLexed>, buf: string, isString: bool)
    requires i < |query| && query[i] == '"'
    requires PreLexing(query, i, result, buf, isString)
    ensures PreLexing(query, i + 1, result + [if isString then String(buf) else Rest(buf)], [], !isString)
  {
    assert query[..i + 1] == query[..i] + [query[i]];
    SplitAppendSep(query[..i], query[i], Quote);
    FlushStep(result, SplitBy(query[..i], Quote), isString);
  }

  lemma PreLexOther(query: string, i: nat, result: seq<PreLexed>, buf: string, isString: bool)
    requires i < |query| && query[i] != '"'
    requires PreLexing(query, i, result, buf, isString)
    ensures PreLexing(query, i + 1, result, buf + [query[i]], isString)
  {
    assert query[..i + 1] == query[..i] + [query[i]];
    SplitAppendOther(query[..i], query[i], Quote);
    BufferStep(result, SplitBy(query[..i], Quote), query[i]);
  }

  lemma PreLexDone(query: string, result: seq<PreLexed>, buf: string, isString: bool)
    requires PreLexing(query, |query|, result, buf, isString)
    ensures result + [Rest(buf)] == Spans(query)
  {
    assert query[..|query|] == query;
    FlushedLabel(result, SplitBy(query, Quote));
  }

  /** All pieces but the last have been pushed, labelled by the parity of their index. */
  ghost predicate Flushed(result: seq<PreLexed>, pieces: seq<string>)
  {
    && |result| + 1 == |pieces|
    && forall j :: 0 <= j < |result| ==>
         result[j] == (if j % 2 == 0 then Rest(pieces[j]) else String(pieces[j]))
  }

  /** A quoted span is open exactly when the last span pushed was unquoted. */
  predicate InString(result: seq<PreLexed>)
  {
    |result| > 0 && result[|result| - 1].Rest?
  }

  lemma FlushStep(result: seq<PreLexed>, pieces: seq<string>, isString: bool)
    requires Flushed(result, pieces)
    requires isString <==> InString(result)
    ensures var last := pieces[|pieces| - 1];
      var next := result + [if isString then String(last) else Rest(last)];
      Flushed(next, pieces + [[]]) && (InString(next) <==> !isString)
  {
    if |result| > 0 {
      var n := |result| - 1;
      assert result[n] == (if n % 2 == 0 then Rest(pieces[n]) else String(pieces[n]));
    }
  }

  lemma BufferStep(result: seq<PreLexed>, pieces: seq<string>, c: char)
    requires Flushed(result, pieces)
    ensures Flushed(result, pieces[..|pieces| - 1] + [pieces[|pieces| - 1] + [c]])
  {
  }

  lemma FlushedLabel(result: seq<PreLexed>, pieces: seq<string>)
    requires Flushed(result, pieces)
    ensures result + [Rest(pieces[|pieces| - 1])] == Label(pieces)
  {
  }

  lemma TextsLabel(pieces: seq<string>)
    requires |pieces| >= 1
    ensures Texts(Label(pieces)) == pieces
  {
  }

  /** Round trip: the span texts interleaved with quotes give back the input. */
  lemma SpansRoundTrip(query: string)
    ensures Weave(Texts(Spans(query)), Filter(query, Quote)) == query
  {
    TextsLabel(SplitBy(query, Quote));
    WeaveSplit(query, Quote);
  }

  /** The span texts concatenated are the input with every quote removed. */
  lemma SpansFlatten(query: string)
    ensures Flatten(Texts(Spans(query))) == Remove(query, Quote)
  {
    TextsLabel(SplitBy(query, Quote));
    FlattenSplit(query, Quote);
  }

  /** The quoted spans, in order. */
  function QuotedTexts(spans: seq<PreLexed>): (r: seq<string>)
    ensures |r| <= |spans|
  {
    if |spans| == 0 then []
    else QuotedTexts(spans[..|spans| - 1])
         + (if spans[|spans| - 1].String? then [spans[|spans| - 1].text] else [])
  }

  /** The texts that `quoted` reads off the items of a token stream, in order: the
      stream's quoted strings. Both tokenizers use it with their own item type. */
  function Strings<T>(items: seq<T>, quoted: T -> Option<string>): seq<string>
  {
    if |items| == 0 then []
    else Strings(items[..|items| - 1], quoted)
         + (match quoted(items[|items| - 1]) case Some(s) => [s] case None => [])
  }

  lemma {:induction false} StringsAppend<T>(a: seq<T>, b: seq<T>, quoted: T -> Option<string>)
    ensures Strings(a + b, quoted) == Strings(a, quoted) + Strings(b, quoted)
    decreases |b|
  {
    if |b| > 0 {
      var b' := b[..|b| - 1];
      assert (a + b)[..|a + b| - 1] == a + b';
      StringsAppend(a, b', quoted);
    } else {
      assert a + b == a;
    }
  }

  lemma {:induction false} StringsOfUnquoted<T>(items: seq<T>, quoted: T -> Option<string>)
    requires forall i :: 0 <= i < |items| ==> quoted(items[i]).None?
    ensures Strings(items, quoted) == []
    decreases |items|
  {
    if |items| > 0 {
      StringsOfUnquoted(items[..|items| - 1], quoted);
    }
  }
}
