# A verified model of a toy browser engine's front ends

The repository is an early Rust browser engine. Its front end reads two languages:
markup (tags with attributes) and stylesheets (rules of selectors and declarations).
This project models that front end in Dafny 4.11 and proves properties of the model:

- `pre_lex` (`src/helper/mod.rs`) cuts raw text at double quotes into quoted and
  unquoted spans. Module `Helper` models it.
- The stylesheet tokenizer (`src/css/lexer/mod.rs`) scans every unquoted span with a
  greedy "longest window" search. Each window is trimmed, then looked up in a
  six-symbol table, then checked against the identifier rule. Module `CssLexer` models it.
- The markup tokenizer and tag builder (`src/dom/lexer/mod.rs`) are modelled by module
  `DomLexer`. The tokenizer uses the same window search with a five-symbol table and
  a "content" character class. `taginize` folds the items through a state machine
  that builds tags. `lex` chains the passes.
- The stylesheet parser (`src/css/parser/mod.rs`) is modelled by module `CssParser`.
  It cuts the stream at braces into rules, splits selectors at commas and
  declarations at semicolons, and parses each selector and declaration.

Shared pieces sit in their own modules:

- `Results` holds the `Result`/`Option` types and the laws of "map, stopping at the
  first error" (the `?` loops).
- `Split` holds splitting at separators, with its inverse `Weave`.
- `Window` holds the greedy window search that both tokenizers share, as a
  declarative function and as the loop that computes it.

The outer loops of the source are Dafny `method`s with the source's variables, each
proved equal to a declarative function. These are `pre_lex`, the shared window loop,
both `tokenize` passes, `taginize`, the brace loop, `split`, and the loops of
`parse_selectors`, `parse_declarations` and `parse_stylesheet`. Several inner loops
are recursive functions instead:

- the character loops of `is_identifier`, of the trimming and of the content check;
- the `split(" ")` of tag contents;
- the attribute-map insertion loop;
- the token loop of the recursive selector parser (`CssParser.ParseLoop`).

The properties are stated about these functions:

- round trips (`Weave` of the split text, rendering and re-parsing selectors,
  declarations and whole stylesheets);
- "iff" characterisations of acceptance (identifiers, selectors, values, the failing
  `taginize` steps);
- counts (tags per closer, rules per `{`);
- independent reference definitions (a position-by-position description of the
  recursive selector parser).

Behaviour of the code that the model keeps as written:

- The stylesheet tokenizer's table holds only `>`, `{`, `}`, `:`, `;` and `#`. It
  never produces commas, stars, numbers or units, although the parser expects them.
  The parser therefore has its own, larger token vocabulary, and the two are not
  composed.
- A stylesheet span none of whose leading windows is recognised yields nothing and
  does not fail. Only a cursor stranded after a first item fails.
- The markup tokenizer never fails. A cursor from which no window is accepted (for
  example a `/` not followed by `>`) silently drops the rest of the span.
- `taginize` ignores content and strings outside tags. An attribute without a value
  gets the empty string.
- The markup `lex` always returns an error: the message of the first failing pass,
  or the placeholder `"test"`.
- The selector parser keeps only tag names. Class, id and pseudo parts are read
  and discarded, so `a.b` parses as `a`.
- `*` followed directly by a descendant is rejected (`* a` is an error), because `*`
  remains the previous token. A qualified `*` resets it, so `*.x a` is accepted.
- A selector may have no head: the empty group and `> a` both parse.
- Declarations are accepted only for `width` (a number followed by `px`) and
  `display` (an identifier). Everything else is silently skipped.

## Model

| member | source | states |
|---|---|---|
| Results.TraverseAll | src/css/parser/mod.rs:150-157 | A `?` loop over a list succeeds exactly when every element succeeds; its result then has one value per element, in order. |
| Results.TraverseFirstError | src/css/parser/mod.rs:129-137 | When a `?` loop fails, its error is the error of some element, and every element before it succeeded. |
| Split.WeaveSplit | src/css/parser/mod.rs:160-178 | `split` loses nothing: interleaving its groups with the separators removed recovers the input. |
| Split.SplitUnique | src/css/parser/mod.rs:160-178 | `split` is the only separator-free grouping that weaves back to the input, so it can be recognised from any such decomposition. |
| Split.FlattenSplit | src/css/parser/mod.rs:160-178 | Concatenating the groups of `split` gives the input with every separator removed. |
| Split.SplitFirst | src/dom/lexer/mod.rs:207-218 | The first group of a split is the longest separator-free prefix, followed by a separator when it is shorter than the input. |
| Helper.Spans | src/helper/mod.rs:25-52 | `pre_lex` yields one span more than there are quotes, the last span is unquoted, spans alternate starting unquoted, and no span contains a quote. |
| Helper.PreLex | src/helper/mod.rs:25-52 | The character loop of `pre_lex` (flush on each quote, toggle, final flush of a `Rest`) always succeeds and computes `Spans`. |
| Helper.SpansRoundTrip | src/helper/mod.rs:30-49 | Interleaving the span texts with the quotes recovers the input exactly. |
| Helper.SpansFlatten | src/helper/mod.rs:30-49 | Concatenating the span texts gives the input with the quotes removed. |
| Window.Longest | src/css/lexer/mod.rs:107-128 | The shrinking window finds the longest accepted window at the cursor, and finds none exactly when every window there is rejected. |
| Window.Scan | src/css/lexer/mod.rs:102-137 | The scan stops at the end of the text or at a cursor from which no window is accepted, having emitted at most one item per character. |
| Window.ScanLongest | src/dom/lexer/mod.rs:147-171 | Longest match: when a window is accepted and every longer one rejected, the scan emits that window's item and continues from its end. |
| Window.GreedyScan | src/dom/lexer/mod.rs:141-171 | The `pos`/`offset` loop shared by both tokenizers computes the declarative scan. |
| CssLexer.TokenOfIsLookup | src/css/lexer/mod.rs:52-61 | The symbol lookup is exactly the six-entry table of `get_tokens`. |
| CssLexer.TokenOf | src/css/lexer/mod.rs:92-97 | Recognised symbols are one character long, come from the table, and never include comma, parentheses, star or RGB. |
| CssLexer.TableAvoidsUnused | src/css/lexer/mod.rs:52-61 | The table of `get_tokens` yields exactly `>`, `{`, `}`, `:`, `;` and `#`; every other declared token (comma, parentheses, star, RGB) is never produced. |
| CssLexer.TrimStart | src/css/lexer/mod.rs:117 | Trimming the front removes exactly the leading whitespace, leaving a suffix that is empty or starts with a non-space. |
| CssLexer.TrimEnd | src/css/lexer/mod.rs:117 | Trimming the back removes exactly the trailing whitespace, leaving a prefix that is empty or ends with a non-space. |
| CssLexer.IdentifierExactly | src/css/lexer/mod.rs:71-90 | `is_identifier` accepts exactly the non-empty words over letters, digits, `_` and `-`, except a single `_`, `-` or digit. |
| CssLexer.Classify | src/css/lexer/mod.rs:122-128 | A table key yields its symbol, taking precedence over the identifier rule; a window is rejected exactly when it is neither a table key nor an identifier, and an accepted identifier is the trimmed window itself. |
| CssLexer.Verdict | src/css/lexer/mod.rs:107-116 | A span's scan succeeds with its items exactly when it stopped at the span's start or end; otherwise it fails with "not recognized" and the one character at the cursor. |
| CssLexer.LeadingJunkIgnored | src/css/lexer/mod.rs:107-111 | A span none of whose leading windows is recognised yields no items and does not fail. |
| CssLexer.StrandedFails | src/css/lexer/mod.rs:113-115 | After a first item, a cursor from which no window is recognised fails the span with "Token not recognized" and the character there. |
| CssLexer.SpanTokens | src/css/lexer/mod.rs:102-138 | Every item of an unquoted span is a table symbol or a valid identifier. |
| CssLexer.TokenStream | src/css/lexer/mod.rs:99-142 | The token stream holds the quoted spans as strings, in order, and otherwise only scanned items. |
| CssLexer.TokenStreamErrSticky | src/css/lexer/mod.rs:113-115 | Once a span fails, the whole of `tokenize` fails with that error. |
| CssLexer.TokenizeSpan | src/css/lexer/mod.rs:102-137 | The inner window loop of `tokenize` computes the span's items or its error. |
| CssLexer.Tokenize | src/css/lexer/mod.rs:67-143 | The outer loop of `tokenize` computes the token stream and stops at the first failing span. |
| CssLexer.Lex | src/css/lexer/mod.rs:145-151 | `lex` tokenizes the spans of `pre_lex`, and the strings it emits are exactly the quoted texts. |
| DomLexer.TokenOfIsLookup | src/dom/lexer/mod.rs:92-105 | The symbol lookup is exactly the five-entry table. |
| DomLexer.Classify | src/dom/lexer/mod.rs:120-131 | The table comes first: a table key yields its own symbol. Otherwise non-empty content yields the window itself as content, and a window is rejected exactly when it is neither. |
| DomLexer.SlashOnlyInSymbols | src/dom/lexer/mod.rs:157-163 | A window containing `/` is accepted only when it is `</` or `/>`. |
| DomLexer.SpanItems | src/dom/lexer/mod.rs:140-171 | Every item of an unquoted span is a table symbol or content. |
| DomLexer.CloseTagWins | src/dom/lexer/mod.rs:147-167 | At `</` the scan emits a close-tag symbol rather than `<`. |
| DomLexer.SelfCloseWins | src/dom/lexer/mod.rs:147-167 | At `/>` the scan emits a self-close symbol. |
| DomLexer.StraySlashDropsRest | src/dom/lexer/mod.rs:147-163 | A `/` not followed by `>` strands the cursor, so the rest of the span is dropped. |
| DomLexer.TokenStream | src/dom/lexer/mod.rs:135-174 | The token stream holds the quoted spans as strings, in order, and otherwise only scanned items. |
| DomLexer.TokenizeSpan | src/dom/lexer/mod.rs:140-171 | The inner window loop computes the span's items. |
| DomLexer.Tokenize | src/dom/lexer/mod.rs:91-177 | The markup `tokenize` never fails and computes the token stream. |
| DomLexer.BuildAttrs | src/dom/lexer/mod.rs:251-254 | The attribute map has exactly the keys of the collected attributes. |
| DomLexer.LastWins | src/dom/lexer/mod.rs:251-254 | For a repeated attribute, the map keeps the value of its last occurrence. |
| DomLexer.Step | src/dom/lexer/mod.rs:190-286 | One step of `taginize` only ever appends tags. |
| DomLexer.CloseEmits | src/dom/lexer/mod.rs:250-278 | Closing a named tag appends it with its attribute map: `>` keeps the opener's status (open or close), `/>` on an open tag makes it self-closing; the tag state is then reset. |
| DomLexer.StepFails | src/dom/lexer/mod.rs:192-265 | In a reachable state, a step fails exactly for: a string after `=` with no attribute, `<` or `</` inside a tag, `>` or `/>` outside a tag or before a name, and `/>` on a closing tag. |
| DomLexer.StepReachable | src/dom/lexer/mod.rs:272-278 | Steps keep the state consistent: outside a tag there is no name, attribute or pending `=`, and inside one the status is open or close. |
| DomLexer.NameIsFirstWord | src/dom/lexer/mod.rs:206-218 | The first content in a tag names it with its first space-free word. Every further word is appended as an attribute with an empty value, and the name and new attribute names, joined by the spaces, give back the content. Nothing else changes. |
| DomLexer.MoreWordsAreAttributes | src/dom/lexer/mod.rs:219-224 | Content in an already named tag appends every space-separated word as an attribute with an empty value; the new names, joined by the spaces, give back the content. Nothing else changes. |
| DomLexer.ValueSetsLastAttribute | src/dom/lexer/mod.rs:191-202 | A string after `=` with an attribute present replaces only the last attribute's value, clears the pending `=`, and the finished map sends that name to the string. |
| DomLexer.Taginize | src/dom/lexer/mod.rs:179-292 | The `taginize` loop computes the fold of `Step`, stopping at the first error. |
| DomLexer.RunErrSticky | src/dom/lexer/mod.rs:179-292 | Once a step fails, the whole of `taginize` fails with that error. |
| DomLexer.TagsAreTags | src/dom/lexer/mod.rs:256-272 | `taginize` produces only tags, each with a real status. |
| DomLexer.TagCount | src/dom/lexer/mod.rs:240-279 | A successful `taginize` yields one tag per `>` or `/>`. |
| DomLexer.Lex | src/dom/lexer/mod.rs:294-310 | `lex` always fails: with the error of `taginize` when it fails, else with "test". |
| DomLexer.ExampleAnchor | src/dom/lexer/mod.rs:179-292 | `<a href="x">` yields one open tag named `a` whose `href` is `x`. |
| CssParser.SplitTokens | src/css/parser/mod.rs:160-178 | The `split` loop computes the separator split and never fails. |
| CssParser.Feed | src/css/parser/mod.rs:99-121 | The brace loop has started a rule exactly when it has seen a `{`. |
| CssParser.SplitRules | src/css/parser/mod.rs:86-121 | The brace loop computes the declarative brace split. |
| CssParser.OpenAppends | src/css/parser/mod.rs:102-107 | A `{` starts a new rule whose selector part is the pending tokens, and clears them. |
| CssParser.CloseOverwrites | src/css/parser/mod.rs:108-115 | A `}` replaces the declaration part of the last rule with the pending tokens and changes nothing else. |
| CssParser.TailDropped | src/css/parser/mod.rs:99-121 | Tokens after the last brace are dropped. |
| CssParser.PairsCount | src/css/parser/mod.rs:99-121 | The brace loop produces one rule per `{`. |
| CssParser.PairsJoin | src/css/parser/mod.rs:99-121 | Writing brace-free rules as `selectors { declarations }` and splitting them again gives back the rules. |
| CssParser.RenderParse | src/css/parser/mod.rs:198-294 | Every selector the parser can produce, headless ones included, written out as tokens, parses back to itself. |
| CssParser.ParsedRenderable | src/css/parser/mod.rs:198-294 | Every parsed selector has the shape `Renderable` describes: no ids, classes or pseudo-classes, nested parts are tag names, and only the top may be headless or `*`. |
| CssParser.Producible | src/css/parser/mod.rs:198-294 | A selector has that shape exactly when some token list parses to it, so the round trip covers all the parser's results. |
| CssParser.HeadlessExamples | src/css/parser/mod.rs:198-294 | The empty group parses as the empty selector, and `> a` as a headless selector with child `a`. |
| CssParser.UniversalQualifiedDescendant | src/css/parser/mod.rs:231-281 | `*.x a` parses as `*` with descendant `a`, because the class resets the previous token. |
| CssParser.SelectorByPosition | src/css/parser/mod.rs:198-294 | The recursive parser with its shared cursor agrees with a position-by-position description: it fails at the first faulty token, and otherwise each identifier after a combinator starts the child. |
| CssParser.SelectorAccepted | src/css/parser/mod.rs:198-294 | A selector parses exactly when no token is faulty (a string, a `*` after the start, an identifier after a non-combinator, non-qualifier symbol). |
| CssParser.StringRejected | src/css/parser/mod.rs:219 | A selector containing a string fails. |
| CssParser.StarRejected | src/css/parser/mod.rs:272-281 | A `*` anywhere but at the start fails. |
| CssParser.SelectorBare | src/css/parser/mod.rs:220-244 | Parsed selectors never carry ids, classes or pseudo-classes, at any depth. |
| CssParser.UniversalDescendantRejected | src/css/parser/mod.rs:259-285 | `* a` fails with "Unexpected token in selector: 'Star'". |
| CssParser.ClassDropped | src/css/parser/mod.rs:231-241 | `a.b` parses as the tag `a` alone. |
| CssParser.ChildExample | src/css/parser/mod.rs:245-258 | `a > b` parses as `a` with child `b` of kind `Child`. |
| CssParser.ParseSelectors | src/css/parser/mod.rs:142-158 | `parse_selectors` parses every comma-separated group, stopping at the first error. |
| CssParser.SelectorsRoundTrip | src/css/parser/mod.rs:142-158 | A non-empty list of selectors the parser can produce (any of them headless), written with commas between them, parses back to itself. |
| CssParser.ParseKeyword | src/css/parser/mod.rs:341-354 | A keyword parses exactly when the first token is an identifier, and is that identifier. |
| CssParser.ParseLength | src/css/parser/mod.rs:356-379 | A length parses exactly when a number is followed by `px`, and carries that number. |
| CssParser.ValueRoundTrip | src/css/parser/mod.rs:341-379 | Written values parse back to themselves, whatever tokens follow. |
| CssParser.LengthErrors | src/css/parser/mod.rs:359-376 | Each way of failing gives its own message: too short, not a number, unknown unit. |
| CssParser.DeclOf | src/css/parser/mod.rs:304-336 | A declaration that is kept is a `width` length or a `display` keyword. |
| CssParser.DeclOfIsPrefix | src/css/parser/mod.rs:304-336 | A group yields a declaration exactly when that declaration is known and its written form is a prefix of the group. |
| CssParser.Decls | src/css/parser/mod.rs:304-336 | Declarations are kept at most one per group, and only known ones. |
| CssParser.ParseDeclarations | src/css/parser/mod.rs:297-339 | `parse_declarations` never fails and keeps the declarations of the semicolon groups in order. |
| CssParser.DeclsRoundTrip | src/css/parser/mod.rs:297-339 | Known declarations, written with semicolons, parse back to themselves. |
| CssParser.ParseStylesheet | src/css/parser/mod.rs:86-140 | `parse_stylesheet` parses every rule of the brace split, stopping at the first error. |
| CssParser.RuleRoundTrip | src/css/parser/mod.rs:129-136 | A written rule parses back to itself. |
| CssParser.SheetRoundTrip | src/css/parser/mod.rs:86-140 | A stylesheet whose rules hold selectors the parser can produce and known declarations, written out, parses back to itself. |
| CssParser.SheetFirstError | src/css/parser/mod.rs:129-137 | A failing stylesheet fails with the selector error of its first bad rule, since declarations never fail. |

## Left out

- Printing (`println!`) and the `init`/`parse_css`/`parse_dom` wiring in
  `src/lib.rs`, `src/css/mod.rs` and `src/dom/mod.rs` are left out. They only print
  or forward results.
- The markup tree builder is left out: `src/dom/parser/mod.rs` declares node types
  only, and its `parse` function is not part of this model.
- The markup lexer's own copy of `pre_lex` (src/dom/lexer/mod.rs:62-89) is the same
  code as the helper's, so `Helper.PreLex` models both.
- The stylesheet tokenizer and parser are not composed. The parser's token
  vocabulary (numbers, `.`, `~`, `+`, `::`, `px`, and a "no token" marker) is larger
  than anything the tokenizer produces.
- Text is a sequence of characters. The source slices UTF-8 strings by byte offset,
  which panics inside a multi-byte character; the model assumes one byte per
  character.
- Attribute maps are Dafny maps. The hash map's iteration order is unobservable
  here, so it is not modelled.
- `StyleNumber` is modelled as an unbounded integer. Its concrete numeric type is not
  part of this model.
- The `Color` case of `Value` is never constructed by the parser, so it is left out
  of the model's value type.
- Pseudo-classes are declared but never produced. The model keeps their types, and
  `CssParser.SelectorBare` proves that no parsed selector contains one.
- The recursive parser shares its cursor through an unsafe raw reference to itself. The model
  threads the cursor through the recursion (`CssParser.ParseLoop` returns where it
  stopped).
- The fallback arm "Unexpected token" (src/css/parser/mod.rs:255) cannot be reached,
  because only combinators lead there. The model has no such arm.
- Error messages that print a string with `{:?}` use plain quotes. Rust's debug
  escaping of special characters inside the string is not modelled.
- `CssParser.SplitRules`: a `}` before any `{` makes the source panic (`unwrap` on an
  empty list). The model excludes such input with the precondition `CanFeed`, and so
  do `CssParser.ParseStylesheet` and `CssParser.Sheet`.
