# Vertical.Text template strings, modelled in Dafny

This project models the core of the Vertical.Text template-string library. That library compiles a template such as
`.json[.{compression}]` once, and replaces its placeholders with dictionary values as often as needed.

**The compiler (`Parser`, `parser.dfy`).**
- The compiler is the class `TemplateParser`.
- A scanner matches brackets using an explicit stack of expected closers.
- It splits a template into units:
  - plain-text runs;
  - `{key}` / `{key:fmt}` placeholders;
  - `[...]` optional segments, whose inner text is compiled recursively;
  - `{{...}}` escape units.
- Each unit becomes an appender.
- Each step of the class is proved against a pure specification function: `ScanTemplate`, `ValueSpan`, `TokenAt`,
  `PropertyAppenderOf`, `OptionalAppenderOf`, `TemplateUnitAt`, `UnitAt` and `ParseUnits`.
- The properties of those functions are in the module `ParserProperties`. The main ones:
  - the error cases;
  - escape units;
  - folding an optional segment that has no placeholder;
  - "every optional segment has a placeholder".

**The grammar (`Grammar`, `grammar.dfy`).**
- It gives an independent, structural definition of the template language: text runs, `{...}` groups and `[...]`
  groups, nested freely.
- It says what each piece compiles to.
- `ParseOfPieces` proves that the character-by-character compiler produces exactly that, for every template the
  grammar writes.

**Templates left open (`OpenLevels`, `levels.dfy`).**
- Brackets opened one inside the other, each followed by well-formed pieces, are written as a sequence of levels.
- The scanner keeps one closer per level on its stack.
- A template that ends inside such levels, or closes the innermost one with the wrong bracket, is a format error at any
  depth.

**The appenders (`Appenders`, `appenders.dfy`).**
- An appender is a datatype: constant text, a property placeholder, or an optional segment.
- What one `Append` call adds to a token list, or throws, is the function `Render`.
- The methods `AppendConstant`, `AppendProperty`, `AppendOptional` and `Append` mutate a token list (`Collections.List`, a
  class over a `seq`) and are proved to do what `Render` says.
- Lemmas state the collapse rule of optional segments, that rendering reads the dictionary only at the template's keys,
  and when rendering cannot throw.

**The entry point (`TemplateStrings`, `template_string.dfy`).**
- `Create`, `Parse` and `TryParse` validate the argument, then run the compiler.
- `Replace` renders the appenders outside optional context and concatenates the token values. It is proved against the
  function `Replaced`.

**The test cases (`TestCases`, `test_cases.dfy`).** The repository's test cases are stated for every key, value and
surrounding text of the same shape, not only for the one literal each test uses.

**The escape quirk.** The scanner recognises `{{` even while a bracket is open. It then takes the rest of the template
from the escape unit's length, counted from the start of the span, and it looks for the *last* `}}` of the span. The
model keeps this behaviour as the code is written:
- `ParserProperties.EscapeInSegmentIsMisread` shows that `[{{x}}]` is always a format error;
- `TemplateStrings.EscapeRoundTrip` shows that `{{a}}{{b}}` is a single constant `{a}}{{b}`.

Outside the model, the caller supplies:
- .NET composite formatting, as the `Formatter` parameter;
- dictionary values as strings, with `None` standing for `null`.

## Model

| member | source | states |
|---|---|---|
| Parser.TokenSpan.Length | src/Vertical/Text/TemplateParser.cs:13 | the length of a unit is the larger of its template and inner lengths |
| Parser.TokenSpan.IsTemplate | src/Vertical/Text/TemplateParser.cs:14 | a unit is bracketed exactly when its template text is non-empty; `TokenAt` states which tokens are |
| Parser.TokenSpan.IsEscapedTemplate | src/Vertical/Text/TemplateParser.cs:16 | an escape unit is at least four characters, opening with `{{` and closing with `}}`; `EscapeUnit` states how it compiles |
| Parser.LastDoubleClose | src/Vertical/Text/TemplateParser.cs:143-149 | a found `}}` ends after the opener and within the searched range |
| Parser.LastDoubleCloseSound | src/Vertical/Text/TemplateParser.cs:143-149 | the backward search finds the last `}}` ending after the opener, and `None` exactly when there is none |
| Parser.StepAt | src/Vertical/Text/TemplateParser.cs:134-171 | one character of the scan goes on only with the front opener still open, its closer at the bottom of the stack |
| Parser.ScanFromSound | src/Vertical/Text/TemplateParser.cs:132-176 | with brackets open, the scan never returns "not a unit"; a returned unit is a prefix that opens with the span's first character and ends with the closer it expects, or is a `{{...}}` unit; every error is a format error; from the front, "not a unit" exactly when the span does not start with a bracket |
| Parser.StopSound | src/Vertical/Text/TemplateParser.cs:143-175 | where the scan stops, the unit it returns is an escape unit or the prefix up to the front opener's closer, every error is a format error, and "not a unit" only at the front on a non-bracket |
| Parser.ScanTemplate | src/Vertical/Text/TemplateParser.cs:126-177 | "not a unit" exactly when the span does not start with a bracket; a leading closer is a format error; a unit is at least two characters with the outer characters stripped for `inner` |
| Parser.ValueSpan | src/Vertical/Text/TemplateParser.cs:179-194 | the plain run is the longest prefix without `[ ] { }`, and is not a template |
| Parser.TokenAt | src/Vertical/Text/TemplateParser.cs:119-124 | a bracketed or escape token is a unit the scanner vouches for; a plain token is a non-empty, bracket-free prefix of the span; reading fails only with a format error |
| Parser.PropertyAppenderOf | src/Vertical/Text/TemplateParser.cs:86-107 | the key is the inner text before the first `:`; the format is the rest from that colon, wrapped as `{0...}`; with no colon the whole inner text is the key and there is no format; the braced text is kept as the template part |
| Parser.OptionalAppenderOf | src/Vertical/Text/TemplateParser.cs:65-79 | a segment never compiles to a placeholder; it succeeds exactly when its inner text parses, and is then an optional segment keeping its text exactly when some parsed child has mapped properties, otherwise the constant of its whole text; it fails only with a format error |
| Parser.TemplateUnitAt | src/Vertical/Text/TemplateParser.cs:49-63 | the rest of the span starts `Length` characters in, and every error is a format error |
| Parser.UnitAt | src/Vertical/Text/TemplateParser.cs:40-47 | each step consumes at least one character and leaves a suffix of the span, so parsing terminates |
| Parser.ParseUnits | src/Vertical/Text/TemplateParser.cs:30-38 | compiling a span fails only with a format error |
| ParserProperties.ParseUnitsLength | src/Vertical/Text/TemplateParser.cs:32-35 | each unit consumes at least one character: at most one appender per character, and at least one for a non-empty span |
| Parser.TemplateParser.constructor | src/Vertical/Text/TemplateParser.cs:19-23 | the parser keeps the template and options, with an empty stack |
| Parser.TemplateParser.Build | src/Vertical/Text/TemplateParser.cs:25-28 | the built appenders are `ParseUnits` of the template, or its error |
| Parser.TemplateParser.Parse | src/Vertical/Text/TemplateParser.cs:30-38 | the loop appends exactly the appenders of `ParseUnits` to the list, in order |
| Parser.TemplateParser.ReadSpan | src/Vertical/Text/TemplateParser.cs:40-47 | one unit's appender is added and the rest of the span is returned, as `UnitAt` says; on an error nothing is added |
| Parser.TemplateParser.AddTemplateAppender | src/Vertical/Text/TemplateParser.cs:49-63 | an escape adds a constant with one brace stripped from each side; other units are dispatched on their first character, as `TemplateUnitAt` says |
| Parser.TemplateParser.AddOptionalSegmentAppender | src/Vertical/Text/TemplateParser.cs:65-79 | the inner text is parsed into a fresh list, and the segment or its folded constant is added, as `OptionalAppenderOf` says |
| Parser.TemplateParser.AddPropertyValueAppender | src/Vertical/Text/TemplateParser.cs:81-108 | the colon search loop adds exactly `PropertyAppenderOf` of the unit |
| Parser.TemplateParser.AddConstantAppender | src/Vertical/Text/TemplateParser.cs:110-117 | a plain run adds one constant of its text, and the rest follows the run |
| Parser.TemplateParser.ReadToken | src/Vertical/Text/TemplateParser.cs:119-124 | the token read is the bracketed unit when the scan finds one, else the plain run |
| Parser.TemplateParser.TryReadTemplateSpan | src/Vertical/Text/TemplateParser.cs:126-177 | the stack loop computes `ScanTemplate` of the span, whatever the stack held before the call |
| Parser.TemplateParser.ReadValueSpan | src/Vertical/Text/TemplateParser.cs:179-194 | the forward loop stops at the first bracket character (`ValueSpan`) |
| ParserProperties.ScanSkipsPlain | src/Vertical/Text/TemplateParser.cs:171-173 | inside an open bracket, plain characters leave the scan unchanged |
| ParserProperties.ScanStarts | src/Vertical/Text/TemplateParser.cs:138-155 | an opener at the front that does not start an escape pushes its closer: `[` expects `]`, `{` expects `}` |
| ParserProperties.ScanOpens | src/Vertical/Text/TemplateParser.cs:138-155 | inside a bracket, a further opener that does not start an escape pushes its closer |
| ParserProperties.ScanCloses | src/Vertical/Text/TemplateParser.cs:157-165 | a closer that matches an inner open bracket pops it and the scan goes on |
| ParserProperties.ScanEnds | src/Vertical/Text/TemplateParser.cs:164-169 | the closer of the outermost bracket ends the unit: its text up to and including the closer, with inner text between the outer characters |
| ParserProperties.ScanRejectsCloser | src/Vertical/Text/TemplateParser.cs:157-162 | inside an open bracket, a closer other than the one on top of the stack is a format error |
| ParserProperties.UnterminatedEscapeIsFormatError | src/Vertical/Text/TemplateParser.cs:142-151 | `{{` followed by text that holds no `}}` is a format error |
| OpenLevels.ScanFirstLevel | src/Vertical/Text/TemplateParser.cs:138-155 | inside an open bracket, a further open bracket pushes its closer and its well-formed body leaves the stack as it was |
| OpenLevels.ScanThroughLevels | src/Vertical/Text/TemplateParser.cs:132-174 | brackets opened one inside the other, each followed by well-formed pieces, leave their closers on the stack in order |
| OpenLevels.ScanOpenLevels | src/Vertical/Text/TemplateParser.cs:132-174 | from the front of the span, such open brackets leave exactly their closers on the stack |
| OpenLevels.UnclosedIsFormatError | src/Vertical/Text/TemplateParser.cs:176 | a template that ends with brackets still open, at any depth and over any well-formed content, is a format error |
| OpenLevels.CrossedCloserIsFormatError | src/Vertical/Text/TemplateParser.cs:157-162 | a closer other than the one the innermost open bracket expects is a format error, at any depth and whatever follows |
| ParserProperties.LastDoubleCloseIs | src/Vertical/Text/TemplateParser.cs:143-149 | the backward search stops at the last `}}` of the span |
| ParserProperties.EscapeUnit | src/Vertical/Text/TemplateParser.cs:54-62 | `{{x}}` followed by text that has no `}}` and does not start with `}` compiles to the one constant `{x}`, its inside not parsed, and the rest is that text |
| ParserProperties.EscapeInSegmentIsMisread | src/Vertical/Text/TemplateParser.cs:142-148 | an escape inside `[...]` is taken from the open bracket, and the rest starts at the stray `}`, so `[{{x}}]` is a format error for every `x` |
| ParserProperties.PlainUnit | src/Vertical/Text/TemplateParser.cs:179-194 | a non-empty bracket-free run up to a bracket or the end compiles to one constant of that run |
| ParserProperties.ParseUnitsStep | src/Vertical/Text/TemplateParser.cs:32-35 | the appenders are emitted left to right: the front unit's, then the rest's |
| ParserProperties.ParseIsCompiled | src/Vertical/Text/TemplateParser.cs:65-79 | every optional segment the compiler emits, at any depth, has a child with a mapped property, and every placeholder carries the template's options |
| ParserProperties.UnitIsCompiled | src/Vertical/Text/TemplateParser.cs:40-63 | each unit's appender has the same property |
| ParserProperties.OptionalIsCompiled | src/Vertical/Text/TemplateParser.cs:70-74 | a segment without mapped children is folded into a constant |
| ParserProperties.CompiledOptionalHasKeys | src/Vertical/Text/TemplateParser.cs:72-74 | hence every emitted optional segment refers to at least one property key |
| Grammar.ScanSkipsPiece | src/Vertical/Text/TemplateParser.cs:132-174 | inside an open bracket, a well-formed piece is scanned as a whole and leaves the outer stack as it was |
| Grammar.ScanSkipsGroup | src/Vertical/Text/TemplateParser.cs:138-165 | a nested group pushes its closer, is skipped, and pops it |
| Grammar.ScanSkipsPieces | src/Vertical/Text/TemplateParser.cs:132-174 | the same for a well-formed sequence of pieces |
| Grammar.ScanGroupBody | src/Vertical/Text/TemplateParser.cs:157-169 | scanning a group from inside its opener ends at its own closer, with its body as inner text |
| Grammar.ScanGroup | src/Vertical/Text/TemplateParser.cs:126-177 | a well-formed group at the front of any text is scanned as exactly that group |
| Grammar.UnitOfPiece | src/Vertical/Text/TemplateParser.cs:40-47 | a well-formed piece at the front compiles to the grammar's appender for it, and the rest is what follows it |
| Grammar.UnitOfGroup | src/Vertical/Text/TemplateParser.cs:49-79 | a group compiles to the grammar's placeholder, segment or folded constant |
| Grammar.ParseOfPieces | src/Vertical/Text/TemplateParser.cs:30-38 | every template written from the grammar compiles to exactly the grammar's appenders |
| Grammar.PlaceholderCompiles | src/Vertical/Text/TemplateParser.cs:86-106 | `{key}` and `{key:fmt}` compile to the key and the wrapped format |
| Appenders.NewPropertyAppender | src/Vertical/Text/PropertyValueAppender.cs:15-25 | the constructor keeps key, template part and options, and stores a format exactly when one is given, as `{0` + format + `}` |
| Appenders.TryThrowUnmatchedTemplateProperty | src/Vertical/Text/PropertyValueAppender.cs:65-71 | it passes exactly when unmatched placeholders are preserved, and otherwise raises a format error |
| Appenders.TryThrowNonOptionalContext | src/Vertical/Text/PropertyValueAppender.cs:56-63 | it passes exactly in optional context, and otherwise raises a format error |
| Appenders.Render | src/Vertical/Text/PropertyValueAppender.cs:35-54 | rendering fails only with a format error |
| Appenders.RenderAll | src/Vertical/Text/OptionalSegmentAppender.cs:27-32 | rendering a sequence fails only with a format error |
| Appenders.AppendConstant | src/Vertical/Text/ConstantValueAppender.cs:25-28 | exactly one constant token with the stored text is appended, whatever the properties and context |
| Appenders.AppendProperty | src/Vertical/Text/PropertyValueAppender.cs:35-54 | absent key: the placeholder text as a constant token when preserved, else a format error and no change; non-null value: one value token, formatted when there is a format; null value: nothing appended, and a format error outside optional context |
| Appenders.AppendOptional | src/Vertical/Text/OptionalSegmentAppender.cs:25-38 | the children render into a fresh list in optional context; the caller's list gains all of those tokens or none, and is unchanged when a child throws |
| Appenders.Append | src/Vertical/Text/IAppender.cs:19-21 | every appender appends exactly what `Render` says, or throws its error leaving the list unchanged |
| Appenders.RenderAllPrefixFails | src/Vertical/Text/OptionalSegmentAppender.cs:27-32 | a child's failure is the failure of the whole sequence |
| Appenders.RenderAllOkIff | src/Vertical/Text/OptionalSegmentAppender.cs:27-32 | a sequence renders exactly when every element does, and yields their tokens in order |
| Appenders.HasMappedProperties | src/Vertical/Text/OptionalSegmentAppender.cs:22 | false for a constant (ConstantValueAppender.cs:22), true for a placeholder (PropertyValueAppender.cs:32), and whether any child has mapped properties for a segment; `MappedIffHasKeys` relates it to the keys |
| Appenders.AnyMapped | src/Vertical/Text/TemplateParser.cs:72 | some appender of a sequence has mapped properties; `MappedAnyIffHasKeys` relates it to the keys |
| Appenders.Formatted | src/Vertical/Text/PropertyValueAppender.cs:46-48 | a bound value goes through the stored composite format when there is one, and is used as it is otherwise; `FormattedPlaceholder` shows it on `{key:fmt}` |
| Appenders.MappedIffHasKeys | src/Vertical/Text/OptionalSegmentAppender.cs:22 | `HasMappedProperties` holds exactly when the appender refers to some property key |
| Appenders.MappedAnyIffHasKeys | src/Vertical/Text/OptionalSegmentAppender.cs:22 | some child has mapped properties exactly when the children refer to some key |
| Appenders.UnmappedRendersConstants | src/Vertical/Text/ConstantValueAppender.cs:22-28 | an appender without mapped properties never fails and renders only constant tokens |
| Appenders.UnmappedAllRenderConstants | src/Vertical/Text/ConstantValueAppender.cs:22-28 | the same for a sequence |
| Appenders.ValueTokenNeedsBoundKey | src/Vertical/Text/PropertyValueAppender.cs:44-50 | a value token in the output comes from a key of the appender bound to a non-null value |
| Appenders.ValueTokensNeedBoundKey | src/Vertical/Text/PropertyValueAppender.cs:44-50 | the same for a sequence |
| Appenders.UnboundRendersConstants | src/Vertical/Text/PropertyValueAppender.cs:37-53 | with preservation on and no key bound, an appender renders in optional context, to constants only |
| Appenders.UnboundAllRenderConstants | src/Vertical/Text/PropertyValueAppender.cs:37-53 | the same for a sequence |
| Tokens.AllConstant | src/Vertical/Text/OptionalSegmentAppender.cs:34 | every token of a list is a constant; `OptionalEmitsOnlyIfBound` uses it for the collapse rule |
| Appenders.OptionalEmitsOnlyIfBound | src/Vertical/Text/OptionalSegmentAppender.cs:25-38 | a segment ignores the context it is given; it emits nothing when none of its keys is bound and preservation is on; whatever it emits holds a value token from a bound key |
| Appenders.RenderReadsOnlyKeys | src/Vertical/Text/PropertyValueAppender.cs:37-53 | two dictionaries that agree on the appender's keys render it the same |
| Appenders.RenderAllReadsOnlyKeys | src/Vertical/Text/OptionalSegmentAppender.cs:27-32 | the same for a sequence |
| Appenders.BoundRenderSucceeds | src/Vertical/Text/PropertyValueAppender.cs:44-50 | when every key is bound to a non-null value, rendering never throws |
| Appenders.BoundAllRenderSucceed | src/Vertical/Text/OptionalSegmentAppender.cs:27-32 | the same for a sequence |
| TemplateStrings.IsNullOrWhiteSpace | src/Vertical/Text/TemplateString.cs:54 | a null template, or one made only of white space, which `Created` rejects with an argument error |
| TemplateStrings.OptionsOrDefault | src/Vertical/Text/TemplateString.cs:59 | the given options, or the defaults (preservation off) when none are given; `Create` builds the parser with them |
| TemplateStrings.Concat | src/Vertical/Text/TemplateString.cs:35-41 | the token values appended in order; `ConcatAppend` states how it splits over two lists |
| TemplateStrings.Created | src/Vertical/Text/TemplateString.cs:52-61 | argument error exactly for a null or blank template; format error exactly when the template is not blank and does not compile; otherwise every appender satisfies the compiler's guarantees |
| TemplateStrings.Create | src/Vertical/Text/TemplateString.cs:52-61 | the method validates, builds a parser with the options or the defaults, and returns `Created` |
| TemplateStrings.Parse | src/Vertical/Text/TemplateString.cs:69-72 | `Parse` is `Create` with default options |
| TemplateStrings.TryParse | src/Vertical/Text/TemplateString.cs:81-96 | true with the created template exactly when `Create` succeeds; false with no template otherwise |
| TemplateStrings.Replaced | src/Vertical/Text/TemplateString.cs:27-42 | `Replace` throws only format errors |
| TemplateStrings.Replace | src/Vertical/Text/TemplateString.cs:27-42 | the two folds render every appender outside optional context into one list and concatenate the values; the first failure aborts with no string |
| TemplateStrings.PlainTemplateRoundTrip | test/PositiveCaseTests.cs:23 | a bracket-free template compiles to one constant and replaces to itself |
| TemplateStrings.EscapeRoundTrip | test/PositiveCaseTests.cs:59 | `{{x}}` replaces to `{x}` for every `x` |
| TemplateStrings.CreateOfPieces | src/Vertical/Text/TemplateString.cs:52-61 | a non-blank grammar template is created as the grammar's compilation, whatever the options |
| TemplateStrings.ReplaceReadsOnlyKeys | src/Vertical/Text/TemplateString.cs:27-42 | `Replace` depends on the dictionary only at the template's keys |
| TemplateStrings.CompleteDictionaryNeverThrows | src/Vertical/Text/TemplateString.cs:27-42 | a dictionary binding every key to a non-null value never makes `Replace` throw |
| TemplateStrings.ConcatAppend | src/Vertical/Text/TemplateString.cs:35-41 | concatenating two token lists one after the other gives their two texts one after the other |
| TestCases.SinglePlaceholder | test/PositiveCaseTests.cs:26 | `{key}` compiles to one placeholder and replaces to the bound value |
| TestCases.TwoPlaceholders | test/PositiveCaseTests.cs:29-38 | `{a}_{b}` replaces to both values, and an absent key is kept as its placeholder text |
| TestCases.FormattedPlaceholder | test/PositiveCaseTests.cs:32 | `{key:fmt}` passes the value through the composite format `{0:fmt}` |
| TestCases.OptionalSuffix | test/PositiveCaseTests.cs:41-44 | `.json[.{k}]` gives `.json.v` with a value and `.json` with null |
| TestCases.NestedOptional | test/PositiveCaseTests.cs:47-56 | `[.{f}[.{c}]]` gives the empty string, `.vf`, `..vc` and `.vf.vc` for the four null/value cases |
| TestCases.EscapeBetween | test/PositiveCaseTests.cs:62 | `{a}{{x}}{b}` replaces to value, `{x}`, value |
| TestCases.EscapeAtEnd | test/PositiveCaseTests.cs:65 | `{a}{b}{{x}}` replaces to value, value, `{x}` |
| TestCases.CreateRejectsUnclosed | test/NegativeCastTests.cs:33-34 | `{unclosed` and `[unclosed` are format errors |
| TestCases.CreateRejectsUnopened | test/NegativeCastTests.cs:35-36 | `unopened}` and `unopened]` are format errors |
| TestCases.UnmatchedOrNullThrows | test/NegativeCastTests.cs:11-23 | with default options, an absent key or a null value outside a segment makes `Replace` throw a format error |
| TestCases.CreateRejectsBlank | test/NegativeCastTests.cs:25-29 | null, empty and blank templates are argument errors |

## Left out

- .NET composite formatting (`string.Format`, culture-aware) is a `Formatter` parameter. The model keeps only the
  `{0` + format + `}` wrapping, so `{count:D4}` giving `0005` is stated as the formatter applied to `{0:D4}`.
- Dictionary values are strings (`None` for `null`), standing for the `object` values and their `ToString` that
  `StringBuilder.Append` uses.
- The `IFormatProvider` argument of `Parse` and `TryParse` is unused by the source and not modelled.
- Exception types are kept as `ArgumentError` and `FormatError`. Their messages are left out.
- The `ToString` overrides are debugging aids and are left out.
- `ReadOnlySpan` slicing is modelled on `seq<char>`. List capacity hints are left out.
- Nothing in the library is concurrent, so thread safety is not a concern of the model.
- `TemplateStrings.IsWhiteSpace` lists the characters `char.IsWhiteSpace` accepts.
- A Dafny `char` is a Unicode scalar value, while a .NET `string` is a sequence of UTF-16 code units. A character
  outside the Basic Multilingual Plane is one `char` in the model and two in .NET. Offsets such as the rest of the span
  after a unit are therefore counted differently for such text, and a lone surrogate cannot be written at all.
- Appenders.BoundRenderSucceeds, Appenders.BoundAllRenderSucceed, TemplateStrings.CompleteDictionaryNeverThrows: the
  `Formatter` parameter is a total function, but `string.Format` (PropertyValueAppender.cs:47) can throw a
  `FormatException`, for example `{n:D4}` with a value that is not an integer, or a brace inside the format as in
  `{k:{x}}`. These lemmas hold only for formatting that never fails.
- Parser.TemplateParser.Parse: on a format error the contract says only that the list keeps its old items as a prefix.
  The source leaves a partly filled list behind, but no caller uses it after the exception.
- Parser.TemplateParser.TryReadTemplateSpan: the contract does not say what the stack holds on return, because every
  scan clears it first. The source pops the top before raising on a mismatched closer, and the model does not pop
  there, which is not observable.
- Parser.ScanTemplate: it requires a non-empty span, because `Parse` scans only while the span is non-empty.
- Parser.ParseUnits, Appenders.Render, Appenders.RenderAll,
  TemplateStrings.Replaced: their own contracts say only which error kind they raise. What they compute is stated by
  the lemmas about them (ParseOfPieces, ParseIsCompiled, OptionalEmitsOnlyIfBound, RenderAllOkIff and others) and by
  the methods proved against them.
- TestCases: `{count:D4}` is stated for any formatter, so the digits `0005` are not derived. Keys in the cases are
  non-empty, bracket-free and colon-free, as in the tests.
