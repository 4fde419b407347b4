# Jc3MpTsdGenerator declaration rendering, in Dafny

Jc3MpTsdGenerator turns an already-parsed description of the JC3:MP
scripting API into TypeScript declaration files. This project models its
rendering pipeline and proves properties of the model. The API description
is a list of classes and a list of events. Each class has properties,
functions and perhaps a constructor.

- **Records** (`models.dfy`). One datatype per schema record. A .NET
  reference that may be null is an `Option`. A class that says it has a
  constructor but carries none makes a renderer throw when it reaches the
  constructor. The current renderer reaches it only for a class that is not
  an alias, so it requires `Renderable` (an alias, or `WellFormed`). The
  older renderer reaches it for every class, so it requires `WellFormed`.
- **Type casters** (`unknown_type_caster.dfy`, `or_type_caster.dfy`,
  `array_type_caster.dfy`, `function_to_lambda_caster.dfy`,
  `null_back_tick_caster.dfy`). Each caster is a total `string -> string`
  function. The two regular expressions are written out by hand:
  - `OrTypeCaster`: leftmost start, greedy `first` backing off to the last
    usable separator, maximal `second`;
  - `ArrayTypeCaster`: the negative look-ahead `(?!.*<\w+>)`, including the
    fact that `.` does not match a line feed.
- **Type projection** (`type_projection.dfy`). The blank guard, then the
  caster list folded left to right. `ProjectType` is a loop method proved
  against the fold `Projected`. The weapon-name caster's source is not part
  of this model, so it is a parameter `weapn` of every projection.
- **Parameter lists** (`method_parameter_rendering.dfy`). Rest (`...`)
  parameters, the `?` marker and the `Array<T>` wrapping.
- **Writer** (`definition_writer_state.dfy`). `DefinitionWriterState` is a
  class. Its sink is a `lines: seq<string>` field and its indentation is an
  `int` field. The methods append to them; `GetIndentationString` keeps its
  loop.
- **Comment blocks** (`writer_extensions.dfy`). Line-break normalisation,
  the `{{linked_type 'X'}}` rewrite, splitting on `\n` and the ` * ` prefix.
- **Event appender** (`event_system_appender.dfy`). The `Add(...)`
  overloads written into `EventSystem`, and the in-place rename of event
  parameters.
- **Class renderer** (`definition_generator.dfy`). `DefinitionGenerator` is
  a class. Its fields are the definition, which the appender updates, the
  writer and the weapon caster. `Generate` walks the classes in list order.
- **Older renderer** (`definitions_generator.dfy`). `DefinitionsGenerator`
  has no constant branch and always writes `/** */`. Its `@param` types have
  no braces, its caster list has five entries and it has no appenders. The
  lemmas `DefinitionsGenerator.UndocumentedMethod`,
  `DefinitionsGenerator.UndocumentedProperty`,
  `DefinitionsGenerator.ParamsCommentShape`,
  `DefinitionsGenerator.AgreesExceptUnknown` and
  `DefinitionsGenerator.NoAppenders` state these differences.

Each renderer method is proved against a function giving the lines it
emits, prefixed by the indentation. The lemmas about those functions state
what the generator promises: order, layout, balanced indentation, when doc
blocks appear, and that the appender's renames never change later output.

Some properties one might expect of the code do not hold:
- `OrTypeCaster` and `NullBackTickCaster` are not idempotent. On `A|B|C`
  the Or caster gives `A|B | C`, and a second run gives `A | B`
  (`OrTypeCaster.NotIdempotent`). `null` between two pairs of back-ticks
  becomes `` `null` `` and, on a second run, `null`
  (`NullBackTickCaster.NotIdempotent`).
- `SanitizeEventParameterName` is not idempotent for `x.` followed by the
  vehicle handle expression (`EventSystemAppender.HandleAsLastSegment`).
- `ArrayTypeCaster` succeeds at the first `Array` whose look-ahead finds no
  `<word>` before a line feed. On a line-free string this holds iff the
  last occurrence of `Array` has no `<word>` after it
  (`ArrayTypeCaster.LastOccurrence`). With a line feed the two differ
  (`ArrayTypeCaster.LineFeedHidesElementType`).

## Model

| member | source | states |
|---|---|---|
| Models.EffectiveType | Jc3MpTsdGenerator/Models/ApiDefinition.cs:14-24 | the type a property renders with is `Type` when present and `ReturnType` only when `Type` is null |
| UnknownTypeCaster.Execute | Jc3MpTsdGenerator/TypeCasters/UnknownTypeCaster.cs:5-8 | exactly `"unknown"` becomes `"any"`; every other string comes back unchanged |
| UnknownTypeCaster.NeverUnknown | Jc3MpTsdGenerator/TypeCasters/UnknownTypeCaster.cs:7 | the output is never `"unknown"` |
| UnknownTypeCaster.Idempotent | Jc3MpTsdGenerator/TypeCasters/UnknownTypeCaster.cs:7 | running the caster twice equals running it once |
| UnknownTypeCaster.ExactMatchOnly | Jc3MpTsdGenerator/TypeCasters/UnknownTypeCaster.cs:7 | the comparison is exact and case-sensitive: `"Unknown"` and `"unknown\|null"` pass through |
| FunctionToLambdaCaster.Execute | Jc3MpTsdGenerator/TypeCasters/FunctionToLambdaCaster.cs:5-8 | the output is the input or `"() => {}"`, and it is the lambda iff the input is `"function"` or already the lambda |
| FunctionToLambdaCaster.Idempotent | Jc3MpTsdGenerator/TypeCasters/FunctionToLambdaCaster.cs:7 | running the caster twice equals running it once |
| FunctionToLambdaCaster.ExactMatchOnly | Jc3MpTsdGenerator/TypeCasters/FunctionToLambdaCaster.cs:7 | only the whole string `"function"` is rewritten; `"function\|null"` and `"Function"` are kept |
| NullBackTickCaster.Execute | Jc3MpTsdGenerator/TypeCasters/NullBackTickCaster.cs:7-10 | the output is shorter than the input by two characters per non-overlapping left-to-right occurrence of `` `null` `` |
| NullBackTickCaster.KeepsOtherChars | Jc3MpTsdGenerator/TypeCasters/NullBackTickCaster.cs:9 | with all back-ticks deleted, input and output are the same string: every other character is kept, in order |
| NullBackTickCaster.BackTicksRemoved | Jc3MpTsdGenerator/TypeCasters/NullBackTickCaster.cs:9 | each replaced occurrence removes exactly two back-ticks and no others |
| NullBackTickCaster.NoOccurrenceUnchanged | Jc3MpTsdGenerator/TypeCasters/NullBackTickCaster.cs:9 | a string with no occurrence of `` `null` `` is unchanged |
| NullBackTickCaster.NoBackTickUnchanged | Jc3MpTsdGenerator/TypeCasters/NullBackTickCaster.cs:9 | a string with no back-tick is unchanged |
| NullBackTickCaster.Single | Jc3MpTsdGenerator/TypeCasters/NullBackTickCaster.cs:9 | `` `null` `` becomes `null` |
| NullBackTickCaster.NotIdempotent | Jc3MpTsdGenerator/TypeCasters/NullBackTickCaster.cs:9 | ``` ``null`` ``` becomes `` `null` `` and a second run gives `null`, so the caster is not idempotent |
| OrTypeCaster.RunEnd | Jc3MpTsdGenerator/TypeCasters/OrTypeCaster.cs:12 | `[^\s]+` taken greedily: the end of the maximal white-space-free run from a position |
| OrTypeCaster.SecondStart | Jc3MpTsdGenerator/TypeCasters/OrTypeCaster.cs:12 | a separator `\sor\s` or `\|` at a position, followed by a non-white-space character, and where `second` then starts |
| OrTypeCaster.LastSplit | Jc3MpTsdGenerator/TypeCasters/OrTypeCaster.cs:12 | the greedy `first` backing off: the largest end in range that a separator follows, and none beyond it |
| OrTypeCaster.MatchFrom | Jc3MpTsdGenerator/TypeCasters/OrTypeCaster.cs:12-13 | the leftmost match: no split starts earlier, `first` is the longest possible from that start, `second` is maximal, and no match means no split exists anywhere |
| OrTypeCaster.Execute | Jc3MpTsdGenerator/TypeCasters/OrTypeCaster.cs:12-16 | the input unchanged when the pattern does not match, otherwise `first \| second` from the leftmost match; what that output is, is stated by `NoSplitUnchanged`, `MatchedShape` and `OutputWhitespace` |
| OrTypeCaster.NoSplitUnchanged | Jc3MpTsdGenerator/TypeCasters/OrTypeCaster.cs:12-14 | an input with no white-space-free run followed by a separator and a further run is returned unchanged |
| OrTypeCaster.MatchedShape | Jc3MpTsdGenerator/TypeCasters/OrTypeCaster.cs:12-16 | whenever a split exists the regex matches, both groups are non-empty and white-space-free, and the output is `first + " \| " + second` |
| OrTypeCaster.OutputWhitespace | Jc3MpTsdGenerator/TypeCasters/OrTypeCaster.cs:12-16 | the only white space in a rewritten output is the two spaces around the pipe |
| OrTypeCaster.NoSeparatorChars | Jc3MpTsdGenerator/TypeCasters/OrTypeCaster.cs:12-14 | a white-space-free string without `\|` is unchanged |
| OrTypeCaster.WordForm | Jc3MpTsdGenerator/TypeCasters/OrTypeCaster.cs:12-16 | `A or B` becomes `A \| B` |
| OrTypeCaster.PipeForm | Jc3MpTsdGenerator/TypeCasters/OrTypeCaster.cs:12-16 | `A\|B` becomes `A \| B` |
| OrTypeCaster.NormalisedUnchanged | Jc3MpTsdGenerator/TypeCasters/OrTypeCaster.cs:12-16 | an already normalised `X \| Y` is returned unchanged |
| OrTypeCaster.LeftmostPairOnly | Jc3MpTsdGenerator/TypeCasters/OrTypeCaster.cs:12-16 | `A\|B\|C` becomes `A\|B \| C`: greedy `first` takes everything up to the last pipe |
| OrTypeCaster.ThirdMemberDropped | Jc3MpTsdGenerator/TypeCasters/OrTypeCaster.cs:12-16 | `A or B or C` becomes `A \| B`: text after `second` is dropped |
| OrTypeCaster.PipeThenSpacedPipe | Jc3MpTsdGenerator/TypeCasters/OrTypeCaster.cs:12-16 | `A\|B \| C` becomes `A \| B` |
| OrTypeCaster.NotIdempotent | Jc3MpTsdGenerator/TypeCasters/OrTypeCaster.cs:12-16 | on `A\|B\|C` a second run changes the result again, so the caster is not idempotent |
| ArrayTypeCaster.MatchFrom | Jc3MpTsdGenerator/TypeCasters/ArrayTypeCaster.cs:13 | the regex search, tried at each position from left to right; `MatchFromExists` states when it succeeds |
| ArrayTypeCaster.Execute | Jc3MpTsdGenerator/TypeCasters/ArrayTypeCaster.cs:13-14 | the output is the input itself or `Array<any>`, never anything else |
| ArrayTypeCaster.MatchFromExists | Jc3MpTsdGenerator/TypeCasters/ArrayTypeCaster.cs:13 | the regex search from a position succeeds iff some later `Array` has no `<word>` ahead of it on its line |
| ArrayTypeCaster.Characterised | Jc3MpTsdGenerator/TypeCasters/ArrayTypeCaster.cs:13-14 | on a match the whole string is replaced by `Array<any>`; with no match it is returned unchanged |
| ArrayTypeCaster.NoArrayUnchanged | Jc3MpTsdGenerator/TypeCasters/ArrayTypeCaster.cs:13-14 | a string with no `Array` is unchanged |
| ArrayTypeCaster.NoCapitalAUnchanged | Jc3MpTsdGenerator/TypeCasters/ArrayTypeCaster.cs:13-14 | a string without the letter `A` is unchanged |
| ArrayTypeCaster.Idempotent | Jc3MpTsdGenerator/TypeCasters/ArrayTypeCaster.cs:13-14 | running the caster twice equals running it once, because `Array<any>` is a fixed point |
| ArrayTypeCaster.Bare | Jc3MpTsdGenerator/TypeCasters/ArrayTypeCaster.cs:13-14 | `Array` becomes `Array<any>` |
| ArrayTypeCaster.Parameterised | Jc3MpTsdGenerator/TypeCasters/ArrayTypeCaster.cs:13-14 | `Array<w>` for a word `w` containing no `Array` is unchanged |
| ArrayTypeCaster.InnerArrayRewritten | Jc3MpTsdGenerator/TypeCasters/ArrayTypeCaster.cs:13-14 | `Array<wArray>` becomes `Array<any>`: the inner `Array` has no `<word>` after it |
| ArrayTypeCaster.LineFeedHidesElementType | Jc3MpTsdGenerator/TypeCasters/ArrayTypeCaster.cs:13-14 | `Array`, a line feed and anything after it become `Array<any>`: the look-ahead does not cross the line feed |
| ArrayTypeCaster.LastOccurrence | Jc3MpTsdGenerator/TypeCasters/ArrayTypeCaster.cs:13-14 | on a string without line feeds the regex matches iff the last occurrence of `Array` has no `<word>` after it |
| TypeProjection.TypeCasters | Jc3MpTsdGenerator/Helpers/TypeProjection.cs:8-16 | the chain has six casters; `ChainOrder` states their order |
| TypeProjection.ProjectTypeAsArray | Jc3MpTsdGenerator/Helpers/TypeProjection.cs:18-23 | the projected type wrapped in `Array<...>`; `BlankIsAny` states that a blank type becomes `Array<any>` |
| TypeProjection.ProjectType | Jc3MpTsdGenerator/Helpers/TypeProjection.cs:25-33 | the loop's result is the blank guard followed by the left fold of the six casters |
| TypeProjection.BlankIsAny | Jc3MpTsdGenerator/Helpers/TypeProjection.cs:18-28 | a null or white-space-only type projects to `any`, and as an array to `Array<any>`, whatever the casters |
| TypeProjection.ChainOrder | Jc3MpTsdGenerator/Helpers/TypeProjection.cs:8-30 | a non-blank type goes through Unknown, Or, Array, weapon name, FunctionToLambda and NullBackTick, in that order |
| TypeProjection.UnknownFirst | Jc3MpTsdGenerator/Helpers/TypeProjection.cs:8-30 | `unknown` is already `any` when the later casters see it |
| TypeProjection.OrBeforeNullBackTick | Jc3MpTsdGenerator/Helpers/TypeProjection.cs:8-30 | `a\|b` is split into `a \| b` before the back-ticks are stripped |
| TypeProjection.PlainTypeUnchanged | Jc3MpTsdGenerator/Helpers/TypeProjection.cs:8-30 | a plain type name that no caster touches projects to itself |
| MethodParameterRendering.RenderMethodParameter | Jc3MpTsdGenerator/Helpers/MethodParameterRendering.cs:13-20 | the name verbatim, then `?` iff optional and not a rest parameter, then `: ` and the projected type; a rest parameter's type is wrapped as `Array<T>` |
| MethodParameterRendering.RenderedEach | Jc3MpTsdGenerator/Helpers/MethodParameterRendering.cs:10 | one rendering per parameter, in the parameters' order |
| MethodParameterRendering.RenderMethodParameters | Jc3MpTsdGenerator/Helpers/MethodParameterRendering.cs:9-10 | parentheses around the renderings joined by `, ` |
| MethodParameterRendering.Empty | Jc3MpTsdGenerator/Helpers/MethodParameterRendering.cs:9-10 | an empty list renders as `()` |
| MethodParameterRendering.Single | Jc3MpTsdGenerator/Helpers/MethodParameterRendering.cs:9-10 | a single parameter renders alone between the parentheses |
| MethodParameterRendering.Append | Jc3MpTsdGenerator/Helpers/MethodParameterRendering.cs:9-10 | rendering two lists one after the other puts exactly one `, ` between their renderings |
| MethodParameterRendering.RenderedEachAppend | Jc3MpTsdGenerator/Helpers/MethodParameterRendering.cs:10 | the renderings of a concatenation are the concatenated renderings: order is preserved |
| MethodParameterRendering.Variadic | Jc3MpTsdGenerator/Helpers/MethodParameterRendering.cs:15-19 | a rest parameter renders as `name: Array<T>`, and `Optional` makes no difference to it |
| MethodParameterRendering.VariadicItems | Jc3MpTsdGenerator/Helpers/MethodParameterRendering.cs:15-19 | `...items` of type `Foo` renders as `...items: Array<Foo>` |
| MethodParameterRendering.OptionalParameter | Jc3MpTsdGenerator/Helpers/MethodParameterRendering.cs:17-19 | an optional `x` of type `Foo` renders as `x?: Foo` |
| Strings.SplitLinesCount | Jc3MpTsdGenerator/Extensions/WriterExtensions.cs:25 | splitting on `\n` with empty segments kept gives one segment more than there are line feeds |
| Strings.SplitLinesNoBreak | Jc3MpTsdGenerator/Extensions/WriterExtensions.cs:25 | no segment contains a line feed |
| Strings.SplitLinesJoin | Jc3MpTsdGenerator/Extensions/WriterExtensions.cs:25 | joining the segments with `\n` gives the string back |
| WriterState.IndentShape | Jc3MpTsdGenerator/Models/DefinitionWriterState.cs:27-34 | the indentation is four spaces per level, and empty for a level of zero or less |
| WriterState.IndentPrefix | Jc3MpTsdGenerator/Models/DefinitionWriterState.cs:27-34 | a deeper indentation starts with every shallower one |
| WriterState.IndentedAt | Jc3MpTsdGenerator/Models/DefinitionWriterState.cs:19 | each line written at a level is the indentation followed by the text |
| WriterState.DefinitionWriterState.constructor | Jc3MpTsdGenerator/Models/DefinitionWriterState.cs:14-17 | a fresh writer has no lines and level 0 |
| WriterState.DefinitionWriterState.GetIndentationString | Jc3MpTsdGenerator/Models/DefinitionWriterState.cs:27-34 | the loop builds the indentation for the current level |
| WriterState.DefinitionWriterState.WriteLine | Jc3MpTsdGenerator/Models/DefinitionWriterState.cs:19 | appends exactly one line, the indentation then the text; earlier lines and the level are untouched |
| WriterState.DefinitionWriterState.WriteBlankLine | Jc3MpTsdGenerator/Models/DefinitionWriterState.cs:21 | appends one line holding only the indentation |
| WriterState.DefinitionWriterState.IncreaseIndentation | Jc3MpTsdGenerator/Models/DefinitionWriterState.cs:23 | adds the amount (default 1) to the level and changes nothing else |
| WriterState.DefinitionWriterState.DecreaseIndentation | Jc3MpTsdGenerator/Models/DefinitionWriterState.cs:25 | subtracts exactly 1, with no clamping, and changes nothing else |
| WriterState.IncreaseThenDecrease | Jc3MpTsdGenerator/Models/DefinitionWriterState.cs:23-25 | increasing then decreasing restores the level and writes nothing |
| WriterExtensions.ReplaceCr | Jc3MpTsdGenerator/Extensions/WriterExtensions.cs:22 | `Replace("\r", "\n")` maps each carriage return to a line feed and keeps every other character |
| WriterExtensions.NormalizeLineBreaks | Jc3MpTsdGenerator/Extensions/WriterExtensions.cs:22 | `\r\n` first, then every remaining `\r`, becomes `\n`; `NoCarriageReturnLeft`, `NoCarriageReturnUnchanged` and `BreakForms` state the result |
| WriterExtensions.NoCarriageReturnLeft | Jc3MpTsdGenerator/Extensions/WriterExtensions.cs:22 | no carriage return is left after normalisation |
| WriterExtensions.NoCarriageReturnUnchanged | Jc3MpTsdGenerator/Extensions/WriterExtensions.cs:22 | text without carriage returns is unchanged by normalisation |
| WriterExtensions.BreakForms | Jc3MpTsdGenerator/Extensions/WriterExtensions.cs:22 | `\r\n` and a lone `\r` both become a single `\n` |
| WriterExtensions.ProcessCodeComment | Jc3MpTsdGenerator/Extensions/WriterExtensions.cs:9-15 | each directive replaced by its type name in braces, left to right; `DirectiveRewritten`, `NoDirectiveUnchanged` and `LineFeedsKept` state what it does |
| WriterExtensions.DirectiveRewritten | Jc3MpTsdGenerator/Extensions/WriterExtensions.cs:9-15 | `{{linked_type 'X'}}` with a non-empty, quote-free X becomes `{X}`, and the rest is processed on |
| WriterExtensions.NoDirectiveUnchanged | Jc3MpTsdGenerator/Extensions/WriterExtensions.cs:9-15 | text with no directive opening is unchanged |
| WriterExtensions.LineFeedsKept | Jc3MpTsdGenerator/Extensions/WriterExtensions.cs:9-15 | the rewrite keeps the number of line feeds, so the line count is decided by normalisation alone |
| WriterExtensions.Prefixed | Jc3MpTsdGenerator/Extensions/WriterExtensions.cs:25-26 | each emitted line is ` * ` followed by its segment, one per segment |
| WriterExtensions.CommentBlockShape | Jc3MpTsdGenerator/Extensions/WriterExtensions.cs:17-27 | a blank comment emits nothing; otherwise one line per line feed plus one, and the segments join back to the rewritten comment |
| WriterExtensions.NoMarkers | Jc3MpTsdGenerator/Extensions/WriterExtensions.cs:17-27 | every emitted line starts with ` * `; the content never emits `/**` or ` */` |
| WriterExtensions.WriteCommentBlockContent | Jc3MpTsdGenerator/Extensions/WriterExtensions.cs:17-27 | the loop appends the comment's lines at the current level and leaves the level alone |
| WriterExtensions.DocBlockShape | Jc3MpTsdGenerator/DefinitionGenerator.cs:48-53 | a doc block is empty iff the description is blank; otherwise the content sits between `/**` and ` */` |
| WriterExtensions.WriteDocBlock | Jc3MpTsdGenerator/DefinitionGenerator.cs:48-53 | writes the doc block of a description at the current level |
| EventSystemAppender.LastSegment | Jc3MpTsdGenerator/ClassDefinitionAppenders/EventSystemDefinitionAppender.cs:26 | `Split('.').Last()`: a dot-free suffix that is the whole string or follows a dot |
| EventSystemAppender.SanitizeEventParameterName | Jc3MpTsdGenerator/ClassDefinitionAppenders/EventSystemDefinitionAppender.cs:20-29 | the handle expression becomes `vehicle`; a dotted name becomes its last `.` segment; any other name is kept |
| EventSystemAppender.VehicleHandle | Jc3MpTsdGenerator/ClassDefinitionAppenders/EventSystemDefinitionAppender.cs:22-23 | the exact handle expression sanitises to `vehicle` |
| EventSystemAppender.SanitizedHasNoDot | Jc3MpTsdGenerator/ClassDefinitionAppenders/EventSystemDefinitionAppender.cs:20-29 | a sanitised name never contains `.` |
| EventSystemAppender.SanitizeIdempotent | Jc3MpTsdGenerator/ClassDefinitionAppenders/EventSystemDefinitionAppender.cs:20-29 | sanitising twice equals sanitising once, unless the first result is the handle expression |
| EventSystemAppender.HandleAsLastSegment | Jc3MpTsdGenerator/ClassDefinitionAppenders/EventSystemDefinitionAppender.cs:20-29 | a dotted name ending in the handle expression sanitises to the expression, and a second run gives `vehicle` |
| EventSystemAppender.SanitizedParameters | Jc3MpTsdGenerator/ClassDefinitionAppenders/EventSystemDefinitionAppender.cs:40 | every parameter gets the sanitised old name; its other fields and the list's order are kept |
| EventSystemAppender.SanitizedEvents | Jc3MpTsdGenerator/ClassDefinitionAppenders/EventSystemDefinitionAppender.cs:17-40 | every event's parameters are renamed; events stay in list order |
| EventSystemAppender.SanitizedParametersIdempotent | Jc3MpTsdGenerator/ClassDefinitionAppenders/EventSystemDefinitionAppender.cs:40 | renaming a second time changes nothing, unless a first rename produced the handle expression |
| EventSystemAppender.SanitizedEventsIdempotent | Jc3MpTsdGenerator/ClassDefinitionAppenders/EventSystemDefinitionAppender.cs:17-40 | the same for the whole event list |
| EventSystemAppender.RenameParameters | Jc3MpTsdGenerator/ClassDefinitionAppenders/EventSystemDefinitionAppender.cs:40 | the loop writes every renamed parameter back, in order |
| EventSystemAppender.AddLine | Jc3MpTsdGenerator/ClassDefinitionAppenders/EventSystemDefinitionAppender.cs:42 | `Add(name: 'N', handler: (params) => any): void;` over the given parameters; `VehicleParameter` shows it for the handle expression |
| EventSystemAppender.EventLines | Jc3MpTsdGenerator/ClassDefinitionAppenders/EventSystemDefinitionAppender.cs:31-43 | the doc block, the overload over the renamed parameters and a blank line; `EventShape` states that layout |
| EventSystemAppender.EventShape | Jc3MpTsdGenerator/ClassDefinitionAppenders/EventSystemDefinitionAppender.cs:31-44 | an event emits its doc block, present iff the description is not blank, then the `Add(...)` overload over the renamed parameters, then a blank line |
| EventSystemAppender.EventsLinesAppend | Jc3MpTsdGenerator/ClassDefinitionAppenders/EventSystemDefinitionAppender.cs:17 | the events of two lists are emitted one list after the other, in list order |
| EventSystemAppender.EventsLinesCover | Jc3MpTsdGenerator/ClassDefinitionAppenders/EventSystemDefinitionAppender.cs:17 | every event emits at least two lines, and the overload of every event is among the lines |
| EventSystemAppender.RenamingIsStable | Jc3MpTsdGenerator/ClassDefinitionAppenders/EventSystemDefinitionAppender.cs:40-42 | emitting already renamed events gives the same lines as emitting the originals |
| EventSystemAppender.VehicleParameter | Jc3MpTsdGenerator/ClassDefinitionAppenders/EventSystemDefinitionAppender.cs:20-42 | an event whose one parameter is the handle expression gets `handler: (vehicle: T) => any` |
| EventSystemAppender.AppendEventDefinition | Jc3MpTsdGenerator/ClassDefinitionAppenders/EventSystemDefinitionAppender.cs:31-44 | writes the event's lines at the current level and returns the event with its parameters renamed |
| EventSystemAppender.AfterAppend | Jc3MpTsdGenerator/ClassDefinitionAppenders/EventSystemDefinitionAppender.cs:12-18 | classes are never touched; the definition is unchanged unless the class is `EventSystem`, in which case every event is renamed |
| EventSystemAppender.AppendDefinition | Jc3MpTsdGenerator/ClassDefinitionAppenders/EventSystemDefinitionAppender.cs:12-18 | nothing is written and nothing renamed unless the class name is exactly `EventSystem`; then every event in list order |
| DefinitionGeneration.RemoveEllipsis | Jc3MpTsdGenerator/DefinitionGenerator.cs:133 | `Replace("...", "")` never lengthens the name |
| DefinitionGeneration.NoEllipsisLeft | Jc3MpTsdGenerator/DefinitionGenerator.cs:133 | no `...` is left anywhere in the result |
| DefinitionGeneration.DotFreeUnchanged | Jc3MpTsdGenerator/DefinitionGenerator.cs:133 | a name without dots is unchanged |
| DefinitionGeneration.LeadingEllipsisDropped | Jc3MpTsdGenerator/DefinitionGenerator.cs:133 | `...name` becomes `name` |
| DefinitionGeneration.ParamDocLines | Jc3MpTsdGenerator/DefinitionGenerator.cs:127 | one doc line per parameter |
| DefinitionGeneration.ParamDocLinesAt | Jc3MpTsdGenerator/DefinitionGenerator.cs:127-134 | the i-th doc line is the i-th parameter's ` * @param {T} name` |
| DefinitionGeneration.ParamsCommentShape | Jc3MpTsdGenerator/DefinitionGenerator.cs:123-134 | the ` *` separator follows iff there is a parameter; each line has the projected type in braces and the name with every `...` removed |
| DefinitionGeneration.ParamsCommentLines | Jc3MpTsdGenerator/DefinitionGenerator.cs:123-134 | the parameter lines then ` *`, or nothing without parameters; `ParamsCommentShape` states this |
| DefinitionGeneration.MethodLine | Jc3MpTsdGenerator/DefinitionGenerator.cs:104 | `name(params): T` with no semicolon; `MethodShape` places it before the closing blank line |
| DefinitionGeneration.MethodDocLines | Jc3MpTsdGenerator/DefinitionGenerator.cs:94-102 | `/**`, the description, the parameter lines, the example and ` */`, present only when there is something to document; `MethodShape` states when and how it is framed |
| DefinitionGeneration.MethodLines | Jc3MpTsdGenerator/DefinitionGenerator.cs:92-106 | the doc block, the signature and a blank line; `MethodShape` states this layout |
| DefinitionGeneration.MethodsLines | Jc3MpTsdGenerator/DefinitionGenerator.cs:66 | each method's lines in list order; `MethodsLinesSnoc` states the order and `WriteClassMethods` writes them |
| DefinitionGeneration.MethodShape | Jc3MpTsdGenerator/DefinitionGenerator.cs:92-106 | the doc block appears iff the description or example is not blank or there are parameters; the signature `name(params): T`, with no semicolon, and a blank line always close the method |
| DefinitionGeneration.PropertyLine | Jc3MpTsdGenerator/DefinitionGenerator.cs:145-155 | `[readonly ]name[(params)]: T;`; `ReadOnlyPrefix`, `IndexedProperty`, `NullableFlag` and `TypeFallback` state its parts |
| DefinitionGeneration.PropertyLineParts | Jc3MpTsdGenerator/DefinitionGenerator.cs:145-157 | the builder's appends put together `[readonly ]name[(params)]: T;` |
| DefinitionGeneration.NullableFlag | Jc3MpTsdGenerator/DefinitionGenerator.cs:152-153 | only an explicit `true` with a non-null list adds the parameter list: a null flag renders like `false`, and a null list like a null flag |
| DefinitionGeneration.TypeFallback | Jc3MpTsdGenerator/DefinitionGenerator.cs:155 | a property without `Type` renders as if `ReturnType` were its `Type`; with a `Type`, `ReturnType` plays no part |
| DefinitionGeneration.ReadOnlyPrefix | Jc3MpTsdGenerator/DefinitionGenerator.cs:147-150 | a read-only property is the same line with `readonly ` in front |
| DefinitionGeneration.IndexedProperty | Jc3MpTsdGenerator/DefinitionGenerator.cs:150-155 | an indexed property renders as `name(params): T;` |
| DefinitionGeneration.PropertyLines | Jc3MpTsdGenerator/DefinitionGenerator.cs:136-159 | the doc block, the property line and a blank line; `PropertyShape` states this layout |
| DefinitionGeneration.PropertyShape | Jc3MpTsdGenerator/DefinitionGenerator.cs:136-159 | a property ends with its property line and a blank line; before them is its doc block, which is empty iff the description is blank |
| DefinitionGeneration.PropertiesLines | Jc3MpTsdGenerator/DefinitionGenerator.cs:60 | each property's lines in list order; `PropertiesLinesSnoc` states the order and `WriteClassProperties` writes them |
| DefinitionGeneration.CtorLines | Jc3MpTsdGenerator/DefinitionGenerator.cs:108-114 | constructor lines are emitted iff the class has a constructor |
| DefinitionGeneration.HeaderLine | Jc3MpTsdGenerator/DefinitionGenerator.cs:116-121 | `declare interface Name {`; `InterfaceLayout` places it after the doc block |
| DefinitionGeneration.BodyLines | Jc3MpTsdGenerator/DefinitionGenerator.cs:59-69 | properties, constructor, methods and the appender's lines, in that order; `InterfaceLayout` places them one level deeper |
| DefinitionGeneration.Renderable | Jc3MpTsdGenerator/DefinitionGenerator.cs:39-63 | an alias returns before the constructor is read, so only a non-alias class needs its constructor when `HasConstructor` is set |
| DefinitionGeneration.AliasLines | Jc3MpTsdGenerator/DefinitionGenerator.cs:77-90 | the doc block, `declare const Name: Instance` and a blank line; `AliasIgnoresMembers` states the ending |
| DefinitionGeneration.ClassLines | Jc3MpTsdGenerator/DefinitionGenerator.cs:39-75 | the alias lines or the interface lines, indented; `AliasIgnoresMembers`, `InterfaceLayout` and `ClassDocBlock` state its layout |
| DefinitionGeneration.AfterClass | Jc3MpTsdGenerator/DefinitionGenerator.cs:39-69 | an alias returns before the appenders and leaves the definition as it was (`AliasIgnoresMembers`); any other class gets the appender's renames (`AfterAppend`) |
| DefinitionGeneration.AliasIgnoresMembers | Jc3MpTsdGenerator/DefinitionGenerator.cs:41-45 | an alias's output does not depend on its properties, functions, constructor or the events; it ends with `declare const Name: InstanceOf` and a blank line, and renames nothing |
| DefinitionGeneration.InterfaceLayout | Jc3MpTsdGenerator/DefinitionGenerator.cs:47-75 | a non-alias class emits its doc block, the header at the outer level, the body one level deeper, then `}` and a blank line at the outer level |
| DefinitionGeneration.ClassDocBlock | Jc3MpTsdGenerator/DefinitionGenerator.cs:41-56 | a class's first line is `/**` iff its description is not blank; otherwise it is the const or interface declaration |
| DefinitionGeneration.RenderedClasses | Jc3MpTsdGenerator/DefinitionGenerator.cs:34 | every class in list order, each against the definition as the classes before it left it; `RenamesDoNotLeak` equates it with `RenderedAgainst`, and `Generate` writes it |
| DefinitionGeneration.Threaded | Jc3MpTsdGenerator/DefinitionGenerator.cs:34 | the definition after the classes are rendered in turn; `ThreadedStable` states that it renders every class as the original does |
| DefinitionGeneration.RenderedAgainst | Jc3MpTsdGenerator/DefinitionGenerator.cs:34 | the reference output: every class in list order against the original definition |
| DefinitionGeneration.RenamedStaysStable | Jc3MpTsdGenerator/ClassDefinitionAppenders/EventSystemDefinitionAppender.cs:40 | a second rename of renamed parameters can never yield the handle expression, provided the first could not |
| DefinitionGeneration.AfterClassStable | Jc3MpTsdGenerator/DefinitionGenerator.cs:69 | provided no event parameter sanitises to the handle expression (`RenameStable`): after a class has been rendered, every class renders as before the appender's renames, the definition stays `RenameStable`, and the class list is unchanged |
| DefinitionGeneration.ThreadedStable | Jc3MpTsdGenerator/DefinitionGenerator.cs:34 | provided the definition is `RenameStable`: after any prefix of the class list, every class still renders as against the original definition |
| DefinitionGeneration.RenamesDoNotLeak | Jc3MpTsdGenerator/DefinitionGenerator.cs:34 | rendering the classes in turn against the updated definition gives exactly the lines of rendering each against the original |
| DefinitionGeneration.DefinitionGenerator.constructor | Jc3MpTsdGenerator/DefinitionGenerator.cs:23-27 | keeps the definition, the writer and the weapon caster it is given |
| DefinitionGeneration.DefinitionGenerator.WriteClassProperty | Jc3MpTsdGenerator/DefinitionGenerator.cs:136-159 | writes the property's doc block, its line and a blank line at the current level |
| DefinitionGeneration.DefinitionGenerator.WriteParametersCommentBlockParameter | Jc3MpTsdGenerator/DefinitionGenerator.cs:131-134 | writes one ` * @param {T} name` line |
| DefinitionGeneration.DefinitionGenerator.WriteParametersCommentBlock | Jc3MpTsdGenerator/DefinitionGenerator.cs:123-129 | the loop writes a line per parameter and then ` *`, or nothing for no parameters |
| DefinitionGeneration.DefinitionGenerator.WriteClassMethod | Jc3MpTsdGenerator/DefinitionGenerator.cs:92-106 | writes the method's lines at the current level |
| DefinitionGeneration.DefinitionGenerator.WriteMethodDoc | Jc3MpTsdGenerator/DefinitionGenerator.cs:94-102 | writes the method's doc block: description, parameters and example between the markers, or nothing |
| DefinitionGeneration.DefinitionGenerator.WriteClassConstructor | Jc3MpTsdGenerator/DefinitionGenerator.cs:108-114 | writes `constructor(params);` and a blank line iff the class has a constructor |
| DefinitionGeneration.DefinitionGenerator.WriteInterfaceDeclaration | Jc3MpTsdGenerator/DefinitionGenerator.cs:116-121 | writes `declare interface Name {` |
| DefinitionGeneration.DefinitionGenerator.DeclareClassInstance | Jc3MpTsdGenerator/DefinitionGenerator.cs:77-90 | writes the doc block, `declare const Name: InstanceOf` and a blank line |
| DefinitionGeneration.DefinitionGenerator.GenerateClassDefinition | Jc3MpTsdGenerator/DefinitionGenerator.cs:39-75 | writes the class's lines, restores the level, and leaves the definition as the appender left it (unchanged for an alias) |
| DefinitionGeneration.DefinitionGenerator.WriteInterface | Jc3MpTsdGenerator/DefinitionGenerator.cs:47-75 | the interface branch: doc block, header, members one level deeper, closing brace and blank line |
| DefinitionGeneration.DefinitionGenerator.OpenInterface | Jc3MpTsdGenerator/DefinitionGenerator.cs:47-57 | writes the doc block and header, then raises the level by one |
| DefinitionGeneration.DefinitionGenerator.WriteMembers | Jc3MpTsdGenerator/DefinitionGenerator.cs:59-69 | writes properties, constructor, methods and the appender's lines, in that order, and stores the renamed definition |
| DefinitionGeneration.DefinitionGenerator.WriteMembersAndClose | Jc3MpTsdGenerator/DefinitionGenerator.cs:59-74 | the members, then `}` and a blank line one level out |
| DefinitionGeneration.DefinitionGenerator.CloseInterface | Jc3MpTsdGenerator/DefinitionGenerator.cs:72-74 | lowers the level by one, then writes `}` and a blank line there |
| DefinitionGeneration.DefinitionGenerator.WriteClassProperties | Jc3MpTsdGenerator/DefinitionGenerator.cs:60 | the loop writes every property in list order |
| DefinitionGeneration.DefinitionGenerator.WriteClassMethods | Jc3MpTsdGenerator/DefinitionGenerator.cs:66 | the loop writes every method in list order |
| DefinitionGeneration.DefinitionGenerator.Generate | Jc3MpTsdGenerator/DefinitionGenerator.cs:34 | the loop renders every class in list order, each against the definition as the earlier classes left it, and restores the level |
| DefinitionsGenerator.LegacyCasters | Jc3MpTsdGenerator/DefinitionsGenerator.cs:15-22 | the older chain has five casters, with no Unknown caster; `ChainOrder` states their order |
| DefinitionsGenerator.ChainOrder | Jc3MpTsdGenerator/DefinitionsGenerator.cs:15-22 | the older projection applies Or, Array, weapon name, FunctionToLambda and NullBackTick, in that order |
| DefinitionsGenerator.AgreesExceptUnknown | Jc3MpTsdGenerator/DefinitionsGenerator.cs:15-22 | the older projection agrees with the current one except on `unknown`, which reaches the remaining casters unchanged |
| DefinitionsGenerator.PassesThrough | Jc3MpTsdGenerator/DefinitionsGenerator.cs:144-152 | a plain type without `\|`, white space or `A` reaches the weapon caster unchanged |
| DefinitionsGenerator.ProjectType | Jc3MpTsdGenerator/DefinitionsGenerator.cs:144-152 | the loop's result is the blank guard then the fold of the five casters |
| DefinitionsGenerator.ProjectTypeAsArray | Jc3MpTsdGenerator/DefinitionsGenerator.cs:137-142 | `Array<` + the projected type + `>` |
| DefinitionsGenerator.RenderMethodParameter | Jc3MpTsdGenerator/DefinitionsGenerator.cs:179-186 | renders a parameter exactly as the shared helper does over the older casters |
| DefinitionsGenerator.RenderMethodParameters | Jc3MpTsdGenerator/DefinitionsGenerator.cs:176-177 | the loop gives the shared helper's list over the older casters, in order |
| DefinitionsGenerator.CommentShape | Jc3MpTsdGenerator/DefinitionsGenerator.cs:126-135 | a blank comment emits nothing; otherwise one ` * segment` line per line of the normalised comment |
| DefinitionsGenerator.CommentLines | Jc3MpTsdGenerator/DefinitionsGenerator.cs:126-135 | nothing for a blank comment, otherwise ` * ` and each line of the normalised comment; `CommentShape` and `DirectiveKept` state what it emits |
| DefinitionsGenerator.DirectiveKept | Jc3MpTsdGenerator/DefinitionsGenerator.cs:126-135 | `{{linked_type 'X'}}` is emitted as written, with no rewrite |
| DefinitionsGenerator.DirectiveRewrittenNow | Jc3MpTsdGenerator/Extensions/WriterExtensions.cs:9-26 | the current comment writer turns the same directive into `{X}` |
| DefinitionsGenerator.DocLines | Jc3MpTsdGenerator/DefinitionsGenerator.cs:59-61 | the markers are always there, around the comment content, even for an empty description |
| DefinitionsGenerator.WriteCommentBlockContent | Jc3MpTsdGenerator/DefinitionsGenerator.cs:126-135 | the loop writes the comment's lines at the current level |
| DefinitionsGenerator.WriteDocLines | Jc3MpTsdGenerator/DefinitionsGenerator.cs:59-61 | writes `/**`, the content and ` */` |
| DefinitionsGenerator.ParamDocLines | Jc3MpTsdGenerator/DefinitionsGenerator.cs:116 | one ` * @param T name` line per parameter, in order |
| DefinitionsGenerator.ParamsCommentShape | Jc3MpTsdGenerator/DefinitionsGenerator.cs:112-123 | the separator follows iff there is a parameter; each line has the type without braces and the name without `...` |
| DefinitionsGenerator.NoBraces | Jc3MpTsdGenerator/DefinitionsGenerator.cs:120-123 | the older `@param` line adds no brace, while the current one puts `{` before the type |
| DefinitionsGenerator.WriteParametersCommentBlockParameter | Jc3MpTsdGenerator/DefinitionsGenerator.cs:120-123 | writes one ` * @param T name` line |
| DefinitionsGenerator.WriteParametersCommentBlock | Jc3MpTsdGenerator/DefinitionsGenerator.cs:112-118 | the loop writes a line per parameter then ` *`, or nothing |
| DefinitionsGenerator.ParamsCommentLines | Jc3MpTsdGenerator/DefinitionsGenerator.cs:112-123 | the parameter lines then ` *`, or nothing; `ParamsCommentShape` states this |
| DefinitionsGenerator.MethodDocLines | Jc3MpTsdGenerator/DefinitionsGenerator.cs:84-89 | `/**`, the description, the parameter lines, the example and ` */`, whatever the method documents; `MethodShape` and `UndocumentedMethod` state this |
| DefinitionsGenerator.MethodLines | Jc3MpTsdGenerator/DefinitionsGenerator.cs:82-93 | the doc block, the signature and a blank line; `MethodShape` states this layout |
| DefinitionsGenerator.MethodShape | Jc3MpTsdGenerator/DefinitionsGenerator.cs:82-93 | the markers are always written, followed by the signature and a blank line |
| DefinitionsGenerator.UndocumentedMethod | Jc3MpTsdGenerator/DefinitionsGenerator.cs:82-93 | a method with nothing to document still gets `/**` and ` */`, which the current renderer leaves out |
| DefinitionsGenerator.WriteClassMethod | Jc3MpTsdGenerator/DefinitionsGenerator.cs:82-93 | writes the method's lines at the current level |
| DefinitionsGenerator.WriteMethodDoc | Jc3MpTsdGenerator/DefinitionsGenerator.cs:84-89 | writes the always-present doc block |
| DefinitionsGenerator.WriteClassMethods | Jc3MpTsdGenerator/DefinitionsGenerator.cs:74 | the loop writes every method in list order |
| DefinitionsGenerator.UndocumentedProperty | Jc3MpTsdGenerator/DefinitionsGenerator.cs:154-158 | a property without a description still gets an empty block, which the current renderer leaves out |
| DefinitionsGenerator.PropertyLines | Jc3MpTsdGenerator/DefinitionsGenerator.cs:154-174 | the always-present block, the property line and a blank line; `UndocumentedProperty` states the block for a missing description |
| DefinitionsGenerator.NoAppenders | Jc3MpTsdGenerator/DefinitionsGenerator.cs:67-79 | for `EventSystem` with no members of its own the older body is empty whatever the events, while the current body holds at least two lines per event and the overload of every event |
| DefinitionsGenerator.WriteClassProperty | Jc3MpTsdGenerator/DefinitionsGenerator.cs:154-174 | writes the block, the property line and a blank line |
| DefinitionsGenerator.BuildProperty | Jc3MpTsdGenerator/DefinitionsGenerator.cs:160-170 | the builder gives the current renderer's property line over the older casters |
| DefinitionsGenerator.WriteClassProperties | Jc3MpTsdGenerator/DefinitionsGenerator.cs:68 | the loop writes every property in list order |
| DefinitionsGenerator.HeaderForms | Jc3MpTsdGenerator/DefinitionsGenerator.cs:103-110 | the header is always an interface; a non-blank `InstanceOf` adds ` extends InstanceOf`; without one it is the current header |
| DefinitionsGenerator.HeaderLine | Jc3MpTsdGenerator/DefinitionsGenerator.cs:103-110 | `declare interface Name[ extends Base] {`; `HeaderForms` states its forms |
| DefinitionsGenerator.WriteInterfaceDeclaration | Jc3MpTsdGenerator/DefinitionsGenerator.cs:103-110 | writes that header |
| DefinitionsGenerator.WriteClassConstructor | Jc3MpTsdGenerator/DefinitionsGenerator.cs:95-101 | writes the constructor line and a blank line iff the class has a constructor |
| DefinitionsGenerator.ClassLayout | Jc3MpTsdGenerator/DefinitionsGenerator.cs:56-80 | every class, alias or not, emits the block, the header at the outer level, the body one level deeper, then `}` and a blank line |
| DefinitionsGenerator.BodyLines | Jc3MpTsdGenerator/DefinitionsGenerator.cs:67-74 | properties, constructor and methods, in that order, with no appender; `ClassLayout` places them one level deeper and `NoAppenders` states what is missing |
| DefinitionsGenerator.ClassLines | Jc3MpTsdGenerator/DefinitionsGenerator.cs:56-80 | the block, the header, the body one level deeper and the closing lines; `ClassLayout` states this layout |
| DefinitionsGenerator.GenerateClassDefinition | Jc3MpTsdGenerator/DefinitionsGenerator.cs:56-80 | writes the class's lines and restores the level; there are no appenders |
| DefinitionsGenerator.OpenInterface | Jc3MpTsdGenerator/DefinitionsGenerator.cs:58-65 | writes the block and header, then raises the level by one |
| DefinitionsGenerator.WriteMembers | Jc3MpTsdGenerator/DefinitionsGenerator.cs:67-74 | writes properties, constructor and methods, in that order |
| DefinitionsGenerator.WriteMembersAndClose | Jc3MpTsdGenerator/DefinitionsGenerator.cs:67-79 | the members, then `}` and a blank line one level out |
| DefinitionsGenerator.GenerateForDefinition | Jc3MpTsdGenerator/DefinitionsGenerator.cs:51-54 | the loop renders every class in list order and restores the level |
| DefinitionsGenerator.RenderedClasses | Jc3MpTsdGenerator/DefinitionsGenerator.cs:51-54 | every class in list order; `GenerateForDefinition` writes it |

## Left out

- `Program.cs`: downloading, JSON deserialisation, directory handling and
  file copying are I/O.
- The file handling in both `Generate` methods, the `Path.Combine` in the
  older generator's constructor and `DefinitionWriterState.Dispose`. The
  sink is the in-memory `lines` sequence. `DefinitionGenerator` receives its
  writer in its constructor, and both generators are driven from the class
  list. The output path field is not modelled.
- The weapon-name caster and the caster interface: their source is not part
  of this model. The weapon caster is a parameter `weapn: string -> string`.
  Lemmas that need its behaviour say so in their requires, for example
  `weapn("Foo") == "Foo"`.
- The appender interface and the appender list. The list holds one
  appender, which the renderer calls directly.
- White space and `\w` are the ASCII characters. Unicode white space and
  Unicode letters are not modelled.
- Schema fields that no renderer reads are not modelled: `Deprecated`,
  `Unstable`, `DataType`, `CustomProperties`, `AutoDestroy`, `Constructible`,
  `HasProperties`, `HasFunctions`, `Filled`, `ExampleArgs`, `IsEvent`,
  `Event.Example`, and the `HasParameters` of functions and events.
  `Parameter.Description` is kept but never rendered.
- Object identity of parameters. The in-place rename is modelled as the
  appender returning the renamed definition, which the generator stores in
  its `definition` field. Other references to the same parameter objects are
  not modelled.
- Nulls in places where the code would throw: the definition's classes and
  events, class properties, functions, method and event parameters. These
  are plain sequences. A parameter's name is a plain string, though a null
  name would throw at `StartsWith`, `Replace` or `Contains`.
  `WriteParametersCommentBlock` accepts a null list in the code, but it is
  only ever given a function's list.
- `StartsWith`: the `...` test for a rest parameter is modelled as an
  ordinal prefix comparison. .NET's `StartsWith(string)` compares by the
  current culture, which also skips ignorable characters (a soft hyphen,
  zero-width characters) before the `...`.
- A line written with an embedded line feed stays one element of `lines`.
  The text is the same; only the count of physical lines differs.
- Exceptions: a class with `HasConstructor` set and a null `Constructor`
  makes the code throw when it writes the constructor
  (`DefinitionGenerator.cs:112`, `DefinitionsGenerator.cs:99`). The model
  excludes such classes by precondition instead of modelling the exception.
- DefinitionGeneration.DefinitionGenerator.GenerateClassDefinition: requires `Renderable(c)`, since the current renderer throws only for a class that is not an alias.
- DefinitionGeneration.DefinitionGenerator.Generate: requires every class to be `Renderable` for the same reason.
- DefinitionsGenerator.GenerateClassDefinition: requires `WellFormed(c)`, since the older renderer writes every class as an interface and so throws for an alias as well.
- DefinitionsGenerator.GenerateForDefinition: requires every class to be `WellFormed` for the same reason.
- EventSystemAppender.SanitizeIdempotent: holds only when the first result is not the handle expression; `HandleAsLastSegment` shows the exception.
- EventSystemAppender.SanitizedParametersIdempotent: has the same side condition.
- EventSystemAppender.SanitizedEventsIdempotent: has the same side condition.
- EventSystemAppender.RenamingIsStable: has the same side condition, because a second rename of such a parameter would change its name again.
- DefinitionGeneration.RenamesDoNotLeak: requires that no event parameter sanitises to the handle expression (`RenameStable`). Without this, a second `EventSystem` class would render the twice-renamed names differently.
- DefinitionGeneration.AfterClassStable: requires `RenameStable`. Without it, an `EventSystem` class can rename a parameter to the handle expression, and a later `EventSystem` class would render that parameter as `vehicle`.
- DefinitionGeneration.ThreadedStable: requires `RenameStable` for the same reason.
- `OrTypeCaster`: the `Groups.Count != 3` test can never succeed for this pattern, so the model omits it.
- The model splits some C# methods into named steps, each with its own
  contract:
  - `WriteClassMethod` into `WriteMethodDoc`;
  - the property builder into `BuildProperty`;
  - the class body into `OpenInterface`, `WriteMembers`,
    `WriteMembersAndClose`, `CloseInterface` and `WriteInterface`;
  - the `ForEach` calls into `WriteClassProperties` and `WriteClassMethods`;
  - the older generator's doc block into `WriteDocLines`.
