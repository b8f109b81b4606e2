# SftLilypond transform-and-render core, in Dafny

SftLilypond turns a score from the SftMusicModel library into LilyPond source
text in two stages:

- **`LilypondSymbolsTransformer`** flattens score nodes into an ordered list of
  `LilypondPrimarySymbol` values. A bar becomes its directives in a fixed order,
  then its elements, then its closing bar line. Relative blocks, tuplets and
  voltas keep their content unflattened.
- **`LilypondRenderer`** maps each symbol to text using fixed token tables. It
  calls back into the transformer for the bodies of relative blocks, tuplets and
  voltas, so the two are mutually recursive. It threads one mutable
  `LilypondProcessingContext` through the whole pass. A key or time-signature
  directive equal to the one the context holds renders as nothing. A directive
  that is actually emitted updates the context.

The files:

- `music_model.dfy`: the fields of the score model the pipeline reads, as
  datatypes. It also holds size measures that prove the mutual recursion
  terminates.
- `text.dfy`: decimal formatting, `String(repeating:count:)` and
  `joined(separator:)`.
- `symbols.dfy`: the eleven-case `LilypondPrimarySymbol`, one constructor per
  case of the enum in Sources/SftLilypond/elements/LilypondPrimarySymbol.swift:9-23.
- `transformer.dfy`: the transformer.
  - The transforms are heap-free functions. The transformer holds the context
    but never reads or writes it.
  - `transformStaffBar` is a method that builds the bar's list by front
    insertions and an append, as the source does. It is proved equal to the
    fixed-order specification `BarSymbols`.
- `context.dfy`: the context as a class with two mutable fields and their
  defaults. A `ContextState` value is a snapshot of those fields.
- `tokens.dfy`: the context-free token renderers: bar lines, accidentals,
  keys, time signatures, the duration table, rests, octave marks, accents,
  ties and tempo.
- `renderer.dfy`: the renderer.
  - The specification functions render from a context snapshot and return the
    text with the snapshot afterwards.
  - The class `LilypondRenderer` holds the shared context object. Its methods
    update the object in place and are each proved to agree with the matching
    function.
  - Rendering a list is a loop that renders the symbols left to right.
- `render_properties.dfy`, `transformer_properties.dfy` and `examples.dfy`:
  the properties and the concrete instances of the token rules.

## Model

| member | source | states |
|---|---|---|
| ProcessingContext.LilypondProcessingContext.constructor | Sources/SftLilypond/common/LilypondProcessingContext.swift:11-15 | a fresh context holds C major and 1/4 |
| RenderProperties.FreshContextDefaults | Sources/SftLilypond/common/LilypondProcessingContext.swift:11-12 | on a fresh context, C major and 1/4 render as nothing; any other key or time emits its directive |
| Transformer.TransformSequence | Sources/SftLilypond/transform/LilypondSymbolsTransformer.swift:18-23 | a named sequence becomes exactly one `relative` symbol anchored at C natural that carries the elements unflattened |
| Transformer.TransformElement | Sources/SftLilypond/transform/LilypondSymbolsTransformer.swift:40-72 | every primary element becomes exactly one symbol of its own case, and ElementOf recovers the element from it |
| Transformer.TransformElements | Sources/SftLilypond/transform/LilypondSymbolsTransformer.swift:76 | flatMap over elements gives one symbol per element, in order; the i-th symbol maps back to the i-th element |
| Transformer.LeadingDirectives | Sources/SftLilypond/transform/LilypondSymbolsTransformer.swift:78-98 | a bar opens with one line break plus one directive per present optional among start line, mark, time, key and tempo |
| Transformer.BarSymbols | Sources/SftLilypond/transform/LilypondSymbolsTransformer.swift:74-105 | a bar never produces a `relative` symbol, and its symbols are bounded by the size of its elements |
| Transformer.TransformStaffBar | Sources/SftLilypond/transform/LilypondSymbolsTransformer.swift:74-105 | the list built by front insertions (tempo first, start line last) plus the appended end line equals the fixed-order list BarSymbols |
| Transformer.TransformNode | Sources/SftLilypond/transform/LilypondSymbolsTransformer.swift:26-38 | flattening a node never produces a `relative` symbol; a volta node becomes exactly one `volta` symbol carrying the volta unflattened |
| Transformer.TransformNodes | Sources/SftLilypond/transform/LilypondSymbolsTransformer.swift:32 | flattening children never produces a `relative` symbol |
| TransformerProperties.LeadingDirectivesOrdered | Sources/SftLilypond/transform/LilypondSymbolsTransformer.swift:78-98 | a bar's directives are strictly ordered start line < line break < mark < time < key < tempo, so each kind occurs at most once, whatever the order of the insertions |
| TransformerProperties.BarLineBreaks | Sources/SftLilypond/transform/LilypondSymbolsTransformer.swift:94 | the directives hold exactly one line break, regular mode included; the bar holds that one plus one per line-break element |
| TransformerProperties.TransformElementsLineBreaks | Sources/SftLilypond/transform/LilypondSymbolsTransformer.swift:76 | flattening keeps the number of line breaks |
| TransformerProperties.BarLayout | Sources/SftLilypond/transform/LilypondSymbolsTransformer.swift:74-105 | bar length is the number of directives plus elements plus end line; the bar opens with the start line, or the line break when there is none; the elements sit after the directives in their original order; the end line comes last |
| TransformerProperties.TransformNodesAppend | Sources/SftLilypond/transform/LilypondSymbolsTransformer.swift:31-32 | flattening an inner node distributes over concatenation of its children |
| TransformerProperties.TransformBars | Sources/SftLilypond/transform/LilypondSymbolsTransformer.swift:31-34 | an inner node of bars flattens to its bars' symbols, one bar after another |
| Text.Repeat | Sources/SftLilypond/render/LilypondRenderer.swift:225 | `String(repeating:count:)` gives exactly n copies of the character |
| Text.Join | Sources/SftLilypond/render/LilypondRenderer.swift:20-22 | joining n parts inserts exactly n-1 separators and nothing else; no parts give "" |
| Text.IntToString | Sources/SftLilypond/render/LilypondRenderer.swift:192 | an interpolated integer is at least one character and starts with `-` exactly when it is negative |
| Text.JoinSnoc | Sources/SftLilypond/render/LilypondRenderer.swift:245-246 | appending a part to a non-empty join adds one separator and the part |
| Tokens.BarLineString | Sources/SftLilypond/render/LilypondRenderer.swift:52-64 | a bar line is a space, `\bar "`, its token, a closing `"` and a space, so 9 characters longer than the token |
| Tokens.BreakModeString | Sources/SftLilypond/render/LilypondRenderer.swift:76-86 | a line break renders "" exactly in regular mode; no-break mode renders ` \noBreak ` and new-line mode ` \break ` |
| Tokens.MarkString | Sources/SftLilypond/render/LilypondRenderer.swift:88-90 | a mark is the fixed boxed-markup prefix, then the label verbatim, then the suffix quote, space, brace, space (`" } `) |
| Tokens.KeyDirective | Sources/SftLilypond/render/LilypondRenderer.swift:73 | an emitted key is `\key `, the tonic's note text, a space, the mode command of KeyTypeString and a trailing space |
| Tokens.KeyTypeString | Sources/SftLilypond/render/LilypondRenderer.swift:107-116 | the mode is a six-character command: `\major` exactly for major keys, `\minor` exactly for minor ones |
| Tokens.TimeDirective | Sources/SftLilypond/render/LilypondRenderer.swift:187 | an emitted time signature is `\time `, then `L/F`, then ` \set Score.voltaSpannerDuration = #(ly:make-moment ` with the same `L/F`, then `) ` |
| Tokens.QuarterFraction | Sources/SftLilypond/render/LilypondRenderer.swift:140-153 | the quarter fraction of every measure fraction is 1, 2 or 4 |
| Tokens.Steps | Sources/SftLilypond/render/LilypondRenderer.swift:155-168 | the steps of every measure fraction are 1, 2 or 4 |
| Tokens.TempoString | Sources/SftLilypond/render/LilypondRenderer.swift:170-178 | a tempo starts with `\tempo 4 = ` and the minimum; it ends there without a maximum, and is followed by exactly ` - max` with one |
| Tokens.AccentString | Sources/SftLilypond/render/LilypondRenderer.swift:202-213 | no accent renders ""; a dot renders `-.` and a dash `--` |
| Tokens.NoteString | Sources/SftLilypond/render/LilypondRenderer.swift:92-105 | a note is its letter followed by "", "es" or "is" for natural, flat and sharp |
| Tokens.Denominator | Sources/SftLilypond/render/LilypondRenderer.swift:136-168 | `4*quarterFraction/steps` divides exactly and gives 1, 2, 4, 8, 16 for whole to sixteenth |
| Tokens.DurationString | Sources/SftLilypond/render/LilypondRenderer.swift:127-134 | a note value is its denominator followed by exactly `dots` periods; a full measure is `1*L/F` of the current time, with `*count` exactly when count > 1 |
| Tokens.RestString | Sources/SftLilypond/render/LilypondRenderer.swift:118-125 | a rest is `r` before a note value and `R` before a full measure, then the duration |
| Tokens.OctaveShift | Sources/SftLilypond/render/LilypondRenderer.swift:223-233 | the marks number abs(octave): all apostrophes above zero, all commas below |
| Tokens.OctaveShiftInverse | Sources/SftLilypond/render/LilypondRenderer.swift:223-233 | the octave is recovered as apostrophes minus commas |
| Tokens.ToneString | Sources/SftLilypond/render/LilypondRenderer.swift:195-221 | a tone is letter, accidental, octave marks, duration, accent, `~` if post-tied, `\repeatTie` if pre-tied, in that order |
| Tokens.ToneStringTimeIndependent | Sources/SftLilypond/render/LilypondRenderer.swift:127-134 | only a full-measure duration makes a tone's text depend on the time signature |
| Renderer.KeyOutput | Sources/SftLilypond/render/LilypondRenderer.swift:66-74 | afterwards the key is current and the time untouched; the text is "" exactly when the key already was current, and otherwise the `\key` directive |
| Renderer.TimeOutput | Sources/SftLilypond/render/LilypondRenderer.swift:180-188 | afterwards the time signature is current and the key untouched; the text is "" exactly when it already was current, and otherwise the `\time` directive |
| Renderer.SymbolOutput | Sources/SftLilypond/render/LilypondRenderer.swift:25-50 | a key symbol makes its key current and leaves the time; a time symbol makes its time current and leaves the key; bar lines, line breaks, marks, rests, tempi and tones leave the context unchanged |
| Renderer.SymbolsOutput | Sources/SftLilypond/render/LilypondRenderer.swift:19-23 | an empty list renders "" and leaves the context; otherwise the text is the symbols' texts plus exactly one space between neighbours, with no trimming |
| Renderer.ToleOutput | Sources/SftLilypond/render/LilypondRenderer.swift:190-193 | a tuplet starts with `\tuplet ` and ends with ` }`, and is at least 16 characters long |
| Renderer.VoltaOutput | Sources/SftLilypond/render/LilypondRenderer.swift:235-253 | a volta starts with `\repeat volta ` and ends with ` }`, and is at least 37 characters long |
| Renderer.SequenceOutput | Sources/SftLilypond/render/LilypondRenderer.swift:14-17 | a whole sequence renders as `\relative c { ... }` around the rendering of its elements, and leaves the context those elements leave |
| Renderer.ToleSymbols | Sources/SftLilypond/render/LilypondRenderer.swift:191 | a tuplet's tones and rests become one symbol each, in order |
| Renderer.EachOutput | Sources/SftLilypond/render/LilypondRenderer.swift:19-23 | rendering a list yields one text per symbol |
| Renderer.AlternativesOutput | Sources/SftLilypond/render/LilypondRenderer.swift:241-246 | a volta yields one braced block per alternative |
| Renderer.LilypondRenderer.constructor | Sources/SftLilypond/render/LilypondRenderer.swift:9-12 | the renderer shares the context object it is given |
| Renderer.LilypondRenderer.ToLilypondStringOfSequence | Sources/SftLilypond/render/LilypondRenderer.swift:14-17 | the text and the new context are those of SequenceOutput on the old context |
| Renderer.LilypondRenderer.Render | Sources/SftLilypond/render/LilypondRenderer.swift:19-23 | the loop renders the symbols left to right through the context; its text and new context are those of SymbolsOutput |
| Renderer.LilypondRenderer.ToLilypondString | Sources/SftLilypond/render/LilypondRenderer.swift:25-50 | dispatch on the symbol's case; text and new context are those of SymbolOutput |
| Renderer.LilypondRenderer.RenderKey | Sources/SftLilypond/render/LilypondRenderer.swift:66-74 | writes only `currentKey`; "" when the key is current, otherwise the `\key` directive and the key becomes current |
| Renderer.LilypondRenderer.RenderTime | Sources/SftLilypond/render/LilypondRenderer.swift:180-188 | writes only `currentTime`; "" when the time is current, otherwise the `\time` directive and the time becomes current |
| Renderer.LilypondRenderer.RenderTole | Sources/SftLilypond/render/LilypondRenderer.swift:190-193 | text and new context are those of ToleOutput |
| Renderer.LilypondRenderer.RenderVolta | Sources/SftLilypond/render/LilypondRenderer.swift:235-253 | the primary is rendered first, then the alternatives left to right through the same context; the result is VoltaOutput |
| RenderProperties.KeyRepeatSuppressed | Sources/SftLilypond/render/LilypondRenderer.swift:66-74 | the first rendering of a key emits the directive only if it differs from the current key and makes it current; rendering it again emits "" and changes nothing |
| RenderProperties.TimeRepeatSuppressed | Sources/SftLilypond/render/LilypondRenderer.swift:180-188 | the same for a time signature; the key is left untouched |
| RenderProperties.EachOutputAppend | Sources/SftLilypond/render/LilypondRenderer.swift:19-23 | rendering a concatenation renders the first part, then the second from the context the first left |
| RenderProperties.EachOutputAt | Sources/SftLilypond/render/LilypondRenderer.swift:19-23 | the m-th text is the m-th symbol rendered from the context the first m symbols left |
| RenderProperties.SymbolStaysWithin | Sources/SftLilypond/render/LilypondRenderer.swift:25-50 | after one symbol, each context field holds its old value or a key or time the symbol, nested content included, can emit |
| RenderProperties.EachStaysWithin | Sources/SftLilypond/render/LilypondRenderer.swift:19-23 | the same for a list |
| RenderProperties.VoltaStaysWithin | Sources/SftLilypond/render/LilypondRenderer.swift:235-253 | the same for a volta's primary and alternatives |
| RenderProperties.AlternativesStayWithin | Sources/SftLilypond/render/LilypondRenderer.swift:241-246 | the same for a volta's alternatives |
| RenderProperties.ContextChangesOnlyThroughDirectives | Sources/SftLilypond/render/LilypondRenderer.swift:72 | `currentKey` changes only to a key the list emits and `currentTime` only to a time it emits; with none, the field is unchanged |
| RenderProperties.RepeatedKeySuppressed | Sources/SftLilypond/render/LilypondRenderer.swift:66-74 | a key directive that repeats an earlier one, with nothing between that sets another key, renders as "" |
| RenderProperties.RepeatedTimeSuppressed | Sources/SftLilypond/render/LilypondRenderer.swift:180-188 | the same for a repeated time signature |
| RenderProperties.KeyKept | Sources/SftLilypond/render/LilypondRenderer.swift:66-74 | once the key is k, symbols that can set no key but k leave it at k |
| RenderProperties.TimeKept | Sources/SftLilypond/render/LilypondRenderer.swift:180-188 | once the time signature is t, symbols that can set no time signature but t leave it at t |
| RenderProperties.ToneOrRestSymbols | Sources/SftLilypond/render/LilypondRenderer.swift:190-191 | a tuplet's inner texts are its tones and rests rendered in order from one unchanged context |
| RenderProperties.ToleShape | Sources/SftLilypond/render/LilypondRenderer.swift:190-193 | a tuplet is `\tuplet P/O { ... }` around its inner texts joined by single spaces, and leaves the context unchanged |
| RenderProperties.ToneOrRestDirectives | Sources/SftLilypond/render/LilypondRenderer.swift:190-191 | a tuplet's content can set neither key nor time |
| RenderProperties.AlternativeBlockAt | Sources/SftLilypond/render/LilypondRenderer.swift:241-246 | the i-th block is the i-th alternative in braces, rendered from the context the earlier alternatives left |
| RenderProperties.AlternativesOutputAppend | Sources/SftLilypond/render/LilypondRenderer.swift:241-246 | rendering the alternatives of a concatenation renders the first part, then the second from the context the first left |
| RenderProperties.VoltaShape | Sources/SftLilypond/render/LilypondRenderer.swift:235-253 | `\repeat volta N { primary }` with N the number of alternatives, directly followed by one `\alternative { }` whose i-th block is the i-th alternative in braces, rendered from the context the primary and the earlier alternatives left; the volta leaves the context its last alternative leaves, or the primary's when there is none |
| RenderProperties.VoltaRepeatedKeySuppressed | Sources/SftLilypond/render/LilypondRenderer.swift:235-253 | a key set in the primary, with nothing after it there and nothing in the earlier alternatives that sets another key, suppresses the same key in a later alternative when nothing before it there sets another key |
| RenderProperties.VoltaRepeatedTimeSuppressed | Sources/SftLilypond/render/LilypondRenderer.swift:235-253 | the same for a time signature set in the primary and repeated in a later alternative |
| RenderProperties.KeyPosition | Sources/SftLilypond/transform/LilypondSymbolsTransformer.swift:82-98 | a bar's `key` symbol sits right after its start line, line break, mark and time, both among the leading directives and in the whole bar |
| RenderProperties.BarKeys | Sources/SftLilypond/transform/LilypondSymbolsTransformer.swift:74-105 | in a bar with key k whose elements hold no volta and no key other than k, no symbol can set a key other than k |
| RenderProperties.ConsecutiveBarsKeyOnce | Sources/SftLilypond/render/LilypondRenderer.swift:66-74 | of two consecutive bars with the same key, the second bar's key directive renders as "" |
| Examples.DurationTableExamples | Sources/SftLilypond/render/LilypondRenderer.swift:127-168 | quarter/0 is "4", eighth/1 "8.", whole/2 "1..", sixteenth/0 "16" |
| Examples.OctaveExamples | Sources/SftLilypond/render/LilypondRenderer.swift:223-233 | +2 is "''", -1 is ",", 0 is "" |
| Examples.FullMeasureExamples | Sources/SftLilypond/render/LilypondRenderer.swift:118-134 | under 3/4 a full-measure rest is "R1*3/4", and with count 2 "R1*3/4*2" |
| Examples.TupletExample | Sources/SftLilypond/render/LilypondRenderer.swift:190-193 | a 3:2 tuplet of three notes is `\tuplet 3/2 { a b c }` |
| Examples.VoltaExample | Sources/SftLilypond/render/LilypondRenderer.swift:235-253 | a volta with two alternatives is tagged 2 and followed by exactly two blocks |

## Left out

- Trimming: `render(_ primaries:)` (LilypondRenderer.swift:19-23) joins the texts with single spaces and does not trim them. Directives that render with padding (bar lines, line breaks, `\key`, `\time`, marks) and directives that render as "" keep all their spaces, and so does the model.
- The `inner` case of `StaffBarSequenceUnion`: the model reads its first payload as a list of child nodes that `transform(staffBarSequence:)` flattens in order. Its declared type belongs to the external score model and is not part of this model. The second payload is unused and left out.
  - Another reading is equally plausible: the payload is named `primaries`, and the superseded `.regular(primaries, _)` case (StaffBarSequenceUnion+Ext.swift:12-13) flattens primary elements, not child nodes. Under that reading an inner node would flatten like a bar's elements.
- `render(tole:)` passes the tuplet's tones and rests to `symbolTransformer.transform`. The transformer in transform/LilypondSymbolsTransformer.swift:18-72 has no overload that LilypondRenderer.swift:191 could resolve to, so the function it calls is not part of this model. Each one is modelled as the tone/rest case of `transform(staffPrimaryElement:)`: a tone gives one `tone` symbol and a rest gives one `rest` symbol.
- `String(describing:)` of a diatonic note is taken to be its lower-case letter. That text comes from the external score model.
- Swift `Int` is modelled as an unbounded integer.
  - `Tokens.OctaveShift` does not model the overflow of `abs(Int.min)`.
  - Dots are a natural number, because `String(repeating:count:)` traps on a negative count.
- Decimal formatting in string interpolation is modelled by `IntToString`. Its digit-level agreement with Swift's formatting is not proved.
- `Transformer`: the transformer's stored context is left out. No transformer member reads or writes it, so modelling the transformer as heap-free functions captures that it cannot change the context.
- `renderVolta`: the source transforms every alternative before rendering any of them. The model transforms and renders each alternative in turn. The two agree because the transformer does not touch the context.
- A duration unit outside the closed enumeration cannot occur here, because the datatypes are closed. The fatal path for such a unit therefore has nothing to model.
- Superseded drafts are not part of this model: the top-level `LilypondSymbolsTransformer.swift`, `StaffBarSequenceUnion+Ext.swift`, `LilypondPrimaries.swift`, `LilypondPrimary.swift` and `LilypondSymbolSequence.swift`. They duplicate or predate the logic above.
- `RenderProperties.ConsecutiveBarsKeyOnce`: this lemma is stated only for a first bar whose elements contain no volta and no key change to another key. Those are the elements that could set a different key between the two directives. The general rule is `RenderProperties.RepeatedKeySuppressed`.
