/**
 * LilypondSymbolsTransformer: flattens score nodes into an ordered list of
 * LilyPond primitives. It holds the processing context but never looks at
 * it, so here it is a set of heap-free functions (they cannot read or write
 * the context) and one method that builds a bar's list by insertion.
 */
module Transformer {
  import opened MusicModel
  import opened Symbols

  /** `transform(sequence:)`: a whole named sequence becomes one `\relative c` block over its unflattened elements. */
  function TransformSequence(sequence: NamedStaffBarSequence): (r: seq<LilypondPrimarySymbol>)
    ensures |r| == 1 && r[0].Relative?
    ensures r[0].note == CNatural && r[0].elements == sequence.primaryElements
  {
    [LilypondPrimarySymbol.Relative(CNatural, sequence.primaryElements)]
  }

  /**
   * The element a symbol mirrors, if any: the inverse of TransformElement.
   * `Relative` mirrors no element.
   */
  function ElementOf(p: LilypondPrimarySymbol): Option<StaffPrimaryElementUnion>
  {
    match p
    case BarLine(b) => Some(BarElement(b))
    case Key(k) => Some(KeyElement(k))
    case LineBreak(m) => Some(LineBreakElement(m))
    case Mark(m) => Some(MarkElement(m))
    case Relative(_, _) => None
    case Rest(d) => Some(PlayableElement(ToneOrRest(PlayedToneOrRest.Rest(d))))
    case Tempo(t) => Some(TempoElement(t))
    case Time(t) => Some(TimeElement(t))
    case Tole(t) => Some(PlayableElement(Playable.Tole(t)))
    case Tone(t) => Some(PlayableElement(ToneOrRest(PlayedToneOrRest.Tone(t))))
    case Volta(v) => Some(VoltaElement(v))
  }

  /** `transform(staffPrimaryElement:)`: exactly one symbol, of the element's own case, carrying its payload whole. */
  function TransformElement(e: StaffPrimaryElementUnion): (r: seq<LilypondPrimarySymbol>)
    ensures |r| == 1 && ElementOf(r[0]) == Some(e)
    ensures SymbolSize(r[0]) == ElementSize(e)
  {
    match e
    case PlayableElement(ToneOrRest(Tone(tone))) => [LilypondPrimarySymbol.Tone(tone)]
    case PlayableElement(ToneOrRest(Rest(duration))) => [LilypondPrimarySymbol.Rest(duration)]
    case PlayableElement(Tole(tole)) => [LilypondPrimarySymbol.Tole(tole)]
    case BarElement(barLine) => [LilypondPrimarySymbol.BarLine(barLine)]
    case KeyElement(key) => [LilypondPrimarySymbol.Key(key)]
    case TimeElement(time) => [LilypondPrimarySymbol.Time(time)]
    case TempoElement(tempo) => [LilypondPrimarySymbol.Tempo(tempo)]
    case LineBreakElement(mode) => [LilypondPrimarySymbol.LineBreak(mode)]
    case MarkElement(mark) => [LilypondPrimarySymbol.Mark(mark)]
    case VoltaElement(volta) => [LilypondPrimarySymbol.Volta(volta)]
  }

  /** `elements.flatMap(transform)`: one symbol per element, in order, nothing lost. */
  function TransformElements(es: seq<StaffPrimaryElementUnion>): (r: seq<LilypondPrimarySymbol>)
    ensures |r| == |es|
    ensures forall i :: 0 <= i < |es| ==> ElementOf(r[i]) == Some(es[i])
    ensures SymbolsSize(r) == ElementsSize(es)
  {
    if es == [] then [] else TransformElement(es[0]) + TransformElements(es[1..])
  }

  function Present<T>(o: Option<T>): nat
  {
    if o.Some? then 1 else 0
  }

  /** The symbol for an optional bar field: none when the field is absent. */
  function Optional<T>(o: Option<T>, symbol: T -> LilypondPrimarySymbol): (r: seq<LilypondPrimarySymbol>)
    ensures |r| == Present(o)
    ensures o.Some? ==> r == [symbol(o.value)]
  {
    match o
    case Some(v) => [symbol(v)]
    case None => []
  }

  /**
   * The directives a bar opens with, in their fixed order: start bar line,
   * line break (always, even in regular mode), mark, time, key, tempo.
   */
  function LeadingDirectives(bar: StaffBar): (r: seq<LilypondPrimarySymbol>)
    ensures |r| == 1 + Present(bar.startLine) + Present(bar.mark) + Present(bar.time) + Present(bar.key) + Present(bar.tempo)
  {
    Optional(bar.startLine, l => LilypondPrimarySymbol.BarLine(l))
    + [LilypondPrimarySymbol.LineBreak(bar.breakMode)]
    + Optional(bar.mark, m => LilypondPrimarySymbol.Mark(m))
    + Optional(bar.time, t => LilypondPrimarySymbol.Time(t))
    + Optional(bar.key, k => LilypondPrimarySymbol.Key(k))
    + Optional(bar.tempo, t => LilypondPrimarySymbol.Tempo(t))
  }

  function TrailingDirectives(bar: StaffBar): (r: seq<LilypondPrimarySymbol>)
    ensures |r| == Present(bar.endLine)
  {
    Optional(bar.endLine, l => LilypondPrimarySymbol.BarLine(l))
  }

  /** The symbols of a bar: its leading directives, its elements in order, then the end bar line if any. */
  function BarSymbols(bar: StaffBar): (r: seq<LilypondPrimarySymbol>)
    ensures SymbolsSize(r) <= 7 + ElementsSize(bar.primaryElements)
    ensures forall p | p in r :: !p.Relative?
  {
    var lead := LeadingDirectives(bar);
    var elements := TransformElements(bar.primaryElements);
    var trail := TrailingDirectives(bar);
    DirectivesSize(bar);
    SymbolsSizeAppend(lead, elements);
    SymbolsSizeAppend(lead + elements, trail);
    assert forall p | p in elements :: ElementOf(p).Some?;
    lead + elements + trail
  }

  /**
   * `transformStaffBar`: starts from the flattened elements and inserts the
   * directives at the front one by one (tempo first, start bar line last),
   * then appends the end bar line; the result is BarSymbols whatever the
   * order of the insertions.
   */
  method TransformStaffBar(staffBar: StaffBar) returns (result: seq<LilypondPrimarySymbol>)
    ensures result == BarSymbols(staffBar)
  {
    result := TransformElements(staffBar.primaryElements);
    ghost var elements := result;
    if staffBar.tempo.Some? {
      result := [LilypondPrimarySymbol.Tempo(staffBar.tempo.value)] + result;
    }
    ghost var withTempo := result;
    assert withTempo == Optional(staffBar.tempo, t => LilypondPrimarySymbol.Tempo(t)) + elements;
    if staffBar.key.Some? {
      result := [LilypondPrimarySymbol.Key(staffBar.key.value)] + result;
    }
    ghost var withKey := result;
    assert withKey == Optional(staffBar.key, k => LilypondPrimarySymbol.Key(k)) + withTempo;
    if staffBar.time.Some? {
      result := [LilypondPrimarySymbol.Time(staffBar.time.value)] + result;
    }
    ghost var withTime := result;
    assert withTime == Optional(staffBar.time, t => LilypondPrimarySymbol.Time(t)) + withKey;
    if staffBar.mark.Some? {
      result := [LilypondPrimarySymbol.Mark(staffBar.mark.value)] + result;
    }
    ghost var withMark := result;
    assert withMark == Optional(staffBar.mark, m => LilypondPrimarySymbol.Mark(m)) + withTime;
    result := [LilypondPrimarySymbol.LineBreak(staffBar.breakMode)] + result;
    ghost var withBreak := result;
    if staffBar.startLine.Some? {
      result := [LilypondPrimarySymbol.BarLine(staffBar.startLine.value)] + result;
    }
    assert result == Optional(staffBar.startLine, l => LilypondPrimarySymbol.BarLine(l)) + withBreak;
    LeadingDirectivesThen(staffBar, elements);
    if staffBar.endLine.Some? {
      result := result + [LilypondPrimarySymbol.BarLine(staffBar.endLine.value)];
    }
  }

  /** The leading directives followed by a list, written as the nest of front insertions that builds it. */
  lemma LeadingDirectivesThen(bar: StaffBar, rest: seq<LilypondPrimarySymbol>)
    ensures LeadingDirectives(bar) + rest
         == Optional(bar.startLine, l => LilypondPrimarySymbol.BarLine(l))
            + ([LilypondPrimarySymbol.LineBreak(bar.breakMode)]
            + (Optional(bar.mark, m => LilypondPrimarySymbol.Mark(m))
            + (Optional(bar.time, t => LilypondPrimarySymbol.Time(t))
            + (Optional(bar.key, k => LilypondPrimarySymbol.Key(k))
            + (Optional(bar.tempo, t => LilypondPrimarySymbol.Tempo(t))
            + rest)))))
  {
    var a := Optional(bar.startLine, l => LilypondPrimarySymbol.BarLine(l));
    var b := [LilypondPrimarySymbol.LineBreak(bar.breakMode)];
    var c := Optional(bar.mark, m => LilypondPrimarySymbol.Mark(m));
    var d := Optional(bar.time, t => LilypondPrimarySymbol.Time(t));
    var e := Optional(bar.key, k => LilypondPrimarySymbol.Key(k));
    var f := Optional(bar.tempo, t => LilypondPrimarySymbol.Tempo(t));
    assert LeadingDirectives(bar) == a + b + c + d + e + f;
    assert (a + b + c + d + e + f) + rest == (a + b + c + d + e) + (f + rest);
    assert (a + b + c + d + e) + (f + rest) == (a + b + c + d) + (e + (f + rest));
    assert (a + b + c + d) + (e + (f + rest)) == (a + b + c) + (d + (e + (f + rest)));
    assert (a + b + c) + (d + (e + (f + rest))) == (a + b) + (c + (d + (e + (f + rest))));
  }

  /** Every directive counts 1 towards the size of a bar. */
  lemma DirectivesSize(bar: StaffBar)
    ensures SymbolsSize(LeadingDirectives(bar)) == |LeadingDirectives(bar)|
    ensures SymbolsSize(TrailingDirectives(bar)) == |TrailingDirectives(bar)|
    ensures forall p | p in LeadingDirectives(bar) + TrailingDirectives(bar) :: !p.Relative?
  {
    var lead := LeadingDirectives(bar);
    forall i | 0 <= i < |lead| ensures SymbolSize(lead[i]) == 1 && !lead[i].Relative? {
    }
    UnitSymbolsSize(lead);
    UnitSymbolsSize(TrailingDirectives(bar));
  }

  lemma {:induction false} UnitSymbolsSize(ps: seq<LilypondPrimarySymbol>)
    requires forall i :: 0 <= i < |ps| ==> SymbolSize(ps[i]) == 1
    ensures SymbolsSize(ps) == |ps|
  {
    if ps != [] {
      UnitSymbolsSize(ps[1..]);
    }
  }

  /** `transform(staffBarSequence:)`; it never produces a `Relative` symbol. */
  function TransformNode(n: StaffBarSequenceUnion): (r: seq<LilypondPrimarySymbol>)
    ensures SymbolsSize(r) < NodeSize(n)
    ensures forall p | p in r :: !p.Relative?
    ensures n.VoltaNode? ==> r == [LilypondPrimarySymbol.Volta(n.volta)]
    decreases n
  {
    match n
    case InnerNode(children) => TransformNodes(children)
    case StaffBarNode(bar) => BarSymbols(bar)
    case VoltaNode(v) => [LilypondPrimarySymbol.Volta(v)]
  }

  /** `children.flatMap(transform)`: the transforms of the children, concatenated in order. */
  function TransformNodes(ns: seq<StaffBarSequenceUnion>): (r: seq<LilypondPrimarySymbol>)
    ensures SymbolsSize(r) <= NodesSize(ns)
    ensures forall p | p in r :: !p.Relative?
    decreases ns
  {
    if ns == [] then []
    else
      var first := TransformNode(ns[0]);
      var rest := TransformNodes(ns[1..]);
      SymbolsSizeAppend(first, rest);
      first + rest
  }
}
