/**
 * LilypondRenderer: turns primitives into LilyPond text, threading one
 * LilypondProcessingContext through the whole pass.
 *
 * The functions below are the specification: each renders from a context
 * snapshot and returns the text together with the snapshot afterwards. The
 * class LilypondRenderer holds the context object itself; its methods
 * update it in place and are proved to agree with these functions.
 */
module Renderer {
  import opened MusicModel
  import opened Text
  import opened Symbols
  import opened Transformer
  import opened Tokens
  import opened ProcessingContext

  datatype Rendered = Rendered(text: string, state: ContextState)

  /** The texts of several renderings done one after another, and the context after the last. */
  datatype RenderedList = RenderedList(texts: seq<string>, state: ContextState)

  /** `render(_ key:)`: nothing when the key is the current one; otherwise the `\key` directive, and the key becomes current. */
  function KeyOutput(key: Key, st: ContextState): (r: Rendered)
    ensures r.state == st.(currentKey := key)
    ensures r.text == "" <==> st.currentKey == key
    ensures r.text != "" ==> r.text == KeyDirective(key)
  {
    if st.currentKey == key then Rendered("", st)
    else Rendered(KeyDirective(key), st.(currentKey := key))
  }

  /** `render(_ time:)`: the same suppression rule against the current time signature. */
  function TimeOutput(time: TimeSignature, st: ContextState): (r: Rendered)
    ensures r.state == st.(currentTime := time)
    ensures r.text == "" <==> st.currentTime == time
    ensures r.text != "" ==> r.text == TimeDirective(time)
  {
    if st.currentTime == time then Rendered("", st)
    else Rendered(TimeDirective(time), st.(currentTime := time))
  }

  /** A tuplet's tones and rests, as `transform(staffPrimaryElement:)` turns each of them into a symbol. */
  function ToleSymbols(toneOrRests: seq<PlayedToneOrRest>): (r: seq<LilypondPrimarySymbol>)
    ensures |r| == |toneOrRests|
    ensures SymbolsSize(r) == |toneOrRests|
    ensures forall i :: 0 <= i < |r| ==> r[i] == TransformElement(PlayableElement(ToneOrRest(toneOrRests[i])))[0]
  {
    if toneOrRests == [] then []
    else TransformElement(PlayableElement(ToneOrRest(toneOrRests[0]))) + ToleSymbols(toneOrRests[1..])
  }

  /** `toLilypondString(_ p:)`. */
  function SymbolOutput(p: LilypondPrimarySymbol, st: ContextState): (r: Rendered)
    ensures p.Key? ==> r.state == st.(currentKey := p.key)
    ensures p.Time? ==> r.state == st.(currentTime := p.time)
    ensures p.BarLine? || p.LineBreak? || p.Mark? || p.Rest? || p.Tempo? || p.Tone? ==> r.state == st
    decreases SymbolSize(p), 1, 0
  {
    match p
    case BarLine(b) => Rendered(BarLineString(b), st)
    case Key(k) => KeyOutput(k, st)
    case LineBreak(mode) => Rendered(BreakModeString(mode), st)
    case Mark(mark) => Rendered(MarkString(mark), st)
    case Relative(note, elements) =>
      var inner := SymbolsOutput(TransformElements(elements), st);
      Rendered("\\relative " + NoteString(note) + " { " + inner.text + " }", inner.state)
    case Rest(d) => Rendered(RestString(d, st.currentTime), st)
    case Tempo(t) => Rendered(TempoString(t), st)
    case Time(t) => TimeOutput(t, st)
    case Tole(t) => ToleOutput(t, st)
    case Tone(t) => Rendered(ToneString(t, st.currentTime), st)
    case Volta(v) => VoltaOutput(v.primaryContent, v.alternatives, st)
  }

  /** The symbols rendered one by one, left to right, each from the context the previous one left. */
  function EachOutput(ps: seq<LilypondPrimarySymbol>, st: ContextState): (r: RenderedList)
    ensures |r.texts| == |ps|
    decreases SymbolsSize(ps), 2, |ps|
  {
    if ps == [] then RenderedList([], st)
    else
      var first := SymbolOutput(ps[0], st);
      var rest := EachOutput(ps[1..], first.state);
      RenderedList([first.text] + rest.texts, rest.state)
  }

  /** `render(_ primaries:)`: the texts of EachOutput joined by single spaces. */
  function SymbolsOutput(ps: seq<LilypondPrimarySymbol>, st: ContextState): (r: Rendered)
    ensures ps == [] ==> r == Rendered("", st)
    ensures ps != [] ==> |r.text| == TotalLength(EachOutput(ps, st).texts) + |ps| - 1
    decreases SymbolsSize(ps), 3, 0
  {
    var each := EachOutput(ps, st);
    Rendered(Join(each.texts, " "), each.state)
  }

  /** `render(tole:)`. */
  function ToleOutput(t: NTole, st: ContextState): (r: Rendered)
    ensures |r.text| >= 16
    ensures r.text[..8] == "\\tuplet " && r.text[|r.text| - 2..] == " }"
    decreases ToleSize(t), 0, 0
  {
    var inner := SymbolsOutput(ToleSymbols(t.toneOrRests), st);
    var head := "\\tuplet " + IntToString(t.play);
    var text := head + "/" + IntToString(t.over) + " { " + inner.text + " }";
    assert text[..8] == head[..8];
    Rendered(text, inner.state)
  }

  /** `renderVolta`: the primary first, then the alternatives, all through one context. */
  function VoltaOutput(primary: StaffBarSequence, alternatives: seq<StaffBarSequence>, st: ContextState): (r: Rendered)
    ensures |r.text| >= 37
    ensures r.text[..14] == "\\repeat volta " && r.text[|r.text| - 2..] == " }"
    decreases 1 + SequenceSize(primary) + AlternativesSize(alternatives), 0, 0
  {
    var body := SymbolsOutput(TransformNode(primary.union), st);
    var alts := AlternativesOutput(alternatives, body.state);
    var head := "\\repeat volta " + IntToString(|alternatives|);
    var text := head + " { " + body.text + " }" + "\\alternative { " + Join(alts.texts, " ") + " }";
    assert text[..14] == head[..14];
    Rendered(text, alts.state)
  }

  /** Each alternative flattened, rendered and wrapped in braces, left to right. */
  function AlternativesOutput(alternatives: seq<StaffBarSequence>, st: ContextState): (r: RenderedList)
    ensures |r.texts| == |alternatives|
    decreases AlternativesSize(alternatives), 4, |alternatives|
  {
    if alternatives == [] then RenderedList([], st)
    else
      assert SequenceSize(alternatives[0]) == NodeSize(alternatives[0].union);
      var first := SymbolsOutput(TransformNode(alternatives[0].union), st);
      var rest := AlternativesOutput(alternatives[1..], first.state);
      RenderedList(["{ " + first.text + " }"] + rest.texts, rest.state)
  }

  /** `toLilypondString(sequence:)`. */
  function SequenceOutput(sequence: NamedStaffBarSequence, st: ContextState): (r: Rendered)
    ensures var inner := SymbolsOutput(TransformElements(sequence.primaryElements), st);
      r == Rendered("\\relative c { " + inner.text + " }", inner.state)
  {
    var ps := TransformSequence(sequence);
    assert ps[1..] == [];
    assert EachOutput(ps, st).texts == [SymbolOutput(ps[0], st).text];
    SymbolsOutput(ps, st)
  }

  class LilypondRenderer {
    const context: LilypondProcessingContext

    constructor(context: LilypondProcessingContext)
      ensures this.context == context
    {
      this.context := context;
    }

    /** `toLilypondString(sequence:)`: the whole score as one `\relative c` block. */
    method ToLilypondStringOfSequence(sequence: NamedStaffBarSequence) returns (s: string)
      modifies context
      ensures Rendered(s, context.State()) == SequenceOutput(sequence, old(context.State()))
    {
      var symbols := TransformSequence(sequence);
      s := Render(symbols);
    }

    /** `render(_ primaries:)`: map each symbol to its text, in order, then join with " ". */
    method Render(primaries: seq<LilypondPrimarySymbol>) returns (s: string)
      modifies context
      ensures Rendered(s, context.State()) == SymbolsOutput(primaries, old(context.State()))
      decreases SymbolsSize(primaries), 3, 0
    {
      var texts: seq<string> := [];
      var i := 0;
      while i < |primaries|
        invariant 0 <= i <= |primaries|
        invariant var rest := EachOutput(primaries[i..], context.State());
          EachOutput(primaries, old(context.State())) == RenderedList(texts + rest.texts, rest.state)
      {
        SymbolSizeBound(primaries, i);
        assert primaries[i..][1..] == primaries[i + 1..];
        ghost var before := context.State();
        var text := ToLilypondString(primaries[i]);
        ghost var rest := EachOutput(primaries[i + 1..], context.State());
        assert EachOutput(primaries[i..], before) == RenderedList([text] + rest.texts, rest.state);
        assert (texts + [text]) + rest.texts == texts + ([text] + rest.texts);
        texts := texts + [text];
        i := i + 1;
      }
      assert primaries[i..] == [];
      assert EachOutput(primaries, old(context.State())) == RenderedList(texts, context.State());
      s := Join(texts, " ");
    }

    /** `toLilypondString(_ p:)`. */
    method ToLilypondString(p: LilypondPrimarySymbol) returns (s: string)
      modifies context
      ensures Rendered(s, context.State()) == SymbolOutput(p, old(context.State()))
      decreases SymbolSize(p), 1, 0
    {
      match p
      case BarLine(b) =>
        s := BarLineString(b);
      case Key(k) =>
        s := RenderKey(k);
      case LineBreak(mode) =>
        s := BreakModeString(mode);
      case Mark(mark) =>
        s := MarkString(mark);
      case Relative(note, elements) =>
        ghost var before := context.State();
        var inner := Render(TransformElements(elements));
        s := "\\relative " + NoteString(note) + " { " + inner + " }";
        assert SymbolOutput(p, before) == Rendered(s, context.State());
      case Rest(d) =>
        s := RestString(d, context.currentTime);
      case Tempo(t) =>
        s := TempoString(t);
      case Time(t) =>
        s := RenderTime(t);
      case Tole(t) =>
        s := RenderTole(t);
      case Tone(t) =>
        s := ToneString(t, context.currentTime);
      case Volta(v) =>
        s := RenderVolta(v.primaryContent, v.alternatives);
    }

    /** `render(_ key:)`: writes `currentKey` only, and only when the key differs. */
    method RenderKey(key: Key) returns (s: string)
      modifies context`currentKey
      ensures Rendered(s, context.State()) == KeyOutput(key, old(context.State()))
      ensures old(context.currentKey) == key ==> s == "" && context.currentKey == key
      ensures old(context.currentKey) != key ==> s == KeyDirective(key) && context.currentKey == key
    {
      var currentKey := context.currentKey;
      if currentKey == key {
        return "";
      }
      context.currentKey := key;
      s := KeyDirective(key);
    }

    /** `render(_ time:)`: writes `currentTime` only, and only when the time signature differs. */
    method RenderTime(time: TimeSignature) returns (s: string)
      modifies context`currentTime
      ensures Rendered(s, context.State()) == TimeOutput(time, old(context.State()))
      ensures old(context.currentTime) == time ==> s == "" && context.currentTime == time
      ensures old(context.currentTime) != time ==> s == TimeDirective(time) && context.currentTime == time
    {
      var currentTime := context.currentTime;
      if currentTime == time {
        return "";
      }
      context.currentTime := time;
      s := TimeDirective(time);
    }

    /** `render(tole:)`: `\tuplet P/O { inner }`. */
    method RenderTole(tole: NTole) returns (s: string)
      modifies context
      ensures Rendered(s, context.State()) == ToleOutput(tole, old(context.State()))
      decreases ToleSize(tole), 0, 0
    {
      var innerContent := Render(ToleSymbols(tole.toneOrRests));
      s := "\\tuplet " + IntToString(tole.play) + "/" + IntToString(tole.over) + " { " + innerContent + " }";
    }

    /** `renderVolta`: `\repeat volta N { primary }` immediately followed by `\alternative { {a1} {a2} ... }`. */
    method RenderVolta(primarySequence: StaffBarSequence, alternativeSequences: seq<StaffBarSequence>) returns (s: string)
      modifies context
      ensures Rendered(s, context.State()) == VoltaOutput(primarySequence, alternativeSequences, old(context.State()))
      decreases 1 + SequenceSize(primarySequence) + AlternativesSize(alternativeSequences), 0, 0
    {
      var total := |alternativeSequences|;
      var primaryText := Render(TransformNode(primarySequence.union));
      var primary := "\\repeat volta " + IntToString(total) + " { " + primaryText + " }";
      ghost var afterPrimary := context.State();
      var wrapped: seq<string> := [];
      var i := 0;
      while i < |alternativeSequences|
        invariant 0 <= i <= |alternativeSequences|
        invariant var rest := AlternativesOutput(alternativeSequences[i..], context.State());
          AlternativesOutput(alternativeSequences, afterPrimary) == RenderedList(wrapped + rest.texts, rest.state)
      {
        AlternativeSizeBound(alternativeSequences, i);
        assert alternativeSequences[i..][1..] == alternativeSequences[i + 1..];
        ghost var before := context.State();
        var text := Render(TransformNode(alternativeSequences[i].union));
        ghost var rest := AlternativesOutput(alternativeSequences[i + 1..], context.State());
        assert AlternativesOutput(alternativeSequences[i..], before) == RenderedList(["{ " + text + " }"] + rest.texts, rest.state);
        assert (wrapped + ["{ " + text + " }"]) + rest.texts == wrapped + (["{ " + text + " }"] + rest.texts);
        wrapped := wrapped + ["{ " + text + " }"];
        i := i + 1;
      }
      assert alternativeSequences[i..] == [];
      assert AlternativesOutput(alternativeSequences, afterPrimary) == RenderedList(wrapped, context.State());
      var alternatives := Join(wrapped, " ");
      s := primary + "\\alternative { " + alternatives + " }";
    }
  }
}
