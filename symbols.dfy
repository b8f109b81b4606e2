/**
 * The LilyPond primitives the transformer produces and the renderer
 * consumes: one case per primary element, plus `Relative`, which carries
 * its elements unflattened, and `Volta` and `Tole`, which keep their
 * nested content whole.
 */
module Symbols {
  import opened MusicModel

  datatype LilypondPrimarySymbol =
    | BarLine(barLine: MusicModel.BarLine)
    | Key(key: MusicModel.Key)
    | LineBreak(mode: BreakMode)
    | Mark(mark: string)
    | Relative(note: ChromaticNoteSymbol, elements: seq<StaffPrimaryElementUnion>)
    | Rest(duration: MusicalDuration)
    | Tempo(tempo: MusicModel.Tempo)
    | Time(time: TimeSignature)
    | Tole(tole: NTole)
    | Tone(tone: PlayedTone)
    | Volta(volta: MusicModel.Volta)

  /** How much nested score a symbol carries; a symbol mirroring an element has that element's size. */
  function SymbolSize(p: LilypondPrimarySymbol): (n: nat)
    ensures n >= 1
  {
    match p
    case Relative(_, elements) => 1 + ElementsSize(elements)
    case Tole(t) => ToleSize(t)
    case Volta(v) => VoltaSize(v)
    case _ => 1
  }

  function SymbolsSize(ps: seq<LilypondPrimarySymbol>): nat
  {
    if ps == [] then 0 else SymbolSize(ps[0]) + SymbolsSize(ps[1..])
  }

  lemma {:induction false} SymbolsSizeAppend(a: seq<LilypondPrimarySymbol>, b: seq<LilypondPrimarySymbol>)
    ensures SymbolsSize(a + b) == SymbolsSize(a) + SymbolsSize(b)
  {
    if a == [] {
      assert a + b == b;
    } else {
      assert (a + b)[1..] == a[1..] + b;
      SymbolsSizeAppend(a[1..], b);
    }
  }

  lemma {:induction false} SymbolSizeBound(ps: seq<LilypondPrimarySymbol>, i: nat)
    requires i < |ps|
    ensures SymbolSize(ps[i]) <= SymbolsSize(ps)
  {
    if i > 0 {
      SymbolSizeBound(ps[1..], i - 1);
    }
  }
}
