/**
 * The part of the external score model (SftMusicModel) that the LilyPond
 * transformer and renderer read. Only the fields the pipeline looks at are
 * kept; every value is immutable here, as it is in the score model.
 */
module MusicModel {

  datatype Option<+T> = None | Some(value: T)

  /** The seven note letters; `String(describing:)` of one is its lower-case letter. */
  datatype DiatonicNote = C | D | E | F | G | A | B

  datatype ChromaticPitchSymbol = Natural | Flat | Sharp

  datatype ChromaticNoteSymbol = ChromaticNoteSymbol(diatonicNote: DiatonicNote, chromaticPitch: ChromaticPitchSymbol)

  /** The note symbol `.c`: C natural. */
  const CNatural := ChromaticNoteSymbol(C, Natural)

  datatype KeyType = Major | Minor

  datatype Key = Key(tonic: ChromaticNoteSymbol, keyType: KeyType)

  datatype TimeSignature = TimeSignature(length: int, fraction: int)

  /** The duration units; `Eigth` keeps the score model's spelling. */
  datatype MeasureFraction = Whole | Half | Quarter | Eigth | Sixteenth

  datatype NoteDuration = Duration(measureFraction: MeasureFraction, dots: nat)

  datatype MusicalDuration = NoteDuration(duration: NoteDuration) | FullMeasure(count: int)

  datatype Accent = Dot | Dash

  datatype AbsoluteChromaticNote = AbsoluteChromaticNote(note: ChromaticNoteSymbol, octave: int)

  datatype AbsoluteChromaticTone = AbsoluteChromaticTone(note: AbsoluteChromaticNote, duration: MusicalDuration)

  datatype PlayedTone = PlayedTone(tone: AbsoluteChromaticTone, accent: Option<Accent>, hasPreTie: bool, hasPostTie: bool)

  datatype PlayedToneOrRest = Tone(tone: PlayedTone) | Rest(duration: MusicalDuration)

  /** A tuplet: `play` notes in the time of `over`. */
  datatype NTole = NTole(play: int, over: int, toneOrRests: seq<PlayedToneOrRest>)

  datatype Playable = ToneOrRest(toneOrRest: PlayedToneOrRest) | Tole(tole: NTole)

  datatype BarLine = RepeatStart | RepeatEnd | DoubleBar | Normal

  datatype BreakMode = Regular | NoBreak | NewLine

  datatype Tempo = Tempo(min: int, max: Option<int>)

  datatype StaffPrimaryElementUnion =
    | PlayableElement(playable: Playable)
    | BarElement(barLine: BarLine)
    | KeyElement(key: Key)
    | TimeElement(time: TimeSignature)
    | TempoElement(tempo: Tempo)
    | LineBreakElement(mode: BreakMode)
    | MarkElement(mark: string)
    | VoltaElement(volta: Volta)

  /** A repeated section with its alternative endings. */
  datatype Volta = Volta(primaryContent: StaffBarSequence, alternatives: seq<StaffBarSequence>)

  datatype StaffBarSequence = StaffBarSequence(union: StaffBarSequenceUnion)

  datatype StaffBarSequenceUnion =
    | InnerNode(primaries: seq<StaffBarSequenceUnion>)
    | StaffBarNode(bar: StaffBar)
    | VoltaNode(volta: Volta)

  datatype StaffBar = StaffBar(
    primaryElements: seq<StaffPrimaryElementUnion>,
    tempo: Option<Tempo>,
    key: Option<Key>,
    time: Option<TimeSignature>,
    mark: Option<string>,
    breakMode: BreakMode,
    startLine: Option<BarLine>,
    endLine: Option<BarLine>)

  datatype NamedStaffBarSequence = NamedStaffBarSequence(primaryElements: seq<StaffPrimaryElementUnion>)

  // Sizes. They measure how much nested score a value holds and serve as the
  // termination measure of the transform-and-render recursion.

  function ToleSize(t: NTole): nat
  {
    1 + |t.toneOrRests|
  }

  function ElementSize(e: StaffPrimaryElementUnion): (n: nat)
    ensures n >= 1
    decreases e
  {
    match e
    case PlayableElement(Tole(t)) => ToleSize(t)
    case VoltaElement(v) => VoltaSize(v)
    case _ => 1
  }

  function ElementsSize(es: seq<StaffPrimaryElementUnion>): nat
    decreases es
  {
    if es == [] then 0 else ElementSize(es[0]) + ElementsSize(es[1..])
  }

  function VoltaSize(v: Volta): (n: nat)
    ensures n >= 1
    decreases v
  {
    1 + SequenceSize(v.primaryContent) + AlternativesSize(v.alternatives)
  }

  function SequenceSize(s: StaffBarSequence): nat
    decreases s
  {
    NodeSize(s.union)
  }

  function AlternativesSize(alts: seq<StaffBarSequence>): nat
    decreases alts
  {
    if alts == [] then 0 else SequenceSize(alts[0]) + AlternativesSize(alts[1..])
  }

  /** A bar counts 8: one for each of its seven possible directives, one for itself. */
  function NodeSize(n: StaffBarSequenceUnion): nat
    decreases n
  {
    match n
    case InnerNode(children) => 1 + NodesSize(children)
    case StaffBarNode(bar) => 8 + ElementsSize(bar.primaryElements)
    case VoltaNode(v) => 1 + VoltaSize(v)
  }

  function NodesSize(ns: seq<StaffBarSequenceUnion>): nat
    decreases ns
  {
    if ns == [] then 0 else NodeSize(ns[0]) + NodesSize(ns[1..])
  }

  lemma {:induction false} AlternativeSizeBound(alts: seq<StaffBarSequence>, i: nat)
    requires i < |alts|
    ensures SequenceSize(alts[i]) <= AlternativesSize(alts)
    ensures AlternativesSize(alts[i + 1..]) <= AlternativesSize(alts[i..])
  {
    if i > 0 {
      AlternativeSizeBound(alts[1..], i - 1);
      assert alts[1..][i - 1] == alts[i];
      assert alts[1..][i - 1..] == alts[i..];
    }
  }
}
