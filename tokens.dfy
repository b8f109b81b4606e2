/**
 * The context-free part of LilypondRenderer: the fixed token tables and the
 * renderers that only concatenate them. Renderers that depend on the time
 * signature take it as a parameter; none of them can change the context.
 */
module Tokens {
  import opened MusicModel
  import opened Text

  function BarLineToken(b: BarLine): string
  {
    match b
    case RepeatStart => ".|:-||"
    case RepeatEnd => ":|."
    case DoubleBar => "||"
    case Normal => "|"
  }

  /** `render(_ barLine:)`: a `\bar` directive, padded with a space on both sides. */
  function BarLineString(b: BarLine): (r: string)
    ensures |r| == 9 + |BarLineToken(b)|
    ensures r[0] == ' ' && r[|r| - 1] == ' '
    ensures r[1..7] == "\\bar \"" && r[7..|r| - 2] == BarLineToken(b)
    ensures r[|r| - 2] == '"'
  {
    " \\bar \"" + BarLineToken(b) + "\" "
  }

  /** `render(_ mode: BreakMode)`. */
  function BreakModeString(mode: BreakMode): (r: string)
    ensures r == "" <==> mode == Regular
    ensures mode != Regular ==> r[0] == ' ' && r[|r| - 1] == ' '
    ensures mode == NoBreak ==> r == " \\noBreak "
    ensures mode == NewLine ==> r == " \\break "
  {
    match mode
    case Regular => ""
    case NoBreak => " \\noBreak "
    case NewLine => " \\break "
  }

  /** `renderMark`: the label inside a fixed boxed, bold markup. */
  function MarkString(mark: string): (r: string)
    ensures |r| == |MarkPrefix| + |mark| + 4
    ensures r[..|MarkPrefix|] == MarkPrefix
    ensures r[|MarkPrefix|..|MarkPrefix| + |mark|] == mark
    ensures r[|MarkPrefix| + |mark|..] == "\" } "
  {
    MarkPrefix + mark + "\" } "
  }

  const MarkPrefix := "\\mark \\markup { \\rounded-box \\pad-markup #0.2 \\bold \\large  \""

  /** `String(describing:)` of a diatonic note. */
  function DiatonicLetter(d: DiatonicNote): string
  {
    match d
    case C => "c"
    case D => "d"
    case E => "e"
    case F => "f"
    case G => "g"
    case A => "a"
    case B => "b"
  }

  /** `render(_ pitch: ChromaticPitchSymbol)`. */
  function PitchString(p: ChromaticPitchSymbol): string
  {
    match p
    case Natural => ""
    case Flat => "es"
    case Sharp => "is"
  }

  /** `render(_ note: ChromaticNoteSymbol)`: the letter, then the accidental suffix. */
  function NoteString(note: ChromaticNoteSymbol): (r: string)
    ensures |r| == 1 + (if note.chromaticPitch == Natural then 0 else 2)
    ensures r[..1] == DiatonicLetter(note.diatonicNote) && r[1..] == PitchString(note.chromaticPitch)
  {
    DiatonicLetter(note.diatonicNote) + PitchString(note.chromaticPitch)
  }

  /** `render(_ keyType:)`: the LilyPond mode command. */
  function KeyTypeString(t: KeyType): (r: string)
    ensures |r| == 6 && r[0] == '\\'
    ensures t == Major <==> r == "\\major"
    ensures t == Minor <==> r == "\\minor"
  {
    match t
    case Major => "\\major"
    case Minor => "\\minor"
  }

  /** The `\key` directive emitted when the key actually changes. */
  function KeyDirective(key: Key): (r: string)
    ensures |r| == 7 + |NoteString(key.tonic)| + |KeyTypeString(key.keyType)|
    ensures r[..5] == "\\key " && r[|r| - 1] == ' '
    ensures r[5..5 + |NoteString(key.tonic)|] == NoteString(key.tonic)
    ensures r[5 + |NoteString(key.tonic)|] == ' ' && r[6 + |NoteString(key.tonic)|..|r| - 1] == KeyTypeString(key.keyType)
  {
    "\\key " + NoteString(key.tonic) + " " + KeyTypeString(key.keyType) + " "
  }

  /** "L/F" for a time signature. */
  function MeasureText(time: TimeSignature): string
  {
    IntToString(time.length) + "/" + IntToString(time.fraction)
  }

  /** The `\time` directive emitted when the time signature actually changes. */
  function TimeDirective(time: TimeSignature): (r: string)
    ensures |r| > 6 + |MeasureText(time)|
    ensures r[..6] == "\\time " && r[|r| - 1] == ' '
    ensures r[6..6 + |MeasureText(time)|] == MeasureText(time)
    ensures r[6 + |MeasureText(time)|..] == SpannerPrefix + MeasureText(time) + ") "
  {
    var m := MeasureText(time);
    var rest := SpannerPrefix + m + ") ";
    Framed("\\time ", m, rest);
    "\\time " + (m + rest)
  }

  /** Slicing a three-part concatenation recovers its first two parts. */
  lemma Framed(a: string, m: string, rest: string)
    ensures (a + (m + rest))[..|a|] == a
    ensures (a + (m + rest))[|a|..|a| + |m|] == m
  {
  }

  /** The spanner setting that follows every emitted `\time`, scaled to the same signature. */
  const SpannerPrefix := " \\set Score.voltaSpannerDuration = #(ly:make-moment "


  /** The multiplier of the denominator formula: 1, 1, 1, 2, 4 from whole to sixteenth. */
  function QuarterFraction(m: MeasureFraction): (r: int)
    ensures r in {1, 2, 4}
  {
    match m
    case Whole => 1
    case Half => 1
    case Quarter => 1
    case Eigth => 2
    case Sixteenth => 4
  }

  /** The divisor of the denominator formula; never zero, so the division is defined. */
  function Steps(m: MeasureFraction): (r: int)
    ensures r in {1, 2, 4}
  {
    match m
    case Whole => 4
    case Half => 2
    case Quarter => 1
    case Eigth => 1
    case Sixteenth => 1
  }

  /** The number LilyPond writes for each duration unit: whole 1, half 2, quarter 4, eighth 8, sixteenth 16. */
  function NominalDenominator(m: MeasureFraction): nat
  {
    match m
    case Whole => 1
    case Half => 2
    case Quarter => 4
    case Eigth => 8
    case Sixteenth => 16
  }

  /**
   * `4 * quarterFraction / steps` (the operands are positive, so truncating
   * and Euclidean division agree): the division is exact and yields the
   * nominal denominator of the unit.
   */
  function Denominator(m: MeasureFraction): (d: int)
    ensures d * Steps(m) == 4 * QuarterFraction(m)
    ensures d == NominalDenominator(m)
    ensures d in {1, 2, 4, 8, 16}
  {
    (4 * QuarterFraction(m)) / Steps(m)
  }

  /** `render(_ measureFraction:)`. */
  function MeasureFractionString(m: MeasureFraction): string
  {
    IntToString(Denominator(m))
  }

  /**
   * `render(_ duration: MusicalDuration)`: a note value is its denominator
   * followed by one period per dot; a full measure is `1*L/F` of the current
   * time signature, with `*count` appended only when count exceeds 1.
   */
  function DurationString(d: MusicalDuration, time: TimeSignature): (r: string)
    ensures d.NoteDuration? ==>
      r == IntToString(NominalDenominator(d.duration.measureFraction)) + Repeat('.', d.duration.dots)
    ensures d.FullMeasure? && d.count <= 1 ==> r == "1*" + MeasureText(time)
    ensures d.FullMeasure? && d.count > 1 ==> r == "1*" + MeasureText(time) + "*" + IntToString(d.count)
    ensures |r| >= 1
  {
    match d
    case NoteDuration(nd) => MeasureFractionString(nd.measureFraction) + Repeat('.', nd.dots)
    case FullMeasure(count) =>
      "1*" + MeasureText(time) + (if count > 1 then "*" + IntToString(count) else "")
  }

  /** `renderRest`: `r` before a note value, `R` before a full measure. */
  function RestString(d: MusicalDuration, time: TimeSignature): (r: string)
    ensures |r| >= 2
    ensures r[0] == (if d.NoteDuration? then 'r' else 'R')
    ensures r[1..] == DurationString(d, time)
  {
    match d
    case NoteDuration(_) => "r" + DurationString(d, time)
    case FullMeasure(_) => "R" + DurationString(d, time)
  }

  /** `render(_ tempo:)`: the minimum, then " - max" when a maximum is given. */
  function TempoString(tempo: Tempo): (r: string)
    ensures |r| >= |TempoPrefix + IntToString(tempo.min)|
    ensures r[..|TempoPrefix + IntToString(tempo.min)|] == TempoPrefix + IntToString(tempo.min)
    ensures tempo.max.None? ==> |r| == |TempoPrefix + IntToString(tempo.min)|
    ensures tempo.max.Some? ==> r[|TempoPrefix + IntToString(tempo.min)|..] == " - " + IntToString(tempo.max.value)
  {
    var result := TempoPrefix + IntToString(tempo.min);
    match tempo.max
    case None => result
    case Some(to) => result + " - " + IntToString(to)
  }

  /** A tempo directive always sets the quarter-note rate. */
  const TempoPrefix := "\\tempo 4 = "

  function Abs(n: int): nat
  {
    if n < 0 then -n else n
  }

  /** `octaveShift`: one apostrophe per octave up, one comma per octave down. */
  function OctaveShift(octave: int): (r: string)
    ensures |r| == Abs(octave)
    ensures octave > 0 ==> forall i :: 0 <= i < |r| ==> r[i] == '\''
    ensures octave < 0 ==> forall i :: 0 <= i < |r| ==> r[i] == ','
  {
    if octave > 0 then Repeat('\'', octave)
    else if octave < 0 then Repeat(',', -octave)
    else ""
  }

  /** The octave can be read back from the marks: apostrophes minus commas. */
  lemma OctaveShiftInverse(octave: int)
    ensures Occurrences('\'', OctaveShift(octave)) - Occurrences(',', OctaveShift(octave)) == octave
  {
    if octave > 0 {
      OccurrencesOfRepeat('\'', '\'', octave);
      OccurrencesOfRepeat(',', '\'', octave);
    } else if octave < 0 {
      OccurrencesOfRepeat('\'', ',', -octave);
      OccurrencesOfRepeat(',', ',', -octave);
    }
  }

  /** `render(_ accent: Accent?)`. */
  function AccentString(accent: Option<Accent>): (r: string)
    ensures |r| == (if accent.None? then 0 else 2)
    ensures accent.Some? ==> r[0] == '-' && r[1] == (if accent.value == Dot then '.' else '-')
  {
    match accent
    case None => ""
    case Some(Dot) => "-."
    case Some(Dash) => "--"
  }

  /** `render(_ note: AbsoluteChromaticNote)`: pitch, then octave marks. */
  function AbsoluteNoteString(note: AbsoluteChromaticNote): string
  {
    NoteString(note.note) + OctaveShift(note.octave)
  }

  /** `render(_ tone: AbsoluteChromaticTone)`: the note, then its duration. */
  function AbsoluteToneString(tone: AbsoluteChromaticTone, time: TimeSignature): string
  {
    AbsoluteNoteString(tone.note) + DurationString(tone.duration, time)
  }

  /**
   * `render(_ playedTone:)`: letter, accidental, octave marks, duration,
   * accent, `~` when tied to the next tone, `\repeatTie` when tied from the
   * previous one.
   */
  function ToneString(pt: PlayedTone, time: TimeSignature): (r: string)
    ensures r == NoteString(pt.tone.note.note) + OctaveShift(pt.tone.note.octave)
                 + DurationString(pt.tone.duration, time) + AccentString(pt.accent)
                 + (if pt.hasPostTie then "~" else "") + (if pt.hasPreTie then "\\repeatTie" else "")
  {
    AbsoluteToneString(pt.tone, time)
    + AccentString(pt.accent)
    + (if pt.hasPostTie then "~" else "")
    + (if pt.hasPreTie then "\\repeatTie" else "")
  }

  /** Only a full-measure duration makes a tone's text depend on the time signature. */
  lemma ToneStringTimeIndependent(pt: PlayedTone, t1: TimeSignature, t2: TimeSignature)
    requires pt.tone.duration.NoteDuration?
    ensures ToneString(pt, t1) == ToneString(pt, t2)
  {
  }
}
