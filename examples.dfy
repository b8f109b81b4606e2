/**
 * Concrete instances of the renderer's token rules: the duration table,
 * octave marks, full-measure rests, tuplets and voltas.
 */
module Examples {
  import opened MusicModel
  import opened Text
  import opened Symbols
  import opened Tokens
  import opened ProcessingContext
  import opened Renderer
  import opened RenderProperties

  /** Quarter with no dot is "4", eighth with one dot "8.", and so on through the table. */
  lemma DurationTableExamples(time: TimeSignature)
    ensures DurationString(NoteDuration(Duration(Quarter, 0)), time) == "4"
    ensures DurationString(NoteDuration(Duration(Eigth, 1)), time) == "8."
    ensures DurationString(NoteDuration(Duration(Whole, 2)), time) == "1.."
    ensures DurationString(NoteDuration(Duration(Sixteenth, 0)), time) == "16"
  {
    assert Repeat('.', 1) == ".";
    assert Repeat('.', 2) == "..";
    assert NatToString(16) == "1" + "6";
  }

  /** +2 octaves is two apostrophes, -1 one comma, 0 nothing. */
  lemma OctaveExamples()
    ensures OctaveShift(2) == "''"
    ensures OctaveShift(-1) == ","
    ensures OctaveShift(0) == ""
  {
    assert Repeat('\'', 2) == "''";
    assert Repeat(',', 1) == ",";
  }

  /** Under 3/4 a single full-measure rest is `R1*3/4`; two of them append `*2`. */
  lemma FullMeasureExamples()
    ensures RestString(FullMeasure(1), TimeSignature(3, 4)) == "R1*3/4"
    ensures RestString(FullMeasure(2), TimeSignature(3, 4)) == "R1*3/4*2"
  {
  }

  /** A 3:2 tuplet of three notes renders `\tuplet 3/2 { ... }` around exactly its three notes. */
  lemma TupletExample(t: NTole, st: ContextState)
    requires t.play == 3 && t.over == 2 && |t.toneOrRests| == 3
    ensures ToleOutput(t, st).text
         == "\\tuplet " + "3" + "/" + "2" + " { "
            + (ToneOrRestString(t.toneOrRests[0], st.currentTime) + " "
               + ToneOrRestString(t.toneOrRests[1], st.currentTime) + " "
               + ToneOrRestString(t.toneOrRests[2], st.currentTime))
            + " }"
  {
    var inner := seq(|t.toneOrRests|, i requires 0 <= i < |t.toneOrRests| => ToneOrRestString(t.toneOrRests[i], st.currentTime));
    JoinOfThree(inner);
    TupletTag(t);
    ToleShape(t, st);
  }

  lemma JoinOfThree(parts: seq<string>)
    requires |parts| == 3
    ensures Join(parts, " ") == parts[0] + " " + parts[1] + " " + parts[2]
  {
    assert parts == [parts[0]] + [parts[1]] + [parts[2]];
    JoinSnoc([parts[0]], parts[1], " ");
    JoinSnoc([parts[0]] + [parts[1]], parts[2], " ");
  }

  lemma TupletTag(t: NTole)
    requires t.play == 3 && t.over == 2
    ensures "\\tuplet " + IntToString(t.play) + "/" + IntToString(t.over) == "\\tuplet " + "3" + "/" + "2"
  {
  }

  /** A volta with two alternatives is tagged 2 and followed by exactly two braced blocks. */
  lemma VoltaExample(primary: StaffBarSequence, alternatives: seq<StaffBarSequence>, st: ContextState)
    requires |alternatives| == 2
    ensures var body := SymbolsOutput(Transformer.TransformNode(primary.union), st);
      var alts := AlternativesOutput(alternatives, body.state);
      && |alts.texts| == 2
      && VoltaOutput(primary, alternatives, st).text
         == "\\repeat volta " + "2" + " { " + body.text + " }"
            + "\\alternative { " + (alts.texts[0] + " " + alts.texts[1]) + " }"
  {
    var body := SymbolsOutput(Transformer.TransformNode(primary.union), st);
    var alts := AlternativesOutput(alternatives, body.state);
    assert Join(alts.texts, " ") == alts.texts[0] + " " + alts.texts[1] by {
      assert alts.texts == [alts.texts[0]] + [alts.texts[1]];
      JoinSnoc([alts.texts[0]], alts.texts[1], " ");
    }
    assert IntToString(2) == "2";
  }
}
