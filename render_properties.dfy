/**
 * What the renderer promises beyond the text of each single symbol: the
 * context changes only through key and time directives, a repeated key or
 * time signature is emitted at most once, lists are rendered left to right
 * through one context, and tuplets and voltas have the promised shape.
 */
module RenderProperties {
  import opened MusicModel
  import opened Text
  import opened Symbols
  import opened Transformer
  import opened TransformerProperties
  import opened Tokens
  import opened ProcessingContext
  import opened Renderer

  // ---------------------------------------------------------------------
  // Key and time suppression

  /** Rendering the same key twice in a row emits the `\key` directive at most once. */
  lemma KeyRepeatSuppressed(key: Key, st: ContextState)
    ensures var first := KeyOutput(key, st);
      && first.text == (if st.currentKey == key then "" else KeyDirective(key))
      && first.state == st.(currentKey := key)
      && KeyOutput(key, first.state) == Rendered("", first.state)
  {
  }

  /** Rendering the same time signature twice in a row emits the `\time` directive at most once. */
  lemma TimeRepeatSuppressed(time: TimeSignature, st: ContextState)
    ensures var first := TimeOutput(time, st);
      && first.text == (if st.currentTime == time then "" else TimeDirective(time))
      && first.state == st.(currentTime := time)
      && TimeOutput(time, first.state) == Rendered("", first.state)
  {
  }

  /** On a fresh context the first C major or 1/4 renders as nothing; any other key or time is emitted. */
  lemma FreshContextDefaults(key: Key, time: TimeSignature)
    ensures KeyOutput(key, FreshState).text == (if key == Key.Key(CNatural, Major) then "" else KeyDirective(key))
    ensures TimeOutput(time, FreshState).text == (if time == TimeSignature(1, 4) then "" else TimeDirective(time))
  {
  }

  // ---------------------------------------------------------------------
  // Lists: left to right, one space between neighbours

  /** Rendering a concatenation renders the first part, then the second from the context the first left. */
  lemma {:induction false} EachOutputAppend(a: seq<LilypondPrimarySymbol>, b: seq<LilypondPrimarySymbol>, st: ContextState)
    ensures var first := EachOutput(a, st);
      var second := EachOutput(b, first.state);
      EachOutput(a + b, st) == RenderedList(first.texts + second.texts, second.state)
    decreases |a|
  {
    if a == [] {
      assert a + b == b;
    } else {
      var head := SymbolOutput(a[0], st);
      assert (a + b)[0] == a[0];
      assert (a + b)[1..] == a[1..] + b;
      EachOutputAppend(a[1..], b, head.state);
      var tail := EachOutput(a[1..] + b, head.state);
      assert EachOutput(a + b, st) == RenderedList([head.text] + tail.texts, tail.state);
      assert EachOutput(a, st).texts == [head.text] + EachOutput(a[1..], head.state).texts;
    }
  }

  /** The context in force when the m-th symbol of a list is rendered. */
  function StateBefore(ps: seq<LilypondPrimarySymbol>, st: ContextState, m: nat): ContextState
    requires m <= |ps|
  {
    EachOutput(ps[..m], st).state
  }

  /** The m-th text of a list is the m-th symbol rendered from the context the earlier ones left. */
  lemma EachOutputAt(ps: seq<LilypondPrimarySymbol>, st: ContextState, m: nat)
    requires m < |ps|
    ensures EachOutput(ps, st).texts[m] == SymbolOutput(ps[m], StateBefore(ps, st, m)).text
    ensures StateBefore(ps, st, m + 1) == SymbolOutput(ps[m], StateBefore(ps, st, m)).state
  {
    assert ps == ps[..m] + ps[m..];
    EachOutputAppend(ps[..m], ps[m..], st);
    assert ps[m..][0] == ps[m];
    assert ps[..m + 1] == ps[..m] + [ps[m]];
    EachOutputAppend(ps[..m], [ps[m]], st);
    assert [ps[m]][1..] == [];
  }

  // ---------------------------------------------------------------------
  // The context changes only through key and time directives

  datatype Directives = Directives(keys: set<Key>, times: set<TimeSignature>)
  {
    function Union(other: Directives): Directives
    {
      Directives(keys + other.keys, times + other.times)
    }
  }

  const NoDirectives := Directives({}, {})

  /** The keys and time signatures a symbol can emit, its nested content included. */
  function SymbolDirectives(p: LilypondPrimarySymbol): Directives
    decreases SymbolSize(p), 1, 0
  {
    match p
    case Key(k) => Directives({k}, {})
    case Time(t) => Directives({}, {t})
    case Relative(_, elements) => SymbolsDirectives(TransformElements(elements))
    case Tole(t) => SymbolsDirectives(ToleSymbols(t.toneOrRests))
    case Volta(v) => VoltaDirectives(v.primaryContent, v.alternatives)
    case _ => NoDirectives
  }

  function SymbolsDirectives(ps: seq<LilypondPrimarySymbol>): Directives
    decreases SymbolsSize(ps), 2, |ps|
  {
    if ps == [] then NoDirectives else SymbolDirectives(ps[0]).Union(SymbolsDirectives(ps[1..]))
  }

  function VoltaDirectives(primary: StaffBarSequence, alternatives: seq<StaffBarSequence>): Directives
    decreases 1 + SequenceSize(primary) + AlternativesSize(alternatives), 0, 0
  {
    SymbolsDirectives(TransformNode(primary.union)).Union(AlternativesDirectives(alternatives))
  }

  function AlternativesDirectives(alternatives: seq<StaffBarSequence>): Directives
    decreases AlternativesSize(alternatives), 4, |alternatives|
  {
    if alternatives == [] then NoDirectives
    else
      assert SequenceSize(alternatives[0]) == NodeSize(alternatives[0].union);
      SymbolsDirectives(TransformNode(alternatives[0].union)).Union(AlternativesDirectives(alternatives[1..]))
  }

  /** Each field of `after` is either that of `before` or one of the values d can emit. */
  predicate Within(after: ContextState, before: ContextState, d: Directives)
  {
    && (after.currentKey == before.currentKey || after.currentKey in d.keys)
    && (after.currentTime == before.currentTime || after.currentTime in d.times)
  }

  lemma {:induction false} SymbolStaysWithin(p: LilypondPrimarySymbol, st: ContextState)
    ensures Within(SymbolOutput(p, st).state, st, SymbolDirectives(p))
    decreases SymbolSize(p), 1, 0
  {
    match p
    case Relative(_, elements) => EachStaysWithin(TransformElements(elements), st);
    case Tole(t) =>
      EachStaysWithin(ToleSymbols(t.toneOrRests), st);
      assert SymbolOutput(p, st).state == SymbolsOutput(ToleSymbols(t.toneOrRests), st).state;
    case Volta(v) => VoltaStaysWithin(v.primaryContent, v.alternatives, st);
    case _ =>
  }

  lemma {:induction false} EachStaysWithin(ps: seq<LilypondPrimarySymbol>, st: ContextState)
    ensures Within(EachOutput(ps, st).state, st, SymbolsDirectives(ps))
    decreases SymbolsSize(ps), 2, |ps|
  {
    if ps != [] {
      SymbolStaysWithin(ps[0], st);
      EachStaysWithin(ps[1..], SymbolOutput(ps[0], st).state);
    }
  }

  lemma {:induction false} VoltaStaysWithin(primary: StaffBarSequence, alternatives: seq<StaffBarSequence>, st: ContextState)
    ensures Within(VoltaOutput(primary, alternatives, st).state, st, VoltaDirectives(primary, alternatives))
    decreases 1 + SequenceSize(primary) + AlternativesSize(alternatives), 0, 0
  {
    var body := SymbolsOutput(TransformNode(primary.union), st);
    EachStaysWithin(TransformNode(primary.union), st);
    AlternativesStayWithin(alternatives, body.state);
  }

  lemma {:induction false} AlternativesStayWithin(alternatives: seq<StaffBarSequence>, st: ContextState)
    ensures Within(AlternativesOutput(alternatives, st).state, st, AlternativesDirectives(alternatives))
    decreases AlternativesSize(alternatives), 4, |alternatives|
  {
    if alternatives != [] {
      assert SequenceSize(alternatives[0]) == NodeSize(alternatives[0].union);
      var symbols := TransformNode(alternatives[0].union);
      EachStaysWithin(symbols, st);
      AlternativesStayWithin(alternatives[1..], SymbolsOutput(symbols, st).state);
    }
  }

  /**
   * `currentKey` is written only by the key renderer and `currentTime` only
   * by the time renderer: after rendering a list each field holds its old
   * value or a value that occurs in the list, and it is unchanged when the
   * list holds no such directive.
   */
  lemma ContextChangesOnlyThroughDirectives(ps: seq<LilypondPrimarySymbol>, st: ContextState)
    ensures var after := SymbolsOutput(ps, st).state;
      && (after.currentKey == st.currentKey || after.currentKey in SymbolsDirectives(ps).keys)
      && (after.currentTime == st.currentTime || after.currentTime in SymbolsDirectives(ps).times)
    ensures SymbolsDirectives(ps).keys == {} ==> SymbolsOutput(ps, st).state.currentKey == st.currentKey
    ensures SymbolsDirectives(ps).times == {} ==> SymbolsOutput(ps, st).state.currentTime == st.currentTime
  {
    EachStaysWithin(ps, st);
  }

  /**
   * A key directive that repeats the last key of a list, with nothing in
   * between that can set another key, renders as nothing: the key is
   * emitted at most once.
   */
  lemma RepeatedKeySuppressed(ps: seq<LilypondPrimarySymbol>, st: ContextState, i: nat, j: nat)
    requires i < j < |ps|
    requires ps[i].Key? && ps[j] == ps[i]
    requires forall m :: i < m < j ==> SymbolDirectives(ps[m]).keys <= {ps[i].key}
    ensures EachOutput(ps, st).texts[i] in {"", KeyDirective(ps[i].key)}
    ensures EachOutput(ps, st).texts[j] == ""
  {
    EachOutputAt(ps, st, i);
    KeyKept(ps, st, i + 1, j, ps[i].key);
    EachOutputAt(ps, st, j);
  }

  /** Once the key is k, symbols that can set no key but k leave it at k. */
  lemma KeyKept(ps: seq<LilypondPrimarySymbol>, st: ContextState, lo: nat, hi: nat, k: Key)
    requires lo <= hi <= |ps|
    requires StateBefore(ps, st, lo).currentKey == k
    requires forall m :: lo <= m < hi ==> SymbolDirectives(ps[m]).keys <= {k}
    ensures StateBefore(ps, st, hi).currentKey == k
  {
    var m := lo;
    while m < hi
      invariant lo <= m <= hi
      invariant StateBefore(ps, st, m).currentKey == k
    {
      EachOutputAt(ps, st, m);
      SymbolStaysWithin(ps[m], StateBefore(ps, st, m));
      m := m + 1;
    }
  }

  /** The same for a repeated time signature. */
  lemma RepeatedTimeSuppressed(ps: seq<LilypondPrimarySymbol>, st: ContextState, i: nat, j: nat)
    requires i < j < |ps|
    requires ps[i].Time? && ps[j] == ps[i]
    requires forall m :: i < m < j ==> SymbolDirectives(ps[m]).times <= {ps[i].time}
    ensures EachOutput(ps, st).texts[i] in {"", TimeDirective(ps[i].time)}
    ensures EachOutput(ps, st).texts[j] == ""
  {
    EachOutputAt(ps, st, i);
    TimeKept(ps, st, i + 1, j, ps[i].time);
    EachOutputAt(ps, st, j);
  }

  /** Once the time signature is t, symbols that can set no time signature but t leave it at t. */
  lemma TimeKept(ps: seq<LilypondPrimarySymbol>, st: ContextState, lo: nat, hi: nat, t: TimeSignature)
    requires lo <= hi <= |ps|
    requires StateBefore(ps, st, lo).currentTime == t
    requires forall m :: lo <= m < hi ==> SymbolDirectives(ps[m]).times <= {t}
    ensures StateBefore(ps, st, hi).currentTime == t
  {
    var m := lo;
    while m < hi
      invariant lo <= m <= hi
      invariant StateBefore(ps, st, m).currentTime == t
    {
      EachOutputAt(ps, st, m);
      SymbolStaysWithin(ps[m], StateBefore(ps, st, m));
      m := m + 1;
    }
  }

  // ---------------------------------------------------------------------
  // Tuplets

  /** A tuplet's inner tone or rest, as the renderer writes it. */
  function ToneOrRestString(x: PlayedToneOrRest, time: TimeSignature): string
  {
    match x
    case Tone(t) => ToneString(t, time)
    case Rest(d) => RestString(d, time)
  }

  lemma {:induction false} ToneOrRestSymbols(trs: seq<PlayedToneOrRest>, st: ContextState)
    ensures EachOutput(ToleSymbols(trs), st).state == st
    ensures forall i :: 0 <= i < |trs| ==> EachOutput(ToleSymbols(trs), st).texts[i] == ToneOrRestString(trs[i], st.currentTime)
  {
    if trs != [] {
      var ps := ToleSymbols(trs);
      assert ps[1..] == ToleSymbols(trs[1..]);
      assert SymbolOutput(ps[0], st) == Rendered(ToneOrRestString(trs[0], st.currentTime), st) by {
        match trs[0]
        case Tone(_) =>
        case Rest(_) =>
      }
      ToneOrRestSymbols(trs[1..], st);
      var r := EachOutput(ps, st);
      assert r.texts[1..] == EachOutput(ToleSymbols(trs[1..]), st).texts;
      forall i | 1 <= i < |trs|
        ensures r.texts[i] == ToneOrRestString(trs[i], st.currentTime)
      {
        assert r.texts[i] == r.texts[1..][i - 1];
        assert trs[1..][i - 1] == trs[i];
      }
    }
  }

  /**
   * A tuplet renders `\tuplet P/O { ... }` around its tones and rests, each
   * rendered in order from the same context and joined by single spaces;
   * the context is left unchanged.
   */
  lemma ToleShape(t: NTole, st: ContextState)
    ensures var inner := seq(|t.toneOrRests|, i requires 0 <= i < |t.toneOrRests| => ToneOrRestString(t.toneOrRests[i], st.currentTime));
      ToleOutput(t, st) == Rendered("\\tuplet " + IntToString(t.play) + "/" + IntToString(t.over) + " { " + Join(inner, " ") + " }", st)
  {
    var inner := seq(|t.toneOrRests|, i requires 0 <= i < |t.toneOrRests| => ToneOrRestString(t.toneOrRests[i], st.currentTime));
    ToneOrRestSymbols(t.toneOrRests, st);
    var each := EachOutput(ToleSymbols(t.toneOrRests), st);
    assert each.texts == inner;
    assert SymbolsOutput(ToleSymbols(t.toneOrRests), st) == Rendered(Join(inner, " "), st);
  }

  // ---------------------------------------------------------------------
  // Voltas

  /**
   * The i-th alternative block is that alternative, flattened and rendered
   * from the context the earlier alternatives left, wrapped in `{ }`.
   */
  lemma {:induction false} AlternativeBlockAt(alternatives: seq<StaffBarSequence>, st: ContextState, i: nat)
    requires i < |alternatives|
    ensures AlternativesOutput(alternatives, st).texts[i]
         == "{ " + SymbolsOutput(TransformNode(alternatives[i].union), AlternativesOutput(alternatives[..i], st).state).text + " }"
    decreases i
  {
    var first := SymbolsOutput(TransformNode(alternatives[0].union), st);
    if i == 0 {
      assert alternatives[..0] == [];
    } else {
      AlternativeBlockAt(alternatives[1..], first.state, i - 1);
      assert alternatives[1..][i - 1] == alternatives[i];
      assert alternatives[..i][0] == alternatives[0];
      assert alternatives[..i][1..] == alternatives[1..][..i - 1];
    }
  }

  /**
   * A volta renders `\repeat volta N { primary }` with N the number of
   * alternatives, immediately followed by one `\alternative` group of N
   * blocks; the primary is rendered first, from the incoming context.
   */
  lemma VoltaShape(primary: StaffBarSequence, alternatives: seq<StaffBarSequence>, st: ContextState)
    ensures var body := SymbolsOutput(TransformNode(primary.union), st);
      var blocks := seq(|alternatives|, i requires 0 <= i < |alternatives| =>
        "{ " + SymbolsOutput(TransformNode(alternatives[i].union), AlternativesOutput(alternatives[..i], body.state).state).text + " }");
      VoltaOutput(primary, alternatives, st).text
      == "\\repeat volta " + IntToString(|alternatives|) + " { " + body.text + " }"
         + "\\alternative { " + Join(blocks, " ") + " }"
    ensures var body := SymbolsOutput(TransformNode(primary.union), st);
      var n := |alternatives|;
      VoltaOutput(primary, alternatives, st).state
      == if n == 0 then body.state
         else SymbolsOutput(TransformNode(alternatives[n - 1].union), AlternativesOutput(alternatives[..n - 1], body.state).state).state
  {
    var body := SymbolsOutput(TransformNode(primary.union), st);
    var alts := AlternativesOutput(alternatives, body.state);
    var blocks := seq(|alternatives|, i requires 0 <= i < |alternatives| =>
      "{ " + SymbolsOutput(TransformNode(alternatives[i].union), AlternativesOutput(alternatives[..i], body.state).state).text + " }");
    forall i | 0 <= i < |alternatives|
      ensures alts.texts[i] == blocks[i]
    {
      AlternativeBlockAt(alternatives, body.state, i);
    }
    assert alts.texts == blocks;
    var n := |alternatives|;
    if n > 0 {
      AlternativesOutputAppend(alternatives[..n - 1], [alternatives[n - 1]], body.state);
      assert alternatives[..n - 1] + [alternatives[n - 1]] == alternatives;
    }
  }

  /**
   * A key set in the primary part of a volta, with nothing after it in the
   * primary and nothing in the earlier alternatives that can set another
   * key, is still in force in every later alternative: the same key there,
   * reached with nothing before it that sets another key, renders as nothing.
   */
  lemma VoltaRepeatedKeySuppressed(primary: StaffBarSequence, alternatives: seq<StaffBarSequence>, st: ContextState,
                                   k: Key, i: nat, a: nat, j: nat)
    requires var ps := TransformNode(primary.union);
      && i < |ps| && ps[i] == LilypondPrimarySymbol.Key(k)
      && forall m :: i < m < |ps| ==> SymbolDirectives(ps[m]).keys <= {k}
    requires a < |alternatives| && AlternativesDirectives(alternatives[..a]).keys <= {k}
    requires var qs := TransformNode(alternatives[a].union);
      && j < |qs| && qs[j] == LilypondPrimarySymbol.Key(k)
      && forall m :: 0 <= m < j ==> SymbolDirectives(qs[m]).keys <= {k}
    ensures var body := SymbolsOutput(TransformNode(primary.union), st);
      EachOutput(TransformNode(alternatives[a].union), AlternativesOutput(alternatives[..a], body.state).state).texts[j] == ""
  {
    var ps := TransformNode(primary.union);
    var body := SymbolsOutput(ps, st);
    EachOutputAt(ps, st, i);
    KeyKept(ps, st, i + 1, |ps|, k);
    assert ps[..|ps|] == ps;
    AlternativesStayWithin(alternatives[..a], body.state);
    var before := AlternativesOutput(alternatives[..a], body.state).state;
    var qs := TransformNode(alternatives[a].union);
    assert qs[..0] == [];
    KeyKept(qs, before, 0, j, k);
    EachOutputAt(qs, before, j);
  }

  /** The same for a time signature set in the primary part and repeated in a later alternative. */
  lemma VoltaRepeatedTimeSuppressed(primary: StaffBarSequence, alternatives: seq<StaffBarSequence>, st: ContextState,
                                    t: TimeSignature, i: nat, a: nat, j: nat)
    requires var ps := TransformNode(primary.union);
      && i < |ps| && ps[i] == LilypondPrimarySymbol.Time(t)
      && forall m :: i < m < |ps| ==> SymbolDirectives(ps[m]).times <= {t}
    requires a < |alternatives| && AlternativesDirectives(alternatives[..a]).times <= {t}
    requires var qs := TransformNode(alternatives[a].union);
      && j < |qs| && qs[j] == LilypondPrimarySymbol.Time(t)
      && forall m :: 0 <= m < j ==> SymbolDirectives(qs[m]).times <= {t}
    ensures var body := SymbolsOutput(TransformNode(primary.union), st);
      EachOutput(TransformNode(alternatives[a].union), AlternativesOutput(alternatives[..a], body.state).state).texts[j] == ""
  {
    var ps := TransformNode(primary.union);
    var body := SymbolsOutput(ps, st);
    EachOutputAt(ps, st, i);
    TimeKept(ps, st, i + 1, |ps|, t);
    assert ps[..|ps|] == ps;
    AlternativesStayWithin(alternatives[..a], body.state);
    var before := AlternativesOutput(alternatives[..a], body.state).state;
    var qs := TransformNode(alternatives[a].union);
    assert qs[..0] == [];
    TimeKept(qs, before, 0, j, t);
    EachOutputAt(qs, before, j);
  }

  /** Rendering the alternatives of a concatenation renders the first part, then the second from the context the first left. */
  lemma {:induction false} AlternativesOutputAppend(a: seq<StaffBarSequence>, b: seq<StaffBarSequence>, st: ContextState)
    ensures var first := AlternativesOutput(a, st);
      var second := AlternativesOutput(b, first.state);
      AlternativesOutput(a + b, st) == RenderedList(first.texts + second.texts, second.state)
    decreases |a|
  {
    if a == [] {
      assert a + b == b;
    } else {
      var head := SymbolsOutput(TransformNode(a[0].union), st);
      assert (a + b)[0] == a[0];
      assert (a + b)[1..] == a[1..] + b;
      AlternativesOutputAppend(a[1..], b, head.state);
      var tail := AlternativesOutput(a[1..] + b, head.state);
      assert AlternativesOutput(a + b, st) == RenderedList(["{ " + head.text + " }"] + tail.texts, tail.state);
      var rest := AlternativesOutput(a[1..], head.state);
      assert AlternativesOutput(a, st) == RenderedList(["{ " + head.text + " }"] + rest.texts, rest.state);
      var second := AlternativesOutput(b, rest.state);
      assert ["{ " + head.text + " }"] + (rest.texts + second.texts) == (["{ " + head.text + " }"] + rest.texts) + second.texts;
    }
  }

  // ---------------------------------------------------------------------
  // Two bars in the same key

  lemma {:induction false} ToneOrRestDirectives(trs: seq<PlayedToneOrRest>)
    ensures SymbolsDirectives(ToleSymbols(trs)) == NoDirectives
  {
    if trs != [] {
      var ps := ToleSymbols(trs);
      assert ps[1..] == ToleSymbols(trs[1..]);
      ToneOrRestDirectives(trs[1..]);
    }
  }

  /** Where a bar's key directive sits: after start bar line, line break, mark and time. */
  function KeyIndex(bar: StaffBar): nat
  {
    Present(bar.startLine) + 1 + Present(bar.mark) + Present(bar.time)
  }

  /** A bar's key directive sits at KeyIndex among its leading directives. */
  lemma KeyPosition(bar: StaffBar, k: Key)
    requires bar.key == Some(k)
    ensures KeyIndex(bar) < |LeadingDirectives(bar)|
    ensures LeadingDirectives(bar)[KeyIndex(bar)] == LilypondPrimarySymbol.Key(k)
    ensures BarSymbols(bar)[KeyIndex(bar)] == LilypondPrimarySymbol.Key(k)
  {
    var before := Optional(bar.startLine, l => LilypondPrimarySymbol.BarLine(l))
      + [LilypondPrimarySymbol.LineBreak(bar.breakMode)]
      + Optional(bar.mark, m => LilypondPrimarySymbol.Mark(m))
      + Optional(bar.time, t => LilypondPrimarySymbol.Time(t));
    var lead := before + [LilypondPrimarySymbol.Key(k)] + Optional(bar.tempo, t => LilypondPrimarySymbol.Tempo(t));
    assert lead == LeadingDirectives(bar);
    assert lead[|before|] == LilypondPrimarySymbol.Key(k);
    assert BarSymbols(bar) == lead + TransformElements(bar.primaryElements) + TrailingDirectives(bar);
  }

  /** The only key a bar's leading directives can set is the bar's own key. */
  lemma LeadingKeys(bar: StaffBar, k: Key)
    requires bar.key.Some? ==> bar.key == Some(k)
    ensures forall p | p in LeadingDirectives(bar) :: SymbolDirectives(p).keys <= {k}
  {
    LeadingDirectivesMembers(bar);
  }

  /** Elements with no volta and no change to another key can set no key but k. */
  lemma ElementKeys(es: seq<StaffPrimaryElementUnion>, k: Key)
    requires forall e | e in es :: !e.VoltaElement? && (e.KeyElement? ==> e.key == k)
    ensures forall p | p in TransformElements(es) :: SymbolDirectives(p).keys <= {k}
  {
    var elements := TransformElements(es);
    forall p | p in elements
      ensures SymbolDirectives(p).keys <= {k}
    {
      var i :| 0 <= i < |elements| && elements[i] == p;
      assert ElementOf(p) == Some(es[i]);
      assert es[i] in es;
      if p.Tole? {
        ToneOrRestDirectives(p.tole.toneOrRests);
      }
    }
  }

  /** Every symbol of a bar whose own key is k and whose elements change the key to k at most can only set the key to k. */
  lemma BarKeys(bar: StaffBar, k: Key)
    requires bar.key == Some(k)
    requires forall e | e in bar.primaryElements :: !e.VoltaElement? && (e.KeyElement? ==> e.key == k)
    ensures forall p | p in BarSymbols(bar) :: SymbolDirectives(p).keys <= {k}
  {
    LeadingKeys(bar, k);
    ElementKeys(bar.primaryElements, k);
    var trail := TrailingDirectives(bar);
    assert forall p | p in trail :: p.BarLine?;
    assert BarSymbols(bar) == LeadingDirectives(bar) + TransformElements(bar.primaryElements) + trail;
  }

  /**
   * Two consecutive bars that both declare key k, the first with no volta
   * and no change to another key among its elements: the second bar's
   * `\key` renders as nothing, whatever the context the pair starts from.
   */
  lemma ConsecutiveBarsKeyOnce(first: StaffBar, second: StaffBar, k: Key, st: ContextState)
    requires first.key == Some(k) && second.key == Some(k)
    requires forall e | e in first.primaryElements :: !e.VoltaElement? && (e.KeyElement? ==> e.key == k)
    ensures var ps := BarSymbols(first) + BarSymbols(second);
      && KeyIndex(first) < |BarSymbols(first)|
      && |BarSymbols(first)| + KeyIndex(second) < |ps|
      && EachOutput(ps, st).texts[KeyIndex(first)] in {"", KeyDirective(k)}
      && EachOutput(ps, st).texts[|BarSymbols(first)| + KeyIndex(second)] == ""
  {
    var ps := BarSymbols(first) + BarSymbols(second);
    KeyPosition(first, k);
    KeyPosition(second, k);
    BetweenTwoKeys(first, second, k);
    RepeatedKeySuppressed(ps, st, KeyIndex(first), |BarSymbols(first)| + KeyIndex(second));
  }

  /** Between the key directives of two consecutive bars with key k, nothing can set another key. */
  lemma BetweenTwoKeys(first: StaffBar, second: StaffBar, k: Key)
    requires first.key == Some(k) && second.key == Some(k)
    requires forall e | e in first.primaryElements :: !e.VoltaElement? && (e.KeyElement? ==> e.key == k)
    ensures var ps := BarSymbols(first) + BarSymbols(second);
      forall m :: KeyIndex(first) < m < |BarSymbols(first)| + KeyIndex(second) && m < |ps| ==> SymbolDirectives(ps[m]).keys <= {k}
  {
    var s1 := BarSymbols(first);
    var s2 := BarSymbols(second);
    var ps := s1 + s2;
    KeyPosition(second, k);
    BarKeys(first, k);
    LeadingKeys(second, k);
    var lead2 := LeadingDirectives(second);
    BarStartsWithLead(second);
    forall m | KeyIndex(first) < m < |s1| + KeyIndex(second) && m < |ps|
      ensures SymbolDirectives(ps[m]).keys <= {k}
    {
      if m < |s1| {
        assert ps[m] == s1[m];
        assert s1[m] in s1;
      } else {
        assert ps[m] == s2[m - |s1|];
        assert lead2[m - |s1|] in lead2;
      }
    }
  }
}
