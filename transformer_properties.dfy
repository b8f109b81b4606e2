/**
 * What flattening a bar and a tree of score nodes promises: the directives
 * come first in one fixed order with exactly one line break among them, the
 * elements follow in place and in order, and flattening distributes over
 * concatenation of children.
 */
module TransformerProperties {
  import opened MusicModel
  import opened Symbols
  import opened Transformer

  // ---------------------------------------------------------------------
  // The order of a bar's leading directives

  /** Position of a directive in the fixed order start bar line, line break, mark, time, key, tempo. */
  function DirectiveRank(p: LilypondPrimarySymbol): nat
  {
    match p
    case BarLine(_) => 0
    case LineBreak(_) => 1
    case Mark(_) => 2
    case Time(_) => 3
    case Key(_) => 4
    case Tempo(_) => 5
    case _ => 6
  }

  predicate StrictlyOrdered(ps: seq<LilypondPrimarySymbol>)
  {
    forall i, j :: 0 <= i < j < |ps| ==> DirectiveRank(ps[i]) < DirectiveRank(ps[j])
  }

  predicate RanksBelow(ps: seq<LilypondPrimarySymbol>, bound: nat)
  {
    forall p | p in ps :: DirectiveRank(p) < bound
  }

  /** Appending at most one symbol of rank r to an ordered list of smaller ranks keeps it ordered. */
  lemma OrderedSnoc(a: seq<LilypondPrimarySymbol>, piece: seq<LilypondPrimarySymbol>, r: nat)
    requires StrictlyOrdered(a) && RanksBelow(a, r)
    requires |piece| <= 1 && forall p | p in piece :: DirectiveRank(p) == r
    ensures StrictlyOrdered(a + piece) && RanksBelow(a + piece, r + 1)
  {
    var ab := a + piece;
    forall i, j | 0 <= i < j < |ab|
      ensures DirectiveRank(ab[i]) < DirectiveRank(ab[j])
    {
      if j >= |a| {
        assert ab[j] in piece;
        assert ab[i] in a;
      }
    }
  }

  /**
   * A bar's leading directives are strictly ordered by rank, so each kind
   * occurs at most once and they always come in the order start bar line,
   * line break, mark, time, key, tempo.
   */
  lemma LeadingDirectivesOrdered(bar: StaffBar)
    ensures StrictlyOrdered(LeadingDirectives(bar))
  {
    var start := Optional(bar.startLine, l => LilypondPrimarySymbol.BarLine(l));
    var lineBreak := [LilypondPrimarySymbol.LineBreak(bar.breakMode)];
    var mark := Optional(bar.mark, m => LilypondPrimarySymbol.Mark(m));
    var time := Optional(bar.time, t => LilypondPrimarySymbol.Time(t));
    var key := Optional(bar.key, k => LilypondPrimarySymbol.Key(k));
    var tempo := Optional(bar.tempo, t => LilypondPrimarySymbol.Tempo(t));
    assert forall p | p in start :: DirectiveRank(p) == 0;
    assert forall p | p in mark :: DirectiveRank(p) == 2;
    assert forall p | p in time :: DirectiveRank(p) == 3;
    assert forall p | p in key :: DirectiveRank(p) == 4;
    assert forall p | p in tempo :: DirectiveRank(p) == 5;
    var s0: seq<LilypondPrimarySymbol> := [];
    OrderedSnoc(s0, start, 0);
    assert s0 + start == start;
    var s1 := start + lineBreak;
    OrderedSnoc(start, lineBreak, 1);
    var s2 := s1 + mark;
    OrderedSnoc(s1, mark, 2);
    var s3 := s2 + time;
    OrderedSnoc(s2, time, 3);
    var s4 := s3 + key;
    OrderedSnoc(s3, key, 4);
    OrderedSnoc(s4, tempo, 5);
    assert LeadingDirectives(bar) == s4 + tempo;
  }

  // ---------------------------------------------------------------------
  // Line breaks

  function LineBreakCount(ps: seq<LilypondPrimarySymbol>): nat
  {
    if ps == [] then 0 else (if ps[0].LineBreak? then 1 else 0) + LineBreakCount(ps[1..])
  }

  function LineBreakElementCount(es: seq<StaffPrimaryElementUnion>): nat
  {
    if es == [] then 0 else (if es[0].LineBreakElement? then 1 else 0) + LineBreakElementCount(es[1..])
  }

  lemma {:induction false} LineBreakCountAppend(a: seq<LilypondPrimarySymbol>, b: seq<LilypondPrimarySymbol>)
    ensures LineBreakCount(a + b) == LineBreakCount(a) + LineBreakCount(b)
  {
    if a == [] {
      assert a + b == b;
    } else {
      assert (a + b)[1..] == a[1..] + b;
      LineBreakCountAppend(a[1..], b);
    }
  }

  lemma {:induction false} TransformElementsLineBreaks(es: seq<StaffPrimaryElementUnion>)
    ensures LineBreakCount(TransformElements(es)) == LineBreakElementCount(es)
  {
    if es != [] {
      var r := TransformElements(es);
      assert r[1..] == TransformElements(es[1..]);
      TransformElementsLineBreaks(es[1..]);
    }
  }

  lemma OptionalLineBreaks<T>(o: Option<T>, symbol: T -> LilypondPrimarySymbol)
    requires forall v :: !symbol(v).LineBreak?
    ensures LineBreakCount(Optional(o, symbol)) == 0
  {
  }

  /**
   * A bar always yields exactly one line-break directive of its own (in
   * regular mode too), on top of the line-break elements it contains.
   */
  lemma BarLineBreaks(bar: StaffBar)
    ensures LineBreakCount(LeadingDirectives(bar)) == 1
    ensures LineBreakCount(BarSymbols(bar)) == 1 + LineBreakElementCount(bar.primaryElements)
  {
    var start := Optional(bar.startLine, l => LilypondPrimarySymbol.BarLine(l));
    var lineBreak := [LilypondPrimarySymbol.LineBreak(bar.breakMode)];
    var mark := Optional(bar.mark, m => LilypondPrimarySymbol.Mark(m));
    var time := Optional(bar.time, t => LilypondPrimarySymbol.Time(t));
    var key := Optional(bar.key, k => LilypondPrimarySymbol.Key(k));
    var tempo := Optional(bar.tempo, t => LilypondPrimarySymbol.Tempo(t));
    OptionalLineBreaks(bar.startLine, l => LilypondPrimarySymbol.BarLine(l));
    OptionalLineBreaks(bar.mark, m => LilypondPrimarySymbol.Mark(m));
    OptionalLineBreaks(bar.time, t => LilypondPrimarySymbol.Time(t));
    OptionalLineBreaks(bar.key, k => LilypondPrimarySymbol.Key(k));
    OptionalLineBreaks(bar.tempo, t => LilypondPrimarySymbol.Tempo(t));
    assert LineBreakCount(lineBreak) == 1;
    var s1 := start + lineBreak;
    LineBreakCountAppend(start, lineBreak);
    var s2 := s1 + mark;
    LineBreakCountAppend(s1, mark);
    var s3 := s2 + time;
    LineBreakCountAppend(s2, time);
    var s4 := s3 + key;
    LineBreakCountAppend(s3, key);
    var lead := s4 + tempo;
    LineBreakCountAppend(s4, tempo);
    assert lead == LeadingDirectives(bar);
    var elements := TransformElements(bar.primaryElements);
    var trail := TrailingDirectives(bar);
    OptionalLineBreaks(bar.endLine, l => LilypondPrimarySymbol.BarLine(l));
    TransformElementsLineBreaks(bar.primaryElements);
    LineBreakCountAppend(lead, elements);
    LineBreakCountAppend(lead + elements, trail);
  }

  /** Every leading directive of a bar is its line break or one of its present optional fields. */
  lemma LeadingDirectivesMembers(bar: StaffBar)
    ensures forall p | p in LeadingDirectives(bar) ::
      || p == LilypondPrimarySymbol.LineBreak(bar.breakMode)
      || (bar.startLine.Some? && p == LilypondPrimarySymbol.BarLine(bar.startLine.value))
      || (bar.mark.Some? && p == LilypondPrimarySymbol.Mark(bar.mark.value))
      || (bar.time.Some? && p == LilypondPrimarySymbol.Time(bar.time.value))
      || (bar.key.Some? && p == LilypondPrimarySymbol.Key(bar.key.value))
      || (bar.tempo.Some? && p == LilypondPrimarySymbol.Tempo(bar.tempo.value))
  {
    var start := Optional(bar.startLine, l => LilypondPrimarySymbol.BarLine(l));
    var lineBreak := [LilypondPrimarySymbol.LineBreak(bar.breakMode)];
    var mark := Optional(bar.mark, m => LilypondPrimarySymbol.Mark(m));
    var time := Optional(bar.time, t => LilypondPrimarySymbol.Time(t));
    var key := Optional(bar.key, k => LilypondPrimarySymbol.Key(k));
    var tempo := Optional(bar.tempo, t => LilypondPrimarySymbol.Tempo(t));
    assert LeadingDirectives(bar) == start + lineBreak + mark + time + key + tempo;
  }

  // ---------------------------------------------------------------------
  // Where a bar's parts end up

  /**
   * A bar opens with its start bar line when it has one and otherwise with
   * its line break; its elements follow the leading directives one for one
   * and in order; it closes with its end bar line when it has one.
   */
  lemma BarLayout(bar: StaffBar)
    ensures var r := BarSymbols(bar);
      var lead := |LeadingDirectives(bar)|;
      var n := |bar.primaryElements|;
      && |r| == lead + n + Present(bar.endLine)
      && r[0] == (if bar.startLine.Some? then LilypondPrimarySymbol.BarLine(bar.startLine.value)
                  else LilypondPrimarySymbol.LineBreak(bar.breakMode))
      && r[lead..lead + n] == TransformElements(bar.primaryElements)
      && (forall i :: 0 <= i < n ==> ElementOf(r[lead + i]) == Some(bar.primaryElements[i]))
      && (bar.endLine.Some? ==> r[|r| - 1] == LilypondPrimarySymbol.BarLine(bar.endLine.value))
  {
    var r := BarSymbols(bar);
    var lead := LeadingDirectives(bar);
    var elements := TransformElements(bar.primaryElements);
    var trail := TrailingDirectives(bar);
    assert r == lead + elements + trail;
    assert r[|lead|..|lead| + |elements|] == elements;
    forall i | 0 <= i < |elements|
      ensures r[|lead| + i] == elements[i]
    {
    }
  }

  /** A bar's symbols begin with its leading directives. */
  lemma BarStartsWithLead(bar: StaffBar)
    ensures |LeadingDirectives(bar)| <= |BarSymbols(bar)|
    ensures forall x :: 0 <= x < |LeadingDirectives(bar)| ==> BarSymbols(bar)[x] == LeadingDirectives(bar)[x]
  {
    assert BarSymbols(bar) == LeadingDirectives(bar) + (TransformElements(bar.primaryElements) + TrailingDirectives(bar));
  }

  // ---------------------------------------------------------------------
  // Trees of nodes

  /** Flattening the children of an inner node distributes over concatenation. */
  lemma {:induction false} TransformNodesAppend(a: seq<StaffBarSequenceUnion>, b: seq<StaffBarSequenceUnion>)
    ensures TransformNodes(a + b) == TransformNodes(a) + TransformNodes(b)
  {
    if a == [] {
      assert a + b == b;
    } else {
      assert (a + b)[0] == a[0];
      assert (a + b)[1..] == a[1..] + b;
      TransformNodesAppend(a[1..], b);
    }
  }

  /** A tree of bars flattens to its bars' symbols in order: nesting adds nothing and loses nothing. */
  lemma {:induction false} TransformBars(bars: seq<StaffBar>)
    ensures TransformNodes(seq(|bars|, i requires 0 <= i < |bars| => StaffBarNode(bars[i])))
         == BarsSymbols(bars)
  {
    var nodes := seq(|bars|, i requires 0 <= i < |bars| => StaffBarNode(bars[i]));
    if bars != [] {
      var tail := seq(|bars| - 1, i requires 0 <= i < |bars| - 1 => StaffBarNode(bars[1..][i]));
      assert nodes[1..] == tail;
      TransformBars(bars[1..]);
    }
  }

  /** The symbols of several bars, one after another. */
  function BarsSymbols(bars: seq<StaffBar>): seq<LilypondPrimarySymbol>
  {
    if bars == [] then [] else BarSymbols(bars[0]) + BarsSymbols(bars[1..])
  }
}
