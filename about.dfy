/** The scroll-driven word spacing of the `About` section
    (src/components/About.jsx).

    The paragraph is a fixed list of lines. Each word becomes a span whose
    `data-*` attributes record its line, its position, whether it is an
    anchor or the last word, the line's type and whether the line has reduced
    spacing. An effect first gives every word a `randomMax` spacing; then, on
    every scroll update with progress `p`, it sets the first word's left
    margin and every word's right margin. */
module About {
  import opened Wrappers
  import Vectors

  datatype LineType = Expand | Contract

  /** A line of text, already split at spaces, with the positions of its
      anchor words. */
  datatype Line = Line(words: seq<string>, anchors: seq<nat>, kind: LineType, reduced: bool)

  /** The state of one word span: its data attributes, the `randomMax` the
      precompute writes, and the two margins the scroll handler writes
      (`marginLeft` is unset until the handler first touches it). */
  datatype Word = Word(anchor: bool, line: nat, index: nat, globalIndex: nat,
                       kind: LineType, isLast: bool, reduced: bool,
                       randomMax: Option<real>, marginLeft: Option<real>, marginRight: real)

  /** The fourteen lines of the paragraph. */
  const Lines: seq<Line> := [
    Line(["Passionate", "about", "creating"], [0], Expand, false),
    Line(["innovative", "digital", "solutions,"], [], Contract, true),
    Line(["I", "blend", "creativity", "with"], [2], Expand, false),
    Line(["technical", "expertise", "to"], [], Contract, true),
    Line(["build", "seamless", "web"], [2], Expand, false),
    Line(["experiences.", "With", "a"], [], Contract, true),
    Line(["focus", "on", "modern"], [], Expand, false),
    Line(["technologies,", "clean", "code,"], [1], Contract, true),
    Line(["and", "user-centric", "design,"], [], Expand, false),
    Line(["I", "help", "transform"], [2], Contract, false),
    Line(["ideas", "into", "reality"], [], Expand, false),
    Line(["for", "businesses", "and"], [], Contract, false),
    Line(["individuals", "around", "the"], [1], Expand, false),
    Line(["world."], [], Contract, false)
  ]

  // ---------------------------------------------------------------------
  // Rendering the spans

  /** The span for word k of line li: global index li·10 + k, and an
      initial right margin of 0 for the last word and 15 otherwise. */
  function WordOf(l: Line, li: nat, k: nat): Word
    requires k < |l.words|
  {
    var isLast := k == |l.words| - 1;
    Word(k in l.anchors, li, k, li * 10 + k, l.kind, isLast, l.reduced,
         None, None, if isLast then 0.0 else 15.0)
  }

  function LineWords(l: Line, li: nat): seq<Word> {
    seq(|l.words|, k requires 0 <= k < |l.words| => WordOf(l, li, k))
  }

  /** The spans of all lines, in document order. */
  function Render(lines: seq<Line>): seq<Word>
    decreases |lines|
  {
    if |lines| == 0 then []
    else Render(lines[..|lines| - 1]) + LineWords(lines[|lines| - 1], |lines| - 1)
  }

  /** Every line has at most ten words. */
  predicate ShortLines(lines: seq<Line>) {
    forall i :: 0 <= i < |lines| ==> |lines[i].words| <= 10
  }

  /** Each span records its own line and position, its global index is
      line·10 + position, and when no line has more than ten words the
      global indices strictly increase in document order, so no two spans
      share one. */
  lemma {:induction false} RenderIndices(lines: seq<Line>)
    ensures forall a :: 0 <= a < |Render(lines)| ==>
      var w := Render(lines)[a];
      w.line < |lines| && w.index < |lines[w.line].words| && w.globalIndex == 10 * w.line + w.index
    ensures ShortLines(lines) ==>
      forall a, b :: 0 <= a < b < |Render(lines)| ==> Render(lines)[a].globalIndex < Render(lines)[b].globalIndex
    decreases |lines|
  {
    if |lines| > 0 {
      var n := |lines| - 1;
      var front := lines[..n];
      RenderIndices(front);
      var r, tail := Render(front), LineWords(lines[n], n);
      assert Render(lines) == r + tail;
      forall a | 0 <= a < |r|
        ensures r[a].line < n && r[a].globalIndex == 10 * r[a].line + r[a].index
        ensures ShortLines(lines) ==> r[a].globalIndex < 10 * n
      {
        assert front[r[a].line] == lines[r[a].line];
      }
    }
  }

  /** The paragraph's lines are short, so every span of the section has its
      own global index. */
  lemma GlobalIndexDistinct()
    ensures forall a, b :: 0 <= a < |Render(Lines)| && 0 <= b < |Render(Lines)| && a != b ==>
      Render(Lines)[a].globalIndex != Render(Lines)[b].globalIndex
  {
    assert ShortLines(Lines);
    RenderIndices(Lines);
  }

  // ---------------------------------------------------------------------
  // The randomMax precompute

  /** The maximum spacing of a word: within [20, 60] on reduced lines and
      [80, 300] otherwise, `randomVal` of the way up. */
  function MaxSpacing(reduced: bool, randomVal: real): real {
    var baseMin := if reduced then 20.0 else 80.0;
    var baseMax := if reduced then 60.0 else 300.0;
    baseMin + randomVal * (baseMax - baseMin)
  }

  /** What the precompute does to one word: it writes `randomMax` only
      where none is recorded yet. */
  function WithRandomMax(w: Word, randomVal: nat -> real): Word {
    if w.randomMax.Some? then w
    else w.(randomMax := Some(MaxSpacing(w.reduced, randomVal(w.globalIndex))))
  }

  lemma MaxSpacingRange(reduced: bool, randomVal: real)
    requires 0.0 <= randomVal <= 1.0
    ensures reduced ==> 20.0 <= MaxSpacing(reduced, randomVal) <= 60.0
    ensures !reduced ==> 80.0 <= MaxSpacing(reduced, randomVal) <= 300.0
  {
  }

  /** After the precompute a word has a `randomMax`; a value already there
      is kept, nothing else changes, and running it again changes nothing,
      whatever the random values are the second time. */
  lemma WithRandomMaxOnce(w: Word, randomVal: nat -> real, again: nat -> real)
    ensures WithRandomMax(w, randomVal).randomMax.Some?
    ensures w.randomMax.Some? ==> WithRandomMax(w, randomVal) == w
    ensures WithRandomMax(w, randomVal).(randomMax := w.randomMax) == w
    ensures WithRandomMax(WithRandomMax(w, randomVal), again) == WithRandomMax(w, randomVal)
  {
  }

  /** A fresh word's `randomMax` lies in the range of its line. */
  lemma WithRandomMaxRange(w: Word, randomVal: nat -> real)
    requires w.randomMax.None? && 0.0 <= randomVal(w.globalIndex) <= 1.0
    ensures var m := WithRandomMax(w, randomVal).randomMax.value;
      (w.reduced ==> 20.0 <= m <= 60.0) && (!w.reduced ==> 80.0 <= m <= 300.0)
  {
    MaxSpacingRange(w.reduced, randomVal(w.globalIndex));
  }

  /** The precompute loop over all word spans. */
  method PrecomputeRandomMax(words: array<Word>, randomVal: nat -> real)
    modifies words
    ensures forall k :: 0 <= k < words.Length ==> words[k] == WithRandomMax(old(words[k]), randomVal)
    ensures forall k :: 0 <= k < words.Length ==> words[k].randomMax.Some?
  {
    var i := 0;
    while i < words.Length
      invariant 0 <= i <= words.Length
      invariant forall k :: 0 <= k < i ==> words[k] == WithRandomMax(old(words[k]), randomVal)
      invariant forall k :: i <= k < words.Length ==> words[k] == old(words[k])
    {
      var w := words[i];
      if w.randomMax.None? {
        words[i] := w.(randomMax := Some(MaxSpacing(w.reduced, randomVal(w.globalIndex))));
      }
      i := i + 1;
    }
  }

  // ---------------------------------------------------------------------
  // The scroll update

  /** The share of the way from the narrow to the wide end: contract lines
      start wide and close up as the progress grows, expand lines the
      reverse. */
  function Factor(kind: LineType, p: real): real {
    match kind
    case Contract => 1.0 - p
    case Expand => p
  }

  /** The first word's left margin: 10 plus up to 60. */
  function FirstMarginLeft(kind: LineType, p: real): real {
    10.0 + Factor(kind, p) * 60.0
  }

  /** A non-anchor word's spacing between 15 and its maximum. */
  function Spacing(kind: LineType, p: real, maxSpacing: real): real {
    15.0 + Factor(kind, p) * (maxSpacing - 15.0)
  }

  /** The spacing capped at 30% of the viewport width. */
  function Capped(spacing: real, innerWidth: real): real {
    var cap := innerWidth * 0.30;
    if spacing > cap then cap else spacing
  }

  /** A word needs a `randomMax` when it is neither an anchor nor last. */
  predicate NeedsMax(w: Word) {
    !w.isLast && !w.anchor
  }

  /** One word of the scroll handler. */
  function ApplyWord(w: Word, p: real, innerWidth: real): Word
    requires NeedsMax(w) ==> w.randomMax.Some?
  {
    var w1 := if w.index == 0 then w.(marginLeft := Some(FirstMarginLeft(w.kind, p))) else w;
    if w.isLast then w1.(marginRight := 0.0)
    else if w.anchor then w1.(marginRight := 15.0)
    else w1.(marginRight := Capped(Spacing(w.kind, p, w.randomMax.value), innerWidth))
  }

  /** Contract lines mirror expand lines: progress p on one gives what
      progress 1 - p gives on the other; and the first word's margin stays
      in [10, 70], from 10 at one end to 70 at the other. */
  lemma FirstMarginLeftRange(kind: LineType, p: real)
    requires 0.0 <= p <= 1.0
    ensures 10.0 <= FirstMarginLeft(kind, p) <= 70.0
    ensures FirstMarginLeft(Contract, p) == FirstMarginLeft(Expand, 1.0 - p)
    ensures FirstMarginLeft(Expand, 0.0) == 10.0 && FirstMarginLeft(Expand, 1.0) == 70.0
    ensures FirstMarginLeft(Contract, 0.0) == 70.0 && FirstMarginLeft(Contract, 1.0) == 10.0
  {
  }

  /** Contract spacing at p is expand spacing at 1 - p; expand spacing runs
      from 15 at p = 0 to the maximum at p = 1 and contract spacing the other
      way; in between it stays between 15 and the maximum. */
  lemma SpacingRange(kind: LineType, p: real, maxSpacing: real)
    requires 0.0 <= p <= 1.0 && 15.0 <= maxSpacing
    ensures Spacing(Contract, p, maxSpacing) == Spacing(Expand, 1.0 - p, maxSpacing)
    ensures Spacing(Expand, 0.0, maxSpacing) == 15.0 && Spacing(Expand, 1.0, maxSpacing) == maxSpacing
    ensures Spacing(Contract, 0.0, maxSpacing) == maxSpacing && Spacing(Contract, 1.0, maxSpacing) == 15.0
    ensures 15.0 <= Spacing(kind, p, maxSpacing) <= maxSpacing
  {
    var f, d := Factor(kind, p), maxSpacing - 15.0;
    assert 0.0 <= f <= 1.0 && 0.0 <= d;
    assert 0.0 <= f * d <= d by {
      assert f * d <= 1.0 * d by { Vectors.MulMonotone(f, 1.0, d); }
      Vectors.MulKeepsSign(d, f);
      assert d * f == f * d;
    }
    assert Spacing(kind, p, maxSpacing) == 15.0 + f * d;
  }

  /** The cap: the result never exceeds 30% of the viewport width, equals
      the spacing whenever that fits, and equals the cap otherwise. */
  lemma CappedBound(spacing: real, innerWidth: real)
    ensures Capped(spacing, innerWidth) <= innerWidth * 0.30
    ensures spacing <= innerWidth * 0.30 ==> Capped(spacing, innerWidth) == spacing
    ensures spacing > innerWidth * 0.30 ==> Capped(spacing, innerWidth) == innerWidth * 0.30
  {
  }

  /** The handler's rules for one word:
      the first word of a line, and only it, gets its left margin set;
      a last word gets right margin 0 whether or not it is an anchor;
      any other anchor gets 15;
      any other word gets its spacing, never more than 30% of the viewport;
      the data attributes and `randomMax` are left alone. */
  lemma ApplyWordRules(w: Word, p: real, innerWidth: real)
    requires NeedsMax(w) ==> w.randomMax.Some?
    ensures var r := ApplyWord(w, p, innerWidth);
      (w.index == 0 ==> r.marginLeft == Some(FirstMarginLeft(w.kind, p))) &&
      (w.index != 0 ==> r.marginLeft == w.marginLeft) &&
      (w.isLast ==> r.marginRight == 0.0) &&
      (!w.isLast && w.anchor ==> r.marginRight == 15.0) &&
      (NeedsMax(w) ==> r.marginRight <= innerWidth * 0.30 &&
                       (Spacing(w.kind, p, w.randomMax.value) <= innerWidth * 0.30 ==>
                          r.marginRight == Spacing(w.kind, p, w.randomMax.value))) &&
      r.(marginLeft := w.marginLeft, marginRight := w.marginRight) == w
  {
    if NeedsMax(w) {
      CappedBound(Spacing(w.kind, p, w.randomMax.value), innerWidth);
    }
  }

  /** On a wide enough viewport a non-anchor word's right margin lies
      between 15 and its `randomMax`: the cap only matters on narrow
      screens (below 1000 px for the widest spacing, 300). */
  lemma WideViewportUncapped(w: Word, p: real, innerWidth: real)
    requires NeedsMax(w) && w.randomMax.Some? && 15.0 <= w.randomMax.value <= 300.0
    requires 0.0 <= p <= 1.0 && 1000.0 <= innerWidth
    ensures ApplyWord(w, p, innerWidth).marginRight == Spacing(w.kind, p, w.randomMax.value)
    ensures 15.0 <= ApplyWord(w, p, innerWidth).marginRight <= w.randomMax.value
  {
    SpacingRange(w.kind, p, w.randomMax.value);
    CappedBound(Spacing(w.kind, p, w.randomMax.value), innerWidth);
  }

  /** The last line is the single word `world.`: it is both the first and
      the last word of its line, so the handler sets its left margin and
      gives it right margin 0. */
  lemma OneWordLine(p: real, innerWidth: real)
    ensures var w := Render(Lines)[|Render(Lines)| - 1];
      w.index == 0 && w.isLast &&
      ApplyWord(w, p, innerWidth).marginLeft == Some(FirstMarginLeft(Contract, p)) &&
      ApplyWord(w, p, innerWidth).marginRight == 0.0
  {
    var front := Render(Lines[..13]);
    var last := LineWords(Lines[13], 13);
    assert |last| == 1;
    assert Render(Lines) == front + last;
    assert Render(Lines)[|Render(Lines)| - 1] == last[0];
  }

  /** One scroll update over all word spans. The effect runs the precompute
      first, so every word that needs a `randomMax` has one. */
  method ApplyScroll(words: array<Word>, p: real, innerWidth: real)
    requires forall k :: 0 <= k < words.Length ==> (NeedsMax(words[k]) ==> words[k].randomMax.Some?)
    modifies words
    ensures forall k :: 0 <= k < words.Length ==> words[k] == ApplyWord(old(words[k]), p, innerWidth)
  {
    var i := 0;
    while i < words.Length
      invariant 0 <= i <= words.Length
      invariant forall k :: 0 <= k < i ==> words[k] == ApplyWord(old(words[k]), p, innerWidth)
      invariant forall k :: i <= k < words.Length ==> words[k] == old(words[k])
    {
      var w := words[i];
      if w.index == 0 {
        w := w.(marginLeft := Some(FirstMarginLeft(w.kind, p)));
      }
      if w.isLast {
        w := w.(marginRight := 0.0);
      } else if w.anchor {
        w := w.(marginRight := 15.0);
      } else {
        var spacing := Spacing(w.kind, p, w.randomMax.value);
        var cap := innerWidth * 0.30;
        if spacing > cap {
          spacing := cap;
        }
        w := w.(marginRight := spacing);
      }
      words[i] := w;
      i := i + 1;
    }
  }
}
