/** The tech-stack grid of the `Services` section
    (src/components/Services.jsx).

    Two rows of tools (4 and 7) are rendered as items with ids `r1-<i>` and
    `r2-<i>`. One id is the active one: the first item at start, the item
    under the mouse on hover, and on small screens the item a scroll-driven
    tween walks through, by rounding a fractional index into the list of all
    ids. */
module Services {
  import opened Wrappers

  const Row1: seq<string> := ["Python", "React", "Next.js", "TensorFlow"]
  const Row2: seq<string> := ["LangChain", "GSAP", "Three.js", "Tailwind", "Node.js", "Vercel", "Figma"]

  /** The id the section starts with. */
  const InitialActive: string := "r1-0"

  // ---------------------------------------------------------------------
  // Decimal numerals, as a template string writes an index

  function Digit(d: nat): char
    requires d < 10
  {
    (('0' as int) + d) as char
  }

  function DigitValue(c: char): int {
    (c as int) - ('0' as int)
  }

  /** The decimal numeral of n, without leading zeros. */
  function Decimal(n: nat): string
    decreases n
  {
    if n < 10 then [Digit(n)] else Decimal(n / 10) + [Digit(n % 10)]
  }

  /** Reads a numeral back. */
  function ParseDecimal(s: string): int
    decreases |s|
  {
    if |s| == 0 then 0 else ParseDecimal(s[..|s| - 1]) * 10 + DigitValue(s[|s| - 1])
  }

  /** Reading a numeral gives back the number, so distinct numbers have
      distinct numerals. */
  lemma {:induction false} DecimalRoundTrip(n: nat)
    ensures ParseDecimal(Decimal(n)) == n
    ensures |Decimal(n)| > 0
    decreases n
  {
    if n >= 10 {
      DecimalRoundTrip(n / 10);
      var s := Decimal(n);
      assert s[..|s| - 1] == Decimal(n / 10);
    } else {
      assert Decimal(n)[..0] == [];
    }
  }

  // ---------------------------------------------------------------------
  // Ids

  function RowPrefix(isRow1: bool): string {
    if isRow1 then "r1-" else "r2-"
  }

  /** The id of item `index` of a row. */
  function TechId(isRow1: bool, index: nat): string {
    RowPrefix(isRow1) + Decimal(index)
  }

  /** Two items have the same id only when they are the same item. */
  lemma TechIdInjective(row: bool, i: nat, row': bool, j: nat)
    requires TechId(row, i) == TechId(row', j)
    ensures row == row' && i == j
  {
    var s, t := TechId(row, i), TechId(row', j);
    assert s[1] == RowPrefix(row)[1] && t[1] == RowPrefix(row')[1];
    assert s[3..] == Decimal(i) && t[3..] == Decimal(j);
    DecimalRoundTrip(i);
    DecimalRoundTrip(j);
  }

  /** Every id of row 1, then every id of row 2. */
  function AllIds(): seq<string> {
    seq(|Row1|, i requires 0 <= i < |Row1| => TechId(true, i)) +
    seq(|Row2|, i requires 0 <= i < |Row2| => TechId(false, i))
  }

  /** The walkthrough list has eleven ids, row 1 first; every rendered item's
      id is in it; the starting id is its first entry; and no id occurs
      twice. */
  lemma AllIdsShape()
    ensures |AllIds()| == 11
    ensures forall i :: 0 <= i < |Row1| ==> AllIds()[i] == TechId(true, i)
    ensures forall i :: 0 <= i < |Row2| ==> AllIds()[|Row1| + i] == TechId(false, i)
    ensures forall i :: 0 <= i < |Row1| ==> TechId(true, i) in AllIds()
    ensures forall i :: 0 <= i < |Row2| ==> TechId(false, i) in AllIds()
    ensures AllIds()[0] == InitialActive
    ensures forall a, b :: 0 <= a < b < |AllIds()| ==> AllIds()[a] != AllIds()[b]
  {
    var ids := AllIds();
    assert forall i :: 0 <= i < |Row2| ==> ids[|Row1| + i] == TechId(false, i);
    assert forall i :: 0 <= i < |Row2| ==> TechId(false, i) == ids[|Row1| + i];
    forall a, b | 0 <= a < b < |ids|
      ensures ids[a] != ids[b]
    {
      var ia: nat := if a < 4 then a else a - 4;
      var ib: nat := if b < 4 then b else b - 4;
      if ids[a] == ids[b] {
        TechIdInjective(a < 4, ia, b < 4, ib);
      }
    }
  }

  // ---------------------------------------------------------------------
  // The scroll walkthrough

  /** `Math.round`: the nearest integer, halves rounded up. */
  function Round(x: real): int {
    (x + 0.5).Floor
  }

  /** Round(x) is the integer within half a unit of x, ties going up. */
  lemma RoundNearest(x: real)
    ensures x - 0.5 < Round(x) as real <= x + 0.5
  {
  }

  /** The id the walkthrough sets for tween value x; an index outside the
      list reads as undefined. */
  function WalkthroughId(x: real): Option<string> {
    var k := Round(x);
    if 0 <= k < |AllIds()| then Some(AllIds()[k]) else None
  }

  /** The tween runs from 0 to the last index, and every value on the way
      rounds to an index of the list: the active id is always defined, and
      the ends of the tween give the first and last ids. */
  lemma WalkthroughDefined(x: real)
    requires 0.0 <= x <= (|AllIds()| - 1) as real
    ensures WalkthroughId(x).Some? && WalkthroughId(x).value in AllIds()
    ensures WalkthroughId(0.0) == Some(TechId(true, 0))
    ensures WalkthroughId(10.0) == Some(TechId(false, 6))
  {
    AllIdsShape();
    RoundNearest(x);
  }

  // ---------------------------------------------------------------------
  // Rendering an item

  /** An item is highlighted when its id is the active one. */
  predicate IsActive(active: string, isRow1: bool, index: nat) {
    active == TechId(isRow1, index)
  }

  /** At most one item is highlighted: two active items are the same item. */
  lemma AtMostOneActive(active: string, row: bool, i: nat, row': bool, j: nat)
    requires IsActive(active, row, i) && IsActive(active, row', j)
    ensures row == row' && i == j
  {
    TechIdInjective(row, i, row', j);
  }

  predicate IsDesktopLast(index: nat, total: nat) {
    index == total - 1
  }

  /** The desktop right-border class of an item. */
  function DesktopBorder(index: nat, total: nat): string {
    if !IsDesktopLast(index, total) then "md:border-r" else "md:border-r-0"
  }

  /** In a non-empty row exactly one item, the last, drops its right
      border on desktop. */
  lemma OneBorderless(total: nat)
    requires total > 0
    ensures (set i | 0 <= i < total && DesktopBorder(i, total) == "md:border-r-0") == {total - 1}
  {
    assert "md:border-r" != "md:border-r-0" by {
      assert |"md:border-r"| != |"md:border-r-0"|;
    }
  }

  // ---------------------------------------------------------------------
  // The active id over time

  /** What replaces the active id: the mouse entering an item, or a scroll
      update of the walkthrough tween with value x. */
  datatype Event = Hover(isRow1: bool, index: nat) | Walk(x: real)

  /** The event happens in the rendered section: a hovered item exists, and
      the tween value lies between its ends. */
  predicate Possible(e: Event) {
    match e
    case Hover(isRow1, index) => index < (if isRow1 then |Row1| else |Row2|)
    case Walk(x) => 0.0 <= x <= (|AllIds()| - 1) as real
  }

  function Next(e: Event): Option<string> {
    match e
    case Hover(isRow1, index) => Some(TechId(isRow1, index))
    case Walk(x) => WalkthroughId(x)
  }

  /** The active id after a run of events, starting from the first item. */
  function ActiveAfter(events: seq<Event>): Option<string> {
    if |events| == 0 then Some(InitialActive) else Next(events[|events| - 1])
  }

  /** Whatever happens, the active id stays one of the listed ids, so
      exactly one item is highlighted at every moment. */
  lemma ActiveAlwaysListed(events: seq<Event>)
    requires forall k :: 0 <= k < |events| ==> Possible(events[k])
    ensures ActiveAfter(events).Some? && ActiveAfter(events).value in AllIds()
  {
    AllIdsShape();
    if |events| > 0 {
      var e := events[|events| - 1];
      assert Possible(e);
      if e.Walk? {
        WalkthroughDefined(e.x);
      }
    }
  }
}
