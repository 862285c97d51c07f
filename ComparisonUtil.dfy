/**
 * The helpers of the diff comparison tests: the per-policy expectations with
 * their fallback, the two- and three-sided test data, the builders of
 * expected changes, the parser of line-matching strings, and the checks a
 * comparison result must pass (fragment consistency, line offsets, the
 * union of matched ranges). The comparison engine itself is an input.
 */
module ComparisonUtilTestBase {
  import opened Wrappers

  // ---------------------------------------------------------------------
  // Policies and test data.
  // ---------------------------------------------------------------------

  datatype Policy = Default | TrimWhitespaces | IgnoreWhitespaces

  /** An expectation per policy, any of which may be unset. */
  datatype PolicyData<T> = PolicyData(default: Option<T>, trim: Option<T>, ignore: Option<T>)
  {
    /** The expectation for `policy`, falling back to a less lenient policy's when it is unset. */
    function Get(policy: Policy): Option<T> {
      match policy
      case IgnoreWhitespaces => if ignore.Some? then ignore else if trim.Some? then trim else default
      case TrimWhitespaces => if trim.Some? then trim else default
      case Default => default
    }
  }

  /** The first present value of a list of options. */
  function FirstPresent<T>(options: seq<Option<T>>): (r: Option<T>)
    ensures r.Some? ==> exists i :: 0 <= i < |options| && options[i] == r && forall k :: 0 <= k < i ==> options[k].None?
    ensures r.None? <==> forall i :: 0 <= i < |options| ==> options[i].None?
  {
    if |options| == 0 then None
    else if options[0].Some? then options[0]
    else
      var r := FirstPresent(options[1..]);
      assert forall i :: 1 <= i < |options| ==> options[i] == options[1..][i - 1];
      r
  }

  /** The first present value of a non-empty list is its head if that is present, else the first of the rest. */
  lemma FirstPresentCons<T>(head: Option<T>, rest: seq<Option<T>>)
    ensures FirstPresent([head] + rest) == if head.Some? then head else FirstPresent(rest)
  {
    assert ([head] + rest)[1..] == rest;
  }

  /** The expectations a policy consults, in order: its own, then those of the stricter policies. */
  function Fallbacks<T>(d: PolicyData<T>, policy: Policy): seq<Option<T>> {
    match policy
    case IgnoreWhitespaces => [d.ignore, d.trim, d.default]
    case TrimWhitespaces => [d.trim, d.default]
    case Default => [d.default]
  }

  /**
   * `PolicyData.get` takes the first expectation set among its fallbacks;
   * an expectation for the default policy serves every policy, and one for
   * trimming also serves ignoring whitespace.
   */
  lemma PolicyGetSpec<T>(d: PolicyData<T>, policy: Policy)
    ensures d.Get(policy) == FirstPresent(Fallbacks(d, policy))
    ensures d.default.Some? ==> d.Get(policy).Some?
    ensures d.Get(TrimWhitespaces).Some? ==> d.Get(IgnoreWhitespaces).Some?
    ensures d.Get(policy).Some? ==> d.Get(policy) in {d.default, d.trim, d.ignore}
  {
    FirstPresentCons(d.default, []);
    FirstPresentCons(d.trim, [d.default]);
    assert [d.ignore, d.trim, d.default] == [d.ignore] + [d.trim, d.default];
    FirstPresentCons(d.ignore, [d.trim, d.default]);
  }

  datatype Couple<T> = Couple(first: T, second: T)

  datatype Trio<T> = Trio(data1: T, data2: T, data3: T)

  /** A test's documents or expectations: before and after, and a base for a three-way comparison. */
  datatype Data<T> = Data(before: Option<T>, base: Option<T>, after: Option<T>)
  {
    predicate IsTwoSide() { before.Some? && after.Some? && base.None? }

    predicate IsThreeSide() { before.Some? && after.Some? && base.Some? }

    function AsCouple(): Couple<T>
      requires IsTwoSide()
    {
      Couple(before.value, after.value)
    }

    function AsTrio(): Trio<T>
      requires IsThreeSide()
    {
      Trio(before.value, base.value, after.value)
    }
  }

  /** The two-argument constructor of `Data`: no base. */
  function TwoSided<T>(before: Option<T>, after: Option<T>): Data<T> {
    Data(before, None, after)
  }

  /**
   * Data is two-sided or three-sided exclusively, either exactly when both
   * sides are set; and a couple or trio taken apart and put back is the
   * data it came from.
   */
  lemma DataSidesSpec<T>(d: Data<T>, c: Couple<T>, t: Trio<T>)
    ensures !(d.IsTwoSide() && d.IsThreeSide())
    ensures d.IsTwoSide() || d.IsThreeSide() <==> d.before.Some? && d.after.Some?
    ensures d.IsTwoSide() ==> TwoSided(Some(d.AsCouple().first), Some(d.AsCouple().second)) == d
    ensures TwoSided(Some(c.first), Some(c.second)).IsTwoSide() && TwoSided(Some(c.first), Some(c.second)).AsCouple() == c
    ensures d.IsThreeSide() ==> Data(Some(d.AsTrio().data1), Some(d.AsTrio().data2), Some(d.AsTrio().data3)) == d
    ensures Data(Some(t.data1), Some(t.data2), Some(t.data3)).AsTrio() == t
  {
  }

  // ---------------------------------------------------------------------
  // Expected changes.
  // ---------------------------------------------------------------------

  /** A half-open range `[val1, val2)`. */
  datatype IntPair = IntPair(val1: int, val2: int)

  /** A change of `count1` lines at `line1` into `count2` lines at `line2`. */
  function Mod(line1: int, line2: int, count1: int, count2: int): Couple<IntPair>
    requires count1 != 0 && count2 != 0
  {
    Couple(IntPair(line1, line1 + count1), IntPair(line2, line2 + count2))
  }

  /** A deletion of `count1` lines at `line1`, before `line2` on the other side. */
  function Del(line1: int, line2: int, count1: int): Couple<IntPair>
    requires count1 != 0
  {
    Couple(IntPair(line1, line1 + count1), IntPair(line2, line2))
  }

  /** An insertion of `count2` lines at `line2`, before `line1` on the other side. */
  function Ins(line1: int, line2: int, count2: int): Couple<IntPair>
    requires count2 != 0
  {
    Couple(IntPair(line1, line1), IntPair(line2, line2 + count2))
  }

  predicate EmptyRange(r: IntPair) { r.val1 == r.val2 }

  /** The shape a consistent line fragment has: ordered ranges, not both empty. */
  predicate WellFormedChange(c: Couple<IntPair>) {
    c.first.val1 <= c.first.val2 && c.second.val1 <= c.second.val2 && !(EmptyRange(c.first) && EmptyRange(c.second))
  }

  /**
   * With positive counts every builder gives a well-formed change: a
   * modification changes both sides, a deletion leaves the after side
   * empty and an insertion the before side; the kinds never coincide.
   */
  lemma ChangeBuildersSpec(line1: int, line2: int, count1: int, count2: int)
    requires count1 > 0 && count2 > 0
    ensures WellFormedChange(Mod(line1, line2, count1, count2))
    ensures WellFormedChange(Del(line1, line2, count1)) && WellFormedChange(Ins(line1, line2, count2))
    ensures !EmptyRange(Mod(line1, line2, count1, count2).first) && !EmptyRange(Mod(line1, line2, count1, count2).second)
    ensures !EmptyRange(Del(line1, line2, count1).first) && EmptyRange(Del(line1, line2, count1).second)
    ensures EmptyRange(Ins(line1, line2, count2).first) && !EmptyRange(Ins(line1, line2, count2).second)
    ensures Del(line1, line2, count1).second.val1 == line2 && Ins(line1, line2, count2).first.val1 == line1
    ensures forall l1, l2, c :: c != 0 ==> Del(line1, line2, count1) != Ins(l1, l2, c)
  {
  }

  // ---------------------------------------------------------------------
  // Documents: a newline index.
  // ---------------------------------------------------------------------

  /** The number of characters of `s` in `delims`. */
  function Count(s: string, delims: set<char>): nat {
    if |s| == 0 then 0 else (if s[0] in delims then 1 else 0) + Count(s[1..], delims)
  }

  /** The positions of the newlines of `text` from `from` on, in increasing order. */
  function NewlinesFrom(text: string, from: nat): (r: seq<nat>)
    requires from <= |text|
    ensures forall k :: 0 <= k < |r| ==> from <= r[k] < |text| && text[r[k]] == '\n'
    ensures forall k, k' :: 0 <= k < k' < |r| ==> r[k] < r[k']
    ensures forall p :: from <= p < |text| && text[p] == '\n' ==> p in r
    decreases |text| - from
  {
    if from == |text| then []
    else if text[from] == '\n' then [from] + NewlinesFrom(text, from + 1)
    else NewlinesFrom(text, from + 1)
  }

  function Newlines(text: string): seq<nat> { NewlinesFrom(text, 0) }

  /** The document's line count; an empty document and a trailing newline's empty line count as lines. */
  function LineCount(text: string): nat { |Newlines(text)| + 1 }

  /** `getLineStartOffset`: 0, or just after the newline ending the previous line. */
  function LineStartOffset(text: string, line: nat): nat
    requires line < LineCount(text)
  {
    if line == 0 then 0 else Newlines(text)[line - 1] + 1
  }

  /** `getLineEndOffset`: the newline ending the line, or the text's end for the last line. */
  function LineEndOffset(text: string, line: nat): nat
    requires line < LineCount(text)
  {
    if line < |Newlines(text)| then Newlines(text)[line] else |text|
  }

  /** An offset where a line starts or the text ends. */
  predicate LineBoundary(text: string, offset: int) {
    0 <= offset <= |text| && (offset == 0 || offset == |text| || text[offset - 1] == '\n')
  }

  /** A line starts at a boundary and ends at or after its start, on its newline or at the text's end. */
  lemma LineOffsetsSpec(text: string, line: nat)
    requires line < LineCount(text)
    ensures LineBoundary(text, LineStartOffset(text, line))
    ensures LineStartOffset(text, line) <= LineEndOffset(text, line) <= |text|
    ensures LineEndOffset(text, line) == |text| || text[LineEndOffset(text, line)] == '\n'
    ensures forall p :: LineStartOffset(text, line) <= p < LineEndOffset(text, line) ==> text[p] != '\n'
  {
  }

  // ---------------------------------------------------------------------
  // Fragments and their consistency.
  // ---------------------------------------------------------------------

  /** A result fragment: offsets on both sides, and for a line fragment also lines and inner fragments. */
  datatype Fragment =
    | DiffFragment(startOffset1: int, endOffset1: int, startOffset2: int, endOffset2: int)
    | LineFragment(startOffset1: int, endOffset1: int, startOffset2: int, endOffset2: int,
                   startLine1: int, endLine1: int, startLine2: int, endLine2: int,
                   innerFragments: InnerFragments)

  /** The inner (word) fragments of a line fragment, which may be absent. */
  datatype InnerFragments = NoInnerFragments | Inner(fragments: seq<Fragment>)

  /**
   * `checkLineOffsets` for one side: a range of lines starts at its first
   * line's start and ends after its last line's newline (or at the text's
   * end); an empty range sits at its line's start, or at the text's end past
   * the last line.
   */
  predicate LineOffsetsMatch(text: string, startLine: int, endLine: int, startOffset: int, endOffset: int)
    requires 0 <= startLine <= endLine <= LineCount(text)
  {
    if startLine != endLine then
      var offset := LineEndOffset(text, endLine - 1);
      var offset := if offset < |text| then offset + 1 else offset;
      LineStartOffset(text, startLine) == startOffset && offset == endOffset
    else
      var offset := if startLine == LineCount(text) then |text| else LineStartOffset(text, startLine);
      offset == startOffset && offset == endOffset
  }

  /** Matching offsets are ordered line boundaries, equal exactly for an empty range of lines. */
  lemma {:induction false} LineOffsetsMatchSpec(text: string, startLine: int, endLine: int, startOffset: int, endOffset: int)
    requires 0 <= startLine <= endLine <= LineCount(text)
    requires LineOffsetsMatch(text, startLine, endLine, startOffset, endOffset)
    ensures LineBoundary(text, startOffset) && LineBoundary(text, endOffset)
    ensures startOffset <= endOffset
    ensures startLine == endLine ==> startOffset == endOffset
  {
    if startLine != endLine {
      LineOffsetsSpec(text, startLine);
      LineOffsetsSpec(text, endLine - 1);
      if startLine < endLine - 1 {
        var nl := Newlines(text);
        assert startLine == 0 || nl[startLine - 1] < nl[endLine - 2];
      }
    } else if startLine < LineCount(text) {
      LineOffsetsSpec(text, startLine);
    }
  }

  /**
   * `checkConsistency` for one fragment: ordered offsets; for a line
   * fragment ordered line ranges within the documents, not both empty, with
   * offsets matching the lines, and consistent inner fragments; otherwise
   * offsets not both empty.
   */
  predicate FragmentConsistent(f: Fragment, before: string, after: string)
    decreases f
  {
    && f.startOffset1 <= f.endOffset1
    && f.startOffset2 <= f.endOffset2
    && if f.LineFragment? then
         && f.startLine1 <= f.endLine1 && f.startLine2 <= f.endLine2
         && (f.startLine1 != f.endLine1 || f.startLine2 != f.endLine2)
         && f.startLine1 >= 0 && f.startLine2 >= 0
         && f.endLine1 <= LineCount(before) && f.endLine2 <= LineCount(after)
         && LineOffsetsMatch(before, f.startLine1, f.endLine1, f.startOffset1, f.endOffset1)
         && LineOffsetsMatch(after, f.startLine2, f.endLine2, f.startOffset2, f.endOffset2)
         && (f.innerFragments.Inner? ==>
               forall g :: g in f.innerFragments.fragments ==> FragmentConsistent(g, before, after))
       else
         f.startOffset1 != f.endOffset1 || f.startOffset2 != f.endOffset2
  }

  /** `checkConsistency`: every fragment is consistent. */
  predicate Consistent(fragments: seq<Fragment>, before: string, after: string) {
    forall f :: f in fragments ==> FragmentConsistent(f, before, after)
  }

  /**
   * A consistent line fragment covers whole lines of both documents: its
   * offsets are line boundaries within the texts, and an empty line range
   * has an empty offset range.
   */
  lemma LineFragmentCoversLines(f: Fragment, before: string, after: string)
    requires f.LineFragment? && FragmentConsistent(f, before, after)
    ensures LineBoundary(before, f.startOffset1) && LineBoundary(before, f.endOffset1)
    ensures LineBoundary(after, f.startOffset2) && LineBoundary(after, f.endOffset2)
    ensures WellFormedChange(Couple(IntPair(f.startLine1, f.endLine1), IntPair(f.startLine2, f.endLine2)))
    ensures f.startLine1 == f.endLine1 ==> f.startOffset1 == f.endOffset1
    ensures f.startLine2 == f.endLine2 ==> f.startOffset2 == f.endOffset2
  {
    LineOffsetsMatchSpec(before, f.startLine1, f.endLine1, f.startOffset1, f.endOffset1);
    LineOffsetsMatchSpec(after, f.startLine2, f.endLine2, f.startOffset2, f.endOffset2);
  }

  /**
   * Consistent line fragments meet what `BitSet.set` needs in both matching
   * checks: their line ranges and offset ranges are non-negative and ordered.
   */
  lemma ConsistentLineFragmentsMatchable(fragments: seq<Fragment>, before: string, after: string)
    requires forall i :: 0 <= i < |fragments| ==> fragments[i].LineFragment?
    requires Consistent(fragments, before, after)
    ensures forall i :: 0 <= i < |fragments| ==>
      0 <= fragments[i].startLine1 <= fragments[i].endLine1 && 0 <= fragments[i].startLine2 <= fragments[i].endLine2
    ensures forall i :: 0 <= i < |fragments| ==>
      0 <= fragments[i].startOffset1 <= fragments[i].endOffset1 && 0 <= fragments[i].startOffset2 <= fragments[i].endOffset2
  {
    forall i | 0 <= i < |fragments|
      ensures 0 <= fragments[i].startLine1 <= fragments[i].endLine1 && 0 <= fragments[i].startLine2 <= fragments[i].endLine2
      ensures 0 <= fragments[i].startOffset1 <= fragments[i].endOffset1 && 0 <= fragments[i].startOffset2 <= fragments[i].endOffset2
    {
      assert fragments[i] in fragments;
      LineFragmentCoversLines(fragments[i], before, after);
    }
  }

  /** Consistency is checked fragment by fragment: it holds for a concatenation exactly when it holds for both parts. */
  lemma ConsistentAppend(fs: seq<Fragment>, gs: seq<Fragment>, before: string, after: string)
    ensures Consistent(fs + gs, before, after) <==> Consistent(fs, before, after) && Consistent(gs, before, after)
  {
    assert forall f :: f in fs + gs <==> f in fs || f in gs;
  }

  // ---------------------------------------------------------------------
  // Converting fragments and collecting the matched ranges.
  // ---------------------------------------------------------------------

  /** `convertDiffFragments`: each fragment's offset ranges. */
  function ConvertDiffFragments(fragments: seq<Fragment>): seq<Couple<IntPair>> {
    seq(|fragments|, i requires 0 <= i < |fragments| =>
      Couple(IntPair(fragments[i].startOffset1, fragments[i].endOffset1), IntPair(fragments[i].startOffset2, fragments[i].endOffset2)))
  }

  /** `convertLineFragments`: each line fragment's line ranges. */
  function ConvertLineFragments(fragments: seq<Fragment>): seq<Couple<IntPair>>
    requires forall i :: 0 <= i < |fragments| ==> fragments[i].LineFragment?
  {
    seq(|fragments|, i requires 0 <= i < |fragments| =>
      Couple(IntPair(fragments[i].startLine1, fragments[i].endLine1), IntPair(fragments[i].startLine2, fragments[i].endLine2)))
  }

  function Firsts(changes: seq<Couple<IntPair>>): seq<IntPair> {
    seq(|changes|, i requires 0 <= i < |changes| => changes[i].first)
  }

  function Seconds(changes: seq<Couple<IntPair>>): seq<IntPair> {
    seq(|changes|, i requires 0 <= i < |changes| => changes[i].second)
  }

  /** The indices `[r.val1, r.val2)`: what `BitSet.set(from, to)` sets. */
  function RangeSet(r: IntPair): (bits: set<int>)
    ensures forall x :: x in bits <==> r.val1 <= x < r.val2
    decreases r.val2 - r.val1
  {
    if r.val1 >= r.val2 then {} else {r.val1} + RangeSet(IntPair(r.val1 + 1, r.val2))
  }

  /** The union of the ranges, in order. */
  function Covered(ranges: seq<IntPair>): set<int> {
    if |ranges| == 0 then {} else Covered(ranges[..|ranges| - 1]) + RangeSet(ranges[|ranges| - 1])
  }

  /** An index is covered exactly when it lies in one of the ranges. */
  lemma {:induction false} CoveredSpec(ranges: seq<IntPair>, x: int)
    ensures x in Covered(ranges) <==> exists i :: 0 <= i < |ranges| && ranges[i].val1 <= x < ranges[i].val2
  {
    if |ranges| > 0 {
      var init := ranges[..|ranges| - 1];
      CoveredSpec(init, x);
      if x in Covered(init) {
        var i :| 0 <= i < |init| && init[i].val1 <= x < init[i].val2;
        assert ranges[i] == init[i];
      }
      if i :| 0 <= i < |ranges| && ranges[i].val1 <= x < ranges[i].val2 {
        if i < |init| { assert init[i] == ranges[i]; }
      }
    }
  }

  /** The matched offsets of a diff result are those some fragment covers, side by side. */
  lemma DiffMatchingSpec(fragments: seq<Fragment>, x: int)
    ensures x in Covered(Firsts(ConvertDiffFragments(fragments))) <==>
      exists i :: 0 <= i < |fragments| && fragments[i].startOffset1 <= x < fragments[i].endOffset1
    ensures x in Covered(Seconds(ConvertDiffFragments(fragments))) <==>
      exists i :: 0 <= i < |fragments| && fragments[i].startOffset2 <= x < fragments[i].endOffset2
  {
    var ranges1 := Firsts(ConvertDiffFragments(fragments));
    var ranges2 := Seconds(ConvertDiffFragments(fragments));
    CoveredSpec(ranges1, x);
    CoveredSpec(ranges2, x);
    assert forall i :: 0 <= i < |fragments| ==>
      ranges1[i] == IntPair(fragments[i].startOffset1, fragments[i].endOffset1) && ranges2[i] == IntPair(fragments[i].startOffset2, fragments[i].endOffset2);
  }

  /** The matched lines of a line result are those some fragment covers, side by side. */
  lemma LineMatchingSpec(fragments: seq<Fragment>, x: int)
    requires forall i :: 0 <= i < |fragments| ==> fragments[i].LineFragment?
    ensures x in Covered(Firsts(ConvertLineFragments(fragments))) <==>
      exists i :: 0 <= i < |fragments| && fragments[i].startLine1 <= x < fragments[i].endLine1
    ensures x in Covered(Seconds(ConvertLineFragments(fragments))) <==>
      exists i :: 0 <= i < |fragments| && fragments[i].startLine2 <= x < fragments[i].endLine2
  {
    var ranges1 := Firsts(ConvertLineFragments(fragments));
    var ranges2 := Seconds(ConvertLineFragments(fragments));
    CoveredSpec(ranges1, x);
    CoveredSpec(ranges2, x);
    assert forall i :: 0 <= i < |fragments| ==>
      ranges1[i] == IntPair(fragments[i].startLine1, fragments[i].endLine1) && ranges2[i] == IntPair(fragments[i].startLine2, fragments[i].endLine2);
  }

  /**
   * `checkDiffMatching`: sets the bits of every fragment's offset ranges,
   * then compares them with the expected matchings. `BitSet.set` throws on
   * a negative or reversed range, and the requires assumes there is none.
   * The consistency check rules out reversed ranges, and for line fragments
   * negative lines and offsets too (`ConsistentLineFragmentsMatchable`), but
   * not negative offsets of other fragments.
   */
  method CheckDiffMatching(fragments: seq<Fragment>, matchings: Couple<set<int>>) returns (ok: bool)
    requires forall i :: 0 <= i < |fragments| ==>
      0 <= fragments[i].startOffset1 <= fragments[i].endOffset1 && 0 <= fragments[i].startOffset2 <= fragments[i].endOffset2
    ensures ok <==> (matchings.first == Covered(Firsts(ConvertDiffFragments(fragments)))
                  && matchings.second == Covered(Seconds(ConvertDiffFragments(fragments))))
  {
    ghost var ranges1 := Firsts(ConvertDiffFragments(fragments));
    ghost var ranges2 := Seconds(ConvertDiffFragments(fragments));
    var set1: set<int> := {};
    var set2: set<int> := {};
    for i := 0 to |fragments|
      invariant set1 == Covered(ranges1[..i]) && set2 == Covered(ranges2[..i])
    {
      set1 := set1 + RangeSet(IntPair(fragments[i].startOffset1, fragments[i].endOffset1));
      set2 := set2 + RangeSet(IntPair(fragments[i].startOffset2, fragments[i].endOffset2));
      assert ranges1[..i + 1][..i] == ranges1[..i] && ranges2[..i + 1][..i] == ranges2[..i];
    }
    assert ranges1[..|fragments|] == ranges1 && ranges2[..|fragments|] == ranges2;
    ok := matchings.first == set1 && matchings.second == set2;
  }

  /** `checkLineMatching`: the same over the line ranges of line fragments. */
  method CheckLineMatching(fragments: seq<Fragment>, matchings: Couple<set<int>>) returns (ok: bool)
    requires forall i :: 0 <= i < |fragments| ==> fragments[i].LineFragment?
    requires forall i :: 0 <= i < |fragments| ==>
      0 <= fragments[i].startLine1 <= fragments[i].endLine1 && 0 <= fragments[i].startLine2 <= fragments[i].endLine2
    ensures ok <==> (matchings.first == Covered(Firsts(ConvertLineFragments(fragments)))
                  && matchings.second == Covered(Seconds(ConvertLineFragments(fragments))))
  {
    ghost var ranges1 := Firsts(ConvertLineFragments(fragments));
    ghost var ranges2 := Seconds(ConvertLineFragments(fragments));
    var set1: set<int> := {};
    var set2: set<int> := {};
    for i := 0 to |fragments|
      invariant set1 == Covered(ranges1[..i]) && set2 == Covered(ranges2[..i])
    {
      set1 := set1 + RangeSet(IntPair(fragments[i].startLine1, fragments[i].endLine1));
      set2 := set2 + RangeSet(IntPair(fragments[i].startLine2, fragments[i].endLine2));
      assert ranges1[..i + 1][..i] == ranges1[..i] && ranges2[..i + 1][..i] == ranges2[..i];
    }
    assert ranges1[..|fragments|] == ranges1 && ranges2[..|fragments|] == ranges2;
    ok := matchings.first == set1 && matchings.second == set2;
  }

  // ---------------------------------------------------------------------
  // Parsing line matchings.
  // ---------------------------------------------------------------------

  /** The characters that end a line in a line-matching string: `_` for an unchanged line, `*` for a changed one. */
  const MatchingDelimiters: set<char> := {'_', '*'}

  /** The first position of a character of `delims` in `s`. */
  function FirstIndexOf(s: string, delims: set<char>): (r: Option<nat>)
    ensures r.Some? ==> r.value < |s|
  {
    if |s| == 0 then None
    else if s[0] in delims then Some(0)
    else match FirstIndexOf(s[1..], delims)
      case None => None
      case Some(k) => Some(k + 1)
  }

  /** The first delimiter is a delimiter and none comes before it; without one, `s` holds none. */
  lemma {:induction false} FirstIndexOfSpec(s: string, delims: set<char>)
    ensures var r := FirstIndexOf(s, delims);
      r.Some? ==> s[r.value] in delims && forall k :: 0 <= k < r.value ==> s[k] !in delims
    ensures FirstIndexOf(s, delims).None? ==> forall k :: 0 <= k < |s| ==> s[k] !in delims
  {
    if |s| > 0 && s[0] !in delims {
      FirstIndexOfSpec(s[1..], delims);
    }
  }

  /** `indexOfAny(delims, from)`: the first delimiter at or after `from`, or -1. */
  function IndexOfAny(s: string, delims: set<char>, from: nat): (r: int)
    requires from <= |s|
    ensures r == -1 || from <= r < |s|
  {
    match FirstIndexOf(s[from..], delims)
    case None => -1
    case Some(k) => from + k
  }

  /** `split(delims)`: the pieces between the delimiters, an empty piece after a trailing one. */
  function Split(s: string, delims: set<char>): (pieces: seq<string>)
    ensures |pieces| >= 1
    ensures forall i, k :: 0 <= i < |pieces| && 0 <= k < |pieces[i]| ==> pieces[i][k] !in delims
    decreases |s|
  {
    FirstIndexOfSpec(s, delims);
    match FirstIndexOf(s, delims)
    case None => [s]
    case Some(k) => [s[..k]] + Split(s[k + 1..], delims)
  }

  /** The pieces `parseLineMatching` walks: each runs up to and including the next delimiter, the last possibly without one. */
  function Segments(m: string): seq<string>
    decreases |m|
  {
    if |m| == 0 then []
    else match FirstIndexOf(m, MatchingDelimiters)
      case None => [m]
      case Some(k) => [m[..k + 1]] + Segments(m[k + 1..])
  }

  /** A segment marking its line: some character other than a space or `_`. */
  predicate Marked(segment: string) {
    exists k :: 0 <= k < |segment| && segment[k] != ' ' && segment[k] != '_'
  }

  /** The lines below `n` whose segment is marked. */
  function MarkedBelow(m: string, n: nat): set<nat> {
    set i: nat | i < n && i < |Segments(m)| && Marked(Segments(m)[i])
  }

  /** The lines whose segment is marked. */
  function MarkedLines(m: string): set<nat> {
    MarkedBelow(m, |Segments(m)|)
  }

  /** The assertion inside the loop, for the lines below `n`: a marked segment holds no space. */
  predicate MarkedWithoutSpacesBelow(m: string, n: nat) {
    forall i :: 0 <= i < n && i < |Segments(m)| && Marked(Segments(m)[i]) ==> ' ' !in Segments(m)[i]
  }

  /** The assertion inside the loop: a marked segment holds no space. */
  predicate MarkedWithoutSpaces(m: string) {
    MarkedWithoutSpacesBelow(m, |Segments(m)|)
  }

  /** The marked lines, absent when a marked segment holds a space. */
  function MarkedResult(m: string): Option<set<nat>> {
    if MarkedWithoutSpaces(m) then Some(MarkedLines(m)) else None
  }

  /** Each piece of the matching is as long as the document's line at its position. */
  predicate PiecesFit(lines1: seq<string>, lines2: seq<string>) {
    |lines1| == |lines2| && forall i :: 0 <= i < |lines1| ==> |lines1[i]| == |lines2[i]|
  }

  /**
   * `parseLineMatching`: the matching string must be as long as the
   * document and split into as many pieces as the document has lines, each
   * as long as its line; absent when one of these assertions fails.
   */
  function LineMatching(matching: string, text: string): Option<set<nat>> {
    if |matching| != |text| then None
    else if !PiecesFit(Split(matching, MatchingDelimiters), Split(text, {'\n'})) then None
    else MarkedResult(matching)
  }

  /** Before the first delimiter at `k` comes the first piece; `split` goes on after it. */
  lemma SplitCut(s: string, k: nat)
    requires FirstIndexOf(s, MatchingDelimiters) == Some(k)
    ensures Split(s, MatchingDelimiters) == [s[..k]] + Split(s[k + 1..], MatchingDelimiters)
  {
  }

  /** Through the first delimiter at `k` runs the first segment; the segments go on after it. */
  lemma SegmentsCut(s: string, k: nat)
    requires FirstIndexOf(s, MatchingDelimiters) == Some(k)
    ensures Segments(s) == [s[..k + 1]] + Segments(s[k + 1..])
  {
  }

  /** The first piece of a string runs up to its first delimiter, or is the whole string. */
  lemma SplitHead(s: string)
    ensures FirstIndexOf(s, MatchingDelimiters).None? ==> Split(s, MatchingDelimiters) == [s]
    ensures FirstIndexOf(s, MatchingDelimiters).Some? ==>
      Split(s, MatchingDelimiters) == [s[..FirstIndexOf(s, MatchingDelimiters).value]]
                                      + Split(s[FirstIndexOf(s, MatchingDelimiters).value + 1..], MatchingDelimiters)
  {
    match FirstIndexOf(s, MatchingDelimiters)
    case None =>
      assert Split(s, MatchingDelimiters) == [s];
    case Some(k) =>
      SplitCut(s, k);
  }

  /** The first segment of a non-empty string runs through its first delimiter, or is the whole string. */
  lemma SegmentsHead(s: string)
    requires |s| > 0
    ensures FirstIndexOf(s, MatchingDelimiters).None? ==> Segments(s) == [s]
    ensures FirstIndexOf(s, MatchingDelimiters).Some? ==>
      Segments(s) == [s[..FirstIndexOf(s, MatchingDelimiters).value + 1]]
                     + Segments(s[FirstIndexOf(s, MatchingDelimiters).value + 1..])
  {
    match FirstIndexOf(s, MatchingDelimiters)
    case None =>
      assert Segments(s) == [s];
    case Some(k) =>
      SegmentsCut(s, k);
  }

  /** One turn of the parsing loop: the segment at `index` runs to `end`, just after the next delimiter or the end of the string. */
  lemma SegmentsStep(m: string, index: nat, end: int)
    requires index < |m|
    requires end == if IndexOfAny(m, MatchingDelimiters, index) == -1 then |m| else IndexOfAny(m, MatchingDelimiters, index) + 1
    ensures index < end <= |m|
    ensures Segments(m[index..]) == [m[index..end]] + Segments(m[end..])
  {
    var rest := m[index..];
    match FirstIndexOf(rest, MatchingDelimiters)
    case None =>
      assert Segments(rest) == [rest];
      assert end == |m|;
      assert m[index..end] == rest && m[end..] == [];
    case Some(k) =>
      SegmentsCut(rest, k);
      assert end == index + k + 1;
      assert rest[..k + 1] == m[index..end] && rest[k + 1..] == m[end..];
  }

  /** Counting one more line adds it to the marked lines when its segment is marked. */
  lemma MarkedBelowStep(m: string, n: nat)
    requires n < |Segments(m)|
    ensures MarkedBelow(m, n + 1) == MarkedBelow(m, n) + (if Marked(Segments(m)[n]) then {n} else {})
  {
  }

  /** Counting one more line keeps the assertion exactly when its segment is unmarked or holds no space. */
  lemma MarkedWithoutSpacesStep(m: string, n: nat)
    requires n < |Segments(m)|
    ensures MarkedWithoutSpacesBelow(m, n + 1) <==>
      MarkedWithoutSpacesBelow(m, n) && (Marked(Segments(m)[n]) ==> ' ' !in Segments(m)[n])
  {
  }

  /** A failed assertion on line `n` fails the assertion for the whole matching. */
  lemma MarkedWithSpace(m: string, n: nat)
    requires n < |Segments(m)|
    requires !MarkedWithoutSpacesBelow(m, n + 1)
    ensures !MarkedWithoutSpaces(m)
  {
  }

  /** One turn of the loop: the segment of line `lineNumber` is the one at `index`. */
  lemma NextSegment(m: string, segments: seq<string>, index: nat, lineNumber: nat, end: int)
    requires index < |m| && lineNumber <= |segments|
    requires Segments(m[index..]) == segments[lineNumber..]
    requires end == if IndexOfAny(m, MatchingDelimiters, index) == -1 then |m| else IndexOfAny(m, MatchingDelimiters, index) + 1
    ensures index < end <= |m| && lineNumber < |segments|
    ensures segments[lineNumber] == m[index..end]
    ensures segments[lineNumber + 1..] == Segments(m[end..])
  {
    SegmentsStep(m, index, end);
    var tail := segments[lineNumber..];
    assert tail == [m[index..end]] + Segments(m[end..]);
    assert segments[lineNumber] == tail[0];
    assert segments[lineNumber + 1..] == tail[1..];
  }

  /** The loop of `parseLineMatching`: marks the line of every marked segment, asserting it holds no space. */
  method MarkLines(matching: string) returns (r: Option<set<nat>>)
    ensures r == MarkedResult(matching)
  {
    ghost var segments := Segments(matching);
    var bits: set<nat> := {};
    var index := 0;
    var lineNumber := 0;
    assert matching[0..] == matching;
    while index < |matching|
      invariant 0 <= index <= |matching|
      invariant lineNumber <= |segments|
      invariant Segments(matching[index..]) == segments[lineNumber..]
      invariant bits == MarkedBelow(matching, lineNumber)
      invariant MarkedWithoutSpacesBelow(matching, lineNumber)
      decreases |matching| - index
    {
      var end := IndexOfAny(matching, MatchingDelimiters, index) + 1;
      if end == 0 { end := |matching|; }

      var line := matching[index..end];
      NextSegment(matching, segments, index, lineNumber, end);
      MarkedBelowStep(matching, lineNumber);
      MarkedWithoutSpacesStep(matching, lineNumber);
      if Marked(line) {
        if ' ' in line {
          MarkedWithSpace(matching, lineNumber);
          return None;
        }
        bits := bits + {lineNumber};
      }
      lineNumber := lineNumber + 1;
      index := end;
    }
    assert segments[lineNumber..] == [];
    return Some(bits);
  }

  /** `parseLineMatching`: the assertions on the lengths, then the marking loop. */
  method ParseLineMatching(matching: string, text: string) returns (r: Option<set<nat>>)
    ensures r == LineMatching(matching, text)
  {
    if |matching| != |text| { return None; }

    var lines1 := Split(matching, MatchingDelimiters);
    var lines2 := Split(text, {'\n'});
    if |lines1| != |lines2| { return None; }
    for i := 0 to |lines1|
      invariant forall i' :: 0 <= i' < i ==> |lines1[i']| == |lines2[i']|
    {
      if |lines1[i]| != |lines2[i]| { return None; }
    }

    r := MarkLines(matching);
  }

  // ---------------------------------------------------------------------
  // What a parsed line matching means.
  // ---------------------------------------------------------------------

  lemma {:induction false} CountAppend(a: string, b: string, delims: set<char>)
    ensures Count(a + b, delims) == Count(a, delims) + Count(b, delims)
  {
    if |a| == 0 {
      assert a + b == b;
    } else {
      assert (a + b)[1..] == a[1..] + b;
      CountAppend(a[1..], b, delims);
    }
  }

  lemma {:induction false} CountNone(s: string, delims: set<char>)
    requires forall k :: 0 <= k < |s| ==> s[k] !in delims
    ensures Count(s, delims) == 0
  {
    if |s| > 0 { CountNone(s[1..], delims); }
  }

  /** `split` gives one piece more than there are delimiters. */
  lemma {:induction false} SplitCount(s: string, delims: set<char>)
    ensures |Split(s, delims)| == Count(s, delims) + 1
    decreases |s|
  {
    FirstIndexOfSpec(s, delims);
    match FirstIndexOf(s, delims)
    case None =>
      CountNone(s, delims);
    case Some(k) =>
      assert s == s[..k] + ([s[k]] + s[k + 1..]);
      CountAppend(s[..k], [s[k]] + s[k + 1..], delims);
      CountAppend([s[k]], s[k + 1..], delims);
      CountNone(s[..k], delims);
      assert Count([s[k]], delims) == 1 by { assert [s[k]][1..] == []; }
      SplitCount(s[k + 1..], delims);
  }

  /** The newline index holds one position per newline. */
  lemma {:induction false} NewlinesCount(text: string, from: nat)
    requires from <= |text|
    ensures |NewlinesFrom(text, from)| == Count(text[from..], {'\n'})
    decreases |text| - from
  {
    if from < |text| {
      assert text[from..][1..] == text[from + 1..];
      NewlinesCount(text, from + 1);
    }
  }

  /** The document's lines are its newline-separated pieces. */
  lemma LineCountIsSplit(text: string)
    ensures LineCount(text) == |Split(text, {'\n'})|
  {
    NewlinesCount(text, 0);
    assert text[0..] == text;
    SplitCount(text, {'\n'});
  }

  /** There are no more segments than `split` gives pieces. */
  lemma {:induction false} SegmentsCount(m: string)
    ensures |Segments(m)| <= |Split(m, MatchingDelimiters)|
    decreases |m|
  {
    if |m| > 0 {
      match FirstIndexOf(m, MatchingDelimiters)
      case None =>
      case Some(k) =>
        SegmentsCount(m[k + 1..]);
    }
  }

  /** A segment is its piece, possibly followed by the delimiter that ended it. */
  predicate SegmentOfPiece(segment: string, piece: string) {
    |segment| > 0 &&
    (segment == piece || (segment[..|segment| - 1] == piece && segment[|segment| - 1] in MatchingDelimiters))
  }

  /**
   * Each segment the parser walks is the piece `split` gives at the same
   * position, followed by the delimiter that ended it (all but possibly the
   * last).
   */
  lemma {:induction false} SegmentPiece(m: string, i: nat)
    requires i < |Segments(m)|
    ensures i < |Split(m, MatchingDelimiters)|
    ensures SegmentOfPiece(Segments(m)[i], Split(m, MatchingDelimiters)[i])
    decreases i
  {
    SegmentsCount(m);
    FirstIndexOfSpec(m, MatchingDelimiters);
    SegmentsHead(m);
    SplitHead(m);
    match FirstIndexOf(m, MatchingDelimiters)
    case None =>
    case Some(k) =>
      var rest := m[k + 1..];
      var segments := Segments(m);
      var pieces := Split(m, MatchingDelimiters);
      if i == 0 {
        assert m[..k + 1][..k] == m[..k];
      } else {
        SegmentPiece(rest, i - 1);
        assert segments[i] == Segments(rest)[i - 1];
        assert pieces[i] == Split(rest, MatchingDelimiters)[i - 1];
      }
  }

  /**
   * A line is marked exactly when its piece of the matching string holds a
   * character other than a space, or its segment ends in `*`.
   */
  lemma MarkedLineSpec(m: string, i: nat)
    requires i < |Segments(m)|
    ensures i < |Split(m, MatchingDelimiters)|
    ensures i in MarkedLines(m) <==>
      var seg := Segments(m)[i];
      var piece := Split(m, MatchingDelimiters)[i];
      (exists k :: 0 <= k < |piece| && piece[k] != ' ') || (|seg| > |piece| && seg[|seg| - 1] == '*')
  {
    SegmentPiece(m, i);
    var seg := Segments(m)[i];
    var piece := Split(m, MatchingDelimiters)[i];
    if seg != piece {
      assert forall k :: 0 <= k < |piece| ==> seg[k] == piece[k];
      if Marked(seg) {
        var k :| 0 <= k < |seg| && seg[k] != ' ' && seg[k] != '_';
        if k < |piece| { assert piece[k] != ' '; }
      }
    }
  }

  /** Every line a parsed matching marks is a line of the document. */
  lemma ParsedLinesInDocument(m: string, text: string)
    requires LineMatching(m, text).Some?
    ensures forall i :: i in LineMatching(m, text).value ==> i < LineCount(text)
  {
    SegmentsCount(m);
    LineCountIsSplit(text);
  }
}
