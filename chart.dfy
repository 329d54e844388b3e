/**
 * `GanttChart`: an ordered list of tasks and the presentation settings, from
 * which the date range, the axis labels and the Google Charts parameters
 * (`cht`, `chco`, `chtt`, `chs`, `chds`, `chbh`, `chg`, `chxt`, `chxl`,
 * optionally `chdl` and `chm`, and `chd`) are derived on every call.
 */
module Chart {
  import opened Wrappers
  import opened Text
  import opened Dates
  import opened Colors
  import opened Unique
  import opened Tasks

  /** The size a chart gets when `width` or `height` is not given. */
  const DEFAULT_WIDTH: int := 600
  const DEFAULT_HEIGHT: int := 200
  /** The first entry of `chco`: the offset series is drawn transparent. */
  const TRANSPARENT: string := "FFFFFF00"

  predicate AllValid(tasks: seq<Task>) {
    forall i :: 0 <= i < |tasks| ==> tasks[i].Valid()
  }

  // ---------------------------------------------------------------- date range

  /** `start_date()`: the earliest start of any task (Python's `min` fails on no tasks). */
  function StartDate(tasks: seq<Task>): (r: Day)
    requires |tasks| > 0
    ensures forall i :: 0 <= i < |tasks| ==> r <= tasks[i].start
    ensures exists i :: 0 <= i < |tasks| && r == tasks[i].start
  {
    if |tasks| == 1 then tasks[0].start
    else
      var rest := StartDate(tasks[1..]);
      assert forall i :: 1 <= i < |tasks| ==> tasks[1..][i - 1] == tasks[i];
      if tasks[0].start <= rest then tasks[0].start else rest
  }

  /** `end_date()`: the latest end of any task. */
  function EndDate(tasks: seq<Task>): (r: Day)
    requires |tasks| > 0
    ensures forall i :: 0 <= i < |tasks| ==> tasks[i].end <= r
    ensures exists i :: 0 <= i < |tasks| && r == tasks[i].end
  {
    if |tasks| == 1 then tasks[0].end
    else
      var rest := EndDate(tasks[1..]);
      assert forall i :: 1 <= i < |tasks| ==> tasks[1..][i - 1] == tasks[i];
      if rest <= tasks[0].end then tasks[0].end else rest
  }

  /** `duration()`: the chart's span in days, never negative for constructed tasks. */
  function Duration(tasks: seq<Task>): (r: int)
    requires |tasks| > 0
    ensures AllValid(tasks) ==> 0 <= r
    ensures r == EndDate(tasks) - StartDate(tasks)
  {
    var i :| 0 <= i < |tasks| && StartDate(tasks) == tasks[i].start;
    assert tasks[i].start <= tasks[i].end <= EndDate(tasks) || !AllValid(tasks);
    EndDate(tasks) - StartDate(tasks)
  }

  /** Offset of each task's start from the chart's start (the first series of `chd`). */
  function Offsets(tasks: seq<Task>): (r: seq<int>)
    requires |tasks| > 0
    ensures |r| == |tasks|
  {
    seq(|tasks|, i requires 0 <= i < |tasks| => tasks[i].start - StartDate(tasks))
  }

  /** Every bar lies inside the chart: its offset is at least 0 and it ends by `duration()`. */
  lemma OffsetsInRange(tasks: seq<Task>)
    requires |tasks| > 0 && AllValid(tasks)
    ensures forall i :: 0 <= i < |tasks| ==>
              0 <= Offsets(tasks)[i] && Offsets(tasks)[i] + tasks[i].duration <= Duration(tasks)
    ensures forall i :: 0 <= i < |tasks| ==> Offsets(tasks)[i] <= Duration(tasks)
  {
  }

  // ---------------------------------------------------------------- arithmetic of the layout

  /** Python's `int(float(a) / b)`: the quotient truncated toward zero. */
  function TruncDiv(a: int, b: int): int
    requires b != 0
  {
    var q := Abs(a) / Abs(b);
    if (0 <= a) == (0 < b) then q else -q
  }

  /** The truncated quotient has the magnitude of the quotient of the magnitudes and the sign of the operands. */
  lemma TruncDivValue(a: int, b: int)
    requires b != 0
    ensures Abs(TruncDiv(a, b)) == Abs(a) / Abs(b)
    ensures (0 <= a) == (0 < b) ==> 0 <= TruncDiv(a, b)
    ensures (0 <= a) != (0 < b) ==> TruncDiv(a, b) <= 0
    ensures 0 <= a && 0 < b ==> TruncDiv(a, b) == a / b
  {
    DivNonNegative(Abs(a), Abs(b));
  }

  lemma DivNonNegative(x: int, y: int)
    requires 0 <= x && 0 < y
    ensures 0 <= x / y
  {
  }

  function Abs(x: int): nat {
    if x < 0 then -x else x
  }

  /** `task_size`: the bar thickness, `int((height - 50.) / n) - 4`. */
  function BarThickness(height: int, n: int): int
    requires n > 0
  {
    TruncDiv(height - 50, n) - 4
  }

  /** From a height of 50 pixels on, the bar thickness is the floor quotient less the 4 pixel gap. */
  lemma BarThicknessValue(height: int, n: int)
    requires n > 0
    ensures 50 <= height ==> BarThickness(height, n) == (height - 50) / n - 4
    ensures height < 50 ==> BarThickness(height, n) == -((50 - height) / n) - 4
  {
    TruncDivValue(height - 50, n);
  }

  /**
   * `skip_n_labels` for `count` day labels on a chart `width` pixels wide:
   * every label when there are more than 80 pixels per day (Python 2 integer
   * division), otherwise `int(1. / (width / count / 80.))`, that is
   * `80 * count / width` truncated.
   */
  function Skip(width: int, count: int): int
    requires width != 0 && count > 0
  {
    if width / count > 80 then 1 else TruncDiv(80 * count, width)
  }

  /** Every label when days get more than 80 pixels, otherwise one label per `80 * count / width` days. */
  lemma SkipValue(width: int, count: int)
    requires width != 0 && count > 0
    ensures width / count > 80 ==> Skip(width, count) == 1
    ensures 0 < width && width / count <= 80 ==> Skip(width, count) == 80 * count / width
    ensures 0 < width ==> 0 <= Skip(width, count)
  {
    if width / count <= 80 {
      TruncDivValue(80 * count, width);
    }
  }

  /** For a positive width the skip is zero exactly when `80 * count < width < 81 * count`. */
  lemma SkipZeroWindow(width: int, count: int)
    requires 0 < width && count > 0
    ensures Skip(width, count) == 0 <==> 80 * count < width < 81 * count
  {
    SkipValue(width, count);
    DivAtLeast(width, count, 81);
    if width / count <= 80 {
      DivAtLeast(80 * count, width, 1);
    }
  }

  lemma DivAtLeast(a: int, b: int, k: int)
    requires 0 < b && 0 <= k
    ensures a / b >= k <==> a >= k * b
  {
    var q := a / b;
    assert q * b + a % b == a;
    if q >= k {
      assert q * b >= k * b;
    } else {
      assert q + 1 <= k;
      assert (q + 1) * b <= k * b;
    }
  }

  /** The window is not empty: a 161 pixel chart spanning one day gets skip 0 and `day_series` divides by zero. */
  lemma SkipZeroExample()
    ensures Skip(161, 2) == 0
  {
  }

  /** The `day_series` labels: the label of day `start + i` at every skip-th index, a blank elsewhere. */
  function DayLabels(start: int, count: nat, skip: int, dayLabel: int -> string): (r: seq<string>)
    requires skip != 0
    ensures |r| == count
  {
    seq(count, i requires 0 <= i < count => if i % skip == 0 then dayLabel(start + i) else " ")
  }

  /** A sequence with the right label at every position is the label row. */
  lemma DayLabelsPointwise(labels: seq<string>, start: int, count: nat, skip: int, dayLabel: int -> string)
    requires skip != 0 && |labels| == count
    requires forall i :: 0 <= i < count ==> labels[i] == if i % skip == 0 then dayLabel(start + i) else " "
    ensures labels == DayLabels(start, count, skip, dayLabel)
  {
  }

  // ---------------------------------------------------------------- categories and series

  function CategoryList(tasks: seq<Task>): (r: seq<Category>)
    ensures |r| == |tasks| && forall i :: 0 <= i < |tasks| ==> r[i] == tasks[i].category
  {
    seq(|tasks|, i requires 0 <= i < |tasks| => tasks[i].category)
  }

  /** The chart's categories: those of its tasks, once each, in order of first use. */
  function Categories(tasks: seq<Task>): seq<Category> {
    Dedup(CategoryList(tasks))
  }

  lemma CategoriesNonEmpty(tasks: seq<Task>)
    requires |tasks| > 0
    ensures |Categories(tasks)| > 0
  {
    DedupMembers(CategoryList(tasks));
    assert CategoryList(tasks)[0] in CategoryList(tasks);
  }

  /** Every task's category is among the chart's categories exactly once, and there is no other. */
  lemma CategoriesOfTasks(tasks: seq<Task>)
    ensures Distinct(Categories(tasks))
    ensures forall i :: 0 <= i < |tasks| ==> tasks[i].category in Categories(tasks)
    ensures forall k :: 0 <= k < |Categories(tasks)| ==>
              exists i :: 0 <= i < |tasks| && tasks[i].category == Categories(tasks)[k]
    ensures |Categories(tasks)| == |set i | 0 <= i < |tasks| :: tasks[i].category|
  {
    var list := CategoryList(tasks);
    DedupMembers(list);
    DedupDistinct(list);
    DedupCount(list);
    assert (set x | x in list) == (set i | 0 <= i < |tasks| :: tasks[i].category);
    forall k | 0 <= k < |Categories(tasks)|
      ensures exists i :: 0 <= i < |tasks| && tasks[i].category == Categories(tasks)[k]
    {
      var c := Categories(tasks)[k];
      assert c in list;
      var i :| 0 <= i < |list| && list[i] == c;
      assert tasks[i].category == c;
    }
  }

  /** One data series of `chd`: the task's duration at its own index when it is in category `c`, else 0. */
  function Series(tasks: seq<Task>, c: Category): (r: seq<int>)
    ensures |r| == |tasks|
  {
    seq(|tasks|, i requires 0 <= i < |tasks| => if tasks[i].category == c then tasks[i].duration else 0)
  }

  /** The series of `chd`: the offsets, then one series per category in order of first use. */
  function Blocks(tasks: seq<Task>): (r: seq<seq<int>>)
    requires |tasks| > 0
  {
    var cats := Categories(tasks);
    [Offsets(tasks)] + seq(|cats|, k requires 0 <= k < |cats| => Series(tasks, cats[k]))
  }

  /**
   * The shape of `chd`: one offset per task, then one block per distinct
   * category in order of first use, each as long as the task list.
   */
  lemma BlocksShape(tasks: seq<Task>)
    requires |tasks| > 0
    ensures |Blocks(tasks)| == 1 + |Categories(tasks)|
    ensures Blocks(tasks)[0] == Offsets(tasks)
    ensures forall k :: 0 <= k < |Categories(tasks)| ==> Blocks(tasks)[k + 1] == Series(tasks, Categories(tasks)[k])
    ensures forall b :: 0 <= b < |Blocks(tasks)| ==> |Blocks(tasks)[b]| == |tasks|
  {
    var blocks := Blocks(tasks);
    forall b | 0 <= b < |blocks|
      ensures |blocks[b]| == |tasks|
    {
      if b > 0 {
        assert blocks[b] == Series(tasks, Categories(tasks)[b - 1]);
      }
    }
  }

  /**
   * Task i's duration stands at index i of its own category's block, which is
   * exactly one block, and 0 stands at index i of every other block.
   */
  lemma TaskInOwnBlock(tasks: seq<Task>, i: int)
    requires 0 <= i < |tasks|
    ensures exists k :: 0 <= k < |Categories(tasks)| && Categories(tasks)[k] == tasks[i].category
              && Series(tasks, Categories(tasks)[k])[i] == tasks[i].duration
              && (forall l :: 0 <= l < |Categories(tasks)| && l != k ==> Series(tasks, Categories(tasks)[l])[i] == 0)
  {
    var cats := Categories(tasks);
    CategoriesOfTasks(tasks);
    var k :| 0 <= k < |cats| && cats[k] == tasks[i].category;
    forall l | 0 <= l < |cats| && l != k
      ensures Series(tasks, cats[l])[i] == 0
    {
      assert cats[l] != cats[k];
    }
  }

  // ---------------------------------------------------------------- the chd string

  /** Each series written as `','.join(str(x) …)`. */
  function SeriesStrings(blocks: seq<seq<int>>): (r: seq<string>)
    ensures |r| == |blocks|
    ensures forall b :: 0 <= b < |blocks| ==> r[b] == Join(Strings(blocks[b]), ',')
  {
    seq(|blocks|, b requires 0 <= b < |blocks| => Join(Strings(blocks[b]), ','))
  }

  /** `chd`: `'t:'`, the offsets, then `'|'` and the category series separated by `'|'`. */
  function Chd(tasks: seq<Task>): string
    requires |tasks| > 0
  {
    var blocks := Blocks(tasks);
    "t:" + Join(Strings(blocks[0]), ',') + "|" + Join(SeriesStrings(blocks[1..]), '|')
  }

  /** Reading the series back out of a `chd` string. */
  function DecodeChd(s: string): Option<seq<seq<int>>> {
    if |s| >= 2 && s[..2] == "t:" then ParseSeries(Split(s[2..], '|')) else None
  }

  function ParseSeries(pieces: seq<string>): Option<seq<seq<int>>> {
    if pieces == [] then Some([])
    else match (ParseInts(Split(pieces[0], ',')), ParseSeries(pieces[1..]))
      case (Some(xs), Some(rest)) => Some([xs] + rest)
      case _ => None
  }

  lemma {:induction false} JoinedNumbersHaveNoBar(xs: seq<int>)
    ensures '|' !in Join(Strings(xs), ',')
  {
    forall i | 0 <= i < |xs|
      ensures '|' !in Strings(xs)[i]
    {
      IntToStringHasNoSeparator(xs[i]);
    }
    JoinAvoids(Strings(xs), ',', '|');
  }

  lemma {:induction false} ParseJoinedNumbers(xs: seq<int>)
    requires |xs| > 0
    ensures ParseInts(Split(Join(Strings(xs), ','), ',')) == Some(xs)
  {
    forall i | 0 <= i < |xs|
      ensures ',' !in Strings(xs)[i]
    {
      IntToStringHasNoSeparator(xs[i]);
    }
    SplitJoin(Strings(xs), ',');
    StringsRoundTrip(xs);
  }

  lemma {:induction false} ParseSeriesStrings(blocks: seq<seq<int>>)
    requires forall b :: 0 <= b < |blocks| ==> |blocks[b]| > 0
    ensures ParseSeries(SeriesStrings(blocks)) == Some(blocks)
  {
    if blocks != [] {
      ParseJoinedNumbers(blocks[0]);
      ParseSeriesStrings(blocks[1..]);
      assert SeriesStrings(blocks)[1..] == SeriesStrings(blocks[1..]);
      assert [blocks[0]] + blocks[1..] == blocks;
    }
  }

  /** Any non-empty list of non-empty series survives being written with `'t:'`, `'|'` and `','` and read back. */
  lemma {:induction false} EncodeSeriesRoundTrip(blocks: seq<seq<int>>)
    requires |blocks| > 0
    requires forall b :: 0 <= b < |blocks| ==> |blocks[b]| > 0
    ensures DecodeChd("t:" + Join(SeriesStrings(blocks), '|')) == Some(blocks)
  {
    var pieces := SeriesStrings(blocks);
    var body := Join(pieces, '|');
    assert ("t:" + body)[..2] == "t:" && ("t:" + body)[2..] == body;
    forall b | 0 <= b < |pieces|
      ensures '|' !in pieces[b]
    {
      JoinedNumbersHaveNoBar(blocks[b]);
    }
    SplitJoin(pieces, '|');
    ParseSeriesStrings(blocks);
  }

  lemma JoinSeriesStrings(blocks: seq<seq<int>>)
    requires |blocks| > 1
    ensures Join(SeriesStrings(blocks), '|')
            == Join(Strings(blocks[0]), ',') + "|" + Join(SeriesStrings(blocks[1..]), '|')
  {
    assert SeriesStrings(blocks)[1..] == SeriesStrings(blocks[1..]);
  }

  /** `chd` is the offsets block and the category blocks, joined as one list of series. */
  lemma ChdIsJoinedBlocks(tasks: seq<Task>)
    requires |tasks| > 0
    ensures Chd(tasks) == "t:" + Join(SeriesStrings(Blocks(tasks)), '|')
  {
    CategoriesNonEmpty(tasks);
    JoinSeriesStrings(Blocks(tasks));
  }

  /** `chd` is a faithful encoding: reading it back gives the offsets and every category series. */
  lemma ChdRoundTrip(tasks: seq<Task>)
    requires |tasks| > 0
    ensures DecodeChd(Chd(tasks)) == Some(Blocks(tasks))
  {
    BlocksShape(tasks);
    ChdIsJoinedBlocks(tasks);
    EncodeSeriesRoundTrip(Blocks(tasks));
  }

  // ---------------------------------------------------------------- legend, marker, parameter values

  /** `reduce(lambda acc, c: acc or c.title, categories, False)`: does some category have a title? */
  function AnyTitle(cats: seq<Category>): (r: bool)
    ensures r <==> exists k :: 0 <= k < |cats| && cats[k].title != ""
  {
    if cats == [] then false
    else
      var n := |cats| - 1;
      assert forall k :: 0 <= k < n ==> cats[..n][k] == cats[k];
      AnyTitle(cats[..n]) || cats[n].title != ""
  }

  /** The positions of the titled categories: strictly increasing, and exactly those with a non-empty title. */
  function TitledIndices(cats: seq<Category>): (idx: seq<nat>)
    ensures forall j :: 0 <= j < |idx| ==> idx[j] < |cats|
    ensures forall j, l :: 0 <= j < l < |idx| ==> idx[j] < idx[l]
    ensures forall k :: 0 <= k < |cats| ==> (k in idx <==> cats[k].title != "")
    decreases |cats|
  {
    if cats == [] then []
    else
      var n := |cats| - 1;
      assert forall k :: 0 <= k < n ==> cats[..n][k] == cats[k];
      TitledIndices(cats[..n]) + (if cats[n].title != "" then [n] else [])
  }

  /** `[c.title for c in categories if c.title]`. */
  function Titles(cats: seq<Category>): seq<string>
    decreases |cats|
  {
    if cats == [] then []
    else
      var n := |cats| - 1;
      Titles(cats[..n]) + (if cats[n].title != "" then [cats[n].title] else [])
  }

  /** The titles are those of the categories at the titled positions, in order. */
  lemma {:induction false} TitlesAtIndices(cats: seq<Category>)
    ensures |Titles(cats)| == |TitledIndices(cats)|
    ensures forall j :: 0 <= j < |Titles(cats)| ==> Titles(cats)[j] == cats[TitledIndices(cats)[j]].title
    decreases |cats|
  {
    if cats != [] {
      var n := |cats| - 1;
      var p := cats[..n];
      TitlesAtIndices(p);
      var rest, idx := Titles(p), TitledIndices(p);
      assert Titles(cats) == rest + (if cats[n].title != "" then [cats[n].title] else []);
      assert TitledIndices(cats) == idx + (if cats[n].title != "" then [n] else []);
      forall j | 0 <= j < |rest|
        ensures Titles(cats)[j] == cats[TitledIndices(cats)[j]].title
      {
        assert idx[j] < n && p[idx[j]] == cats[idx[j]];
      }
    }
  }

  /**
   * Every title in the result is non-empty, every non-empty title is in it, and
   * it is empty exactly when no category has a title.
   */
  lemma TitlesExact(cats: seq<Category>)
    ensures |Titles(cats)| <= |cats|
    ensures forall j :: 0 <= j < |Titles(cats)| ==> Titles(cats)[j] != ""
    ensures forall k :: 0 <= k < |cats| && cats[k].title != "" ==> cats[k].title in Titles(cats)
    ensures Titles(cats) == [] <==> !AnyTitle(cats)
  {
    var idx, r := TitledIndices(cats), Titles(cats);
    TitlesAtIndices(cats);
    IncreasingBelowLength(idx, |cats|);
    forall j | 0 <= j < |r|
      ensures r[j] != ""
    {
      assert idx[j] in idx && r[j] == cats[idx[j]].title;
    }
    forall k | 0 <= k < |cats| && cats[k].title != ""
      ensures cats[k].title in r
    {
      var j :| 0 <= j < |idx| && idx[j] == k;
      assert r[j] == cats[k].title;
    }
    if AnyTitle(cats) {
      var k :| 0 <= k < |cats| && cats[k].title != "";
      assert cats[k].title in r;
    }
  }

  /** When every category has a title, the titles are all of them, in order. */
  lemma {:induction false} TitlesOfTitled(cats: seq<Category>)
    requires forall k :: 0 <= k < |cats| ==> cats[k].title != ""
    ensures |Titles(cats)| == |cats|
    ensures forall k :: 0 <= k < |cats| ==> Titles(cats)[k] == cats[k].title
    decreases |cats|
  {
    if cats != [] {
      var n := |cats| - 1;
      var p := cats[..n];
      assert forall k :: 0 <= k < n ==> p[k] == cats[k];
      TitlesOfTitled(p);
      assert Titles(cats) == Titles(p) + [cats[n].title];
    }
  }

  /** A strictly increasing sequence of numbers below `n` has at most `n` elements. */
  lemma {:induction false} IncreasingBelowLength(idx: seq<nat>, n: nat)
    requires forall j :: 0 <= j < |idx| ==> idx[j] < n
    requires forall j, l :: 0 <= j < l < |idx| ==> idx[j] < idx[l]
    ensures |idx| <= n
    decreases n
  {
    if idx != [] {
      var m := |idx| - 1;
      assert forall j :: 0 <= j < m ==> idx[..m][j] < idx[m] <= n - 1;
      IncreasingBelowLength(idx[..m], idx[m]);
    }
  }

  /** `'FFFFFF00,' + ','.join(colors)`: the transparent offsets colour, then one colour per category. */
  function ColorList(cats: seq<Category>): string {
    TRANSPARENT + "," + Join(seq(|cats|, k requires 0 <= k < |cats| => cats[k].color), ',')
  }

  /** `chco` answers the colours back: the transparent one, then each category's, when no colour holds a comma. */
  lemma ColorListSplit(cats: seq<Category>)
    requires |cats| > 0
    requires forall k :: 0 <= k < |cats| ==> ',' !in cats[k].color
    ensures Split(ColorList(cats), ',') == [TRANSPARENT] + seq(|cats|, k requires 0 <= k < |cats| => cats[k].color)
  {
    var cs := seq(|cats|, k requires 0 <= k < |cats| => cats[k].color);
    JoinAppend([TRANSPARENT], cs, ',');
    SplitJoin([TRANSPARENT] + cs, ',');
  }

  /** The parameter values: text, or text around a floating-point quotient `float(num) / den`. */
  datatype ParamValue =
    | Str(s: string)
    | FloatText(prefix: string, num: int, den: int, suffix: string)

  /** The progress marker is drawn only for a progress date within the chart's range. */
  predicate ProgressShown(tasks: seq<Task>, progress: Option<Day>)
    requires |tasks| > 0
  {
    progress.Some? && StartDate(tasks) <= progress.value <= EndDate(tasks)
  }

  /** `chm`: a vertical range marker in the default colour at `days / duration()` of the width. */
  function ProgressMarker(tasks: seq<Task>, progress: Option<Day>): (r: Option<ParamValue>)
    requires |tasks| > 0
    ensures r.Some? <==> ProgressShown(tasks, progress)
    ensures r.Some? ==> r.value.FloatText? && 0 <= r.value.num <= r.value.den == Duration(tasks)
  {
    if ProgressShown(tasks, progress) then
      Some(FloatText("r," + DEFAULT_COLOR[..6] + "33,0,0,", progress.value - StartDate(tasks), Duration(tasks), ""))
    else None
  }

  /** The Y axis: task titles from last to first, so the first task is drawn at the top. */
  function ReversedTitles(tasks: seq<Task>): (r: seq<string>)
    ensures |r| == |tasks|
    ensures forall i :: 0 <= i < |tasks| ==> r[|tasks| - 1 - i] == tasks[i].title
  {
    seq(|tasks|, j requires 0 <= j < |tasks| => tasks[|tasks| - 1 - j].title)
  }

  /** `chxl`: the day labels on axis 0, the reversed task titles on axis 1. */
  function AxisLabels(days: seq<string>, tasks: seq<Task>): string {
    "0:|" + Join(days, '|') + "|1:|" + Join(ReversedTitles(tasks), '|')
  }

  /** `chxl` is one join of its parts: the axis-0 marker, the day labels, the axis-1 marker and the reversed titles. */
  lemma AxisLabelsJoined(days: seq<string>, tasks: seq<Task>)
    requires |days| > 0 && |tasks| > 0
    ensures AxisLabels(days, tasks) == Join(["0:"] + days + ["1:"] + ReversedTitles(tasks), '|')
  {
    AxisMarkers(Join(days, '|'), Join(ReversedTitles(tasks), '|'));
    JoinMarked("0:", days, "1:", ReversedTitles(tasks), '|');
  }

  /** The literal pieces of `chxl`, as marker, separator, marker, separator. */
  lemma AxisMarkers(a: string, b: string)
    ensures "0:|" + a + "|1:|" + b == "0:" + ['|'] + a + ['|'] + ("1:" + ['|'] + b)
  {
    assert "0:" + ['|'] == "0:|";
    assert ['|'] + "1:" + ['|'] == "|1:|";
  }

  /**
   * `chxl` answers its parts back: the axis-0 marker, the day labels, the
   * axis-1 marker and the reversed titles, when none of them holds a `'|'`.
   */
  lemma AxisLabelsSplit(days: seq<string>, tasks: seq<Task>)
    requires |days| > 0 && |tasks| > 0
    requires forall i :: 0 <= i < |days| ==> '|' !in days[i]
    requires forall i :: 0 <= i < |tasks| ==> '|' !in tasks[i].title
    ensures Split(AxisLabels(days, tasks), '|') == ["0:"] + days + ["1:"] + ReversedTitles(tasks)
  {
    var titles := ReversedTitles(tasks);
    var parts := ["0:"] + days + ["1:"] + titles;
    AxisLabelsJoined(days, tasks);
    forall i | 0 <= i < |parts|
      ensures '|' !in parts[i]
    {
      if 0 < i <= |days| {
        assert parts[i] == days[i - 1];
      } else if |days| + 1 < i {
        var j := i - |days| - 2;
        assert parts[i] == titles[j] == tasks[|tasks| - 1 - j].title;
      }
    }
    SplitJoin(parts, '|');
  }

  /** The requirements under which `params()` does not raise. */
  predicate CanRender(tasks: seq<Task>, width: int)
  {
    && |tasks| > 0
    && Duration(tasks) != 0
    && width != 0
    && (AllValid(tasks) ==> Skip(width, Duration(tasks) + 1) != 0)
  }

  /** `chdl`: present when some category has a title, listing the non-empty titles after a leading `'|'`. */
  function Legend(cats: seq<Category>): (r: Option<string>)
    ensures r.Some? <==> exists k :: 0 <= k < |cats| && cats[k].title != ""
  {
    if AnyTitle(cats) then Some("|" + Join(Titles(cats), '|')) else None
  }

  /** The dict literal of `params()`: the keys every chart has, from their formatted values. */
  function FixedParams(title: string, size: string, range: string, barWidth: string, grid: ParamValue,
                       colors: string, axes: string): (p: map<string, ParamValue>)
    ensures p.Keys == {"cht", "chco", "chtt", "chs", "chds", "chbh", "chg", "chxt", "chxl"}
    ensures "chdl" !in p && "chm" !in p && "chd" !in p
    ensures p["chco"] == Str(colors)
  {
    map[
      "cht" := Str("bhs"),
      "chco" := Str(colors),
      "chtt" := Str(title),
      "chs" := Str(size),
      "chds" := Str(range),
      "chbh" := Str(barWidth),
      "chg" := grid,
      "chxt" := Str("x,y"),
      "chxl" := Str(axes)]
  }

  /** The literal, then `chdl` and `chm` when they apply: the parameter map before the merge. */
  function ParamsMap(fixed: map<string, ParamValue>, legend: Option<string>, marker: Option<ParamValue>): (p: map<string, ParamValue>)
    ensures p.Keys == fixed.Keys + (if legend.Some? then {"chdl"} else {}) + (if marker.Some? then {"chm"} else {})
    ensures forall k :: k in fixed && k != "chdl" && k != "chm" ==> p[k] == fixed[k]
    ensures "chdl" in p <==> "chdl" in fixed || legend.Some?
    ensures "chm" in p <==> "chm" in fixed || marker.Some?
  {
    var withLegend := if legend.Some? then fixed["chdl" := Str(legend.value)] else fixed;
    if marker.Some? then withLegend["chm" := marker.value] else withLegend
  }

  /** The dict literal of `params()` filled in for a chart. */
  function ChartFixedParams(title: string, width: int, height: int, tasks: seq<Task>,
                            dayLabel: int -> string): (r: map<string, ParamValue>)
    requires AllValid(tasks) && CanRender(tasks, width)
    ensures "chdl" !in r && "chm" !in r && "chd" !in r
    ensures "chco" in r && r["chco"] == Str(ColorList(Categories(tasks)))
  {
    var d := Duration(tasks);
    FixedParams(
      title,
      IntToString(width) + "x" + IntToString(height),
      "0," + IntToString(d),
      IntToString(BarThickness(height, |tasks|)) + ",4,0",
      FloatText("", 100, d, ",0"),
      ColorList(Categories(tasks)),
      AxisLabels(DayLabels(StartDate(tasks), d + 1, Skip(width, d + 1), dayLabel), tasks))
  }

  /** The parameters `params()` computes before `raw_inputs` is merged and `chd` is added. */
  function BaseParams(title: string, width: int, height: int, progress: Option<Day>,
                      tasks: seq<Task>, dayLabel: int -> string): (r: map<string, ParamValue>)
    requires AllValid(tasks) && CanRender(tasks, width)
    ensures "chdl" in r <==> AnyTitle(Categories(tasks))
    ensures "chm" in r <==> ProgressShown(tasks, progress)
    ensures "chco" in r && r["chco"] == Str(ColorList(Categories(tasks)))
    ensures "chd" !in r
  {
    ParamsMap(ChartFixedParams(title, width, height, tasks, dayLabel),
              Legend(Categories(tasks)), ProgressMarker(tasks, progress))
  }

  /** `params.update(raw_inputs)` followed by `params['chd'] = …`: `chd` wins, then `raw`, then `base`. */
  lemma MergeThenSet(base: map<string, ParamValue>, raw: map<string, ParamValue>, v: ParamValue)
    ensures var p := (base + raw)["chd" := v];
            && p.Keys == base.Keys + raw.Keys + {"chd"}
            && p["chd"] == v
            && (forall k :: k in raw && k != "chd" ==> p[k] == raw[k])
            && (forall k :: k in base && k !in raw && k != "chd" ==> p[k] == base[k])
  {
  }

  /** `progress`, as the chart constructor coerces it: absent stays absent, anything else goes through `as_date`. */
  function ChartProgress(progress: Option<DateInput>): (r: Result<Option<Day>, DateError>)
    ensures progress.None? ==> r == Success(None)
    ensures progress.Some? ==>
              match AsDate(progress.value)
              case Success(d) => r == Success(Some(d))
              case Failure(e) => r == Failure(e)
  {
    match progress
    case None => Success(None)
    case Some(p) =>
      match AsDate(p)
      case Success(d) => Success(Some(d))
      case Failure(e) => Failure(e)
  }

  // ---------------------------------------------------------------- the documented tour

  /** The four categories of the tour, with their colours normalised. */
  function TourCategories(): seq<Category> {
    [Category("Complete", "000000FF"), Category("On Time", "00CC00FF"),
     Category("Upcoming", "0000CCFF"), Category("Late", "CC0000FF")]
  }

  /** The tour's tasks as resolved: 1 to 6 February 2011, then 6 to 16, 16 to 20, and 1 to 13. */
  function TourTasks(): seq<Task> {
    var cats := TourCategories();
    var t1 := Task("Task 1", 734169, 734174, 5, cats[0], None);
    var t2 := Task("Task 2", 734174, 734184, 10, cats[1], Some(t1));
    var t3 := Task("Task 3", 734184, 734188, 4, cats[2], Some(t2));
    var t4 := Task("Task 4", 734169, 734181, 12, cats[3], None);
    [t1, t2, t3, t4]
  }

  /** The tour's first and last days, 1 and 20 February 2011, as ordinals. */
  lemma TourDays()
    ensures Ordinal(2011, 2, 1) == 734169 && Ordinal(2011, 2, 20) == 734188
  {
    assert DaysBeforeYear(2011) == 734137;
  }

  /** The tour's chart spans 19 days, the `chds=0,19` of its URL. */
  lemma TourSpan()
    ensures AllValid(TourTasks())
    ensures StartDate(TourTasks()) == 734169 && EndDate(TourTasks()) == 734188
    ensures Duration(TourTasks()) == 19
  {
    var tasks := TourTasks();
    assert tasks[0].start == 734169 && tasks[2].end == 734188;
    assert forall i :: 0 <= i < |tasks| ==> 734169 <= tasks[i].start && tasks[i].end <= 734188;
  }

  /** The tour's categories are the ones built from the shorthand colours `000`, `0c0`, `00c` and `c00`. */
  lemma TourCategoryColors()
    ensures NewCategory("Complete", "000") == TourCategories()[0]
    ensures NewCategory("On Time", "0c0") == TourCategories()[1]
    ensures NewCategory("Upcoming", "00c") == TourCategories()[2]
    ensures NewCategory("Late", "c00") == TourCategories()[3]
  {
    ParseColorExamples();
    assert UpperChar('0') == '0' && UpperChar('c') == 'C';
  }

  /** The tour's categories are four different ones, so each task brings a new one. */
  lemma TourCategoriesDistinct()
    ensures Distinct(TourCategories())
  {
    var cats := TourCategories();
    assert cats[0].title[0] == 'C' && cats[1].title[0] == 'O' && cats[2].title[0] == 'U' && cats[3].title[0] == 'L';
  }

  /** The tour's categories, in order of first use, are its four categories. */
  lemma TourCategoryOrder()
    ensures Categories(TourTasks()) == TourCategories()
  {
    TourCategoriesDistinct();
    var list := CategoryList(TourTasks());
    assert list == TourCategories();
    DedupOfDistinct(list);
  }

  /** `chco` for the tour: transparent offsets, then black, green, blue and red. */
  lemma TourColorList()
    ensures ColorList(TourCategories()) == TRANSPARENT + "," + Join(["000000FF", "00CC00FF", "0000CCFF", "CC0000FF"], ',')
  {
    var cats := TourCategories();
    assert seq(|cats|, k requires 0 <= k < |cats| => cats[k].color) == ["000000FF", "00CC00FF", "0000CCFF", "CC0000FF"];
  }

  /** `chdl` for the tour: every category has a title, so all four appear. */
  lemma TourLegend()
    ensures Legend(TourCategories()) == Some("|" + Join(["Complete", "On Time", "Upcoming", "Late"], '|'))
  {
    var cats := TourCategories();
    assert cats[0].title == "Complete" && cats[1].title == "On Time";
    assert cats[2].title == "Upcoming" && cats[3].title == "Late";
    TitlesOfTitled(cats);
    assert Titles(cats) == [cats[0].title, cats[1].title, cats[2].title, cats[3].title];
    assert AnyTitle(cats);
  }

  /** The first argument of `add_task`: a task already built, or the arguments to build one. */
  datatype TaskSource = Existing(task: Task) | Build(args: TaskArgs)

  class GanttChart {
    var title: string
    var tasks: seq<Task>
    var width: int
    var height: int
    var progress: Option<Day>

    /** Every task on the chart went through task construction. */
    predicate Valid()
      reads this
    {
      AllValid(tasks)
    }

    /** `GanttChart(title, tasks=…, width=…, height=…, progress=…)` with the progress already coerced. */
    constructor (title: string, tasks: seq<Task>, width: int, height: int, progress: Option<Day>)
      requires AllValid(tasks)
      ensures Valid()
      ensures this.title == title && this.tasks == tasks && this.width == width
      ensures this.height == height && this.progress == progress
    {
      this.title := title;
      this.tasks := tasks;
      this.width := width;
      this.height := height;
      this.progress := progress;
    }

    /** `GanttChart(title)`: no tasks, the default size and no progress. */
    constructor WithDefaults(title: string)
      ensures Valid()
      ensures this.title == title && this.tasks == []
      ensures this.width == DEFAULT_WIDTH && this.height == DEFAULT_HEIGHT && this.progress.None?
    {
      this.title := title;
      this.tasks := [];
      this.width := DEFAULT_WIDTH;
      this.height := DEFAULT_HEIGHT;
      this.progress := None;
    }

    /**
     * `add_task`: a given task is appended as it is, otherwise a task is built
     * from the arguments and appended; a construction error leaves the chart as
     * it was. The appended task is returned.
     */
    method AddTask(source: TaskSource) returns (r: Result<Task, TaskError>)
      requires Valid()
      requires source.Existing? ==> source.task.Valid()
      modifies this`tasks
      ensures Valid()
      ensures r == (match source case Existing(t) => Success(t) case Build(a) => NewTask(a))
      ensures r.Success? ==> tasks == old(tasks) + [r.value]
      ensures r.Failure? ==> tasks == old(tasks)
    {
      if source.Existing? {
        r := Success(source.task);
      } else {
        r := NewTask(source.args);
      }
      if r.Success? {
        tasks := tasks + [r.value];
      }
    }

    /**
     * `day_series`: one label per day from the chart's start to its end
     * inclusive, the day's label at every skip-th day and a blank elsewhere.
     */
    method DaySeries(dayLabel: int -> string) returns (labels: seq<string>)
      requires Valid() && |tasks| > 0 && width != 0
      requires Skip(width, Duration(tasks) + 1) != 0
      ensures |labels| == Duration(tasks) + 1
      ensures forall i :: 0 <= i < |labels| ==>
                labels[i] == if i % Skip(width, Duration(tasks) + 1) == 0
                             then dayLabel(StartDate(tasks) + i) else " "
      ensures labels[0] == dayLabel(StartDate(tasks))
      ensures width / (Duration(tasks) + 1) > 80 ==>
                forall i :: 0 <= i < |labels| ==> labels[i] == dayLabel(StartDate(tasks) + i)
      ensures labels == DayLabels(StartDate(tasks), Duration(tasks) + 1, Skip(width, Duration(tasks) + 1), dayLabel)
    {
      var start := StartDate(tasks);
      var count := Duration(tasks) + 1;
      var skip := Skip(width, count);
      labels := [];
      for i := 0 to count
        invariant |labels| == i
        invariant forall j :: 0 <= j < i ==> labels[j] == if j % skip == 0 then dayLabel(start + j) else " "
      {
        if i % skip == 0 {
          labels := labels + [dayLabel(start + i)];
        } else {
          labels := labels + [" "];
        }
      }
      DayLabelsPointwise(labels, start, count, skip, dayLabel);
    }

    /** One `zeroed_data` list: `'0'` for every task, overwritten by the duration of the tasks in category `c`. */
    method CategorySeries(c: Category) returns (series: seq<string>)
      ensures |series| == |tasks|
      ensures forall i :: 0 <= i < |tasks| ==>
                series[i] == if tasks[i].category == c then IntToString(tasks[i].duration) else "0"
      ensures series == Strings(Series(tasks, c))
    {
      var zeroed := new string[|tasks|](_ => "0");
      for i := 0 to |tasks|
        invariant forall j :: 0 <= j < i ==>
                    zeroed[j] == if tasks[j].category == c then IntToString(tasks[j].duration) else "0"
        invariant forall j :: i <= j < |tasks| ==> zeroed[j] == "0"
      {
        if !SameCategory(tasks[i].category, c) {
          continue;
        }
        zeroed[i] := IntToString(tasks[i].duration);
      }
      series := zeroed[..];
      assert IntToString(0) == "0";
    }

    /** Lines of `params()` up to the merge: the fixed keys, then the legend and the marker when they apply. */
    method ComputedParams(dayLabel: int -> string) returns (p: map<string, ParamValue>)
      requires Valid() && CanRender(tasks, width)
      ensures p == BaseParams(title, width, height, progress, tasks, dayLabel)
    {
      var n := |tasks|;
      var taskSize := BarThickness(height, n);
      var duration := Duration(tasks);
      var categories := Uniquify(CategoryList(tasks));
      var days := DaySeries(dayLabel);

      var colors := ColorList(categories);
      var size := IntToString(width) + "x" + IntToString(height);
      var range := "0," + IntToString(duration);
      var barWidth := IntToString(taskSize) + ",4,0";
      var grid := FloatText("", 100, duration, ",0");
      var axes := AxisLabels(days, tasks);

      p := FixedParams(title, size, range, barWidth, grid, colors, axes);
      ghost var fixed := p;

      var legend := Legend(categories);
      if legend.Some? {
        p := p["chdl" := Str(legend.value)];
      }
      ghost var withLegend := p;
      var marker := ProgressMarker(tasks, progress);
      if marker.Some? {
        p := p["chm" := marker.value];
      }
      assert p == if marker.Some? then withLegend["chm" := marker.value] else withLegend;
      assert withLegend == if legend.Some? then fixed["chdl" := Str(legend.value)] else fixed;
      assert p == ParamsMap(fixed, legend, marker);
      assert categories == Categories(tasks);
      assert days == DayLabels(StartDate(tasks), duration + 1, Skip(width, duration + 1), dayLabel);
    }

    /** Lines of `params()` after the merge: the offsets, one `zeroed_data` list per category, joined into `chd`. */
    method ChdValue() returns (chd: string)
      requires |tasks| > 0
      ensures chd == Chd(tasks)
    {
      var categories := Uniquify(CategoryList(tasks));
      var offsets := Strings(Offsets(tasks));
      var data: seq<string> := [];
      for k := 0 to |categories|
        invariant |data| == k
        invariant forall j :: 0 <= j < k ==> data[j] == Join(Strings(Series(tasks, categories[j])), ',')
      {
        var zeroed := CategorySeries(categories[k]);
        data := data + [Join(zeroed, ',')];
      }
      BlocksShape(tasks);
      assert data == SeriesStrings(Blocks(tasks)[1..]);
      chd := "t:" + Join(offsets, ',') + "|" + Join(data, '|');
    }

    /**
     * `params(raw_inputs)`: the computed parameters, then `raw_inputs` merged
     * over them, then `chd`, which is set last and so is never overridden.
     */
    method Params(raw: map<string, ParamValue>, dayLabel: int -> string) returns (p: map<string, ParamValue>)
      requires Valid() && CanRender(tasks, width)
      ensures p == (BaseParams(title, width, height, progress, tasks, dayLabel) + raw)["chd" := Str(Chd(tasks))]
      ensures "chd" in p && p["chd"] == Str(Chd(tasks))
      ensures forall k :: k in raw && k != "chd" ==> k in p && p[k] == raw[k]
      ensures "chdl" in p <==> "chdl" in raw || AnyTitle(Categories(tasks))
      ensures "chm" in p <==> "chm" in raw || ProgressShown(tasks, progress)
      ensures "chco" !in raw ==> "chco" in p && p["chco"] == Str(ColorList(Categories(tasks)))
    {
      p := ComputedParams(dayLabel);
      ghost var base := p;
      p := p + raw;
      var chd := ChdValue();
      p := p["chd" := Str(chd)];
      assert base == BaseParams(title, width, height, progress, tasks, dayLabel) && chd == Chd(tasks);
      MergeThenSet(base, raw, Str(chd));
    }
  }
}
