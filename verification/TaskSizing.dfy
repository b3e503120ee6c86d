/**
 Task auto-sizing: a scan over widths at a locked ratio, and a resize about the centre after every label edit.
*/
module TaskSizing {

  const MIN_WIDTH: int := 150
  const MIN_HEIGHT: int := 60
  const MAX_WIDTH: int := 600
  const GROWTH_STEP: int := 25
  const LABEL_PADDING: real := 7.0
  const ICON_GUTTER: real := 32.0

  datatype Text = Text(width: real, height: real)

  datatype Size = Size(width: int, height: int)

  /** `Math.round`: halves go up. */
  function Round(x: real): int { (x + 0.5).Floor }

  function Max(a: int, b: int): int { if a < b then b else a }

  function HeightFor(width: int): int { Max(MIN_HEIGHT, Round(width as real / 2.5)) }

  /** The ratio is exact on exactly the widths from the minimum up that are multiples of five. */
  lemma RatioIsExactExactlyWhen(width: int)
    ensures 5 * HeightFor(width) == 2 * width <==> width >= MIN_WIDTH && width % 5 == 0
  {
    var r := Round(width as real / 2.5);
    assert r as real <= width as real / 2.5 + 0.5 < r as real + 1.0;
    assert 10 * r <= 4 * width + 5 < 10 * r + 10;
  }

  /** The nearest whole pixel, halves up, and at least the minimum. */
  lemma HeightIs(width: int)
    ensures HeightFor(width) == if 4 * width + 5 < 600 then 60 else (4 * width + 5) / 10
  {
    var r := Round(width as real / 2.5);
    assert r as real <= width as real / 2.5 + 0.5 < r as real + 1.0;
    assert 10 * r <= 4 * width + 5 < 10 * r + 10;
  }

  lemma HeightGrows(v: int, w: int)
    requires v <= w
    ensures HeightFor(v) <= HeightFor(w)
  {
  }

  // ------------------------------------------------------------------ the scan

  /** From `width` in steps to below the limit, then the limit. */
  function Candidates(width: int, limit: int, step: int): (ws: seq<int>)
    requires step > 0
    decreases limit - width
  {
    if width < limit then [width] + Candidates(width + step, limit, step) else [limit]
  }

  lemma {:induction false} CandidatesAscend(width: int, limit: int, step: int)
    requires step > 0
    ensures var ws := Candidates(width, limit, step);
            && |ws| > 0 && ws[|ws| - 1] == limit && (width < limit ==> ws[0] == width)
            && (forall i, j | 0 <= i < j < |ws| :: ws[i] < ws[j])
            && (forall i | 0 <= i < |ws| && width < limit :: width <= ws[i])
    decreases limit - width
  {
    if width < limit {
      CandidatesAscend(width + step, limit, step);
      var ws, rest := Candidates(width, limit, step), Candidates(width + step, limit, step);
      assert ws == [width] + rest;
      forall i | 0 < i < |ws| ensures width < ws[i] { assert ws[i] == rest[i - 1]; }
    }
  }

  lemma StepOn(i: int, step: int)
    ensures (i - 1) * step + step == i * step
  {
  }

  /** Below the limit they are one step apart. */
  lemma {:induction false} CandidatesAreSteps(width: int, limit: int, step: int, i: nat)
    requires step > 0 && i + 1 < |Candidates(width, limit, step)|
    ensures Candidates(width, limit, step)[i] == width + i * step
    decreases i
  {
    if i > 0 {
      CandidatesAreSteps(width + step, limit, step, i - 1);
      StepOn(i, step);
    }
  }

  /** And none of them is left out. */
  lemma {:induction false} EveryStepIsACandidate(width: int, limit: int, step: int, i: nat)
    requires step > 0 && width + i * step < limit
    ensures width + i * step in Candidates(width, limit, step)
    decreases i
  {
    if i > 0 {
      StepOn(i, step);
      StepsArePositive(i, step);
      EveryStepIsACandidate(width + step, limit, step, i - 1);
    }
  }

  lemma StepsArePositive(i: nat, step: int)
    requires step > 0
    ensures i * step >= 0
  {
  }

  predicate Fits(measure: int -> Text, padding: real, gutter: real, width: int) {
    && measure(width).height <= HeightFor(width) as real - 2.0 * padding
    && measure(width).width + 2.0 * gutter <= width as real
  }

  /** The first of the widths that fits, else the limit. */
  function FirstFit(measure: int -> Text, padding: real, gutter: real, ws: seq<int>, limit: int): int {
    if ws == [] then limit
    else if Fits(measure, padding, gutter, ws[0]) then ws[0]
    else FirstFit(measure, padding, gutter, ws[1..], limit)
  }

  function FitWidth(measure: int -> Text, minWidth: int, maxWidth: int, step: int, padding: real, gutter: real): int
    requires step > 0
  {
    FirstFit(measure, padding, gutter, Candidates(minWidth, maxWidth, step), maxWidth)
  }

  method WidthCandidates(minWidth: int, maxWidth: int, step: int) returns (widths: seq<int>)
    requires step > 0
    ensures widths == Candidates(minWidth, maxWidth, step)
  {
    widths := [];
    var width := minWidth;
    while width < maxWidth
      invariant widths + Candidates(width, maxWidth, step) == Candidates(minWidth, maxWidth, step)
      decreases maxWidth - width
    {
      assert widths + ([width] + Candidates(width + step, maxWidth, step)) ==
             widths + [width] + Candidates(width + step, maxWidth, step);
      widths := widths + [width];
      width := width + step;
    }
    widths := widths + [maxWidth];
  }

  method FitTaskSize(measure: int -> Text, minWidth: int, maxWidth: int, step: int, padding: real, gutter: real)
      returns (size: Size)
    requires step > 0
    ensures size == Size(FitWidth(measure, minWidth, maxWidth, step, padding, gutter), HeightFor(size.width))
    ensures size.width in Candidates(minWidth, maxWidth, step)
    ensures forall w | w in Candidates(minWidth, maxWidth, step) && w < size.width ::
              !(measure(w).height <= HeightFor(w) as real - 2.0 * padding
                && measure(w).width + 2.0 * gutter <= w as real)
    ensures || (measure(size.width).height <= size.height as real - 2.0 * padding
                && measure(size.width).width + 2.0 * gutter <= size.width as real)
            || size.width == maxWidth
  {
    var widths := WidthCandidates(minWidth, maxWidth, step);
    FitIsLeast(measure, minWidth, maxWidth, step, padding, gutter);
    for i := 0 to |widths|
      invariant FirstFit(measure, padding, gutter, widths[i..], maxWidth) ==
                FitWidth(measure, minWidth, maxWidth, step, padding, gutter)
    {
      hide HeightFor, Candidates;
      var width := widths[i];
      var height := HeightFor(width);
      var text := measure(width);
      if text.height <= height as real - 2.0 * padding && text.width + 2.0 * gutter <= width as real {
        return Size(width, height);
      }
      assert widths[i..][1..] == widths[i + 1..];
    }
    return Size(maxWidth, HeightFor(maxWidth));
  }

  lemma {:induction false} FirstFitIsFirst(measure: int -> Text, padding: real, gutter: real, ws: seq<int>, limit: int)
    requires forall i, j | 0 <= i < j < |ws| :: ws[i] < ws[j]
    ensures var w := FirstFit(measure, padding, gutter, ws, limit);
            if exists v | v in ws :: Fits(measure, padding, gutter, v)
            then w in ws && Fits(measure, padding, gutter, w)
                 && forall v | v in ws && v < w :: !Fits(measure, padding, gutter, v)
            else w == limit
  {
    hide Fits;
    if ws != [] {
      FirstFitIsFirst(measure, padding, gutter, ws[1..], limit);
      assert ws == [ws[0]] + ws[1..];
      forall v | v in ws[1..] ensures ws[0] < v {
        var k :| 0 <= k < |ws[1..]| && ws[1..][k] == v;
        assert ws[k + 1] == v;
      }
    }
  }

  /** The smallest candidate that fits, or the cap when none does. */
  lemma FitIsLeast(measure: int -> Text, minWidth: int, maxWidth: int, step: int, padding: real, gutter: real)
    requires step > 0
    ensures var w := FitWidth(measure, minWidth, maxWidth, step, padding, gutter);
            && w in Candidates(minWidth, maxWidth, step)
            && (forall v | v in Candidates(minWidth, maxWidth, step) && v < w :: !Fits(measure, padding, gutter, v))
            && (Fits(measure, padding, gutter, w)
                || (w == maxWidth
                    && forall v | v in Candidates(minWidth, maxWidth, step) :: !Fits(measure, padding, gutter, v)))
  {
    hide Fits, FirstFit;
    var ws := Candidates(minWidth, maxWidth, step);
    CandidatesAscend(minWidth, maxWidth, step);
    FirstFitIsFirst(measure, padding, gutter, ws, maxWidth);
    assert ws[|ws| - 1] == maxWidth;
  }

  /** The text is nowhere larger. */
  ghost predicate NoLarger(m: int -> Text, n: int -> Text) {
    forall w :: m(w).width <= n(w).width && m(w).height <= n(w).height
  }

  lemma {:induction false} FirstFitIsMonotone(m: int -> Text, n: int -> Text, padding: real, g: real, h: real,
      ws: seq<int>, limit: int)
    requires NoLarger(m, n) && g <= h
    requires forall i, j | 0 <= i < j < |ws| :: ws[i] < ws[j]
    requires forall i | 0 <= i < |ws| :: ws[i] <= limit
    ensures FirstFit(m, padding, g, ws, limit) <= FirstFit(n, padding, h, ws, limit) <= limit
    ensures |ws| > 0 ==> ws[0] <= FirstFit(m, padding, g, ws, limit)
  {
    if ws != [] {
      FirstFitIsMonotone(m, n, padding, g, h, ws[1..], limit);
      assert forall i | 0 < i < |ws| :: ws[i] == ws[1..][i - 1];
      if Fits(n, padding, h, ws[0]) { assert Fits(m, padding, g, ws[0]); }
    }
  }

  /** A text that is nowhere larger, in a gutter that is no wider, never needs a larger box. */
  lemma FitIsMonotone(m: int -> Text, n: int -> Text, minWidth: int, maxWidth: int, step: int, padding: real, g: real,
      h: real)
    requires step > 0 && NoLarger(m, n) && g <= h
    ensures FitWidth(m, minWidth, maxWidth, step, padding, g) <= FitWidth(n, minWidth, maxWidth, step, padding, h)
    ensures HeightFor(FitWidth(m, minWidth, maxWidth, step, padding, g)) <=
            HeightFor(FitWidth(n, minWidth, maxWidth, step, padding, h))
  {
    var ws := Candidates(minWidth, maxWidth, step);
    CandidatesAscend(minWidth, maxWidth, step);
    forall i | 0 <= i < |ws| ensures ws[i] <= maxWidth { if i < |ws| - 1 { assert ws[i] < ws[|ws| - 1]; } }
    FirstFitIsMonotone(m, n, padding, g, h, ws, maxWidth);
    HeightGrows(FitWidth(m, minWidth, maxWidth, step, padding, g), FitWidth(n, minWidth, maxWidth, step, padding, h));
  }

  lemma {:induction false} CandidatesOfFive(width: int, limit: int, step: int, w: int)
    requires step > 0 && step % 5 == 0 && width % 5 == 0 && limit % 5 == 0 && w in Candidates(width, limit, step)
    ensures w % 5 == 0 && (width <= limit ==> width <= w)
    decreases limit - width
  {
    if width < limit && w != width { CandidatesOfFive(width + step, limit, step, w); }
  }

  function DefaultFit(measure: int -> Text, gutter: real): int {
    FitWidth(measure, MIN_WIDTH, MAX_WIDTH, GROWTH_STEP, LABEL_PADDING, gutter)
  }

  lemma {:induction false} FirstFitIsACandidate(m: int -> Text, padding: real, g: real, ws: seq<int>, limit: int)
    ensures FirstFit(m, padding, g, ws, limit) == limit || FirstFit(m, padding, g, ws, limit) in ws
  {
    if ws != [] { FirstFitIsACandidate(m, padding, g, ws[1..], limit); }
  }

  /** With the default limits the ratio is exact, so the height is even. */
  lemma DefaultRatioIsExact(measure: int -> Text, gutter: real)
    ensures 5 * HeightFor(DefaultFit(measure, gutter)) == 2 * DefaultFit(measure, gutter)
    ensures HeightFor(DefaultFit(measure, gutter)) % 2 == 0
  {
    hide Candidates, FirstFit, HeightFor;
    var ws, w := Candidates(MIN_WIDTH, MAX_WIDTH, GROWTH_STEP), DefaultFit(measure, gutter);
    CandidatesAscend(MIN_WIDTH, MAX_WIDTH, GROWTH_STEP);
    assert ws[|ws| - 1] == MAX_WIDTH;
    FirstFitIsACandidate(measure, LABEL_PADDING, gutter, ws, MAX_WIDTH);
    CandidatesOfFive(MIN_WIDTH, MAX_WIDTH, GROWTH_STEP, w);
    RatioIsExactExactlyWhen(w);
  }

  /** The label, seven pixels of padding and the icon's gutter have room. */
  predicate HasRoom(measure: int -> Text, iconBearing: bool, width: int) {
    && measure(width).height + 14.0 <= width as real / 2.5
    && measure(width).width + (if iconBearing then 64.0 else 0.0) <= width as real
  }

  /**
   The default fit is the least multiple of 25 from 150 to 600 with room, else 600; its height is two fifths of it.
  */
  lemma DefaultFitIs(measure: int -> Text, iconBearing: bool)
    ensures var w := DefaultFit(measure, if iconBearing then ICON_GUTTER else 0.0);
            && 150 <= w <= 600 && w % 25 == 0 && 5 * HeightFor(w) == 2 * w
            && (HasRoom(measure, iconBearing, w) || w == 600)
            && forall v | 150 <= v < w && v % 25 == 0 :: !HasRoom(measure, iconBearing, v)
  {
    hide Candidates, FirstFit, FitWidth, HeightFor;
    var gutter := if iconBearing then ICON_GUTTER else 0.0;
    var ws, w := Candidates(150, 600, 25), DefaultFit(measure, gutter);
    FitIsLeast(measure, 150, 600, 25, 7.0, gutter);
    DefaultCandidates(w);
    DefaultRatioIsExact(measure, gutter);
    assert HeightFor(w) as real == w as real / 2.5;
    forall v | 150 <= v < w && v % 25 == 0 ensures !HasRoom(measure, iconBearing, v) {
      DefaultCandidates(v);
      RatioIsExactExactlyWhen(v);
      assert HeightFor(v) as real == v as real / 2.5;
    }
  }

  lemma DefaultCandidates(v: int)
    ensures v in Candidates(150, 600, 25) <==> 150 <= v <= 600 && v % 25 == 0
  {
    hide Candidates;
    var ws := Candidates(150, 600, 25);
    CandidatesAscend(150, 600, 25);
    if v in ws {
      var k :| 0 <= k < |ws| && ws[k] == v;
      if k < |ws| - 1 { CandidatesAreSteps(150, 600, 25, k); }
    }
    if 150 <= v < 600 && v % 25 == 0 { EveryStepIsACandidate(150, 600, 25, (v - 150) / 25); }
    assert ws[|ws| - 1] == 600;
  }

  // ------------------------------------------------------------------ recentring

  datatype Bounds = Bounds(x: int, y: int, width: int, height: int)

  function Half(n: int): real { n as real / 2.0 }

  function Resized(b: Bounds, size: Size): Bounds {
    if size.width == b.width && size.height == b.height then b
    else Bounds(Round(b.x as real + Half(b.width - size.width)), Round(b.y as real + Half(b.height - size.height)),
      size.width, size.height)
  }

  function ResizedAll(b: Bounds, sizes: seq<Size>): Bounds
    decreases sizes
  {
    if sizes == [] then b else ResizedAll(Resized(b, sizes[0]), sizes[1..])
  }

  /** Twice the centre, so in half pixels. */
  function CentreX(b: Bounds): int { 2 * b.x + b.width }
  function CentreY(b: Bounds): int { 2 * b.y + b.height }

  lemma RoundedHalf(x: int, n: int)
    ensures 2 * Round(x as real + Half(n)) == 2 * x + n + n % 2
  {
    var r := Round(x as real + Half(n));
    assert r as real <= x as real + Half(n) + 0.5 < r as real + 1.0;
    assert 2 * r <= 2 * x + n + 1 < 2 * r + 2;
  }

  /**
   One resize moves the centre by half a pixel to the right and down exactly when the size changes by an odd
   number.
  */
  lemma ResizeDrift(b: Bounds, size: Size)
    ensures CentreX(Resized(b, size)) == CentreX(b) + (b.width - size.width) % 2
    ensures CentreY(Resized(b, size)) == CentreY(b) + (b.height - size.height) % 2
  {
    RoundedHalf(b.x, b.width - size.width);
    RoundedHalf(b.y, b.height - size.height);
  }

  /** How often the width changes between odd and even. */
  function ParityChanges(width: int, sizes: seq<Size>): nat
    decreases sizes
  {
    if sizes == [] then 0 else (width - sizes[0].width) % 2 + ParityChanges(sizes[0].width, sizes[1..])
  }

  /**
   After any number of edits the centre is right of where it was by half a pixel per change of parity, and
   never left.
  */
  lemma {:induction false} DriftCountsParityChanges(b: Bounds, sizes: seq<Size>)
    ensures CentreX(ResizedAll(b, sizes)) == CentreX(b) + ParityChanges(b.width, sizes)
    ensures ParityChanges(b.width, sizes) <= |sizes|
    decreases sizes
  {
    hide Resized, CentreX, CentreY;
    if sizes != [] {
      ResizeDrift(b, sizes[0]);
      ResizedTo(b, sizes[0]);
      DriftCountsParityChanges(Resized(b, sizes[0]), sizes[1..]);
    }
  }

  lemma ResizedTo(b: Bounds, size: Size)
    ensures Resized(b, size).width == size.width && Resized(b, size).height == size.height
  {
  }

  /** Heights of even size never move the centre vertically. */
  lemma {:induction false} EvenHeightsDoNotDrift(b: Bounds, sizes: seq<Size>)
    requires b.height % 2 == 0 && forall i | 0 <= i < |sizes| :: sizes[i].height % 2 == 0
    ensures CentreY(ResizedAll(b, sizes)) == CentreY(b)
    decreases sizes
  {
    hide Resized, CentreX, CentreY;
    if sizes != [] {
      ResizeDrift(b, sizes[0]);
      ResizedTo(b, sizes[0]);
      EvenHeightsDoNotDrift(Resized(b, sizes[0]), sizes[1..]);
    }
  }

  /** So a label that grows by one step and shrinks back leaves its task one pixel to the right. */
  lemma ThereAndBack(b: Bounds, size: Size)
    ensures var back := Resized(Resized(b, size), Size(b.width, b.height));
            back.x == b.x + (b.width - size.width) % 2 && back.y == b.y + (b.height - size.height) % 2
  {
    hide Resized;
    ResizeDrift(b, size);
    ResizedTo(b, size);
    ResizeDrift(Resized(b, size), Size(b.width, b.height));
    ResizedTo(Resized(b, size), Size(b.width, b.height));
    assert (b.width - size.width) % 2 == (size.width - b.width) % 2;
    assert (b.height - size.height) % 2 == (size.height - b.height) % 2;
  }

  const SHORT_LABEL: int -> Text := w => Text(40.0, 14.0)
  const LONG_LABEL: int -> Text := w => Text(160.0, 14.0)

  lemma LabelFits()
    ensures DefaultFit(SHORT_LABEL, 0.0) == 150 && DefaultFit(LONG_LABEL, 0.0) == 175
  {
    var ws := Candidates(MIN_WIDTH, MAX_WIDTH, GROWTH_STEP);
    assert ws == [150] + Candidates(175, MAX_WIDTH, GROWTH_STEP);
    assert Candidates(175, MAX_WIDTH, GROWTH_STEP) == [175] + Candidates(200, MAX_WIDTH, GROWTH_STEP);
    assert HeightFor(150) == 60 && HeightFor(175) == 70;
    assert ws[1..][0] == 175;
    assert Fits(SHORT_LABEL, LABEL_PADDING, 0.0, 150);
    assert !Fits(LONG_LABEL, LABEL_PADDING, 0.0, 150) && Fits(LONG_LABEL, LABEL_PADDING, 0.0, 175);
  }

  /** It happens with labels one step apart: a plain task of the default size, edited to the long one and back. */
  lemma TwoLabelsDrift(b: Bounds)
    requires b.width == 150 && b.height == 60
    ensures var long, short := DefaultFit(LONG_LABEL, 0.0), DefaultFit(SHORT_LABEL, 0.0);
            Resized(Resized(b, Size(long, HeightFor(long))), Size(short, HeightFor(short))) == b.(x := b.x + 1)
  {
    LabelFits();
    assert HeightFor(150) == 60 && HeightFor(175) == 70;
    ThereAndBack(b, Size(175, 70));
  }

  class Shape {
    var bounds: Bounds
    const iconBearing: bool

    constructor (bounds: Bounds, iconBearing: bool)
      ensures this.bounds == bounds && this.iconBearing == iconBearing
    {
      this.bounds := bounds;
      this.iconBearing := iconBearing;
    }

    /** The default size for the label, about the same centre but for a rounded half pixel to the right and down. */
    method UpdateLabel(measure: int -> Text)
      modifies this
      ensures var w := bounds.width;
              && 150 <= w <= 600 && w % 25 == 0 && 5 * bounds.height == 2 * w
              && (HasRoom(measure, iconBearing, w) || w == 600)
              && forall v | 150 <= v < w && v % 25 == 0 :: !HasRoom(measure, iconBearing, v)
      ensures 2 * bounds.x + bounds.width ==
              2 * old(bounds).x + old(bounds).width + (old(bounds).width - bounds.width) % 2
      ensures 2 * bounds.y + bounds.height ==
              2 * old(bounds).y + old(bounds).height + (old(bounds).height - bounds.height) % 2
      ensures var w := DefaultFit(measure, if iconBearing then ICON_GUTTER else 0.0);
              bounds == Resized(old(bounds), Size(w, HeightFor(w))) && bounds.height % 2 == 0
    {
      hide HasRoom, HeightFor, Round, Half, FitWidth, Candidates;
      var gutter := if iconBearing then ICON_GUTTER else 0.0;
      var size := FitTaskSize(measure, MIN_WIDTH, MAX_WIDTH, GROWTH_STEP, LABEL_PADDING, gutter);
      DefaultRatioIsExact(measure, gutter);
      DefaultFitIs(measure, iconBearing);
      ResizeDrift(bounds, size);
      if size.width == bounds.width && size.height == bounds.height { return; }
      bounds :=
        Bounds(Round(bounds.x as real + Half(bounds.width - size.width)),
          Round(bounds.y as real + Half(bounds.height - size.height)),
                       size.width, size.height);
    }

    /** Any number of edits of a task created at the default size. */
    method EditLabels(measures: seq<int -> Text>) returns (ghost sizes: seq<Size>)
      requires bounds.height % 2 == 0
      modifies this
      ensures |sizes| == |measures| && bounds == ResizedAll(old(bounds), sizes)
      ensures CentreY(bounds) == CentreY(old(bounds))
      ensures CentreX(old(bounds)) <= CentreX(bounds) <= CentreX(old(bounds)) + |measures|
    {
      sizes := [];
      for i := 0 to |measures|
        invariant |sizes| == i && bounds == ResizedAll(old(bounds), sizes)
        invariant forall j | 0 <= j < i :: sizes[j].height % 2 == 0
      {
        ghost var w := DefaultFit(measures[i], if iconBearing then ICON_GUTTER else 0.0);
        ResizedLast(old(bounds), sizes, Size(w, HeightFor(w)));
        DefaultRatioIsExact(measures[i], if iconBearing then ICON_GUTTER else 0.0);
        UpdateLabel(measures[i]);
        sizes := sizes + [Size(w, HeightFor(w))];
      }
      DriftCountsParityChanges(old(bounds), sizes);
      EvenHeightsDoNotDrift(old(bounds), sizes);
    }
  }

  lemma {:induction false} ResizedLast(b: Bounds, sizes: seq<Size>, size: Size)
    ensures ResizedAll(b, sizes + [size]) == Resized(ResizedAll(b, sizes), size)
    decreases sizes
  {
    hide Resized;
    if sizes == [] {
      assert ([] + [size])[1..] == [];
    } else {
      ResizedLast(Resized(b, sizes[0]), sizes[1..], size);
      assert (sizes + [size])[1..] == sizes[1..] + [size];
    }
  }
}
