/** The destination detail panel: the flow layout of its tag chips and the "Read more" rule
    of its description. */
module DetailPanel {
  import opened Wrappers
  import opened Destinations

  datatype Size = Size(width: real, height: real)
  datatype Point = Point(x: real, y: real)
  datatype Rect = Rect(minX: real, minY: real, width: real, height: real)

  function Max(a: real, b: real): (m: real)
    ensures m >= a && m >= b
  {
    if a >= b then a else b
  }

  /** `currentX + width > maxWidth`, where a missing proposed width stands for infinity. */
  predicate Overflows(x: real, width: real, maxWidth: Option<real>)
  {
    maxWidth.Some? && x + width > maxWidth.value
  }

  /** The loop variables of `computeLayout` after some subviews have been placed. */
  datatype Progress = Progress(x: real, y: real, lineHeight: real, total: Size, positions: seq<Point>)

  const Start: Progress := Progress(0.0, 0.0, 0.0, Size(0.0, 0.0), [])

  /** One pass of the layout loop: place a subview of size `s`, wrapping first if it would
      overflow and is not first on its row. */
  function Place(p: Progress, s: Size, maxWidth: Option<real>, spacing: real): Progress
  {
    var wrap := Overflows(p.x, s.width, maxWidth) && p.x > 0.0;
    var x := if wrap then 0.0 else p.x;
    var y := if wrap then p.y + p.lineHeight + spacing else p.y;
    var lineHeight := Max(if wrap then 0.0 else p.lineHeight, s.height);
    var nextX := x + s.width + spacing;
    Progress(nextX, y, lineHeight,
      Size(Max(p.total.width, nextX - spacing), Max(p.total.height, y + lineHeight)),
      p.positions + [Point(x, y)])
  }

  /** The loop run over all of `sizes`. */
  function Layout(sizes: seq<Size>, maxWidth: Option<real>, spacing: real): (p: Progress)
    ensures |p.positions| == |sizes|
    decreases |sizes|
  {
    if sizes == [] then Start
    else Place(Layout(sizes[..|sizes| - 1], maxWidth, spacing), sizes[|sizes| - 1], maxWidth, spacing)
  }

  /** The largest right edge `x + width` of the placed subviews, and 0 for none. */
  function RightEdge(positions: seq<Point>, sizes: seq<Size>): real
    requires |positions| == |sizes|
    decreases |sizes|
  {
    if sizes == [] then 0.0
    else
      var n := |sizes| - 1;
      Max(RightEdge(positions[..n], sizes[..n]), positions[n].x + sizes[n].width)
  }

  /** The largest bottom edge `y + height` of the placed subviews (a negative height counting
      as 0), and 0 for none. */
  function BottomEdge(positions: seq<Point>, sizes: seq<Size>): real
    requires |positions| == |sizes|
    decreases |sizes|
  {
    if sizes == [] then 0.0
    else
      var n := |sizes| - 1;
      Max(BottomEdge(positions[..n], sizes[..n]), positions[n].y + Max(0.0, sizes[n].height))
  }

  /** RightEdge is the maximum: no right edge exceeds it, and it is 0 or one of them. */
  lemma {:induction false} RightEdgeIsMaximum(positions: seq<Point>, sizes: seq<Size>)
    requires |positions| == |sizes|
    ensures forall i :: 0 <= i < |sizes| ==> positions[i].x + sizes[i].width <= RightEdge(positions, sizes)
    ensures RightEdge(positions, sizes) == 0.0 ||
      exists i :: 0 <= i < |sizes| && RightEdge(positions, sizes) == positions[i].x + sizes[i].width
    decreases |sizes|
  {
    if sizes != [] {
      var n := |sizes| - 1;
      RightEdgeIsMaximum(positions[..n], sizes[..n]);
      assert forall i :: 0 <= i < n ==> positions[..n][i] == positions[i] && sizes[..n][i] == sizes[i];
    }
  }

  /** BottomEdge is the maximum of the bottom edges in the same sense. */
  lemma {:induction false} BottomEdgeIsMaximum(positions: seq<Point>, sizes: seq<Size>)
    requires |positions| == |sizes|
    ensures forall i :: 0 <= i < |sizes| ==>
      positions[i].y + Max(0.0, sizes[i].height) <= BottomEdge(positions, sizes)
    ensures BottomEdge(positions, sizes) == 0.0 ||
      exists i :: 0 <= i < |sizes| && BottomEdge(positions, sizes) == positions[i].y + Max(0.0, sizes[i].height)
    decreases |sizes|
  {
    if sizes != [] {
      var n := |sizes| - 1;
      BottomEdgeIsMaximum(positions[..n], sizes[..n]);
      assert forall i :: 0 <= i < n ==> positions[..n][i] == positions[i] && sizes[..n][i] == sizes[i];
    }
  }

  /** What the loop keeps true: one position per subview so far, the cursor just right of the
      last subview plus spacing, a row height of at least 0, and a total size that is exactly
      the bounding box of what has been placed. */
  lemma {:induction false} LayoutInvariant(sizes: seq<Size>, maxWidth: Option<real>, spacing: real)
    ensures var p := Layout(sizes, maxWidth, spacing);
      && |p.positions| == |sizes|
      && p.lineHeight >= 0.0
      && p.total.height >= p.y + p.lineHeight
      && p.total == Size(RightEdge(p.positions, sizes), BottomEdge(p.positions, sizes))
      && (sizes != [] ==>
            && p.x == p.positions[|sizes| - 1].x + sizes[|sizes| - 1].width + spacing
            && p.y == p.positions[|sizes| - 1].y)
    decreases |sizes|
  {
    if sizes != [] {
      var n := |sizes| - 1;
      var prev := Layout(sizes[..n], maxWidth, spacing);
      LayoutInvariant(sizes[..n], maxWidth, spacing);
      var p := Layout(sizes, maxWidth, spacing);
      assert p == Place(prev, sizes[n], maxWidth, spacing);
      assert p.positions[..n] == prev.positions;
      assert sizes[..n] == sizes[..n][..n];
    }
  }

  /** Laying out a prefix of the subviews gives a prefix of the positions: each position is
      fixed once its subview is placed, in subview order. */
  lemma {:induction false} LayoutPrefix(sizes: seq<Size>, k: nat, maxWidth: Option<real>, spacing: real)
    requires k <= |sizes|
    ensures Layout(sizes[..k], maxWidth, spacing).positions == Layout(sizes, maxWidth, spacing).positions[..k]
    decreases |sizes|
  {
    LayoutInvariant(sizes, maxWidth, spacing);
    if k < |sizes| {
      var n := |sizes| - 1;
      LayoutPrefix(sizes[..n], k, maxWidth, spacing);
      assert sizes[..n][..k] == sizes[..k];
      LayoutInvariant(sizes[..n], maxWidth, spacing);
    } else {
      assert sizes[..k] == sizes;
    }
  }

  /** The first subview is placed at the origin, however wide it is. */
  lemma FirstAtOrigin(sizes: seq<Size>, maxWidth: Option<real>, spacing: real)
    requires |sizes| > 0
    ensures Layout(sizes, maxWidth, spacing).positions[0] == Point(0.0, 0.0)
  {
    LayoutInvariant(sizes, maxWidth, spacing);
    LayoutPrefix(sizes, 1, maxWidth, spacing);
    assert sizes[..1][..0] == [];
  }

  /** The row height in force after the first `i` subviews. */
  function RowHeight(sizes: seq<Size>, i: nat, maxWidth: Option<real>, spacing: real): real
    requires i <= |sizes|
  {
    Layout(sizes[..i], maxWidth, spacing).lineHeight
  }

  /** The wrapping rule. Subview `i` would go at the right of subview `i - 1` plus spacing; it
      wraps to a new row (x = 0, y grown by the row height plus spacing) exactly when it would
      then overflow the width and that spot is not at the start of a row. */
  lemma WrapRule(sizes: seq<Size>, i: nat, maxWidth: Option<real>, spacing: real)
    requires 0 < i < |sizes|
    ensures var ps := Layout(sizes, maxWidth, spacing).positions;
      var advance := ps[i - 1].x + sizes[i - 1].width + spacing;
      var wrap := Overflows(advance, sizes[i].width, maxWidth) && advance > 0.0;
      && |ps| == |sizes|
      && ps[i] == (if wrap then Point(0.0, ps[i - 1].y + RowHeight(sizes, i, maxWidth, spacing) + spacing)
                   else Point(advance, ps[i - 1].y))
      && RowHeight(sizes, i, maxWidth, spacing) >= Max(0.0, sizes[i - 1].height)
  {
    var ps := Layout(sizes, maxWidth, spacing).positions;
    var prev := Layout(sizes[..i], maxWidth, spacing);
    PlacedBy(sizes, i, maxWidth, spacing);
    LayoutInvariant(sizes[..i], maxWidth, spacing);
    LayoutPrefix(sizes, i, maxWidth, spacing);
    assert prev.positions[i - 1] == ps[i - 1];
    assert sizes[..i][i - 1] == sizes[i - 1];
    LastRowHeight(sizes[..i], maxWidth, spacing);
  }

  /** Subview `i` is placed by the pass that follows the first `i` subviews. */
  lemma PlacedBy(sizes: seq<Size>, i: nat, maxWidth: Option<real>, spacing: real)
    requires i < |sizes|
    ensures Layout(sizes, maxWidth, spacing).positions[i] ==
      Place(Layout(sizes[..i], maxWidth, spacing), sizes[i], maxWidth, spacing).positions[i]
  {
    LayoutPrefix(sizes, i + 1, maxWidth, spacing);
    assert sizes[..i + 1][..i] == sizes[..i];
  }

  /** The row height in force covers the last placed subview. */
  lemma LastRowHeight(sizes: seq<Size>, maxWidth: Option<real>, spacing: real)
    requires sizes != []
    ensures Layout(sizes, maxWidth, spacing).lineHeight >= Max(0.0, sizes[|sizes| - 1].height)
  {
    LayoutInvariant(sizes[..|sizes| - 1], maxWidth, spacing);
  }

  /** A subview that is not at the start of its row fits within the proposed width. */
  lemma FitsUnlessFirstOnRow(sizes: seq<Size>, i: nat, maxWidth: Option<real>, spacing: real)
    requires i < |sizes| && maxWidth.Some?
    ensures var ps := Layout(sizes, maxWidth, spacing).positions;
      |ps| == |sizes| && (ps[i].x > 0.0 ==> ps[i].x + sizes[i].width <= maxWidth.value)
  {
    LayoutInvariant(sizes, maxWidth, spacing);
    if i == 0 {
      FirstAtOrigin(sizes, maxWidth, spacing);
    } else {
      WrapRule(sizes, i, maxWidth, spacing);
    }
  }

  /** With non-negative spacing, each subview either starts a new row at x = 0 no higher than the
      previous one, or follows on the same row at or beyond the previous one's right edge. */
  lemma RowsDoNotOverlap(sizes: seq<Size>, i: nat, maxWidth: Option<real>, spacing: real)
    requires 0 < i < |sizes| && spacing >= 0.0
    ensures var ps := Layout(sizes, maxWidth, spacing).positions;
      && |ps| == |sizes|
      && ((ps[i].x == 0.0 && ps[i].y >= ps[i - 1].y)
          || (ps[i].y == ps[i - 1].y && ps[i].x >= ps[i - 1].x + sizes[i - 1].width))
  {
    WrapRule(sizes, i, maxWidth, spacing);
  }

  /** With non-negative spacing the rows only go down: y positions never decrease. */
  lemma {:induction false} YNonDecreasing(sizes: seq<Size>, i: nat, j: nat, maxWidth: Option<real>, spacing: real)
    requires i <= j < |sizes| && spacing >= 0.0
    ensures var ps := Layout(sizes, maxWidth, spacing).positions;
      |ps| == |sizes| && ps[i].y <= ps[j].y
    decreases j - i
  {
    LayoutInvariant(sizes, maxWidth, spacing);
    if i < j {
      YNonDecreasing(sizes, i, j - 1, maxWidth, spacing);
      RowsDoNotOverlap(sizes, j, maxWidth, spacing);
    }
  }

  /** With non-negative widths and spacing, x positions are never negative, and within a row
      they increase from left to right. */
  lemma XNonDecreasingInRow(sizes: seq<Size>, i: nat, maxWidth: Option<real>, spacing: real)
    requires 0 < i < |sizes| && spacing >= 0.0
    requires forall k :: 0 <= k < |sizes| ==> sizes[k].width >= 0.0
    ensures var ps := Layout(sizes, maxWidth, spacing).positions;
      && |ps| == |sizes|
      && ps[i].x >= 0.0
      && (ps[i].x != 0.0 ==> ps[i].y == ps[i - 1].y && ps[i].x >= ps[i - 1].x)
  {
    NonNegativeX(sizes, i, maxWidth, spacing);
    NonNegativeX(sizes, i - 1, maxWidth, spacing);
    RowsDoNotOverlap(sizes, i, maxWidth, spacing);
  }

  lemma {:induction false} NonNegativeX(sizes: seq<Size>, i: nat, maxWidth: Option<real>, spacing: real)
    requires i < |sizes| && spacing >= 0.0
    requires forall k :: 0 <= k < |sizes| ==> sizes[k].width >= 0.0
    ensures var ps := Layout(sizes, maxWidth, spacing).positions;
      |ps| == |sizes| && ps[i].x >= 0.0
  {
    LayoutInvariant(sizes, maxWidth, spacing);
    if i == 0 {
      FirstAtOrigin(sizes, maxWidth, spacing);
    } else {
      NonNegativeX(sizes, i - 1, maxWidth, spacing);
      WrapRule(sizes, i, maxWidth, spacing);
    }
  }

  /** How far the cursor has advanced after the given subviews on one row: each width plus spacing. */
  function Advance(sizes: seq<Size>, spacing: real): real
    decreases |sizes|
  {
    if sizes == [] then 0.0
    else Advance(sizes[..|sizes| - 1], spacing) + sizes[|sizes| - 1].width + spacing
  }

  /** With no proposed width nothing wraps: every subview is on the first row, at the sum of the
      widths and spacings before it. */
  lemma {:induction false} UnboundedIsOneRow(sizes: seq<Size>, spacing: real)
    ensures var p := Layout(sizes, None, spacing);
      && |p.positions| == |sizes|
      && p.x == Advance(sizes, spacing) && p.y == 0.0
      && forall i :: 0 <= i < |sizes| ==>
           p.positions[i] == Point(Advance(sizes[..i], spacing), 0.0)
    decreases |sizes|
  {
    LayoutInvariant(sizes, None, spacing);
    if sizes != [] {
      var n := |sizes| - 1;
      UnboundedIsOneRow(sizes[..n], spacing);
      var prev := Layout(sizes[..n], None, spacing);
      var p := Layout(sizes, None, spacing);
      assert p.positions == prev.positions + [Point(prev.x, prev.y)];
      forall i | 0 <= i < |sizes|
        ensures p.positions[i] == Point(Advance(sizes[..i], spacing), 0.0)
      {
        if i < n {
          assert sizes[..n][..i] == sizes[..i];
        } else {
          assert sizes[..i] == sizes[..n];
        }
      }
    }
  }

  /** The layout's total size is the bounding box of the placed subviews, and 0 by 0 for none. */
  lemma TotalSizeIsBoundingBox(sizes: seq<Size>, maxWidth: Option<real>, spacing: real)
    ensures var p := Layout(sizes, maxWidth, spacing);
      && |p.positions| == |sizes|
      && p.total == Size(RightEdge(p.positions, sizes), BottomEdge(p.positions, sizes))
      && (sizes == [] ==> p.total == Size(0.0, 0.0))
  {
    LayoutInvariant(sizes, maxWidth, spacing);
  }

  /** `computeLayout(proposal:subviews:)`, with each subview's ideal size given. */
  method ComputeLayout(sizes: seq<Size>, proposalWidth: Option<real>, spacing: real)
    returns (size: Size, positions: seq<Point>)
    ensures size == Layout(sizes, proposalWidth, spacing).total
    ensures positions == Layout(sizes, proposalWidth, spacing).positions
    ensures |positions| == |sizes|
    ensures |sizes| > 0 ==> positions[0] == Point(0.0, 0.0)
    ensures size == Size(RightEdge(positions, sizes), BottomEdge(positions, sizes))
  {
    var maxWidth := proposalWidth;
    positions := [];
    var currentX, currentY, lineHeight := 0.0, 0.0, 0.0;
    var totalSize := Size(0.0, 0.0);
    for i := 0 to |sizes|
      invariant Progress(currentX, currentY, lineHeight, totalSize, positions) == Layout(sizes[..i], maxWidth, spacing)
    {
      var s := sizes[i];
      ghost var before := Progress(currentX, currentY, lineHeight, totalSize, positions);
      LayoutStep(sizes, i, maxWidth, spacing);
      if Overflows(currentX, s.width, maxWidth) && currentX > 0.0 {
        currentX := 0.0;
        currentY := currentY + lineHeight + spacing;
        lineHeight := 0.0;
      }
      ghost var wrap := Overflows(before.x, s.width, maxWidth) && before.x > 0.0;
      assert currentX == (if wrap then 0.0 else before.x) && currentY == (if wrap then before.y + before.lineHeight + spacing else before.y);
      assert lineHeight == (if wrap then 0.0 else before.lineHeight);
      positions := positions + [Point(currentX, currentY)];
      lineHeight := Max(lineHeight, s.height);
      currentX := currentX + s.width + spacing;
      totalSize := totalSize.(width := Max(totalSize.width, currentX - spacing));
      totalSize := totalSize.(height := Max(totalSize.height, currentY + lineHeight));
      assert Progress(currentX, currentY, lineHeight, totalSize, positions) == Place(before, s, maxWidth, spacing);
    }
    assert sizes[..|sizes|] == sizes;
    size := totalSize;
    LayoutSummary(sizes, maxWidth, spacing);
  }

  lemma LayoutSummary(sizes: seq<Size>, maxWidth: Option<real>, spacing: real)
    ensures var p := Layout(sizes, maxWidth, spacing);
      && (|sizes| > 0 ==> p.positions[0] == Point(0.0, 0.0))
      && p.total == Size(RightEdge(p.positions, sizes), BottomEdge(p.positions, sizes))
  {
    TotalSizeIsBoundingBox(sizes, maxWidth, spacing);
    if |sizes| > 0 {
      FirstAtOrigin(sizes, maxWidth, spacing);
    }
  }

  /** One more subview is one more pass of the loop. */
  lemma LayoutStep(sizes: seq<Size>, i: nat, maxWidth: Option<real>, spacing: real)
    requires i < |sizes|
    ensures Layout(sizes[..i + 1], maxWidth, spacing) == Place(Layout(sizes[..i], maxWidth, spacing), sizes[i], maxWidth, spacing)
  {
    assert sizes[..i + 1][..i] == sizes[..i];
  }

  /** `sizeThatFits(proposal:subviews:cache:)`: the layout's total size. */
  method SizeThatFits(sizes: seq<Size>, proposalWidth: Option<real>, spacing: real) returns (size: Size)
    ensures size == Layout(sizes, proposalWidth, spacing).total
    ensures sizes == [] ==> size == Size(0.0, 0.0)
  {
    var positions;
    size, positions := ComputeLayout(sizes, proposalWidth, spacing);
  }

  /** `placeSubviews(in:proposal:subviews:cache:)`: where each subview is placed, in order. */
  method PlaceSubviews(bounds: Rect, sizes: seq<Size>, proposalWidth: Option<real>, spacing: real)
    returns (placed: seq<Point>)
    ensures var ps := Layout(sizes, proposalWidth, spacing).positions;
      && |placed| == |sizes| == |ps|
      && forall i :: 0 <= i < |sizes| ==> placed[i] == Point(bounds.minX + ps[i].x, bounds.minY + ps[i].y)
  {
    var size, positions := ComputeLayout(sizes, proposalWidth, spacing);
    placed := [];
    for index := 0 to |positions|
      invariant |placed| == index
      invariant forall k :: 0 <= k < index ==>
        placed[k] == Point(bounds.minX + positions[k].x, bounds.minY + positions[k].y)
    {
      placed := placed + [Point(bounds.minX + positions[index].x, bounds.minY + positions[index].y)];
    }
  }

  /** Descriptions longer than this many characters get a "Read more" button. */
  const ReadMoreThreshold: nat := 120

  /** Lines shown while the description is collapsed. */
  const CollapsedLineLimit: nat := 3

  predicate ShowsReadMoreButton(description: string)
  {
    |description| > ReadMoreThreshold
  }

  /** `lineLimit(showFullDescription ? nil : 3)`. */
  function LineLimit(showFullDescription: bool): (r: Option<nat>)
    ensures r.None? <==> showFullDescription
    ensures r.Some? ==> r.value == CollapsedLineLimit
  {
    if showFullDescription then None else Some(CollapsedLineLimit)
  }

  /** The button's title: "Read more" while collapsed, "Show less" while expanded. */
  function ReadMoreTitle(showFullDescription: bool): (r: string)
    ensures r == "Read more" <==> !showFullDescription
    ensures r == "Show less" <==> showFullDescription
  {
    if showFullDescription then "Show less" else "Read more"
  }

  /** The button appears exactly for descriptions longer than 120 characters, so appending text
      never removes it; an expanded description has no line limit and offers "Show less". */
  lemma ReadMoreButtonRule(description: string, more: string, showFullDescription: bool)
    ensures ShowsReadMoreButton(description) <==> |description| > 120
    ensures ShowsReadMoreButton(description) ==> ShowsReadMoreButton(description + more)
    ensures ShowsReadMoreButton(description) ==>
      (LineLimit(showFullDescription).None? <==> ReadMoreTitle(showFullDescription) == "Show less")
  {
  }

  /** Among the samples only Kyoto's description is long enough for a "Read more" button. */
  lemma SamplesReadMore(i: nat)
    requires i < |Samples|
    ensures ShowsReadMoreButton(Samples[i].description) <==> i == 0
  {
  }
}
