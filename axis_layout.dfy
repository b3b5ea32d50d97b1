/**
 * The layout arithmetic of DrawContext.drawXAxis and drawYAxis: which mode
 * the labels are drawn in, where each label box goes, and where the
 * gridlines are stroked. Rendered label sizes are measured by the browser
 * and come in as inputs, one per label.
 */
module AxisLayout {
  import opened Wrappers
  import opened Steps
  import opened Values

  /** The options both axes read; None is an option left undefined. */
  datatype AxisOptions = AxisOptions(centerLabels: Option<bool>, drawLines: Option<bool>, fromTop: bool)

  const NoOptions := AxisOptions(None, None, false)

  /** labels[0], undefined for an empty label list. */
  function FirstLabel(labels: seq<Entry>): Entry
  {
    if labels == [] then Missing else labels[0]
  }

  /** centerLabels: the option when given, otherwise isNaN(labels[0]). */
  function CenterLabels(labels: seq<Entry>, options: AxisOptions): bool
  {
    match options.centerLabels
    case Some(c) => c
    case None => IsNaN(FirstLabel(labels))
  }

  /** drawLines: the option when given, otherwise !centerLabels. */
  function DrawLines(labels: seq<Entry>, options: AxisOptions): bool
  {
    match options.drawLines
    case Some(d) => d
    case None => !CenterLabels(labels, options)
  }

  /** Centred labels get one band each; ticked labels sit on the band boundaries. */
  function BandCount(n: nat, center: bool): int
  {
    n - (if center then 0 else 1)
  }

  /** The extent of one band: the whole extent when there are no bands. */
  function BandSize(extent: real, bands: int): (size: real)
    ensures bands != 0 ==> size * (bands as real) == extent
    ensures bands == 0 ==> size == extent
  {
    if bands == 0 then extent else extent / (bands as real)
  }

  /** One label of the X axis: an <li> at `left` of width `width`; ticked labels but the first are shifted left by half their width. */
  datatype XLabelBox = XLabelBox(left: real, width: real, centered: bool, marginLeft: Option<real>)

  datatype XAxis = XAxis(center: bool, drawLines: bool, band: real, boxes: seq<XLabelBox>, gridlines: seq<real>)

  /** drawXAxis on a canvas of width w; labelWidths[i] is the rendered width of label i. */
  function LayoutXAxis(labels: seq<Entry>, options: AxisOptions, w: real, labelWidths: seq<real>): (x: XAxis)
    requires |labelWidths| == |labels|
    ensures x.center == CenterLabels(labels, options) && x.drawLines == DrawLines(labels, options)
    ensures |x.boxes| == |labels|
    ensures |x.gridlines| == if x.drawLines then |labels| else 0
  {
    var center := CenterLabels(labels, options);
    var drawLines := DrawLines(labels, options);
    var band := BandSize(w, BandCount(|labels|, center));
    var boxes := seq(|labels|, i requires 0 <= i < |labels| =>
      XLabelBox(band * (i as real), band, center,
        if center || i == 0 then None else Some(-0.5 * labelWidths[i])));
    var gridlines := if drawLines then seq(|labels|, i => band * ((i + 1) as real)) else [];
    XAxis(center, drawLines, band, boxes, gridlines)
  }

  /** The edge a Y label is measured from: the css property "bottom", or "top" with fromTop. */
  datatype Edge = Bottom | Top

  /** One label of the Y axis: `offset` from `edge`, moved up by half its height. */
  datatype YLabelBox = YLabelBox(edge: Edge, offset: real, marginTop: real)

  /**
   * The Y axis layout. Label offsets are measured from `edge` (the bottom
   * unless fromTop), but gridlines are canvas y coordinates, measured from the
   * top whatever fromTop says.
   */
  datatype YAxis = YAxis(center: bool, drawLines: bool, band: real, boxes: seq<YLabelBox>, gridlines: seq<real>)

  /** drawYAxis on a canvas of height h; labelHeights[i] is the rendered height of label i. */
  function LayoutYAxis(labels: seq<Entry>, options: AxisOptions, h: real, labelHeights: seq<real>): (y: YAxis)
    requires |labelHeights| == |labels|
    ensures y.center == CenterLabels(labels, options) && y.drawLines == DrawLines(labels, options)
    ensures |y.boxes| == |labels|
    ensures |y.gridlines| == if y.drawLines then |labels| else 0
  {
    var center := CenterLabels(labels, options);
    var drawLines := DrawLines(labels, options);
    var band := BandSize(h, BandCount(|labels|, center));
    var edge := if options.fromTop then Top else Bottom;
    var boxes := seq(|labels|, i requires 0 <= i < |labels| =>
      YLabelBox(edge, band * (i as real) + (if center then band / 2.0 else 0.0), -0.5 * labelHeights[i]));
    var gridlines := if drawLines then seq(|labels|, i => band * ((i + 1) as real)) else [];
    YAxis(center, drawLines, band, boxes, gridlines)
  }

  /** The canvas y coordinate (measured from the top) of a Y label box on a canvas of height h. */
  function CanvasY(box: YLabelBox, h: real): real
  {
    if box.edge == Top then box.offset else h - box.offset
  }

  /** Without options, labels are centred exactly when the first one is not a number, and lines are drawn exactly when they are not centred. */
  lemma DefaultOptions(labels: seq<Entry>)
    ensures CenterLabels(labels, NoOptions) <==> (labels == [] || IsNaN(labels[0]))
    ensures DrawLines(labels, NoOptions) <==> !CenterLabels(labels, NoOptions)
  {
  }

  /** Explicit options override both derived defaults. */
  lemma ExplicitOptions(labels: seq<Entry>, center: bool, drawLines: bool, fromTop: bool)
    ensures CenterLabels(labels, AxisOptions(Some(center), Some(drawLines), fromTop)) == center
    ensures DrawLines(labels, AxisOptions(Some(center), Some(drawLines), fromTop)) == drawLines
  {
  }

  /** Ticked X labels run from the left edge to the right edge; every label but the first is pulled left by half its width. */
  lemma XTickedSpansWidth(labels: seq<Entry>, options: AxisOptions, w: real, labelWidths: seq<real>)
    requires |labelWidths| == |labels| >= 2
    requires !CenterLabels(labels, options)
    ensures var x := LayoutXAxis(labels, options, w, labelWidths);
      && x.boxes[0].left == 0.0 && x.boxes[0].marginLeft == None
      && x.boxes[|labels| - 1].left == w
      && (forall i :: 1 <= i < |labels| ==> x.boxes[i].marginLeft == Some(-labelWidths[i] / 2.0))
  {
    var x := LayoutXAxis(labels, options, w, labelWidths);
    var bands := BandCount(|labels|, false);
    assert x.band * (bands as real) == w;
  }

  /** Centred X labels tile the width: each band starts where the previous one ends, and the last ends at w. */
  lemma XCenteredTilesWidth(labels: seq<Entry>, options: AxisOptions, w: real, labelWidths: seq<real>)
    requires |labelWidths| == |labels| >= 1
    requires CenterLabels(labels, options)
    ensures var x := LayoutXAxis(labels, options, w, labelWidths);
      && x.boxes[0].left == 0.0
      && (forall i :: 0 <= i < |labels| - 1 ==> x.boxes[i].left + x.boxes[i].width == x.boxes[i + 1].left)
      && x.boxes[|labels| - 1].left + x.boxes[|labels| - 1].width == w
      && (forall i :: 0 <= i < |labels| ==> x.boxes[i].centered && x.boxes[i].marginLeft == None)
  {
    var x := LayoutXAxis(labels, options, w, labelWidths);
    var n := |labels|;
    assert x.band * (n as real) == w;
    assert x.boxes[n - 1].left + x.band == x.band * (n as real);
  }

  /** Each X gridline is at the far end of its label's band; with ticked labels it passes through the next label's tick. */
  lemma XGridlinesAtBandEnds(labels: seq<Entry>, options: AxisOptions, w: real, labelWidths: seq<real>)
    requires |labelWidths| == |labels|
    requires DrawLines(labels, options)
    ensures var x := LayoutXAxis(labels, options, w, labelWidths);
      && (forall i :: 0 <= i < |labels| ==> x.gridlines[i] == x.boxes[i].left + x.band)
      && (!x.center ==> forall i :: 0 <= i < |labels| - 1 ==> x.gridlines[i] == x.boxes[i + 1].left)
  {
    var x := LayoutXAxis(labels, options, w, labelWidths);
    var band := x.band;
    XBoxPlacement(labels, options, w, labelWidths);
    XGridlinesAt(labels, options, w, labelWidths);
    forall i | 0 <= i < |labels|
      ensures x.gridlines[i] == x.boxes[i].left + band
    {
      NextMultiple(band, i);
    }
  }

  /** With lines drawn, X gridline i is at band * (i + 1). */
  lemma XGridlinesAt(labels: seq<Entry>, options: AxisOptions, w: real, labelWidths: seq<real>)
    requires |labelWidths| == |labels|
    requires DrawLines(labels, options)
    ensures var x := LayoutXAxis(labels, options, w, labelWidths);
      forall i :: 0 <= i < |labels| ==> x.gridlines[i] == x.band * ((i + 1) as real)
  {
    var x := LayoutXAxis(labels, options, w, labelWidths);
    assert x.drawLines;
  }

  /** In both modes X label i sits at band * i and is one band wide. */
  lemma XBoxPlacement(labels: seq<Entry>, options: AxisOptions, w: real, labelWidths: seq<real>)
    requires |labelWidths| == |labels|
    ensures var x := LayoutXAxis(labels, options, w, labelWidths);
      forall i :: 0 <= i < |labels| ==> x.boxes[i].left == x.band * (i as real) && x.boxes[i].width == x.band
  {
  }

  /** In both modes consecutive X labels are one band apart. */
  lemma XBoxesEvenlySpaced(labels: seq<Entry>, options: AxisOptions, w: real, labelWidths: seq<real>)
    requires |labelWidths| == |labels|
    ensures var x := LayoutXAxis(labels, options, w, labelWidths);
      (forall i :: 0 <= i < |labels| - 1 ==> x.boxes[i + 1].left == x.boxes[i].left + x.band)
  {
    var x := LayoutXAxis(labels, options, w, labelWidths);
    XBoxPlacement(labels, options, w, labelWidths);
    forall i | 0 <= i < |labels| - 1
      ensures x.boxes[i + 1].left == x.boxes[i].left + x.band
    {
      assert x.boxes[i].left == x.band * (i as real);
      assert x.boxes[i + 1].left == x.band * ((i + 1) as real);
      NextMultiple(x.band, i);
    }
  }

  /** The X bands add up to the width, in both modes, unless there are none. */
  lemma XBandsFillWidth(labels: seq<Entry>, options: AxisOptions, w: real, labelWidths: seq<real>)
    requires |labelWidths| == |labels|
    ensures var x := LayoutXAxis(labels, options, w, labelWidths);
      BandCount(|labels|, x.center) != 0 ==> x.band * (BandCount(|labels|, x.center) as real) == w
  {
    var x := LayoutXAxis(labels, options, w, labelWidths);
    var bands := BandCount(|labels|, x.center);
    assert x.band == BandSize(w, bands);
  }

  /**
   * Y label i is offset band * i from its edge, plus half a band when centred;
   * the edge is the top exactly with fromTop; in both modes the label is raised
   * by half its height.
   */
  lemma YBoxOffsets(labels: seq<Entry>, options: AxisOptions, h: real, labelHeights: seq<real>)
    requires |labelHeights| == |labels|
    ensures var y := LayoutYAxis(labels, options, h, labelHeights);
      forall i :: 0 <= i < |labels| ==>
        && y.boxes[i].offset == y.band * (i as real) + (if y.center then y.band / 2.0 else 0.0)
        && (y.boxes[i].edge == Top <==> options.fromTop)
        && y.boxes[i].marginTop == -labelHeights[i] / 2.0
  {
    var y := LayoutYAxis(labels, options, h, labelHeights);
    var half := if y.center then y.band / 2.0 else 0.0;
    var edge := if options.fromTop then Top else Bottom;
    forall i | 0 <= i < |labels|
      ensures y.boxes[i].offset == y.band * (i as real) + half
      ensures y.boxes[i].edge == Top <==> options.fromTop
      ensures y.boxes[i].marginTop == -labelHeights[i] / 2.0
    {
      assert y.boxes[i] == YLabelBox(edge, y.band * (i as real) + half, -0.5 * labelHeights[i]);
    }
  }

  /** In both modes consecutive Y labels are one band apart. */
  lemma YBoxesEvenlySpaced(labels: seq<Entry>, options: AxisOptions, h: real, labelHeights: seq<real>)
    requires |labelHeights| == |labels|
    ensures var y := LayoutYAxis(labels, options, h, labelHeights);
      (forall i :: 0 <= i < |labels| - 1 ==> y.boxes[i + 1].offset == y.boxes[i].offset + y.band)
  {
    var y := LayoutYAxis(labels, options, h, labelHeights);
    var half := if y.center then y.band / 2.0 else 0.0;
    YBoxOffsets(labels, options, h, labelHeights);
    forall i | 0 <= i < |labels| - 1
      ensures y.boxes[i + 1].offset == y.boxes[i].offset + y.band
    {
      assert y.boxes[i].offset == y.band * (i as real) + half;
      assert y.boxes[i + 1].offset == y.band * ((i + 1) as real) + half;
      NextMultiple(y.band, i);
    }
  }

  /** The Y bands add up to the height, in both modes, unless there are none. */
  lemma YBandsFillHeight(labels: seq<Entry>, options: AxisOptions, h: real, labelHeights: seq<real>)
    requires |labelHeights| == |labels|
    ensures var y := LayoutYAxis(labels, options, h, labelHeights);
      BandCount(|labels|, y.center) != 0 ==> y.band * (BandCount(|labels|, y.center) as real) == h
  {
    var y := LayoutYAxis(labels, options, h, labelHeights);
    var bands := BandCount(|labels|, y.center);
    assert y.band == BandSize(h, bands);
  }

  /** With lines drawn, Y gridline i is at canvas y band * (i + 1), measured from the top. */
  lemma YGridlinesAt(labels: seq<Entry>, options: AxisOptions, h: real, labelHeights: seq<real>)
    requires |labelHeights| == |labels|
    requires DrawLines(labels, options)
    ensures var y := LayoutYAxis(labels, options, h, labelHeights);
      forall i :: 0 <= i < |labels| ==> y.gridlines[i] == y.band * ((i + 1) as real)
  {
    var y := LayoutYAxis(labels, options, h, labelHeights);
    assert y.drawLines;
  }

  /** Switching fromTop mirrors every Y label about the middle of the canvas. */
  lemma YFromTopMirrors(labels: seq<Entry>, options: AxisOptions, h: real, labelHeights: seq<real>)
    requires |labelHeights| == |labels|
    ensures var top := LayoutYAxis(labels, options.(fromTop := true), h, labelHeights);
      var bottom := LayoutYAxis(labels, options.(fromTop := false), h, labelHeights);
      forall i :: 0 <= i < |labels| ==> CanvasY(top.boxes[i], h) + CanvasY(bottom.boxes[i], h) == h
  {
    var top := LayoutYAxis(labels, options.(fromTop := true), h, labelHeights);
    var bottom := LayoutYAxis(labels, options.(fromTop := false), h, labelHeights);
    assert top.center == bottom.center && top.band == bottom.band;
    YBoxOffsets(labels, options.(fromTop := true), h, labelHeights);
    YBoxOffsets(labels, options.(fromTop := false), h, labelHeights);
    forall i | 0 <= i < |labels|
      ensures CanvasY(top.boxes[i], h) + CanvasY(bottom.boxes[i], h) == h
    {
      assert top.boxes[i].offset == bottom.boxes[i].offset;
      assert top.boxes[i].edge == Top && bottom.boxes[i].edge == Bottom;
    }
  }

  /** Ticked Y labels run from the bottom edge to the top edge, or from the top to the bottom with fromTop. */
  lemma YTickedSpansHeight(labels: seq<Entry>, options: AxisOptions, h: real, labelHeights: seq<real>)
    requires |labelHeights| == |labels| >= 2
    requires !CenterLabels(labels, options)
    ensures var y := LayoutYAxis(labels, options, h, labelHeights);
      && CanvasY(y.boxes[0], h) == (if options.fromTop then 0.0 else h)
      && CanvasY(y.boxes[|labels| - 1], h) == (if options.fromTop then h else 0.0)
  {
    var y := LayoutYAxis(labels, options, h, labelHeights);
    var bands := BandCount(|labels|, false);
    assert y.band * (bands as real) == h;
  }

  /** Centred Y labels sit in the middle of their bands, and the bands fill the height; every label is raised by half its height. */
  lemma YCenteredMidpoints(labels: seq<Entry>, options: AxisOptions, h: real, labelHeights: seq<real>)
    requires |labelHeights| == |labels| >= 1
    requires CenterLabels(labels, options)
    ensures var y := LayoutYAxis(labels, options, h, labelHeights);
      && y.band * (|labels| as real) == h
      && (forall i :: 0 <= i < |labels| ==>
            && y.boxes[i].offset - y.band * (i as real) == y.band * ((i + 1) as real) - y.boxes[i].offset
            && y.boxes[i].marginTop == -labelHeights[i] / 2.0)
  {
  }

  /** drawXAxis(["Jan", "Feb", "Mar"]) on a 300-wide canvas: centred, bands of 100 at 0, 100 and 200, no gridlines. */
  lemma MonthLabelsExample(labelWidths: seq<real>)
    requires |labelWidths| == 3
    ensures var x := LayoutXAxis([Text("Jan"), Text("Feb"), Text("Mar")], NoOptions, 300.0, labelWidths);
      && x.center && !x.drawLines && x.band == 100.0
      && x.boxes[0].left == 0.0 && x.boxes[1].left == 100.0 && x.boxes[2].left == 200.0
      && x.gridlines == []
  {
  }
}
