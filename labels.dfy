/** The label entity: one outside label of a slice, with its text lines, its
    style and measured size, the offset animator state and the geometry that
    `update` recomputes. */
module Labels {
  import opened Wrappers
  import opened Geometry
  import opened Anchor
  import opened OffsetAnimator
  import opened TextLines
  import opened Resolver

  class OutLabel {
    const text: string
    const lines: seq<string>
    const style: Style
    const size: Size
    const stretch: real
    const useCustomLogic: bool
    const offsetStep: real
    var offset: Offset
    var predictedOffset: Offset
    var center: Center
    var textRect: Rect
    var labelRect: Rect

    /** `init`: assigns the fields and picks the target offset. The target is
        written through `predictedOffset`, which is the very object `offset`,
        so the current offset becomes the target at once. Centre and
        rectangles get placeholder values until the first `update`. */
    constructor (text: string, lines: seq<string>, style: Style, size: Size,
                 stretch: real, useCustomLogic: bool, angle: real)
      ensures this.text == text && this.lines == lines && this.style == style
      ensures this.size == size && this.stretch == stretch
      ensures this.useCustomLogic == useCustomLogic
      ensures offsetStep == size.width / 20.0
      ensures fresh(offset) && predictedOffset == offset
      ensures offset.x == TargetOffsetX(angle, size.width, 0.0) && offset.y == 0.0
    {
      this.text := text;
      this.lines := lines;
      this.style := style;
      this.size := size;
      this.stretch := stretch;
      this.useCustomLogic := useCustomLogic;
      this.offsetStep := size.width / 20.0;
      var o := new Offset(0.0, 0.0);
      this.offset := o;
      this.predictedOffset := o;
      var origin := Point(0.0, 0.0);
      this.center := Center(0.0, 0.0, 0.0, Arc(0.0, 0.0, 0.0, 0.0, 0.0, 0.0), origin, false, origin);
      this.textRect := Rect(0.0, 0.0, 0.0, 0.0);
      this.labelRect := Rect(0.0, 0.0, 0.0, 0.0);
      new;
      predictedOffset.x := TargetOffsetX(angle, size.width, predictedOffset.x);
    }

    /** `moveLabelToOffset`: one clamped step of `offset.x` towards
        `predictedOffset.x`; `offset.y` is left alone. */
    method MoveLabelToOffset()
      modifies offset
      ensures offset.x == StepToward(old(offset.x), old(predictedOffset.x), offsetStep)
      ensures offset.y == old(offset.y)
    {
      if predictedOffset.x <= 0.0 && offset.x > predictedOffset.x {
        offset.x := offset.x - offsetStep;
        if offset.x <= predictedOffset.x {
          offset.x := predictedOffset.x;
        }
      } else if predictedOffset.x >= 0.0 && offset.x < predictedOffset.x {
        offset.x := offset.x + offsetStep;
        if offset.x >= predictedOffset.x {
          offset.x := predictedOffset.x;
        }
      }
    }

    /** `update`: take the positioner's centre `natural`, step the offset, add
        it to the centre and resolve collisions in the label's fixed mode.
        `elements` are the rectangles of the labels of the chart's elements
        (None for an element without one), of which the first `max` are
        consulted; `naturalAbove` is the trigonometric test of the vertical
        mover and `moveFromAnchor` the positioner's push, both supplied by the
        caller. `iterations` counts mode A's pushes or mode B's loop counter. */
    method Update(natural: Center, elements: seq<Option<Rect>>, max: nat, canvasHeight: real,
                  naturalAbove: (Arc, real) -> bool, moveFromAnchor: (Center, real) -> Center,
                  fuel: nat)
      returns (outcome: Outcome, iterations: nat)
      requires max <= |elements|
      modifies this, offset
      ensures offset == old(offset) && predictedOffset == old(predictedOffset)
      ensures offset.x == StepToward(old(offset.x), old(predictedOffset.x), offsetStep)
      ensures offset.y == old(offset.y)
      ensures textRect == TextRect(center.Position(), size)
      ensures labelRect == LabelRect(textRect, style)
      ensures !useCustomLogic ==> outcome == Placed || outcome == OutOfFuel
      ensures !useCustomLogic ==> (outcome == Placed <==> !CollidesWithPlaced(labelRect, elements, max))
      ensures !useCustomLogic ==>
        center == Pushed(natural.Shifted(Point(offset.x, offset.y)), Point(offset.x, offset.y),
                         moveFromAnchor, iterations)
      ensures !useCustomLogic ==> iterations <= fuel
      ensures !useCustomLogic ==>
        forall k :: 0 <= k < iterations ==>
          CollidesWithPlaced(LabelRectAt(Pushed(natural.Shifted(Point(offset.x, offset.y)),
                                                Point(offset.x, offset.y), moveFromAnchor, k),
                                         size, style), elements, max)
      ensures !useCustomLogic && outcome == OutOfFuel ==> iterations == fuel
      ensures useCustomLogic ==> outcome == Placed || outcome == Abandoned
      ensures useCustomLogic ==> 1 <= iterations <= UpdateLoopLimit + 1
      ensures useCustomLogic ==> (outcome == Abandoned <==> iterations == UpdateLoopLimit + 1)
      ensures useCustomLogic && outcome == Placed ==>
        PolarPlacementOk(center, labelRect, stretch, elements, max, canvasHeight)
      ensures useCustomLogic ==> center.arc == natural.arc && center.anchor == natural.anchor
      ensures useCustomLogic ==>
        center.flipX == (natural.flipX || iterations > UpdateLoopLimit / 3)
      ensures useCustomLogic &&
        PolarPlacementOk(natural.Shifted(Point(offset.x, offset.y)),
                         LabelRectAt(natural.Shifted(Point(offset.x, offset.y)), size, style),
                         stretch, elements, max, canvasHeight)
        ==> outcome == Placed && iterations == 1 && center == natural.Shifted(Point(offset.x, offset.y))
    {
      center := natural;
      MoveLabelToOffset();
      var shift := Point(offset.x, offset.y);
      center := center.Shifted(shift);
      var c, tr, lr;
      if !useCustomLogic {
        c, tr, lr, iterations, outcome :=
          ResolveGeneric(center, shift, size, style, elements, max, moveFromAnchor, fuel);
      } else {
        c, tr, lr, iterations, outcome :=
          ResolvePolar(center, size, style, stretch, elements, max, canvasHeight, naturalAbove);
      }
      center, textRect, labelRect := c, tr, lr;
    }
  }

  /** The constructor as a whole: extract the lines (failing with
      "No text to show." when there are none), measure them with the caller's
      `measure` and initialise the label. */
  method NewOutLabel(text: string, style: Style, measure: seq<string> -> Size,
                     stretch: real, useCustomLogic: bool, angle: real)
    returns (r: Result<OutLabel, LabelError>)
    ensures r.Err? <==> forall i :: 0 <= i < |text| ==> IsLineBreak(text[i])
    ensures r.Err? ==> r.error == NoTextToShow
    ensures r.Ok? ==> fresh(r.value) && r.value.text == text
    ensures r.Ok? ==> |r.value.lines| == |Runs(text)| > 0
    ensures r.Ok? ==> forall k :: 0 <= k < |r.value.lines| ==> r.value.lines[k] == Trim(Runs(text)[k])
    ensures r.Ok? ==> r.value.size == measure(r.value.lines)
    ensures r.Ok? ==> r.value.style == style && r.value.stretch == stretch
    ensures r.Ok? ==> r.value.useCustomLogic == useCustomLogic
    ensures r.Ok? ==> r.value.offsetStep == r.value.size.width / 20.0
    ensures r.Ok? ==> fresh(r.value.offset) && r.value.predictedOffset == r.value.offset
    ensures r.Ok? ==> r.value.offset.x == TargetOffsetX(angle, r.value.size.width, 0.0)
    ensures r.Ok? ==> r.value.offset.y == 0.0
  {
    var extracted := ExtractLines(text);
    if extracted.Err? {
      return Err(extracted.error);
    }
    var lines := extracted.value;
    var outLabel := new OutLabel(text, lines, style, measure(lines), stretch, useCustomLogic, angle);
    return Ok(outLabel);
  }

  /** Construction followed by the first offset step: because the two offsets
      are one object, the label starts at its target and the step leaves it
      there. */
  method FirstStepKeepsTarget(text: string, lines: seq<string>, style: Style, size: Size,
                              stretch: real, useCustomLogic: bool, angle: real)
    returns (before: real, after: real)
    ensures before == TargetOffsetX(angle, size.width, 0.0)
    ensures after == before
  {
    var outLabel := new OutLabel(text, lines, style, size, stretch, useCustomLogic, angle);
    before := outLabel.offset.x;
    outLabel.MoveLabelToOffset();
    after := outLabel.offset.x;
  }
}
