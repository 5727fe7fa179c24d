/**
 * The sheet-music viewer (src/components/SheetMusicViewer.tsx): annotations
 * added by clicking the page, the active annotation and its comment, saving
 * that comment as feedback, and where existing feedback is drawn.
 *
 * Positions are percentages of the image's width and height; the DOM
 * geometry that turns a mouse event into them is not modelled, so a click
 * receives `x` and `y` directly.
 */
module SheetMusicViewer {

  import opened Types
  import opened Text
  import opened JsMath

  datatype Point = Point(x: real, y: real)

  /** The measure a horizontal position falls in: `Math.ceil(x / 10)`. */
  function MeasureAt(x: real): (measure: int)
    ensures 0.0 < x <= 100.0 ==> 1 <= measure <= 10
    ensures x == 0.0 ==> measure == 0
    ensures x <= (measure * 10) as real < x + 10.0
  {
    Ceil(x / 10.0)
  }

  /** The comment a click starts with. */
  function DefaultComment(x: real): (comment: string)
    ensures 11 <= |comment| && comment[..8] == "Measure " && comment[|comment| - 2..] == ": "
    ensures 0.0 <= x ==> DigitsValue(comment[8..|comment| - 2]) == MeasureAt(x)
  {
    var measure := MeasureAt(x);
    if measure < 0 then "Measure " + IntText(measure) + ": "
    else
      FramedNumber("Measure ", measure, ": ");
      "Measure " + IntText(measure) + ": "
  }

  /** Where existing feedback number `index` is drawn: measure (or 1) times 10 across, 20 + 5 index down. */
  function FeedbackMarker(index: nat, feedback: Feedback): (p: (int, int))
    ensures p.0 == 10 * (if feedback.measureNumber.None? || feedback.measureNumber.value == 0 then 1
                         else feedback.measureNumber.value)
    ensures p.1 == 20 + 5 * index
  {
    var measure := if feedback.measureNumber.Some? && feedback.measureNumber.value != 0
                   then feedback.measureNumber.value else 1;
    (measure * 10, 20 + index * 5)
  }

  /**
   * A comment saved from a click is drawn back at most one measure to the
   * right of the click, never to its left; a click at the left edge
   * saves measure 0, which is drawn as measure 1.
   */
  lemma SavedFeedbackDrawnNearClick(x: real, index: nat, f: Feedback)
    requires 0.0 <= x <= 100.0
    requires f.measureNumber == Some(MeasureAt(x))
    ensures 0.0 < x ==> x <= FeedbackMarker(index, f).0 as real < x + 10.0
    ensures x == 0.0 ==> FeedbackMarker(index, f).0 == 10
    ensures 10 <= FeedbackMarker(index, f).0 <= 100
  {
  }

  /** Later feedback is drawn lower: no two markers share a row. */
  lemma MarkersStackDown(i: nat, j: nat, f: Feedback, g: Feedback)
    requires i < j
    ensures FeedbackMarker(i, f).1 + 5 <= FeedbackMarker(j, g).1
  {
  }

  class Viewer {
    const readOnly: bool
    /** Whether an `onAddFeedback` callback was given. */
    const hasCallback: bool
    var annotations: seq<Point>
    var active: Option<nat>
    var comment: string

    /** The active annotation, when there is one, exists. */
    ghost predicate Valid()
      reads this
    {
      active.Some? ==> active.value < |annotations|
    }

    constructor (readOnly0: bool, hasCallback0: bool)
      ensures readOnly == readOnly0 && hasCallback == hasCallback0
      ensures annotations == [] && active.None? && comment == ""
      ensures Valid()
    {
      readOnly := readOnly0;
      hasCallback := hasCallback0;
      annotations := [];
      active := None;
      comment := "";
    }

    /**
     * `handleImageClick`: ignored in read-only mode; otherwise appends the
     * point, makes it the active annotation and starts the comment with its
     * measure.
     */
    method ImageClick(x: real, y: real)
      requires Valid()
      modifies this`annotations, this`active, this`comment
      ensures Valid()
      ensures readOnly ==> annotations == old(annotations) && active == old(active) && comment == old(comment)
      ensures !readOnly ==>
        && annotations == old(annotations) + [Point(x, y)]
        && active == Some(|old(annotations)|)
        && comment == DefaultComment(x)
    {
      if readOnly {
        return;
      }
      var estimatedMeasure := MeasureAt(x);
      active := Some(|annotations|);
      annotations := annotations + [Point(x, y)];
      comment := "Measure " + IntText(estimatedMeasure) + ": ";
    }

    /**
     * `handleSaveComment`: with an active annotation and a callback, hands
     * the annotation's measure and the comment to the callback (the result
     * here), then clears the active annotation and the comment; otherwise
     * does nothing. The annotations themselves stay.
     */
    method SaveComment() returns (saved: Option<(int, string)>)
      requires Valid()
      modifies this`active, this`comment
      ensures Valid()
      ensures saved.Some? <==> old(active).Some? && hasCallback
      ensures saved.Some? ==>
        && saved.value == (MeasureAt(annotations[old(active).value].x), old(comment))
        && active.None? && comment == ""
      ensures saved.None? ==> active == old(active) && comment == old(comment)
    {
      if active.Some? && hasCallback {
        var measureNumber := MeasureAt(annotations[active.value].x);
        saved := Some((measureNumber, comment));
        active := None;
        comment := "";
      } else {
        saved := None;
      }
    }

    /** Clicking marker `index` makes it active, adding nothing. */
    method SelectMarker(index: nat)
      requires Valid() && index < |annotations|
      modifies this`active
      ensures Valid()
      ensures active == Some(index)
    {
      active := Some(index);
    }
  }
}
