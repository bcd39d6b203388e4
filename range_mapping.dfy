/**
 * The numeric core of the video range slider: converting a thumb's pixel
 * offset into a time in seconds and back, and adjusting a requested thumb
 * offset so that the selected duration stays within the minimum and maximum
 * track times. Everything here is a pure function of explicit inputs; the
 * slider object in module VideoRangeSlider supplies its own fields.
 *
 * Pixel lengths (CGFloat) and times (Double) are both modelled as `real`.
 */
module RangeMapping {

  /** The conversion between pixels and seconds at one moment:
      `sliderWidth` pixels (the view width less both thumbs, i.e. the span
      between the thumbs' inner edges when both rest at the ends) show
      `displayDuration` seconds, starting at `rangeStart` seconds. */
  datatype Scale = Scale(sliderWidth: real, displayDuration: real, rangeStart: real) {
    /** Both divisors of the time-to-position mappers are positive: the view
        is wider than two thumbs and the visible window is a positive
        duration. The position-to-time mappers divide by the slider width
        alone and need only that to be non-zero. */
    predicate Defined() {
      sliderWidth > 0.0 && displayDuration > 0.0
    }
  }

  /** The per-thumbnail pixel width chosen for a clip, by regime. */
  datatype Layout =
    | LongClip(keyframeWidth: real)                        // longer than the maximum track time
    | ShortClip(keyframeWidth: real, trailingConstant: real) // at most 3 seconds
    | Spread(keyframeWidth: real)                          // everything else

  /** The usable track width: the view width less one thumb on each side. */
  function SliderWidth(frameWidth: real, thumbWidth: real): real {
    frameWidth - thumbWidth * 2.0
  }

  /** The pixel width of the whole thumbnail strip, never zero so that it can divide. */
  function TrackLength(keyframeWidth: real, keyframeCount: nat): (r: real)
    ensures r != 0.0
    ensures keyframeWidth * keyframeCount as real != 0.0 ==> r == keyframeWidth * keyframeCount as real
    ensures keyframeWidth * keyframeCount as real == 0.0 ==> r == 1.0
    ensures keyframeWidth >= 0.0 ==> r > 0.0
  {
    var trackLength := keyframeWidth * keyframeCount as real;
    if trackLength == 0.0 then 1.0 else trackLength
  }

  /** The number of seconds that the slider width shows. */
  function DisplayDuration(sliderWidth: real, trackLength: real, duration: real): real
    requires trackLength != 0.0
  {
    (sliderWidth / trackLength) * duration
  }

  // ---------------------------------------------------------------------------
  // The four linear mappers
  // ---------------------------------------------------------------------------

  /** Time at a left-thumb offset, measured rightwards from the left edge. */
  function LeftPositionToTime(sc: Scale, x: real): real
    requires sc.sliderWidth != 0.0
  {
    (x / sc.sliderWidth) * sc.displayDuration + sc.rangeStart
  }

  /** Time at a right-thumb offset, measured (negative inwards) from the right edge. */
  function RightPositionToTime(sc: Scale, x: real): real
    requires sc.sliderWidth != 0.0
  {
    ((sc.sliderWidth + x) / sc.sliderWidth) * sc.displayDuration + sc.rangeStart
  }

  /** Left-thumb offset that shows time `t`. */
  function TimeToLeftPosition(sc: Scale, t: real): real
    requires sc.Defined()
  {
    ((t - sc.rangeStart) / sc.displayDuration) * sc.sliderWidth
  }

  /** Right-thumb offset that shows time `t`. */
  function TimeToRightPosition(sc: Scale, t: real): real
    requires sc.Defined()
  {
    ((t - sc.rangeStart) / sc.displayDuration) * sc.sliderWidth - sc.sliderWidth
  }

  /** The left mappers are inverse to each other, in both orders. */
  lemma LeftPositionRoundTrip(sc: Scale, x: real)
    requires sc.Defined()
    ensures TimeToLeftPosition(sc, LeftPositionToTime(sc, x)) == x
  {
  }

  lemma LeftTimeRoundTrip(sc: Scale, t: real)
    requires sc.Defined()
    ensures LeftPositionToTime(sc, TimeToLeftPosition(sc, t)) == t
  {
  }

  /** The right mappers are inverse to each other, in both orders. */
  lemma RightPositionRoundTrip(sc: Scale, x: real)
    requires sc.Defined()
    ensures TimeToRightPosition(sc, RightPositionToTime(sc, x)) == x
  {
  }

  lemma RightTimeRoundTrip(sc: Scale, t: real)
    requires sc.Defined()
    ensures RightPositionToTime(sc, TimeToRightPosition(sc, t)) == t
  {
  }

  /** With both thumbs at the ends of the slider the selection is the whole
      visible window. */
  lemma ThumbsAtEnds(sc: Scale)
    requires sc.sliderWidth != 0.0
    ensures LeftPositionToTime(sc, 0.0) == sc.rangeStart
    ensures RightPositionToTime(sc, 0.0) == sc.rangeStart + sc.displayDuration
  {
  }

  /** The selected duration depends only on the pixel gap between the thumbs,
      not on where the visible window starts. */
  lemma SelectedDurationFromPixels(sc: Scale, left: real, right: real)
    requires sc.sliderWidth != 0.0
    ensures RightPositionToTime(sc, right) - LeftPositionToTime(sc, left)
         == ((sc.sliderWidth - left + right) / sc.sliderWidth) * sc.displayDuration
  {
  }

  // ---------------------------------------------------------------------------
  // Clamping a requested thumb offset
  // ---------------------------------------------------------------------------

  /** A requested left-thumb offset never goes left of the left edge. */
  function ClampLeftRequest(x: real): (r: real)
    ensures r >= 0.0
    ensures x >= 0.0 ==> r == x
    ensures x < 0.0 ==> r == 0.0
  {
    if x < 0.0 then 0.0 else x
  }

  /** A requested right-thumb offset stays within `[-sliderWidth, 0]`. */
  function ClampRightRequest(sliderWidth: real, x: real): (r: real)
    requires sliderWidth >= 0.0
    ensures -sliderWidth <= r <= 0.0
    ensures -sliderWidth <= x <= 0.0 ==> r == x
    ensures x < -sliderWidth ==> r == -sliderWidth
    ensures x > 0.0 ==> r == 0.0
  {
    if x < -sliderWidth then -sliderWidth else if x > 0.0 then 0.0 else x
  }

  /** Where the left thumb lands when moved to `x` while the right thumb shows
      time `upper`: the requested offset is clamped at the left edge, and if the
      selection would then be longer than `maxTrackTime` or shorter than
      `minTrackTime` the thumb is put where the selection is exactly that long. */
  function LeftThumbPosition(sc: Scale, upper: real, minTrackTime: real, maxTrackTime: real, x: real): (p: real)
    requires sc.Defined()
    ensures var requested := upper - LeftPositionToTime(sc, ClampLeftRequest(x));
            var selected := upper - LeftPositionToTime(sc, p);
            && (minTrackTime <= maxTrackTime ==> minTrackTime <= selected <= maxTrackTime)
            && (requested > maxTrackTime ==> selected == maxTrackTime)
            && (requested <= maxTrackTime && requested < minTrackTime ==> selected == minTrackTime)
            && (minTrackTime <= requested <= maxTrackTime ==> p == ClampLeftRequest(x))
  {
    var position := ClampLeftRequest(x);
    var positionTime := LeftPositionToTime(sc, position);
    var selected := upper - positionTime;
    var time :=
      if selected > maxTrackTime then upper - maxTrackTime
      else if selected < minTrackTime then upper - minTrackTime
      else positionTime;
    LeftTimeRoundTrip(sc, time);
    LeftPositionRoundTrip(sc, position);
    TimeToLeftPosition(sc, time)
  }

  /** Where the right thumb lands when moved to `x` while the left thumb shows
      time `lower`: symmetric to LeftThumbPosition. */
  function RightThumbPosition(sc: Scale, lower: real, minTrackTime: real, maxTrackTime: real, x: real): (p: real)
    requires sc.Defined()
    ensures var requested := RightPositionToTime(sc, ClampRightRequest(sc.sliderWidth, x)) - lower;
            var selected := RightPositionToTime(sc, p) - lower;
            && (minTrackTime <= maxTrackTime ==> minTrackTime <= selected <= maxTrackTime)
            && (requested > maxTrackTime ==> selected == maxTrackTime)
            && (requested <= maxTrackTime && requested < minTrackTime ==> selected == minTrackTime)
            && (minTrackTime <= requested <= maxTrackTime ==> p == ClampRightRequest(sc.sliderWidth, x))
  {
    var position := ClampRightRequest(sc.sliderWidth, x);
    var positionTime := RightPositionToTime(sc, position);
    var selected := positionTime - lower;
    var time :=
      if selected > maxTrackTime then lower + maxTrackTime
      else if selected < minTrackTime then lower + minTrackTime
      else positionTime;
    RightTimeRoundTrip(sc, time);
    RightPositionRoundTrip(sc, position);
    TimeToRightPosition(sc, time)
  }

  /** The left thumb's offset after a whole drag: each step of the gesture
      adds the translation reported since the previous step to the current
      offset and places the thumb with LeftThumbPosition. The scale and the
      upper value do not change while the left thumb moves. */
  function LeftDrag(sc: Scale, upper: real, minTrackTime: real, maxTrackTime: real,
                    x: real, translations: seq<real>): (p: real)
    requires sc.Defined()
    ensures translations == [] ==> p == x
    ensures translations != [] && minTrackTime <= maxTrackTime ==>
              minTrackTime <= upper - LeftPositionToTime(sc, p) <= maxTrackTime
    decreases |translations|
  {
    if translations == [] then x
    else
      var next := LeftThumbPosition(sc, upper, minTrackTime, maxTrackTime, x + translations[0]);
      LeftDrag(sc, upper, minTrackTime, maxTrackTime, next, translations[1..])
  }

  /** The right thumb's offset after a whole drag, symmetric to LeftDrag. */
  function RightDrag(sc: Scale, lower: real, minTrackTime: real, maxTrackTime: real,
                     x: real, translations: seq<real>): (p: real)
    requires sc.Defined()
    ensures translations == [] ==> p == x
    ensures translations != [] && minTrackTime <= maxTrackTime ==>
              minTrackTime <= RightPositionToTime(sc, p) - lower <= maxTrackTime
    decreases |translations|
  {
    if translations == [] then x
    else
      var next := RightThumbPosition(sc, lower, minTrackTime, maxTrackTime, x + translations[0]);
      RightDrag(sc, lower, minTrackTime, maxTrackTime, next, translations[1..])
  }

  // ---------------------------------------------------------------------------
  // Thumbnail width for a newly loaded clip
  // ---------------------------------------------------------------------------

  /** The nominal pixel width of one thumbnail for clips of at most 3 seconds. */
  const ShortClipKeyframeWidth: real := 40.0

  /** The three regimes of the thumbnail width, tested in this order: a clip
      longer than `maxTrackTime`, a clip of at most 3 seconds, and any other. */
  function KeyframeLayout(duration: real, maxTrackTime: real, frameWidth: real, sliderWidth: real, count: nat): (r: Layout)
    requires count > 0
    requires duration > maxTrackTime ==> maxTrackTime != 0.0 && duration != 0.0
    ensures r.LongClip? <==> duration > maxTrackTime
    ensures r.ShortClip? <==> duration <= maxTrackTime && duration <= 3.0
    ensures r.Spread? <==> 3.0 < duration <= maxTrackTime
  {
    var n := count as real;
    if duration > maxTrackTime then
      var percent := maxTrackTime / duration;
      var percentCount := n * percent;
      assert percentCount != 0.0;
      LongClip(sliderWidth / percentCount)
    else if duration <= 3.0 then
      var constraintValue := n * ShortClipKeyframeWidth - frameWidth;
      if constraintValue > 0.0 then ShortClip(frameWidth / n, 0.0)
      else ShortClip(ShortClipKeyframeWidth, constraintValue)
    else
      Spread(sliderWidth / n)
  }

  /** A clip longer than the maximum track time gets a strip `duration /
      maxTrackTime` slider widths long. */
  lemma LongClipStrip(duration: real, maxTrackTime: real, frameWidth: real, sliderWidth: real, count: nat)
    requires count > 0 && duration > maxTrackTime && maxTrackTime != 0.0 && duration != 0.0
    ensures KeyframeLayout(duration, maxTrackTime, frameWidth, sliderWidth, count).keyframeWidth * count as real
         == sliderWidth * (duration / maxTrackTime)
  {
  }

  /** ... so that the slider shows exactly the maximum track time. */
  lemma LongClipShowsMaxTrackTime(duration: real, maxTrackTime: real, frameWidth: real, sliderWidth: real, count: nat)
    requires count > 0 && duration > maxTrackTime && maxTrackTime != 0.0 && duration != 0.0
    requires sliderWidth != 0.0
    ensures var w := KeyframeLayout(duration, maxTrackTime, frameWidth, sliderWidth, count).keyframeWidth;
            DisplayDuration(sliderWidth, TrackLength(w, count), duration) == maxTrackTime
  {
  }

  /** A clip of at most 3 seconds gets 40-pixel thumbnails when they fit the
      view, and otherwise thumbnails that exactly fill it; the strip's trailing
      constraint takes up the room left over, and is never positive. */
  lemma ShortClipFitsView(duration: real, maxTrackTime: real, frameWidth: real, sliderWidth: real, count: nat)
    requires count > 0 && duration <= maxTrackTime && duration <= 3.0
    ensures var r := KeyframeLayout(duration, maxTrackTime, frameWidth, sliderWidth, count);
            var nominal := count as real * ShortClipKeyframeWidth;
            && r.keyframeWidth <= ShortClipKeyframeWidth
            && r.keyframeWidth * count as real == (if nominal <= frameWidth then nominal else frameWidth)
            && r.trailingConstant == (if nominal - frameWidth <= 0.0 then nominal - frameWidth else 0.0)
  {
  }

  /** A clip longer than 3 seconds but within the maximum track time spreads
      its thumbnails over the slider width, which then shows the whole clip. */
  lemma SpreadClipShowsWholeDuration(duration: real, maxTrackTime: real, frameWidth: real, sliderWidth: real, count: nat)
    requires count > 0 && 3.0 < duration <= maxTrackTime
    ensures var w := KeyframeLayout(duration, maxTrackTime, frameWidth, sliderWidth, count).keyframeWidth;
            && w * count as real == sliderWidth
            && (sliderWidth != 0.0 ==> DisplayDuration(sliderWidth, TrackLength(w, count), duration) == duration)
  {
  }

  // ---------------------------------------------------------------------------
  // Scrolling the thumbnail strip
  // ---------------------------------------------------------------------------

  /** The time at the left edge of the visible window when the strip of
      `trackLength` pixels is scrolled to `offset`: the offset is clamped to the
      strip, taken as a fraction of it, and that fraction of `duration`
      (clamped to `[0, duration]`) is the new start. */
  function ScrollStartTime(offset: real, trackLength: real, duration: real): (r: real)
    requires trackLength != 0.0
    ensures 0.0 <= duration ==> 0.0 <= r <= duration
  {
    var position := if offset < 0.0 then 0.0 else offset;
    var position' := if position > trackLength then trackLength else position;
    var percent := position' / trackLength;
    var second := duration * percent;
    var second' := if second < 0.0 then 0.0 else second;
    if second' > duration then duration else second'
  }

  /** Scrolling to an offset within the strip starts the window at the same
      fraction of the clip; scrolling before the strip starts it at 0 and past
      the strip at the end of the clip. */
  lemma ScrollStartIsProportional(offset: real, trackLength: real, duration: real)
    requires 0.0 < trackLength && 0.0 <= duration
    ensures offset <= 0.0 ==> ScrollStartTime(offset, trackLength, duration) == 0.0
    ensures offset >= trackLength ==> ScrollStartTime(offset, trackLength, duration) == duration
    ensures 0.0 <= offset <= trackLength ==>
              ScrollStartTime(offset, trackLength, duration) == (offset / trackLength) * duration
  {
  }

  /** The seconds that `pixels` of a strip of `trackLength` pixels stand for. */
  function SelectedPixelsDuration(pixels: real, trackLength: real, duration: real): real
    requires trackLength != 0.0
  {
    (pixels / trackLength) * duration
  }

  /** Moving the visible window to start at `start` shifts both thumb times by
      the same amount, so the selected duration stays what the selected pixels
      show at the strip's scale. */
  lemma ScrollKeepsSelectedDuration(sc: Scale, start: real, left: real, right: real,
                                    trackLength: real, duration: real)
    requires sc.sliderWidth != 0.0 && trackLength != 0.0
    requires sc.displayDuration == DisplayDuration(sc.sliderWidth, trackLength, duration)
    ensures var moved := sc.(rangeStart := start);
            && RightPositionToTime(moved, right) - LeftPositionToTime(moved, left)
               == RightPositionToTime(sc, right) - LeftPositionToTime(sc, left)
            && RightPositionToTime(moved, right) - LeftPositionToTime(moved, left)
               == SelectedPixelsDuration(sc.sliderWidth - left + right, trackLength, duration)
  {
  }

  /** The pixel width selected between the thumbs, converted at the strip's own
      scale, is the selected duration the thumbs show: this is what scrolling
      stores as the visible window's length. */
  lemma SelectedPixelsAsTime(sc: Scale, left: real, right: real, trackLength: real, duration: real)
    requires sc.sliderWidth != 0.0 && trackLength != 0.0
    requires sc.displayDuration == DisplayDuration(sc.sliderWidth, trackLength, duration)
    ensures ((sc.sliderWidth - left + right) / trackLength) * duration
         == RightPositionToTime(sc, right) - LeftPositionToTime(sc, left)
  {
  }
}
