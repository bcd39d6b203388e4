/**
 * The numeric state of the video range slider: two thumbs over a strip of
 * thumbnails, the window of the clip that the strip currently shows, and the
 * operations that change them (dragging a thumb, scrolling the strip, loading
 * a clip). Views, layers, constraints and gesture plumbing are not modelled;
 * the one layout constraint whose constant the slider computes, the trailing
 * constraint of the thumbnail strip, is kept as `trailingConstant`.
 */
module VideoRangeSlider {
  import RangeMapping

  /** The video asset handed to the slider, reduced to its duration in seconds. */
  datatype VideoAsset = Missing | Present(seconds: real)

  class RangeSlider {
    // configuration
    var frameWidth: real
    var thumbWidth: real
    var minTrackTime: real
    var maxTrackTime: real

    // thumb offsets: the left one from the left edge, the right one (zero or
    // negative) from the right edge
    var leftThumbPositionX: real
    var rightThumbPositionX: real

    // the visible window of the clip, in seconds
    var rangeStartTime: real
    var rangeEndTime: real

    // the loaded clip and its thumbnail strip
    var videoAsset: VideoAsset
    var duration: real
    var keyframeWidth: real
    var keyframeCount: nat
    var trailingConstant: real

    /** A slider of the given view width with the source's defaults. */
    constructor (frameWidth: real)
      ensures this.frameWidth == frameWidth && thumbWidth == 10.0
      ensures minTrackTime == 3.0 && maxTrackTime == 10.0
      ensures leftThumbPositionX == 0.0 && rightThumbPositionX == 0.0
      ensures rangeStartTime == 0.0 && rangeEndTime == 1.0
      ensures videoAsset == Missing && duration == 0.0
      ensures keyframeWidth == RangeMapping.ShortClipKeyframeWidth && keyframeCount == 0
      ensures trailingConstant == -thumbWidth
      ensures SliderWidth() != 0.0 ==> LowerValue() == 0.0 && UpperValue() == 0.0 && TrackedDuration() == 0.0
    {
      this.frameWidth := frameWidth;
      thumbWidth := 10.0;
      minTrackTime := 3.0;
      maxTrackTime := 10.0;
      leftThumbPositionX := 0.0;
      rightThumbPositionX := 0.0;
      rangeStartTime := 0.0;
      rangeEndTime := 1.0;
      videoAsset := Missing;
      duration := 0.0;
      keyframeWidth := RangeMapping.ShortClipKeyframeWidth;
      keyframeCount := 0;
      trailingConstant := -10.0;
    }

    // -------------------------------------------------------------------------
    // Derived quantities
    // -------------------------------------------------------------------------

    function SliderWidth(): real
      reads this`frameWidth, this`thumbWidth
    {
      RangeMapping.SliderWidth(frameWidth, thumbWidth)
    }

    function VideoTrackLength(): real
      reads this`keyframeWidth, this`keyframeCount
    {
      RangeMapping.TrackLength(keyframeWidth, keyframeCount)
    }

    function DisplayDuration(): real
      reads this`frameWidth, this`thumbWidth, this`keyframeWidth, this`keyframeCount, this`duration
    {
      RangeMapping.DisplayDuration(SliderWidth(), VideoTrackLength(), duration)
    }

    /** The current pixel/time conversion. */
    function CurrentScale(): RangeMapping.Scale
      reads this`frameWidth, this`thumbWidth, this`keyframeWidth, this`keyframeCount, this`duration
      reads this`rangeStartTime
    {
      RangeMapping.Scale(SliderWidth(), DisplayDuration(), rangeStartTime)
    }

    /** The time at the left thumb. */
    function LowerValue(): real
      reads this
      requires SliderWidth() != 0.0
    {
      RangeMapping.LeftPositionToTime(CurrentScale(), leftThumbPositionX)
    }

    /** The time at the right thumb. */
    function UpperValue(): real
      reads this
      requires SliderWidth() != 0.0
    {
      RangeMapping.RightPositionToTime(CurrentScale(), rightThumbPositionX)
    }

    /** The pixel width between the two thumbs (despite its name, a length in pixels). */
    function SelectedTimeLength(): real
      reads this`frameWidth, this`thumbWidth, this`leftThumbPositionX, this`rightThumbPositionX
    {
      SliderWidth() - leftThumbPositionX + rightThumbPositionX
    }

    /** The selected duration. */
    function TrackedDuration(): real
      reads this
      requires SliderWidth() != 0.0
    {
      UpperValue() - LowerValue()
    }

    // -------------------------------------------------------------------------
    // Configuration
    // -------------------------------------------------------------------------

    /** Setting the thumb width also moves the strip's trailing edge inwards by it. */
    method SetThumbWidth(width: real)
      modifies this
      ensures thumbWidth == width && trailingConstant == -width
      ensures unchanged(this`frameWidth, this`minTrackTime, this`maxTrackTime)
      ensures unchanged(this`leftThumbPositionX, this`rightThumbPositionX)
      ensures unchanged(this`rangeStartTime, this`rangeEndTime, this`videoAsset, this`duration)
      ensures unchanged(this`keyframeWidth, this`keyframeCount)
    {
      thumbWidth := width;
      trailingConstant := -thumbWidth;
    }

    // -------------------------------------------------------------------------
    // Loading a clip
    // -------------------------------------------------------------------------

    /** Both thumbs go back to the ends of the slider. */
    method UpdateInitState()
      modifies this
      ensures leftThumbPositionX == 0.0 && rightThumbPositionX == 0.0
      ensures unchanged(this`frameWidth, this`thumbWidth, this`minTrackTime, this`maxTrackTime)
      ensures unchanged(this`rangeStartTime, this`rangeEndTime, this`videoAsset, this`duration)
      ensures unchanged(this`keyframeWidth, this`keyframeCount, this`trailingConstant)
      ensures CurrentScale() == old(CurrentScale())
      ensures SliderWidth() != 0.0 ==>
                LowerValue() == rangeStartTime && UpperValue() == rangeStartTime + DisplayDuration()
    {
      leftThumbPositionX := 0.0;
      rightThumbPositionX := 0.0;
      if SliderWidth() != 0.0 {
        RangeMapping.ThumbsAtEnds(CurrentScale());
      }
    }

    /** A new duration opens the visible window at the start of the clip, at
        most `maxTrackTime` long, and resets both thumbs. */
    method SetDuration(seconds: real)
      modifies this
      ensures duration == seconds
      ensures rangeStartTime == 0.0
      ensures rangeEndTime == if seconds > maxTrackTime then maxTrackTime else seconds
      ensures leftThumbPositionX == 0.0 && rightThumbPositionX == 0.0
      ensures unchanged(this`frameWidth, this`thumbWidth, this`minTrackTime, this`maxTrackTime)
      ensures unchanged(this`videoAsset, this`keyframeWidth, this`keyframeCount, this`trailingConstant)
      ensures SliderWidth() != 0.0 ==> LowerValue() == 0.0 && UpperValue() == DisplayDuration()
    {
      duration := seconds;
      if duration > maxTrackTime {
        rangeStartTime := 0.0;
        rangeEndTime := maxTrackTime;
      } else {
        rangeStartTime := 0.0;
        rangeEndTime := duration;
      }
      UpdateInitState();
    }

    /** A new list of `count` thumbnails fixes the thumbnail width by the
        regime of the clip's duration; a short clip also sets the strip's
        trailing constraint. */
    method SetKeyframes(count: nat)
      requires count > 0
      requires duration > maxTrackTime ==> maxTrackTime != 0.0 && duration != 0.0
      modifies this
      ensures unchanged(this`frameWidth, this`thumbWidth, this`minTrackTime, this`maxTrackTime)
      ensures unchanged(this`leftThumbPositionX, this`rightThumbPositionX)
      ensures unchanged(this`rangeStartTime, this`rangeEndTime, this`videoAsset, this`duration)
      ensures keyframeCount == count
      ensures var layout := RangeMapping.KeyframeLayout(duration, maxTrackTime, frameWidth, SliderWidth(), count);
              && keyframeWidth == layout.keyframeWidth
              && trailingConstant == if layout.ShortClip? then layout.trailingConstant else old(trailingConstant)
      ensures duration > maxTrackTime && SliderWidth() != 0.0 ==> DisplayDuration() == maxTrackTime
      ensures 3.0 < duration <= maxTrackTime && SliderWidth() != 0.0 ==> DisplayDuration() == duration
    {
      ghost var layout := RangeMapping.KeyframeLayout(duration, maxTrackTime, frameWidth, SliderWidth(), count);
      keyframeCount := count;
      var n := count as real;
      if duration > maxTrackTime {
        var percent := maxTrackTime / duration;
        var percentCount := n * percent;
        keyframeWidth := SliderWidth() / percentCount;
        assert keyframeWidth == layout.keyframeWidth;
        if SliderWidth() != 0.0 {
          RangeMapping.LongClipShowsMaxTrackTime(duration, maxTrackTime, frameWidth, SliderWidth(), count);
        }
      } else if duration <= 3.0 {
        keyframeWidth := RangeMapping.ShortClipKeyframeWidth;
        var constraintValue := n * keyframeWidth - frameWidth;
        if constraintValue > 0.0 {
          constraintValue := 0.0;
          keyframeWidth := frameWidth / n;
        }
        trailingConstant := constraintValue;
        assert keyframeWidth == layout.keyframeWidth && trailingConstant == layout.trailingConstant;
      } else {
        keyframeWidth := SliderWidth() / n;
        assert keyframeWidth == layout.keyframeWidth;
        RangeMapping.SpreadClipShowsWholeDuration(duration, maxTrackTime, frameWidth, SliderWidth(), count);
      }
    }

    /** Loads a clip and its `count` thumbnails. A missing asset or an empty
        thumbnail list is refused (the source stops the program) and changes
        nothing; otherwise the duration and then the thumbnails are set. */
    method UpdateAsset(asset: VideoAsset, count: nat) returns (ok: bool)
      requires asset.Present? && asset.seconds > maxTrackTime ==> maxTrackTime != 0.0 && asset.seconds != 0.0
      modifies this
      ensures ok <==> asset.Present? && count > 0
      ensures !ok ==> unchanged(this)
      ensures unchanged(this`frameWidth, this`thumbWidth, this`minTrackTime, this`maxTrackTime)
      ensures ok ==>
                && videoAsset == asset && duration == asset.seconds && keyframeCount == count
                && rangeStartTime == 0.0
                && rangeEndTime == (if asset.seconds > maxTrackTime then maxTrackTime else asset.seconds)
                && leftThumbPositionX == 0.0 && rightThumbPositionX == 0.0
                && var layout := RangeMapping.KeyframeLayout(asset.seconds, maxTrackTime, frameWidth, SliderWidth(), count);
                && keyframeWidth == layout.keyframeWidth
                && trailingConstant == if layout.ShortClip? then layout.trailingConstant else old(trailingConstant)
      ensures ok && SliderWidth() != 0.0 ==> LowerValue() == 0.0 && UpperValue() == DisplayDuration()
      ensures ok && asset.seconds > maxTrackTime && SliderWidth() != 0.0 ==> DisplayDuration() == maxTrackTime
      ensures ok && 3.0 < asset.seconds <= maxTrackTime && SliderWidth() != 0.0 ==> DisplayDuration() == asset.seconds
    {
      if asset.Missing? || count == 0 {
        return false;
      }
      videoAsset := asset;
      SetDuration(asset.seconds);
      SetKeyframes(count);
      ok := true;
      if SliderWidth() != 0.0 {
        RangeMapping.ThumbsAtEnds(CurrentScale());
      }
    }

    // -------------------------------------------------------------------------
    // Dragging a thumb
    // -------------------------------------------------------------------------

    /** One step of dragging the left thumb by `translation` pixels: the right
        thumb's time stays put and the selected duration ends within
        `[minTrackTime, maxTrackTime]`. */
    method LeftPan(translation: real)
      requires CurrentScale().Defined()
      modifies this
      ensures leftThumbPositionX
           == RangeMapping.LeftThumbPosition(old(CurrentScale()), old(UpperValue()), minTrackTime, maxTrackTime,
                                             old(leftThumbPositionX) + translation)
      ensures unchanged(this`frameWidth, this`thumbWidth, this`minTrackTime, this`maxTrackTime)
      ensures unchanged(this`rightThumbPositionX, this`rangeStartTime, this`rangeEndTime)
      ensures unchanged(this`videoAsset, this`duration, this`keyframeWidth, this`keyframeCount, this`trailingConstant)
      ensures CurrentScale() == old(CurrentScale())
      ensures UpperValue() == old(UpperValue())
      ensures minTrackTime <= maxTrackTime ==> minTrackTime <= TrackedDuration() <= maxTrackTime
    {
      var positionMoved := leftThumbPositionX + translation;
      leftThumbPositionX :=
        RangeMapping.LeftThumbPosition(CurrentScale(), UpperValue(), minTrackTime, maxTrackTime, positionMoved);
    }

    /** One step of dragging the right thumb by `translation` pixels: the left
        thumb's time stays put and the selected duration ends within
        `[minTrackTime, maxTrackTime]`. */
    method RightPan(translation: real)
      requires CurrentScale().Defined()
      modifies this
      ensures rightThumbPositionX
           == RangeMapping.RightThumbPosition(old(CurrentScale()), old(LowerValue()), minTrackTime, maxTrackTime,
                                              old(rightThumbPositionX) + translation)
      ensures unchanged(this`frameWidth, this`thumbWidth, this`minTrackTime, this`maxTrackTime)
      ensures unchanged(this`leftThumbPositionX, this`rangeStartTime, this`rangeEndTime)
      ensures unchanged(this`videoAsset, this`duration, this`keyframeWidth, this`keyframeCount, this`trailingConstant)
      ensures CurrentScale() == old(CurrentScale())
      ensures LowerValue() == old(LowerValue())
      ensures minTrackTime <= maxTrackTime ==> minTrackTime <= TrackedDuration() <= maxTrackTime
    {
      var positionMoved := rightThumbPositionX + translation;
      rightThumbPositionX :=
        RangeMapping.RightThumbPosition(CurrentScale(), LowerValue(), minTrackTime, maxTrackTime, positionMoved);
    }

    // -------------------------------------------------------------------------
    // Scrolling the thumbnail strip
    // -------------------------------------------------------------------------

    /** The strip was scrolled to `contentOffset` pixels. Without a clip nothing
        happens. Otherwise the visible window starts at the matching fraction of
        the clip and is as long as the selection; the thumbs do not move. */
    method Scroll(contentOffset: real)
      requires videoAsset.Present? ==> keyframeWidth * keyframeCount as real != 0.0
      modifies this
      ensures old(videoAsset).Missing? ==> unchanged(this)
      ensures unchanged(this`frameWidth, this`thumbWidth, this`minTrackTime, this`maxTrackTime)
      ensures unchanged(this`leftThumbPositionX, this`rightThumbPositionX)
      ensures unchanged(this`videoAsset, this`duration, this`keyframeWidth, this`keyframeCount, this`trailingConstant)
      ensures videoAsset.Present? ==>
                rangeStartTime == RangeMapping.ScrollStartTime(contentOffset, keyframeWidth * keyframeCount as real, duration)
      ensures videoAsset.Present? ==>
                rangeEndTime == rangeStartTime + RangeMapping.SelectedPixelsDuration(SelectedTimeLength(), keyframeWidth * keyframeCount as real, duration)
      ensures videoAsset.Present? && 0.0 <= duration ==> 0.0 <= rangeStartTime <= duration
      ensures CurrentScale() == old(CurrentScale()).(rangeStart := rangeStartTime)
    {
      if videoAsset.Missing? {
        return;
      }
      var videoTrackLength := keyframeWidth * keyframeCount as real;
      rangeStartTime := RangeMapping.ScrollStartTime(contentOffset, videoTrackLength, duration);
      var selectedTime := RangeMapping.SelectedPixelsDuration(SelectedTimeLength(), videoTrackLength, duration);
      rangeEndTime := rangeStartTime + selectedTime;
    }
  }
}
