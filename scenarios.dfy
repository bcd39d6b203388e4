/**
 * Worked examples on concrete numbers, stated with the same functions the
 * slider uses for its own state. Each clip's scale is computed from its
 * layout, so the drag examples run on the scale that loading the clip gives.
 */
module Scenarios {
  import opened RangeMapping

  /** The scale right after a clip of `duration` seconds with `count`
      thumbnails is loaded into a view `frameWidth` pixels wide with the
      default thumb width of 10 and maximum track time of 10: the visible
      window starts at 0 and the thumbnail width is the layout's. */
  function LoadedScale(frameWidth: real, duration: real, count: nat): Scale
    requires count > 0
  {
    var sliderWidth := SliderWidth(frameWidth, 10.0);
    var layout := KeyframeLayout(duration, 10.0, frameWidth, sliderWidth, count);
    Scale(sliderWidth, DisplayDuration(sliderWidth, TrackLength(layout.keyframeWidth, count), duration), 0.0)
  }

  /** A 10-second clip with 10 thumbnails on a 310-pixel view: the thumbnails
      are spread over the 290 pixels between the thumbs, which then show the
      whole clip. */
  lemma TenSecondClipLayout()
    ensures KeyframeLayout(10.0, 10.0, 310.0, SliderWidth(310.0, 10.0), 10) == Spread(29.0)
    ensures LoadedScale(310.0, 10.0, 10) == Scale(290.0, 10.0, 0.0)
  {
    assert SliderWidth(310.0, 10.0) == 290.0;
  }

  /** With both thumbs at their ends 0 to 10 seconds are selected. */
  lemma TenSecondClipEnds()
    ensures LeftPositionToTime(LoadedScale(310.0, 10.0, 10), 0.0) == 0.0
    ensures RightPositionToTime(LoadedScale(310.0, 10.0, 10), 0.0) == 10.0
  {
    TenSecondClipLayout();
    var scale := Scale(290.0, 10.0, 0.0);
    ThumbsAtEnds(scale);
    assert LeftPositionToTime(scale, 0.0) == 0.0 && RightPositionToTime(scale, 0.0) == 10.0;
  }

  /** Dragging the left thumb 270 pixels in, with the right thumb at the end,
      is stopped where 3 seconds remain selected: at pixel 203, which is
      second 7. */
  lemma TenSecondClipLeftDrag()
    ensures var scale := LoadedScale(310.0, 10.0, 10);
            && LeftThumbPosition(scale, RightPositionToTime(scale, 0.0), 3.0, 10.0, 270.0) == 203.0
            && LeftPositionToTime(scale, 203.0) == 7.0
  {
    TenSecondClipLayout();
    TenSecondClipEnds();
    TenSecondClipLeftDragOnScale();
  }

  /** The arithmetic of that drag, on the loaded scale written out. */
  lemma TenSecondClipLeftDragOnScale()
    ensures LeftThumbPosition(Scale(290.0, 10.0, 0.0), 10.0, 3.0, 10.0, 270.0) == 203.0
    ensures LeftPositionToTime(Scale(290.0, 10.0, 0.0), 203.0) == 7.0
  {
    assert LeftPositionToTime(Scale(290.0, 10.0, 0.0), 270.0) == 2700.0 / 290.0;
  }

  /** A 2-second clip with 5 thumbnails on a 200-pixel view: the thumbnails
      keep their 40-pixel width and exactly fill the view, so the 180 pixels
      between the thumbs show 1.8 seconds, not the whole clip. */
  lemma ShortClipLayout()
    ensures KeyframeLayout(2.0, 10.0, 200.0, SliderWidth(200.0, 10.0), 5) == ShortClip(40.0, 0.0)
    ensures LoadedScale(200.0, 2.0, 5) == Scale(180.0, 1.8, 0.0)
  {
  }

  /** With both thumbs at their ends 0 to 1.8 seconds are selected. The default
      minimum track time of 3 seconds is longer than that: the first drag of
      the left thumb puts it 120 pixels left of the left edge, at -1.2 seconds. */
  lemma ShortClipLeftDrag()
    ensures var scale := LoadedScale(200.0, 2.0, 5);
            && RightPositionToTime(scale, 0.0) == 1.8
            && LeftThumbPosition(scale, RightPositionToTime(scale, 0.0), 3.0, 10.0, 10.0) == -120.0
            && LeftPositionToTime(scale, -120.0) == -1.2
  {
    ShortClipLayout();
    assert RightPositionToTime(Scale(180.0, 1.8, 0.0), 0.0) == 1.8;
    assert LeftPositionToTime(Scale(180.0, 1.8, 0.0), 10.0) == 0.1;
  }

  /** On the same clip, dragging the right thumb 10 pixels in first leaves 1.7
      seconds selected; the minimum track time of 3 seconds then puts the right
      thumb 120 pixels beyond the right edge, at 3 seconds. */
  lemma ShortClipRightDrag()
    ensures var scale := LoadedScale(200.0, 2.0, 5);
            && LeftPositionToTime(scale, 0.0) == 0.0
            && RightThumbPosition(scale, LeftPositionToTime(scale, 0.0), 3.0, 10.0, -10.0) == 120.0
            && RightPositionToTime(scale, 120.0) == 3.0
  {
    ShortClipLayout();
    ShortClipRightDragOnScale();
    var scale := Scale(180.0, 1.8, 0.0);
    assert LeftPositionToTime(scale, 0.0) == 0.0;
    assert RightPositionToTime(scale, 120.0) == 3.0;
  }

  /** The arithmetic of that drag, on the loaded scale written out: the
      clamped request reads 1.7 seconds, and 3 seconds sit at 120 pixels. */
  lemma ShortClipRightDragOnScale()
    ensures RightThumbPosition(Scale(180.0, 1.8, 0.0), 0.0, 3.0, 10.0, -10.0) == 120.0
  {
    var scale := Scale(180.0, 1.8, 0.0);
    assert ClampRightRequest(180.0, -10.0) == -10.0;
    assert RightPositionToTime(scale, -10.0) == 1.7;
    assert TimeToRightPosition(scale, 3.0) == 120.0;
  }

  /** A 2-second clip with only 2 thumbnails on a 200-pixel view: the two
      40-pixel thumbnails leave 120 pixels of the view empty, taken up by the
      trailing constraint, and the 180 pixels between the thumbs stand for 4.5
      seconds, so right after loading the upper value lies 2.5 seconds past
      the end of the clip. */
  lemma ShortClipOverrun()
    ensures KeyframeLayout(2.0, 10.0, 200.0, SliderWidth(200.0, 10.0), 2) == ShortClip(40.0, -120.0)
    ensures LoadedScale(200.0, 2.0, 2) == Scale(180.0, 4.5, 0.0)
  {
  }

  /** ... which is where the right thumb reads right after loading. */
  lemma ShortClipOverrunUpperValue()
    ensures RightPositionToTime(LoadedScale(200.0, 2.0, 2), 0.0) == 4.5
  {
    ShortClipOverrun();
    var scale := Scale(180.0, 4.5, 0.0);
    ThumbsAtEnds(scale);
    assert RightPositionToTime(scale, 0.0) == 4.5;
  }
}
