# KYVideoRangeSlider — numeric core in Dafny

`KYVideoRangeSlider` is an iOS view for picking a time range of a video clip.
Two thumbs sit over a horizontally scrolling strip of thumbnails ("keyframes").
The slider shows a window of the clip from `rangeStartTime` on. The
`sliderWidth` is the view width less two thumb widths: the span between the
thumbs' inner edges when both rest at the ends of the view. It stands for
`displayDuration` seconds of that window. Dragging a thumb moves it, but the
selected duration `upperValue - lowerValue` is held within
`[minTrackTime, maxTrackTime]`. Scrolling the strip moves the window. Loading a
clip resets the thumbs and picks a thumbnail width by the clip's duration.

This project models that arithmetic and proves what it guarantees.

- `range_mapping.dfy` (module `RangeMapping`) holds the pure part:
  - the slider width, the never-zero track length and the display duration;
  - the four linear pixel↔time mappers and their round trips;
  - the clamping of requested thumb offsets and the `[minTrackTime, maxTrackTime]` band, for one pan step and for a whole drag;
  - the three thumbnail-width regimes;
  - the start time computed on scroll, and the length of the visible window after a scroll.
- `video_range_slider.dfy` (module `VideoRangeSlider`) holds the slider object.
  It is a class with the fields the source updates in place. Its methods are
  the source's property observers and actions:
  - setting the thumb width, the duration or the keyframes;
  - `updateAsset`;
  - one step of a left or right pan;
  - `scrollViewDidScroll`.
  Each method states its whole new state in terms of the pure functions.
- `scenarios.dfy` (module `Scenarios`) works three clips through on concrete numbers. Each clip's scale is computed from its layout.

Pixel lengths (`CGFloat`) and times (`Double`) are both modelled as `real`.

### Behaviour of the code worth knowing

The model follows the code as written, including where it differs from what a
user of the slider would naturally expect.

- **A thumb can land outside the slider.** One might expect each thumb's
  offset to stay within the slider. The code clamps only the *requested*
  offset: the left one at 0 (lines 371-375), the right one to
  `[-sliderWidth, 0]` (lines 387-393). The `[minTrackTime, maxTrackTime]`
  adjustment that follows (lines 377-384, 395-402) can then push the left
  thumb past the left edge, or the right thumb past the right edge. Take a
  2-second clip with 5 thumbnails on a 200-pixel view, with the default minimum
  track time of 3 seconds. Two scenario lemmas show each case:
  - `Scenarios.ShortClipLeftDrag`: the first drag of the left thumb puts it at
    -120 pixels, which is -1.2 seconds.
  - `Scenarios.ShortClipRightDrag`: dragging the right thumb first puts it 120
    pixels beyond the right edge, at 3 seconds.
- **The visible window of a short clip need not be the clip.** One might
  expect a clip of at most 3 seconds to show exactly its whole duration after
  loading. The code (lines 164-173) keeps 40-pixel thumbnails unless they
  overflow the view, and the display duration (line 133) scales the clip by
  `sliderWidth / (keyframeWidth × count)`. Two cases follow:
  - With 5 thumbnails on a 200-pixel view they fill the view exactly, so the
    180 pixels between the thumbs show 1.8 of the 2 seconds
    (`Scenarios.ShortClipLayout`).
  - With only 2 thumbnails on that view the strip is 80 pixels wide, so the
    slider maps past the end of the clip: the upper value right after loading
    is 4.5 seconds (`Scenarios.ShortClipOverrun`,
    `Scenarios.ShortClipOverrunUpperValue`).
- **Scrolling has no zero guard.** The computed `videoTrackLength` (lines
  123-129) replaces a zero product with 1. `scrollViewDidScroll` (line 463)
  recomputes the product without that guard and divides by it. The model
  therefore requires that product to be non-zero in `Scroll`.

## Model

| member | source | states |
|---|---|---|
| `RangeMapping.SliderWidth` | KYVideoTrim/Classes/KYVideoRangeSlider.swift:203-207 | defined by its body: the view width less two thumb widths; no contract of its own |
| `RangeMapping.DisplayDuration` | KYVideoTrim/Classes/KYVideoRangeSlider.swift:131-135 | defined by its body: `sliderWidth / trackLength × duration`; `LongClipShowsMaxTrackTime` and `SpreadClipShowsWholeDuration` give its value after loading |
| `RangeMapping.LeftPositionToTime` | KYVideoTrim/Classes/KYVideoRangeSlider.swift:347-349 | defined by its body, dividing by the slider width only; `LeftPositionRoundTrip` and `LeftTimeRoundTrip` prove it inverse to `TimeToLeftPosition`, and `ThumbsAtEnds` gives its value at offset 0 |
| `RangeMapping.RightPositionToTime` | KYVideoTrim/Classes/KYVideoRangeSlider.swift:351-353 | defined by its body, dividing by the slider width only; `RightPositionRoundTrip` and `RightTimeRoundTrip` prove it inverse to `TimeToRightPosition`, and `ThumbsAtEnds` gives its value at offset 0 |
| `RangeMapping.TimeToLeftPosition` | KYVideoTrim/Classes/KYVideoRangeSlider.swift:355-357 | defined by its body; the inverse of `LeftPositionToTime` by the two left round-trip lemmas |
| `RangeMapping.TimeToRightPosition` | KYVideoTrim/Classes/KYVideoRangeSlider.swift:358-360 | defined by its body; the inverse of `RightPositionToTime` by the two right round-trip lemmas |
| `RangeMapping.SelectedPixelsDuration` | KYVideoTrim/Classes/KYVideoRangeSlider.swift:475 | defined by its body; `SelectedPixelsAsTime` proves it equal to the duration the thumbs select |
| `RangeMapping.TrackLength` | KYVideoTrim/Classes/KYVideoRangeSlider.swift:123-129 | the track length is keyframe width × count, except that a zero product becomes 1; it is never 0, and it is positive for a non-negative width |
| `RangeMapping.LeftPositionRoundTrip` | KYVideoTrim/Classes/KYVideoRangeSlider.swift:347-357 | converting a left-thumb offset to a time and back gives the offset again |
| `RangeMapping.LeftTimeRoundTrip` | KYVideoTrim/Classes/KYVideoRangeSlider.swift:347-357 | converting a time to a left-thumb offset and back gives the time again |
| `RangeMapping.RightPositionRoundTrip` | KYVideoTrim/Classes/KYVideoRangeSlider.swift:351-360 | converting a right-thumb offset to a time and back gives the offset again |
| `RangeMapping.RightTimeRoundTrip` | KYVideoTrim/Classes/KYVideoRangeSlider.swift:351-360 | converting a time to a right-thumb offset and back gives the time again |
| `RangeMapping.ThumbsAtEnds` | KYVideoTrim/Classes/KYVideoRangeSlider.swift:347-353 | with both thumbs at offset 0, the lower value is the window start and the upper value is the window start plus the display duration |
| `RangeMapping.SelectedDurationFromPixels` | KYVideoTrim/Classes/KYVideoRangeSlider.swift:87-118 | the tracked duration is the selected pixel length as a fraction of the slider width, times the display duration, whatever the window start |
| `RangeMapping.ClampLeftRequest` | KYVideoTrim/Classes/KYVideoRangeSlider.swift:372-375 | a requested left offset below 0 becomes 0, and any other is kept |
| `RangeMapping.ClampRightRequest` | KYVideoTrim/Classes/KYVideoRangeSlider.swift:388-393 | a requested right offset is kept within `[-sliderWidth, 0]`; it is kept when it lies inside, and it goes to the nearer bound otherwise |
| `RangeMapping.LeftThumbPosition` | KYVideoTrim/Classes/KYVideoRangeSlider.swift:371-385 | the new left offset leaves a selection within `[min, max]` track time; a selection longer than max becomes exactly max, a shorter one exactly min, and an in-band one keeps the clamped request |
| `RangeMapping.RightThumbPosition` | KYVideoTrim/Classes/KYVideoRangeSlider.swift:387-403 | the same for the right thumb, measured from the lower value |
| `RangeMapping.LeftDrag` | KYVideoTrim/Classes/KYVideoRangeSlider.swift:408-414 | after every non-empty sequence of left-pan steps, each adding its translation to the current offset, the selection lies within `[min, max]`; an empty sequence leaves the offset where it was |
| `RangeMapping.RightDrag` | KYVideoTrim/Classes/KYVideoRangeSlider.swift:420-426 | the same for a sequence of right-pan steps, measured from the lower value |
| `RangeMapping.KeyframeLayout` | KYVideoTrim/Classes/KYVideoRangeSlider.swift:156-177 | exactly one of three regimes applies: longer than `maxTrackTime`; at most 3 seconds (and within max); or between 3 seconds and max |
| `RangeMapping.LongClipStrip` | KYVideoTrim/Classes/KYVideoRangeSlider.swift:160-163 | for a long clip the whole strip is `duration / maxTrackTime` slider widths long |
| `RangeMapping.LongClipShowsMaxTrackTime` | KYVideoTrim/Classes/KYVideoRangeSlider.swift:131-163 | for a long clip the slider then shows exactly `maxTrackTime` seconds |
| `RangeMapping.ShortClipFitsView` | KYVideoTrim/Classes/KYVideoRangeSlider.swift:164-173 | for a short clip, thumbnails are at most 40 pixels; the strip is 40 × count pixels when that fits the view and exactly the view width otherwise; the trailing constraint takes up what is left and is never positive |
| `RangeMapping.SpreadClipShowsWholeDuration` | KYVideoTrim/Classes/KYVideoRangeSlider.swift:174-177 | otherwise the strip is exactly one slider width, and the slider shows the whole clip |
| `RangeMapping.ScrollStartTime` | KYVideoTrim/Classes/KYVideoRangeSlider.swift:463-473 | the new window start lies in `[0, duration]` |
| `RangeMapping.ScrollStartIsProportional` | KYVideoTrim/Classes/KYVideoRangeSlider.swift:463-473 | scrolling to an offset within the strip starts the window at the same fraction of the clip; an offset before the strip gives 0 and one past it gives `duration` |
| `RangeMapping.SelectedPixelsAsTime` | KYVideoTrim/Classes/KYVideoRangeSlider.swift:475-477 | the selected pixels, converted at the strip's scale, equal the duration the thumbs select |
| `RangeMapping.ScrollKeepsSelectedDuration` | KYVideoTrim/Classes/KYVideoRangeSlider.swift:473-477 | moving the window start leaves the tracked duration unchanged, and that duration is what scrolling stores as the window's length |
| `VideoRangeSlider.RangeSlider.SliderWidth` | KYVideoTrim/Classes/KYVideoRangeSlider.swift:203-207 | defined by its body: `RangeMapping.SliderWidth` of the view and thumb widths |
| `VideoRangeSlider.RangeSlider.VideoTrackLength` | KYVideoTrim/Classes/KYVideoRangeSlider.swift:123-129 | defined by its body: `RangeMapping.TrackLength` of the thumbnail width and count |
| `VideoRangeSlider.RangeSlider.DisplayDuration` | KYVideoTrim/Classes/KYVideoRangeSlider.swift:131-135 | defined by its body: `RangeMapping.DisplayDuration` of the slider width, track length and duration; `SetKeyframes` and `UpdateAsset` state its value for long and mid-length clips, and it is 0 on a new slider |
| `VideoRangeSlider.RangeSlider.LowerValue` | KYVideoTrim/Classes/KYVideoRangeSlider.swift:92-96 | defined by its body: the left mapper at the left offset, which needs only a non-zero slider width; the constructor and the methods state its value after each change (0 on a new slider) |
| `VideoRangeSlider.RangeSlider.UpperValue` | KYVideoTrim/Classes/KYVideoRangeSlider.swift:97-101 | defined by its body: the right mapper at the right offset, which needs only a non-zero slider width; the constructor and the methods state its value after each change (0 on a new slider) |
| `VideoRangeSlider.RangeSlider.TrackedDuration` | KYVideoTrim/Classes/KYVideoRangeSlider.swift:87-91 | defined by its body: upper minus lower value, for any non-zero slider width; it is 0 on a new slider, and `LeftPan` and `RightPan` prove it lies within `[min, max]` |
| `VideoRangeSlider.RangeSlider.SelectedTimeLength` | KYVideoTrim/Classes/KYVideoRangeSlider.swift:116-118 | defined by its body: the pixels between the thumbs; `RangeMapping.SelectedDurationFromPixels` relates it to the tracked duration |
| `VideoRangeSlider.RangeSlider.constructor` | KYVideoTrim/Classes/KYVideoRangeSlider.swift:85-308 | the defaults of lines 85-122 (thumb width 10, track times 3 and 10, thumbs at 0, window 0 to 1, no clip, 40-pixel thumbnails) and the trailing constraint at minus the thumb width set up at line 308; with no clip the display duration is 0, so for any view width other than two thumbs the lower value, upper value and tracked duration all read 0 |
| `VideoRangeSlider.RangeSlider.SetThumbWidth` | KYVideoTrim/Classes/KYVideoRangeSlider.swift:195-202 | a new thumb width also sets the strip's trailing constraint to its negation; nothing else changes |
| `VideoRangeSlider.RangeSlider.UpdateInitState` | KYVideoTrim/Classes/KYVideoRangeSlider.swift:328-331 | both thumbs go to 0 and the scale is unchanged, so the selection becomes the whole visible window |
| `VideoRangeSlider.RangeSlider.SetDuration` | KYVideoTrim/Classes/KYVideoRangeSlider.swift:136-148 | the window opens at 0 and ends at the duration or `maxTrackTime`, whichever is smaller; the thumbs are reset, so the lower value is 0 and the upper value is the display duration |
| `VideoRangeSlider.RangeSlider.SetKeyframes` | KYVideoTrim/Classes/KYVideoRangeSlider.swift:156-181 | sets the thumbnail count, and the width and trailing constraint from `KeyframeLayout`; a long clip then shows `maxTrackTime` seconds and a mid-length clip its whole duration |
| `VideoRangeSlider.RangeSlider.UpdateAsset` | KYVideoTrim/Classes/KYVideoRangeSlider.swift:253-259 | it refuses a missing asset or an empty thumbnail list and then changes nothing; otherwise the clip, duration, window, thumbs and layout are all as the two observers set them, with lower value 0 and upper value the display duration |
| `VideoRangeSlider.RangeSlider.LeftPan` | KYVideoTrim/Classes/KYVideoRangeSlider.swift:408-414 | the left thumb moves to `LeftThumbPosition` of the dragged offset; the scale and upper value are unchanged, and the tracked duration lies within `[min, max]` |
| `VideoRangeSlider.RangeSlider.RightPan` | KYVideoTrim/Classes/KYVideoRangeSlider.swift:420-426 | the right thumb moves to `RightThumbPosition` of the dragged offset; the scale and lower value are unchanged, and the tracked duration lies within `[min, max]` |
| `VideoRangeSlider.RangeSlider.Scroll` | KYVideoTrim/Classes/KYVideoRangeSlider.swift:457-480 | it does nothing without a clip; otherwise the window start is `ScrollStartTime` (within `[0, duration]`), the window end is the start plus the selected pixels at the strip's scale, and only the window moves |
| `Scenarios.TenSecondClipLayout` | KYVideoTrim/Classes/KYVideoRangeSlider.swift:174-177 | a 10-second clip with 10 thumbnails on a 310-pixel view gets 29-pixel thumbnails, and its loaded scale shows all 10 seconds from 0 over 290 pixels |
| `Scenarios.TenSecondClipEnds` | KYVideoTrim/Classes/KYVideoRangeSlider.swift:328-353 | on that clip's loaded scale, with the thumbs at the ends, 0 to 10 seconds are selected |
| `Scenarios.TenSecondClipLeftDrag` | KYVideoTrim/Classes/KYVideoRangeSlider.swift:371-385 | on that clip's loaded scale, with the right thumb at the end, dragging the left thumb to 270 pixels stops it at 203 pixels, which is second 7, so 3 seconds remain selected |
| `Scenarios.ShortClipLayout` | KYVideoTrim/Classes/KYVideoRangeSlider.swift:164-173 | a 2-second clip with 5 thumbnails on a 200-pixel view keeps 40-pixel thumbnails, and its loaded scale shows 1.8 seconds over 180 pixels |
| `Scenarios.ShortClipLeftDrag` | KYVideoTrim/Classes/KYVideoRangeSlider.swift:371-385 | on that clip's loaded scale the right thumb at the end reads 1.8 seconds, and the first drag of the left thumb puts it at -120 pixels, which is -1.2 seconds, outside the slider |
| `Scenarios.TenSecondClipLeftDragOnScale` | KYVideoTrim/Classes/KYVideoRangeSlider.swift:371-385 | the arithmetic of that drag on the scale (290, 10, 0): 270 pixels is pushed back to 203 pixels, which is second 7 |
| `Scenarios.ShortClipRightDrag` | KYVideoTrim/Classes/KYVideoRangeSlider.swift:387-403 | on the loaded scale of the 2-second, 5-thumbnail clip, with the left thumb at 0 seconds, dragging the right thumb 10 pixels in puts it at +120 pixels, beyond the right edge, where it reads 3 seconds |
| `Scenarios.ShortClipRightDragOnScale` | KYVideoTrim/Classes/KYVideoRangeSlider.swift:387-403 | the arithmetic of that drag on the scale (180, 1.8, 0): the clamped request reads 1.7 seconds and is pushed to 3 seconds at 120 pixels |
| `Scenarios.ShortClipOverrun` | KYVideoTrim/Classes/KYVideoRangeSlider.swift:164-173 | a 2-second clip with 2 thumbnails on a 200-pixel view gets `ShortClip(40, -120)`, and its loaded scale shows 4.5 seconds over 180 pixels |
| `Scenarios.ShortClipOverrunUpperValue` | KYVideoTrim/Classes/KYVideoRangeSlider.swift:347-353 | right after loading that clip, the right thumb reads 4.5 seconds, past the end of the 2-second clip |

## Left out

- Views, layers, Auto Layout constraints, the collection view and its cells, and drawing are not modelled. The one constraint constant the slider computes, the strip's trailing constraint, is kept as `trailingConstant`.
- Delegate notifications (`videoRangeSlider(_:lowerValue:upperValue:)`, `videoRangeSliderBeginDragging`) are not modelled. They only report values the model already defines.
- Gesture recognizer states, including `.ended` (which only notifies), and `setTranslation(.zero)` are not modelled. A pan method models one `.began`/`.changed` step, with the translation given as a parameter.
- `AVAsset`, `CMTime` and `mapperToCMTime` are not modelled. An asset is reduced to its duration in seconds.
- The view's frame width is set once, by the constructor. Later layout changes are not modelled.
- `scrollViewWillBeginDragging` and `scrollViewDidEndDragging` are not modelled: the first only notifies and the second is empty.
- Floating-point rounding, NaN and infinities are not modelled. All arithmetic is exact on `real`. Where the source can divide by zero, the model requires the divisor to be non-zero instead:
  - the position-to-time mappers, and the lower, upper and tracked values, need only a non-zero slider width;
  - the time-to-position mappers and the pans need the slider width and the display duration to be positive, via `Scale.Defined`. This also excludes a view narrower than two thumbs, where the source divides by a negative width without error;
  - `maxTrackTime` and the duration are non-zero for a long clip;
  - the strip's pixel length is non-zero when scrolling.
- RangeMapping.KeyframeLayout: requires a non-zero `maxTrackTime` and duration for a clip longer than `maxTrackTime`, because the source divides by them there.
- VideoRangeSlider.RangeSlider.SetKeyframes: requires at least one thumbnail, which the source's only caller guarantees, and the same non-zero divisors as `KeyframeLayout`.
- VideoRangeSlider.RangeSlider.UpdateAsset: a missing asset or an empty thumbnail list returns `false` and changes nothing, where the source stops the program with `fatalError`.
- VideoRangeSlider.RangeSlider.LeftPan: requires a defined scale: a positive slider width and display duration. The source divides by both (lines 348 and 356), so zero is excluded for that reason. In particular a pan before any clip is loaded, when the display duration is 0, is excluded. Negative values are also excluded: a view narrower than two thumbs, where the source still computes a position.
- VideoRangeSlider.RangeSlider.RightPan: requires a defined scale, for the same reason as `LeftPan`.
- VideoRangeSlider.RangeSlider.Scroll: requires a non-zero strip length when a clip is loaded, because the source divides by it there. The tracked duration staying the same under a scroll is proved separately, in `RangeMapping.ScrollKeepsSelectedDuration`, not as an `ensures` of `Scroll`.
