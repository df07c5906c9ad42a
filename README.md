# Portfolio page widgets: a verified model of their state machines

The portfolio page's script (`script.js`) is mostly Three.js scene building
and DOM wiring. Four small state machines sit inside its event handlers, and
this project models them in Dafny and proves their behaviour:

- **Interactive viewer controller** (`viewer.dfy`, module `Viewer`). This is
  the per-viewer state of `InteractiveViewer`: the rotation angles, the drag
  flag, the auto-rotate flag, the last pointer position, the camera distance
  and the rendered model's angles. It reacts to mouse down, move, up and
  leave; touch start, move and end, each with a touch list; wheel; and the
  animation frame.
- **Theme toggle** (`theme.dfy`, module `Theme`). This covers the
  `data-theme` attribute, the session-stored preference and the toggle glyph:
  on page load, and on each click.
- **Lightbox** (`lightbox.dfy`, module `Lightbox`). This covers the overlay's
  `display`, the body's `overflow` and the overlay image's `src`/`alt`. The
  events are a card click, an overlay click and a key press.
- **Contact form acknowledgement** (`contact_form.dfy`, module
  `ContactForm`). A submit relabels and recolours the button. A timer set for
  3000 ms later restores the label, clears the colour and resets the fields.
  The class also has `Input`, which stands for the visitor typing into a
  field; it has no source line.

Each module has the same two layers:

- **A pure specification.** A `State` datatype, and a function for one
  event: `Step` for the viewer and the lightbox, `Load`/`Toggle` for the
  theme, `AfterSubmit`/`AfterTimeout` for the form. `Run`, `ToggleTimes`,
  `Drain` and `Replay` apply a series of events. The lemmas are proved about
  these.
- **A class** with one mutable field per piece of page state and one method
  per event handler. Each method updates its fields step by step, as the
  handler does. Its `ensures` ties the new state to the specification:
  `Snapshot() == Step(old(Snapshot()), e)`, or the submit and timeout
  functions for the form. It also states the new field values directly.

JavaScript numbers are modelled as exact `real`s.

The `InteractiveViewer` constructor calls `animate()` once before returning.
So a freshly built viewer has already auto-rotated by one step: its y-angle is
0.003, not 0. The constructor's contract says so.

This file never builds an `InteractiveViewer`. Its initialisation code calls
a `ModelViewer` constructor that the file does not define (script.js:621).
Unless another script defines it, that call throws a `ReferenceError` at the
top level. The rest of the script then never runs, so the lightbox and
contact form handlers (script.js:628-677) are never attached. Every class is
modelled as written, as if its handlers were attached.

## Model

| member | source | states |
|---|---|---|
| Viewer.Clamp | script.js:560-561 | The result is always in [3, 10]. It is the input when the input is in range, 3 below the range and 10 above it. |
| Viewer.Step | script.js:533-614 | No event turns auto-rotation on. A distance in [3, 10] stays in range, and a wheel event always lands in range. After a frame the model's rotation equals the controller's. Only a frame changes the model's rotation. |
| Viewer.PressStartsDrag | script.js:533-537 | A mouse down, or a touch start with exactly one touch, starts a drag and turns auto-rotation off. It records the pointer position (a touch is made relative to the canvas) and leaves the angles and distance as they were. |
| Viewer.MultiTouchIgnored | script.js:565-590 | A touch start or touch move with any number of touches other than one changes nothing. |
| Viewer.MoveWhileIdleIsNoOp | script.js:539-547 | A mouse or touch move while not dragging leaves the whole state unchanged. |
| Viewer.MoveWhileDraggingRotates | script.js:539-547 | A move while dragging adds 0.01·dx to the y-angle and 0.01·dy to the x-angle, records the new position and changes nothing else. |
| Viewer.ReleaseOnlyEndsDrag | script.js:549-555 | Mouse up, mouse leave and touch end clear the drag flag and change nothing else. |
| Viewer.FrameAutoRotates | script.js:609-611 | A frame adds 0.003 to the y-angle exactly when auto-rotating and not dragging. It changes no flag, position or distance. |
| Viewer.RunAppend | script.js:531-614 | Running two event series one after the other gives the same state as running them joined. |
| Viewer.AutoRotateUntilPress | script.js:367 | After any series of events, auto-rotation is on if and only if it was on at the start and no event in the series started a drag. |
| Viewer.AutoRotateStaysOff | script.js:535 | Once auto-rotation is off, no series of events turns it back on. |
| Viewer.DistanceStaysInRange | script.js:558-562 | A camera distance in [3, 10] stays in [3, 10] through any series of events. |
| Viewer.DistanceInRangeAfterWheel | script.js:558-562 | A series that contains a wheel event ends with the distance in [3, 10], wherever it started. |
| Viewer.InitialDistanceInRange | script.js:372 | From the initial distance of 5, the distance is in [3, 10] after any series of events. |
| Viewer.DragAccumulates | script.js:539-590 | During a drag, a series of mouse or single-touch moves turns the angles by 0.01 times the total displacement from the recorded position to the last one, and changes nothing else. The deltas telescope. |
| Viewer.DragAccumulatesThroughFrames | script.js:539-614 | During a drag, a series of moves with animation frames, wheel events and ignored touches in between keeps the drag in progress and auto-rotation as it was. It turns the angles by 0.01 times the displacement from the recorded position to the last move's target, which is found by scanning from the back. Frames do not auto-rotate while dragging. |
| Viewer.IdleFramesAutoRotate | script.js:605-614 | While auto-rotating and idle, n frames add exactly n·0.003 to the y-angle. After at least one frame the model shows the controller's angles. |
| Viewer.ManualFramesHoldStill | script.js:609-611 | Once auto-rotation is off, frames alone never move the angles. |
| Viewer.InteractiveViewer.constructor | script.js:363-374 | Fields start at angle 0, not dragging, auto-rotating, position (0, 0) and distance 5. The first frame then runs, so the result is `Step(Initial, Frame)`: y-angle 0.003. |
| Viewer.InteractiveViewer.MouseDown | script.js:533-537 | The new state is `Step` of the old state on a mouse down: dragging, auto-rotation off, position recorded, nothing else changed. |
| Viewer.InteractiveViewer.MouseMove | script.js:539-547 | The new state is `Step` of the old state on a mouse move. Not dragging, nothing changes. Dragging, the angles move by 0.01 per pixel of delta. |
| Viewer.InteractiveViewer.MouseUp | script.js:549-551 | Only the drag flag changes, to false. |
| Viewer.InteractiveViewer.MouseLeave | script.js:553-555 | Only the drag flag changes, to false. |
| Viewer.InteractiveViewer.Wheel | script.js:558-562 | The distance becomes clamp(z + 0.01·deltaY, 3, 10), and nothing else changes. |
| Viewer.InteractiveViewer.TouchStart | script.js:565-576 | With exactly one touch, a drag starts at the touch's canvas-relative position. With any other count, nothing changes. |
| Viewer.InteractiveViewer.TouchMove | script.js:578-590 | The new state is `Step` of the old state on a touch move. Unless dragging with exactly one touch, nothing changes. |
| Viewer.InteractiveViewer.TouchEnd | script.js:592-594 | Only the drag flag changes, to false. |
| Viewer.InteractiveViewer.Frame | script.js:605-614 | The y-angle gains 0.003 if auto-rotating and not dragging. The model's angles are then set to the controller's. |
| Theme.SavedTheme | script.js:9 | Nothing stored, or an empty string stored, gives dark. Any other stored string is used as it is. The result is never empty. |
| Theme.NextTheme | script.js:17 | The result is dark or light and always differs from the current attribute. It is light exactly when the current attribute is dark. |
| Theme.GlyphFor | script.js:11 | The glyph is the moon or the sun, and it is the moon exactly for dark. |
| Theme.Toggle | script.js:15-21 | After a click, the attribute is dark or light and differs from before. The stored preference equals the attribute, and the glyph matches it. |
| Theme.Load | script.js:8-12 | After load the attribute holds a non-empty theme, the glyph is the moon exactly when that theme is dark, and the storage is what it was. |
| Theme.LoadShowsSavedTheme | script.js:9-10 | Load sets the attribute to the saved theme: the stored string if there is a non-empty one, dark otherwise. |
| Theme.FirstLoadIsDark | script.js:9-11 | With nothing stored, the page loads dark with the moon glyph. |
| Theme.ToggleSwitches | script.js:16-20 | From dark or light, a click shows the other theme, and the glyph is the moon exactly when the new theme is dark. |
| Theme.ToggleTwiceRestores | script.js:15-21 | From dark or light, two clicks restore the attribute and glyph and leave that theme stored. A settled page comes back exactly. |
| Theme.ToggleTwiceFromOtherValue | script.js:16-17 | From an absent or unrecognised attribute, two clicks end on light, so the original value is not restored. |
| Theme.ToggleParity | script.js:15-21 | From dark or light, the theme after n clicks depends only on whether n is even, and any click leaves the page settled. |
| Theme.ThemeToggle.constructor | script.js:8-12 | The state after load is `Load(saved)`; with nothing stored it is dark with the moon glyph. |
| Theme.ThemeToggle.Click | script.js:15-21 | The new state is `Toggle` of the old state. The attribute is `NextTheme` of the old attribute, and the storage matches it. |
| Lightbox.Step | script.js:633-655 | Every event either leaves the overlay settled (open with scrolling locked, or closed with scrolling free) or changes nothing. Only a card click changes the image, and it always opens the overlay. No other event opens it. |
| Lightbox.CardClickOpens | script.js:634-640 | A card click shows the overlay (`flex`), locks scrolling (`hidden`) and copies the card image's src and alt. |
| Lightbox.OverlayClickCloses | script.js:644-647 | An overlay click hides the overlay (`none`) and frees scrolling (`auto`) from any state. Closing twice equals closing once. |
| Lightbox.EscapeClosesOnlyWhenOpen | script.js:650-655 | Escape closes the overlay exactly when its display is `flex`. Any other key, or Escape while not shown, changes nothing. |
| Lightbox.OpenThenClose | script.js:634-647 | A card click followed by an overlay click leaves the overlay closed, scrolling free, and that card's image loaded. |
| Lightbox.RunSnoc | script.js:633-655 | Running a series with one more event at the end is one more step. |
| Lightbox.SettledIsKept | script.js:638-653 | Once settled, the overlay stays settled through any series of events. |
| Lightbox.ShowsLastCard | script.js:636-637 | After any series of events, the overlay image is the last clicked card's image, or the original image if no card was clicked. |
| Lightbox.LightboxOverlay.constructor | script.js:628-630 | The overlay, the body's overflow and the overlay image start as the markup leaves them. |
| Lightbox.LightboxOverlay.CardClick | script.js:634-640 | The new state is `Step` on a card click: display `flex`, overflow `hidden`, the card's src and alt. |
| Lightbox.LightboxOverlay.OverlayClick | script.js:644-647 | Display `none` and overflow `auto`; the image is kept. |
| Lightbox.LightboxOverlay.KeyDown | script.js:650-655 | The new state is `Step` on the key. Unless the key is Escape and the display is `flex`, nothing changes. |
| ContactForm.AfterSubmit | script.js:666-672 | After a submit the button shows the acknowledgement on #10b981, the fields and defaults are kept, a timer is pending, and the timers already pending stay queued ahead of the new one, which holds the label shown before. |
| ContactForm.AfterTimeout | script.js:672-676 | When the oldest timer fires, the button shows the label that timer captured, its inline background is empty, the fields equal their defaults, and that one timer leaves the queue. |
| ContactForm.SubmitThenTimeoutRestores | script.js:662-677 | On an idle form, one submit and its timeout restore the label, clear the colour and reset the fields to their defaults. |
| ContactForm.DrainRestoresLastCaptured | script.js:672-676 | Once every pending timer has fired, the label is the one captured by the last submit, the colour is cleared and the fields are reset. |
| ContactForm.StuckIsKept | script.js:666-675 | When the button and every pending restore show the acknowledgement, a submit keeps it so, and so does a timeout when a timer is pending. |
| ContactForm.StuckForGood | script.js:662-677 | From such a form, any later series of submits and timeouts leaves the button showing the acknowledgement. |
| ContactForm.DoubleSubmitKeepsAcknowledgement | script.js:667-673 | Two submits within the delay leave the button showing the acknowledgement once both timers have fired, with no timer pending. The form is then stuck, so it still shows the acknowledgement after any later submits and timeouts. The second submit captured that label. |
| ContactForm.Form.constructor | script.js:660 | The form as the markup gives it: the button's own label, no inline background, the fields at their defaults and no timer pending. |
| ContactForm.Form.Submit | script.js:662-670 | The new state is `AfterSubmit` of the old one: acknowledgement shown, the old label queued for restore. |
| ContactForm.Form.Timeout | script.js:672-676 | The new state is `AfterTimeout` of the old one: the oldest queued label comes back, the colour is cleared and the fields are reset. |

## Left out

- The Three.js scene, camera, renderer, lights, geometry and materials of
  `HeroScene`, `ProjectScene` and the viewer's `create*` and `setupLights`
  methods (script.js:28-335, 377-528). These are calls into a library whose
  code is not part of this model. The viewer keeps only which of the three
  structures it builds (`ModelKind`) and the model's two angles.
- The procedural per-frame animation of `HeroScene` (script.js:210-230). It
  uses trigonometry and wall-clock time.
- Resize handlers, smooth scrolling and `requestAnimationFrame` scheduling
  (script.js:233-239, 597-601, 682-693). These are DOM plumbing. A frame is
  modelled as an event, and the render call is left out.
- A `modelType` other than 1, 2 or 3 is not modelled. `createModel` then
  leaves `this.model` undefined, and the first `animate()` inside the
  constructor throws at script.js:613. The viewer takes a closed `ModelKind`
  instead.
- A viewer whose canvas is missing is not modelled. That constructor returns
  early at script.js:344 and leaves an object with no state.
- The `ModelViewer` calls (script.js:621-623) are not modelled. That
  constructor is not defined in the file.
- Floating-point rounding and NaN/infinite deltas are not modelled. Numbers are
  exact reals, so `0.01·dx` accumulates exactly and the clamp always lands in
  [3, 10].
- Real `sessionStorage` and JSON are not modelled. `Theme.SavedTheme` takes
  the stored preference as the already decoded string. Malformed JSON makes
  `JSON.parse` throw at script.js:9, and that is not modelled. A stored JSON
  value that is not a string is not modelled either.
- `Theme.SavedTheme`: the fallback to dark covers only the falsy values a
  string can take (the empty string) and an absent entry. It does not cover
  other falsy JSON values such as `false` or `0`.
- The toggle glyph before `initTheme` runs (the markup's text) is not
  modelled. The page always runs `initTheme` on load.
- Event bubbling is not modelled. For example, a click on the overlay image
  counts as an overlay click.
- `card.querySelector('img')` returning null is not modelled: every card is
  given with its image.
- `ContactForm.Replay` skips a timer event when no timer is pending. Timers
  fire only after they are set, so that event cannot happen on the page.
- The timers' 3000 ms delay is not modelled. Because every timer has the
  same delay, the model keeps only their firing order, oldest first. The
  form's field values stand abstractly for the inputs that `reset()`
  restores.

Closing the lightbox always writes `overflow = 'auto'` (script.js:646, 653).
It does not restore an earlier inline value, and the model does the same.
