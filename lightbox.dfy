/** The image lightbox: a full-screen overlay that shows the clicked card's
    image and locks page scrolling while it is open. */
module Lightbox {

  const DisplayFlex: string := "flex"
  const DisplayNone: string := "none"
  const OverflowHidden: string := "hidden"
  const OverflowAuto: string := "auto"
  const EscapeKey: string := "Escape"

  datatype Image = Image(src: string, alt: string)

  /** The overlay's inline `display`, the body's inline `overflow` and the
      overlay image. */
  datatype State = State(display: string, overflow: string, image: Image)

  datatype Event =
    | CardClick(card: Image)   // a click on a card, with the card's own image
    | OverlayClick
    | KeyDown(key: string)

  predicate IsOpen(s: State) { s.display == DisplayFlex }

  /** Open with scrolling locked, or closed with scrolling restored. */
  predicate Settled(s: State) {
    (s.display == DisplayFlex && s.overflow == OverflowHidden) ||
    (s.display == DisplayNone && s.overflow == OverflowAuto)
  }

  function Open(card: Image): State {
    State(DisplayFlex, OverflowHidden, card)
  }

  function Close(s: State): State {
    s.(display := DisplayNone, overflow := OverflowAuto)
  }

  function Step(s: State, e: Event): (r: State)
    // every event either settles the overlay or changes nothing
    ensures Settled(r) || r == s
    // only a card click shows a new image, and it always opens the overlay
    ensures e.CardClick? ==> IsOpen(r) && r.image == e.card
    ensures !e.CardClick? ==> r.image == s.image && !(IsOpen(r) && !IsOpen(s))
  {
    match e
    case CardClick(card) => Open(card)
    case OverlayClick => Close(s)
    case KeyDown(key) => if key == EscapeKey && s.display == DisplayFlex then Close(s) else s
  }

  function Run(s: State, evs: seq<Event>): State
    decreases |evs|
  {
    if evs == [] then s else Run(Step(s, evs[0]), evs[1..])
  }

  /** The image of the last card click in `evs`, or `current` if none. */
  function LastCard(evs: seq<Event>, current: Image): Image
    decreases |evs|
  {
    if evs == [] then current
    else if evs[|evs| - 1].CardClick? then evs[|evs| - 1].card
    else LastCard(evs[..|evs| - 1], current)
  }

  /** Clicking a card opens the overlay on that card's image and locks scrolling. */
  lemma CardClickOpens(s: State, card: Image)
    ensures Step(s, CardClick(card)) == State(DisplayFlex, OverflowHidden, card)
  {
  }

  /** Clicking the overlay closes it and frees scrolling, whatever its state. */
  lemma OverlayClickCloses(s: State)
    ensures Step(s, OverlayClick) == s.(display := DisplayNone, overflow := OverflowAuto)
    ensures Step(Step(s, OverlayClick), OverlayClick) == Step(s, OverlayClick)
  {
  }

  /** Escape closes an open overlay; any other key, or Escape on an overlay
      that is not shown, changes nothing. */
  lemma EscapeClosesOnlyWhenOpen(s: State, key: string)
    ensures key == EscapeKey && IsOpen(s) ==> Step(s, KeyDown(key)) == Close(s)
    ensures !(key == EscapeKey && IsOpen(s)) ==> Step(s, KeyDown(key)) == s
  {
  }

  /** Opening on a card and then clicking the overlay closes it, frees
      scrolling and keeps that card's image loaded. */
  lemma OpenThenClose(s: State, card: Image)
    ensures Run(s, [CardClick(card), OverlayClick]) == State(DisplayNone, OverflowAuto, card)
  {
    var evs := [CardClick(card), OverlayClick];
    assert evs[1..] == [OverlayClick] && evs[1..][1..] == [];
    assert Run(s, evs) == Run(Open(card), [OverlayClick]);
  }

  /** Running a sequence that ends in one more event. */
  lemma {:induction false} RunSnoc(s: State, evs: seq<Event>, e: Event)
    ensures Run(s, evs + [e]) == Step(Run(s, evs), e)
    decreases |evs|
  {
    if evs == [] {
      assert evs + [e] == [e];
    } else {
      assert (evs + [e])[1..] == evs[1..] + [e];
      RunSnoc(Step(s, evs[0]), evs[1..], e);
    }
  }

  /** Once settled, the overlay stays settled: it is never shown without the
      scroll lock, nor hidden with it. */
  lemma {:induction false} SettledIsKept(s: State, evs: seq<Event>)
    requires Settled(s)
    ensures Settled(Run(s, evs))
    decreases |evs|
  {
    if evs != [] {
      SettledIsKept(Step(s, evs[0]), evs[1..]);
    }
  }

  /** The overlay always shows the image of the last card clicked. */
  lemma {:induction false} ShowsLastCard(s: State, evs: seq<Event>)
    ensures Run(s, evs).image == LastCard(evs, s.image)
    decreases |evs|
  {
    if evs != [] {
      var init := evs[..|evs| - 1];
      var e := evs[|evs| - 1];
      assert evs == init + [e];
      RunSnoc(s, init, e);
      ShowsLastCard(s, init);
    }
  }

  /** The lightbox as it lives on the page. */
  class LightboxOverlay {
    var display: string    // the overlay's style.display
    var overflow: string   // document.body's style.overflow
    var src: string        // the overlay image's src
    var alt: string        // the overlay image's alt

    function Snapshot(): State
      reads this
    {
      State(display, overflow, Image(src, alt))
    }

    /** The overlay as the markup leaves it. */
    constructor (display0: string, overflow0: string, image0: Image)
      ensures Snapshot() == State(display0, overflow0, image0)
    {
      display, overflow := display0, overflow0;
      src, alt := image0.src, image0.alt;
    }

    method CardClick(card: Image)
      modifies this
      ensures Snapshot() == Step(old(Snapshot()), Event.CardClick(card))
      ensures display == DisplayFlex && overflow == OverflowHidden && src == card.src && alt == card.alt
    {
      src := card.src;
      alt := card.alt;
      display := DisplayFlex;
      overflow := OverflowHidden;
    }

    method OverlayClick()
      modifies this
      ensures Snapshot() == Step(old(Snapshot()), Event.OverlayClick)
      ensures display == DisplayNone && overflow == OverflowAuto && src == old(src) && alt == old(alt)
    {
      display := DisplayNone;
      overflow := OverflowAuto;
    }

    method KeyDown(key: string)
      modifies this
      ensures Snapshot() == Step(old(Snapshot()), Event.KeyDown(key))
      ensures key == EscapeKey && old(display) == DisplayFlex ==>
        display == DisplayNone && overflow == OverflowAuto && src == old(src) && alt == old(alt)
      ensures !(key == EscapeKey && old(display) == DisplayFlex) ==> Snapshot() == old(Snapshot())
    {
      if key == EscapeKey && display == DisplayFlex {
        display := DisplayNone;
        overflow := OverflowAuto;
      }
    }
  }
}
