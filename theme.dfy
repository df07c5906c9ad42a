/** The light/dark theme toggle: the page's `data-theme` attribute, the
    session-scoped stored preference and the glyph shown on the toggle
    control. */
module Theme {

  datatype Option<T> = None | Some(value: T)

  const Dark: string := "dark"
  const Light: string := "light"
  /** U+1F319 CRESCENT MOON, shown while the theme is dark. */
  const Moon: string := "\U{1F319}"
  /** U+2600 BLACK SUN WITH RAYS followed by U+FE0F, shown otherwise. */
  const Sun: string := "\U{2600}\U{FE0F}"

  /** The theme chosen on load from the stored preference, which is held here
      as the decoded value: nothing stored parses to null and the empty string
      is falsy, and both fall back to dark. */
  function SavedTheme(stored: Option<string>): (r: string)
    ensures r != ""
    ensures stored.None? ==> r == Dark
    ensures stored == Some("") ==> r == Dark
    ensures stored.Some? && stored.value != "" ==> r == stored.value
  {
    if stored.Some? && stored.value != "" then stored.value else Dark
  }

  /** The theme a click switches to from the current attribute (None when the
      attribute is absent): dark becomes light, anything else becomes dark. */
  function NextTheme(current: Option<string>): (r: string)
    ensures r == Dark || r == Light
    ensures Some(r) != current
    ensures r == Light <==> current == Some(Dark)
  {
    if current == Some(Dark) then Light else Dark
  }

  /** The toggle's glyph for a theme. */
  function GlyphFor(theme: string): (r: string)
    ensures r == Moon || r == Sun
    ensures r == Moon <==> theme == Dark
  {
    if theme == Dark then Moon else Sun
  }

  datatype State = State(attribute: Option<string>, stored: Option<string>, glyph: string)

  /** The page is settled when the attribute holds dark or light and the
      glyph and the stored preference agree with it. */
  predicate Settled(s: State) {
    (s.attribute == Some(Dark) || s.attribute == Some(Light)) &&
    s.stored == s.attribute && s.glyph == GlyphFor(s.attribute.value)
  }

  /** Page load: the attribute and glyph follow the stored preference; the
      storage itself is not written. */
  function Load(stored: Option<string>): (r: State)
    ensures r.attribute.Some? && r.attribute.value != ""
    ensures r.glyph == Moon <==> r.attribute == Some(Dark)
    ensures r.stored == stored
  {
    var saved := SavedTheme(stored);
    State(Some(saved), stored, GlyphFor(saved))
  }

  /** One click on the toggle. */
  function Toggle(s: State): (r: State)
    ensures Settled(r)
    ensures r.attribute != s.attribute
  {
    var newTheme := NextTheme(s.attribute);
    State(Some(newTheme), Some(newTheme), GlyphFor(newTheme))
  }

  /** `n` clicks in a row. */
  function ToggleTimes(s: State, n: nat): State
    decreases n
  {
    if n == 0 then s else ToggleTimes(Toggle(s), n - 1)
  }

  /** Load shows the stored theme, or dark when nothing usable is stored. */
  lemma LoadShowsSavedTheme(stored: Option<string>)
    ensures Load(stored).attribute == Some(SavedTheme(stored))
  {
  }

  /** With nothing stored, the page loads dark with the moon glyph. */
  lemma FirstLoadIsDark()
    ensures Load(None) == State(Some(Dark), None, Moon)
  {
  }

  /** A click on a dark or light page shows the other theme, and the glyph is
      the moon exactly when the new theme is dark. */
  lemma ToggleSwitches(s: State)
    requires s.attribute == Some(Dark) || s.attribute == Some(Light)
    ensures Toggle(s).attribute == Some(NextTheme(s.attribute))
    ensures Toggle(s).glyph == Moon <==> Toggle(s).attribute == Some(Dark)
  {
  }

  /** Two clicks from dark or from light restore the attribute and glyph, and
      leave the preference stored. */
  lemma ToggleTwiceRestores(s: State)
    requires s.attribute == Some(Dark) || s.attribute == Some(Light)
    ensures Toggle(Toggle(s)).attribute == s.attribute
    ensures Toggle(Toggle(s)).glyph == GlyphFor(s.attribute.value)
    ensures Toggle(Toggle(s)).stored == s.attribute
    ensures Settled(s) ==> Toggle(Toggle(s)) == s
  {
  }

  /** From any other attribute value (absent, or a stored value that is
      neither theme) two clicks end on light, not where they started. */
  lemma ToggleTwiceFromOtherValue(s: State)
    requires s.attribute != Some(Dark) && s.attribute != Some(Light)
    ensures Toggle(Toggle(s)).attribute == Some(Light)
    ensures Toggle(Toggle(s)).attribute != s.attribute
  {
  }

  /** After `n` clicks from dark or light, the theme depends only on the
      parity of `n`. */
  lemma {:induction false} ToggleParity(s: State, n: nat)
    requires s.attribute == Some(Dark) || s.attribute == Some(Light)
    ensures ToggleTimes(s, n).attribute ==
            (if n % 2 == 0 then s.attribute else Some(NextTheme(s.attribute)))
    ensures n > 0 ==> Settled(ToggleTimes(s, n))
    decreases n
  {
    if n > 0 {
      var t := Toggle(s);
      ToggleParity(t, n - 1);
      assert t.attribute == Some(NextTheme(s.attribute));
      assert NextTheme(Some(NextTheme(s.attribute))) == s.attribute.value;
      if n - 1 == 0 {
        assert ToggleTimes(t, 0) == t;
      }
    }
  }

  /** The toggle as it lives on the page. */
  class ThemeToggle {
    var attribute: Option<string>   // body's data-theme attribute
    var stored: Option<string>      // the session-scoped 'theme' entry, decoded
    var glyph: string               // the toggle control's text

    function Snapshot(): State
      reads this
    {
      State(attribute, stored, glyph)
    }

    /** Page load with `saved` in storage. */
    constructor (saved: Option<string>)
      ensures Snapshot() == Load(saved)
      ensures saved.None? ==> attribute == Some(Dark) && glyph == Moon
    {
      stored := saved;
      var savedTheme := SavedTheme(saved);
      attribute := Some(savedTheme);
      glyph := if savedTheme == Dark then Moon else Sun;
    }

    /** A click on the toggle control. */
    method Click()
      modifies this
      ensures Snapshot() == Toggle(old(Snapshot()))
      ensures attribute == Some(NextTheme(old(attribute)))
      ensures stored == attribute && Settled(Snapshot())
    {
      var currentTheme := attribute;
      var newTheme := if currentTheme == Some(Dark) then Light else Dark;
      attribute := Some(newTheme);
      stored := Some(newTheme);
      glyph := if newTheme == Dark then Moon else Sun;
    }
  }
}
