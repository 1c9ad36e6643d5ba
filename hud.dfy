/**
 * The overlay of `src/components/HUD.jsx`: which panels it shows, how it turns the keys of a
 * selected object's data into labels, and the store updates its buttons, select and checkboxes send.
 */
module HUD {
  import opened Wrappers
  import opened Constants
  import opened UniverseStore

  // ----- what is shown -----

  /** The panels of the overlay; all are hidden when the HUD is. */
  datatype Panels = Panels(overlay: bool, settings: bool, info: bool, hover: bool, performanceHint: bool)

  function Visible(s: State, showSettings: bool): (v: Panels)
    ensures !s.showHUD ==> v == Panels(false, false, false, false, false)
    ensures v.overlay <==> s.showHUD
    ensures v.settings <==> s.showHUD && showSettings
    ensures v.info <==> s.showHUD && s.selectedObject.Some?
    ensures v.hover <==> s.showHUD && s.hoveredObject.Some? && s.selectedObject.None?
    ensures v.performanceHint <==> s.showHUD && s.performance.quality == Low
  {
    if !s.showHUD then Panels(false, false, false, false, false)
    else Panels(true, showSettings, s.selectedObject.Some?, s.hoveredObject.Some? && s.selectedObject.None?, s.performance.quality == Low)
  }

  /** The information panel and the hover hint share a corner and are never shown together. */
  lemma InfoAndHoverExclusive(s: State, showSettings: bool)
    ensures !(Visible(s, showSettings).info && Visible(s, showSettings).hover)
  {}

  // ----- labels -----

  /**
   * The characters JavaScript's `trim` removes: tab, line feed, vertical tab, form feed, carriage
   * return, space, no-break space, the other Unicode space separators, the line and paragraph
   * separators, and the byte order mark.
   */
  const WhitespaceChars: set<char> :=
    {'\U{0009}', '\U{000A}', '\U{000B}', '\U{000C}', '\U{000D}', '\U{0020}', '\U{00A0}', '\U{1680}',
     '\U{2000}', '\U{2001}', '\U{2002}', '\U{2003}', '\U{2004}', '\U{2005}', '\U{2006}', '\U{2007}',
     '\U{2008}', '\U{2009}', '\U{200A}', '\U{2028}', '\U{2029}', '\U{202F}', '\U{205F}', '\U{3000}',
     '\U{FEFF}'}

  predicate IsWhitespace(c: char) {
    c in WhitespaceChars
  }

  /** What the pattern `[A-Z]` matches. */
  predicate IsUpper(c: char) {
    'A' <= c <= 'Z'
  }

  /** What the replacement makes of one character. */
  function Spaced(c: char): string {
    if IsUpper(c) then [' ', c] else [c]
  }

  /** `replace(/([A-Z])/g, ' $1')`: a space before every capital. */
  function SpaceBeforeCapitals(s: string): (r: string)
    ensures |r| >= |s|
  {
    if s == [] then [] else Spaced(s[0]) + SpaceBeforeCapitals(s[1..])
  }

  /*
   * Trimming is stated for any class `ws` of blank characters; `Trim` instantiates it with
   * `IsWhitespace`, so the proofs below never look inside the character class.
   */

  /** How many characters are trimmed at the front. */
  function Leading(s: string, ws: char -> bool): (n: nat)
    ensures n <= |s|
    ensures forall i :: 0 <= i < n ==> ws(s[i])
    ensures n < |s| ==> !ws(s[n])
  {
    if s == [] || !ws(s[0]) then 0 else 1 + Leading(s[1..], ws)
  }

  /** How many characters are trimmed at the back. */
  function Trailing(s: string, ws: char -> bool): (n: nat)
    ensures n <= |s|
    ensures forall i :: |s| - n <= i < |s| ==> ws(s[i])
    ensures n < |s| ==> !ws(s[|s| - 1 - n])
  {
    if s == [] || !ws(s[|s| - 1]) then 0 else 1 + Trailing(s[..|s| - 1], ws)
  }

  /** The longest slice that neither starts nor ends with a blank, obtained by removing only blanks. */
  function TrimBy(s: string, ws: char -> bool): (r: string)
    ensures Leading(s, ws) + |r| <= |s|
    ensures r == s[Leading(s, ws)..Leading(s, ws) + |r|]
    ensures forall i :: 0 <= i < Leading(s, ws) ==> ws(s[i])
    ensures forall i :: Leading(s, ws) + |r| <= i < |s| ==> ws(s[i])
    ensures r != [] ==> !ws(r[0]) && !ws(r[|r| - 1])
  {
    var t := s[Leading(s, ws)..];
    t[..|t| - Trailing(t, ws)]
  }

  /** `trim()`. */
  function Trim(s: string): string {
    TrimBy(s, IsWhitespace)
  }

  /** The label shown for a data key. */
  function Label(key: string): string {
    Trim(SpaceBeforeCapitals(key))
  }

  /** What deleting spaces makes of one character. */
  function Unspaced(c: char): string {
    if c == ' ' then [] else [c]
  }

  /** The key with every space removed. */
  function RemoveSpaces(s: string): (r: string)
    ensures |r| <= |s|
  {
    if s == [] then [] else Unspaced(s[0]) + RemoveSpaces(s[1..])
  }

  lemma {:induction false} RemoveSpacesConcat(a: string, b: string)
    ensures RemoveSpaces(a + b) == RemoveSpaces(a) + RemoveSpaces(b)
  {
    if a == [] {
      assert a + b == b;
    } else {
      assert (a + b)[0] == a[0];
      assert (a + b)[1..] == a[1..] + b;
      RemoveSpacesConcat(a[1..], b);
    }
  }

  lemma {:induction false} RemoveSpacesOfBlanks(s: string)
    requires forall i :: 0 <= i < |s| ==> s[i] == ' '
    ensures RemoveSpaces(s) == []
  {
    if s != [] {
      assert forall i :: 0 <= i < |s| - 1 ==> s[1..][i] == s[i + 1];
      RemoveSpacesOfBlanks(s[1..]);
    }
  }

  /** Every blank is a plain space. */
  predicate OnlyPlainSpaces(t: string, ws: char -> bool) {
    forall c :: c in t && ws(c) ==> c == ' '
  }

  predicate NoBlanks(s: string, ws: char -> bool) {
    forall c :: c in s ==> !ws(c)
  }

  /** Every capital has a space right before it. */
  predicate SpaceBeforeEachCapital(t: string) {
    forall i :: 0 <= i < |t| && IsUpper(t[i]) ==> 0 < i && t[i - 1] == ' '
  }

  lemma UnspaceSpaced(c: char)
    requires c != ' '
    ensures RemoveSpaces(Spaced(c)) == [c]
  {
    if IsUpper(c) {
      assert Spaced(c)[1..] == [c];
      assert [c][1..] == [];
    } else {
      assert [c][1..] == [];
    }
  }

  /** Deleting the spaces the replacement put in gives the key back. */
  lemma {:induction false} SpacedKeyRestores(key: string)
    requires ' ' !in key
    ensures RemoveSpaces(SpaceBeforeCapitals(key)) == key
  {
    if key != [] {
      assert key == [key[0]] + key[1..];
      SpacedKeyRestores(key[1..]);
      RemoveSpacesConcat(Spaced(key[0]), SpaceBeforeCapitals(key[1..]));
      UnspaceSpaced(key[0]);
    }
  }

  /** The blanks of a spaced-out key are the spaces the replacement put in. */
  lemma {:induction false} SpacedKeyBlanks(key: string, ws: char -> bool)
    requires NoBlanks(key, ws)
    ensures OnlyPlainSpaces(SpaceBeforeCapitals(key), ws)
  {
    if key != [] {
      assert key == [key[0]] + key[1..];
      SpacedKeyBlanks(key[1..], ws);
      assert forall c :: c in Spaced(key[0]) ==> c == ' ' || c == key[0];
    }
  }

  /** In a spaced-out key every capital has a space right before it. */
  lemma {:induction false} SpacedKeyCapitals(key: string)
    ensures SpaceBeforeEachCapital(SpaceBeforeCapitals(key))
  {
    if key != [] {
      var head := Spaced(key[0]);
      var rest := SpaceBeforeCapitals(key[1..]);
      SpacedKeyCapitals(key[1..]);
      var r := head + rest;
      forall i | 0 <= i < |r| && IsUpper(r[i])
        ensures 0 < i && r[i - 1] == ' '
      {
        if i >= |head| {
          assert r[i] == rest[i - |head|];
          if i - |head| > 0 {
            assert r[i - 1] == rest[i - 1 - |head|];
          }
        }
      }
    }
  }

  /** A run of blanks, when the only blanks are plain spaces, has nothing left once spaces are deleted. */
  lemma BlankRunVanishes(r: string, lo: nat, hi: nat, ws: char -> bool)
    requires OnlyPlainSpaces(r, ws) && lo <= hi <= |r|
    requires forall i :: lo <= i < hi ==> ws(r[i])
    ensures RemoveSpaces(r[lo..hi]) == []
  {
    forall i | 0 <= i < hi - lo
      ensures r[lo..hi][i] == ' '
    {
      assert r[lo..hi][i] == r[lo + i];
      assert r[lo + i] in r;
    }
    RemoveSpacesOfBlanks(r[lo..hi]);
  }

  /** When every blank is a plain space, trimming removes nothing but spaces. */
  lemma TrimRemovesOnlySpaces(r: string, ws: char -> bool)
    requires OnlyPlainSpaces(r, ws)
    ensures RemoveSpaces(TrimBy(r, ws)) == RemoveSpaces(r)
  {
    var a := Leading(r, ws);
    var l := TrimBy(r, ws);
    var b := a + |l|;
    assert r == r[0..a] + l + r[b..|r|];
    calc {
      RemoveSpaces(r);
    == { RemoveSpacesConcat(r[0..a] + l, r[b..|r|]); }
      RemoveSpaces(r[0..a] + l) + RemoveSpaces(r[b..|r|]);
    == { BlankRunVanishes(r, b, |r|, ws); }
      RemoveSpaces(r[0..a] + l);
    == { RemoveSpacesConcat(r[0..a], l); BlankRunVanishes(r, 0, a, ws); }
      RemoveSpaces(l);
    }
  }

  /** Trimming keeps a space before every capital that is not first. */
  lemma TrimKeepsSpaceBeforeCapitals(r: string, ws: char -> bool)
    requires SpaceBeforeEachCapital(r)
    ensures forall i :: 0 < i < |TrimBy(r, ws)| && IsUpper(TrimBy(r, ws)[i]) ==> TrimBy(r, ws)[i - 1] == ' '
  {
    var a := Leading(r, ws);
    var l := TrimBy(r, ws);
    forall i | 0 < i < |l| && IsUpper(l[i])
      ensures l[i - 1] == ' '
    {
      assert l[i] == r[a + i] && l[i - 1] == r[a + i - 1];
    }
  }

  predicate NoWhitespace(s: string) {
    forall c :: c in s ==> !IsWhitespace(c)
  }

  /**
   * For a key without white space, the label is the key with a space before each capital except a
   * leading one: deleting the spaces gives the key back, and every capital after the first
   * character is preceded by a space.
   */
  lemma LabelShape(key: string)
    requires NoWhitespace(key)
    ensures RemoveSpaces(Label(key)) == key
    ensures forall i :: 0 < i < |Label(key)| && IsUpper(Label(key)[i]) ==> Label(key)[i - 1] == ' '
  {
    assert IsWhitespace(' ');
    SpacedKeyRestores(key);
    SpacedKeyBlanks(key, IsWhitespace);
    SpacedKeyCapitals(key);
    TrimRemovesOnlySpaces(SpaceBeforeCapitals(key), IsWhitespace);
    TrimKeepsSpaceBeforeCapitals(SpaceBeforeCapitals(key), IsWhitespace);
  }

  /** A string that neither starts nor ends with a blank is its own trim. */
  lemma TrimKeeps(s: string, ws: char -> bool)
    requires s != [] && !ws(s[0]) && !ws(s[|s| - 1])
    ensures TrimBy(s, ws) == s
  {
    assert Leading(s, ws) == 0;
    assert s[0..] == s;
    assert Trailing(s, ws) == 0;
  }

  /** No character is a capital. */
  predicate NoCapitals(t: string) {
    forall c :: c in t ==> !IsUpper(c)
  }

  lemma {:induction false} SpaceBeforeCapitalsConcat(a: string, b: string)
    ensures SpaceBeforeCapitals(a + b) == SpaceBeforeCapitals(a) + SpaceBeforeCapitals(b)
  {
    if a == [] {
      assert a + b == b;
    } else {
      assert (a + b)[0] == a[0];
      assert (a + b)[1..] == a[1..] + b;
      SpaceBeforeCapitalsConcat(a[1..], b);
    }
  }

  lemma {:induction false} SpaceBeforeNoCapitals(a: string)
    requires NoCapitals(a)
    ensures SpaceBeforeCapitals(a) == a
  {
    if a != [] {
      assert a == [a[0]] + a[1..];
      SpaceBeforeNoCapitals(a[1..]);
    }
  }

  /**
   * A key made of a lower-case word followed by one capitalised word (`orbitRadius`) is shown as
   * the two words with a space between them (`orbit Radius`).
   */
  lemma TwoWordLabel(first: string, second: string)
    requires first != [] && NoCapitals(first) && !IsWhitespace(first[0])
    requires second != [] && IsUpper(second[0]) && NoCapitals(second[1..]) && !IsWhitespace(second[|second| - 1])
    ensures Label(first + second) == first + " " + second
  {
    var tail := second[1..];
    assert second == [second[0]] + tail;
    SpaceBeforeCapitalsConcat(first, second);
    SpaceBeforeCapitalsConcat([second[0]], tail);
    SpaceBeforeNoCapitals(first);
    SpaceBeforeNoCapitals(tail);
    assert SpaceBeforeCapitals([second[0]]) == [' ', second[0]] by {
      assert [second[0]][1..] == [];
    }
    var r := first + " " + second;
    assert SpaceBeforeCapitals(first + second) == r;
    assert r[0] == first[0] && r[|r| - 1] == second[|second| - 1];
    TrimKeeps(r, IsWhitespace);
  }

  /** The rows of the information panel: each data entry's label and value, in order. */
  function InfoRows(o: SceneObject): (rows: seq<(string, DataValue)>)
    ensures |rows| == |o.data|
    ensures forall i :: 0 <= i < |o.data| ==> rows[i] == (Label(o.data[i].0), o.data[i].1)
  {
    seq(|o.data|, i requires 0 <= i < |o.data| => (Label(o.data[i].0), o.data[i].1))
  }

  // ----- controls -----

  /** The three effect checkboxes of the settings panel. */
  datatype EffectBox = NebulaBox | CometsBox | SolarWindBox

  /** What a control sends to the store. */
  datatype Control =
    | WarpButton
    | HideButton
    | QualitySelect(quality: Tier)
    | LODBox(lod: bool)
    | SoundBox(sound: bool)
    | ControlsButton
    | EffectCheckbox(box: EffectBox, checked: bool)
    | CloseInfo

  /** Every key of `effects`, as a patch. */
  function AllEffects(e: Effects): EffectsPatch {
    EffectsPatch(Some(e.showNebula), Some(e.showComets), Some(e.showSolarWind), Some(e.showLensFlare),
                 Some(e.cameraShake), Some(e.warpSpeed), Some(e.enableParticles))
  }

  /** `{...effects, warpSpeed: !effects.warpSpeed}` built from the effects the overlay shows. */
  function WarpPatch(shown: Effects): EffectsPatch {
    AllEffects(shown).(warpSpeed := Some(!shown.warpSpeed))
  }

  /** `{...effects, <box>: checked}`. */
  function CheckboxPatch(shown: Effects, box: EffectBox, checked: bool): EffectsPatch {
    match box
    case NebulaBox => AllEffects(shown).(showNebula := Some(checked))
    case CometsBox => AllEffects(shown).(showComets := Some(checked))
    case SolarWindBox => AllEffects(shown).(showSolarWind := Some(checked))
  }

  /** The store after a control is used, given the effects the overlay was drawn with. */
  function AfterControl(s: State, shown: Effects, c: Control): State {
    match c
    case WarpButton => WithEffects(s, WarpPatch(shown))
    case HideButton => WithHUDToggled(s)
    case QualitySelect(q) => WithPerformance(s, NoPerformanceChange.(quality := Some(q)))
    case LODBox(b) => WithPerformance(s, NoPerformanceChange.(enableLOD := Some(b)))
    case SoundBox(b) => WithPerformance(s, NoPerformanceChange.(enableSoundEffects := Some(b)))
    case ControlsButton => WithControlsToggled(s)
    case EffectCheckbox(box, checked) => WithEffects(s, CheckboxPatch(shown, box, checked))
    case CloseInfo => s.(selectedObject := None)
  }

  /**
   * The effect controls write every key from the effects the overlay was drawn with, so a store
   * that changed since then has those changes overwritten: the new effects depend on `shown` alone.
   */
  lemma WarpPatchOverwrites(e: Effects, shown: Effects)
    ensures MergeEffects(e, WarpPatch(shown)) == shown.(warpSpeed := !shown.warpSpeed)
  {}

  lemma CheckboxPatchOverwrites(e: Effects, shown: Effects, box: EffectBox, checked: bool)
    ensures box == NebulaBox ==> MergeEffects(e, CheckboxPatch(shown, box, checked)) == shown.(showNebula := checked)
    ensures box == CometsBox ==> MergeEffects(e, CheckboxPatch(shown, box, checked)) == shown.(showComets := checked)
    ensures box == SolarWindBox ==> MergeEffects(e, CheckboxPatch(shown, box, checked)) == shown.(showSolarWind := checked)
  {
    match box
    case NebulaBox =>
    case CometsBox =>
    case SolarWindBox =>
  }

  /** When the overlay shows the store's current effects, the warp button flips only `warpSpeed`; nothing else in the store changes. */
  lemma WarpFlipsOnlyWarp(s: State)
    ensures AfterControl(s, s.effects, WarpButton) == s.(effects := s.effects.(warpSpeed := !s.effects.warpSpeed))
  {
    WarpPatchOverwrites(s.effects, s.effects);
    var r := WithEffects(s, WarpPatch(s.effects));
    assert r.(effects := s.effects) == s;
  }

  /** When the overlay shows the store's current effects, each checkbox sets only its own field. */
  lemma CheckboxSetsOnlyItsField(s: State, box: EffectBox, checked: bool)
    ensures box == NebulaBox ==> AfterControl(s, s.effects, EffectCheckbox(box, checked)) == s.(effects := s.effects.(showNebula := checked))
    ensures box == CometsBox ==> AfterControl(s, s.effects, EffectCheckbox(box, checked)) == s.(effects := s.effects.(showComets := checked))
    ensures box == SolarWindBox ==> AfterControl(s, s.effects, EffectCheckbox(box, checked)) == s.(effects := s.effects.(showSolarWind := checked))
  {
    CheckboxPatchOverwrites(s.effects, s.effects, box, checked);
    var r := WithEffects(s, CheckboxPatch(s.effects, box, checked));
    assert r.(effects := s.effects) == s;
  }

  /** The quality select changes the quality alone. */
  lemma QualityChangesOneKey(s: State, shown: Effects, q: Tier)
    ensures AfterControl(s, shown, QualitySelect(q)) == s.(performance := s.performance.(quality := q))
  {
    var r := WithPerformance(s, NoPerformanceChange.(quality := Some(q)));
    assert r.(performance := s.performance) == s;
  }

  /** The LOD checkbox changes `enableLOD` alone. */
  lemma LODChangesOneKey(s: State, shown: Effects, b: bool)
    ensures AfterControl(s, shown, LODBox(b)) == s.(performance := s.performance.(enableLOD := b))
  {
    var r := WithPerformance(s, NoPerformanceChange.(enableLOD := Some(b)));
    assert r.(performance := s.performance) == s;
  }

  /** The sound checkbox changes `enableSoundEffects` alone. */
  lemma SoundChangesOneKey(s: State, shown: Effects, b: bool)
    ensures AfterControl(s, shown, SoundBox(b)) == s.(performance := s.performance.(enableSoundEffects := b))
  {
    var r := WithPerformance(s, NoPerformanceChange.(enableSoundEffects := Some(b)));
    assert r.(performance := s.performance) == s;
  }

  /** Pressing the warp button on two successive renders restores the warp flag. */
  lemma WarpTwiceRestores(s: State)
    ensures var once := AfterControl(s, s.effects, WarpButton);
      AfterControl(once, once.effects, WarpButton) == s
  {
    WarpFlipsOnlyWarp(s);
    var once := AfterControl(s, s.effects, WarpButton);
    WarpFlipsOnlyWarp(once);
  }

  /** A control's handler. */
  method Use(store: Store, shown: Effects, c: Control)
    modifies store
    ensures store.state == AfterControl(old(store.state), shown, c)
  {
    match c
    case WarpButton => store.SetEffects(WarpPatch(shown));
    case HideButton => store.ToggleHUD();
    case QualitySelect(q) => store.SetPerformance(NoPerformanceChange.(quality := Some(q)));
    case LODBox(b) => store.SetPerformance(NoPerformanceChange.(enableLOD := Some(b)));
    case SoundBox(b) => store.SetPerformance(NoPerformanceChange.(enableSoundEffects := Some(b)));
    case ControlsButton => store.ToggleControls();
    case EffectCheckbox(box, checked) => store.SetEffects(CheckboxPatch(shown, box, checked));
    case CloseInfo => store.SetSelectedObject(None);
  }
}
