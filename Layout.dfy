/**
 * Layout engine: the screen-size breakpoints, the fixed configuration table
 * getScreenConfig, and the geometry derived from it (getKeyboardDimensions,
 * getBlackKeyPosition) together with the octave-shift overlay getCurrentKeys.
 */
module Layout {
  import opened Keys

  datatype ScreenSize = Mobile | Tablet | Laptop | Large | Desktop

  /** Screen classes from narrowest to widest. */
  function SizeRank(size: ScreenSize): nat
  {
    match size
    case Mobile => 0
    case Tablet => 1
    case Laptop => 2
    case Large => 3
    case Desktop => 4
  }

  /** checkScreenSize: the class of a window width. */
  function Classify(width: int): (r: ScreenSize)
    ensures r == Mobile <==> width < 640
    ensures r == Tablet <==> 640 <= width < 1024
    ensures r == Laptop <==> 1024 <= width < 1280
    ensures r == Large <==> 1280 <= width < 1600
    ensures r == Desktop <==> 1600 <= width
  {
    if width < 640 then Mobile
    else if width < 1024 then Tablet
    else if width < 1280 then Laptop
    else if width < 1600 then Large
    else Desktop
  }

  datatype ScreenConfig = ScreenConfig(
    octaves: int,
    whiteKeyWidth: int,
    blackKeyWidth: int,
    whiteKeyHeight: int,
    blackKeyHeight: int,
    startOctave: int,
    showOctaveControls: bool)

  /** getScreenConfig: one octave more per wider class, octave shifting only on
      the two narrowest classes, black keys narrower and shorter than white ones. */
  function GetScreenConfig(size: ScreenSize): (c: ScreenConfig)
    ensures c.octaves == SizeRank(size) + 1
    ensures c.showOctaveControls <==> (size == Mobile || size == Tablet)
    ensures 2 <= c.startOctave <= 4
    ensures 0 < c.blackKeyWidth < c.whiteKeyWidth && c.blackKeyWidth % 2 == 0
    ensures 0 < c.blackKeyHeight < c.whiteKeyHeight
  {
    match size
    case Mobile => ScreenConfig(1, 42, 28, 150, 100, 4, true)
    case Tablet => ScreenConfig(2, 36, 24, 140, 90, 3, true)
    case Laptop => ScreenConfig(3, 40, 26, 160, 100, 3, false)
    case Large => ScreenConfig(4, 44, 28, 180, 115, 2, false)
    case Desktop => ScreenConfig(5, 48, 32, 200, 130, 2, false)
  }

  datatype Dimensions = Dimensions(width: int, height: int)

  /** getKeyboardDimensions: room for 7 white keys per octave and the closing C. */
  function KeyboardDimensions(c: ScreenConfig): (d: Dimensions)
    ensures d.height == c.whiteKeyHeight
    ensures c.octaves >= 0 && c.whiteKeyWidth > 0 ==> d.width >= c.whiteKeyWidth
  {
    Dimensions((c.octaves * 7 + 1) * c.whiteKeyWidth, c.whiteKeyHeight)
  }

  /** getBlackKeyPosition: the left edge, in pixels, of a black key; 0 for a
      white key. The source divides the black width with floating point, which
      is exact here because every configured black width is even. */
  function BlackKeyPosition(c: ScreenConfig, key: PianoKey): (left: real)
    ensures !key.Black? ==> left == 0.0
  {
    if !key.Black? then 0.0
    else (key.betweenKeys.0 * c.whiteKeyWidth + c.whiteKeyWidth) as real - c.blackKeyWidth as real / 2.0
  }

  /** getCurrentKeys: the generated keys, pitched up by whole octaves when the
      octave controls are shown. */
  function CurrentKeys(c: ScreenConfig, octaveOffset: int): (keys: seq<PianoKey>)
    ensures |keys| == |Keyboard(c.octaves, c.startOctave)|
    ensures !c.showOctaveControls ==> keys == Keyboard(c.octaves, c.startOctave)
  {
    var base := Keyboard(c.octaves, c.startOctave);
    if c.showOctaveControls then
      seq(|base|, i requires 0 <= i < |base| => base[i].(midiNote := base[i].midiNote + octaveOffset * 12))
    else base
  }

  // ---------------------------------------------------------------------------
  // Properties.
  // ---------------------------------------------------------------------------

  /** A wider window never shows fewer octaves. */
  lemma WiderShowsMore(w1: int, w2: int)
    requires w1 <= w2
    ensures GetScreenConfig(Classify(w1)).octaves <= GetScreenConfig(Classify(w2)).octaves
  {
  }

  /** The keyboard is exactly as wide as its white keys laid side by side: one
      white key per slot of the generated keyboard, the last one ending at the
      right edge. */
  lemma KeyboardWidthFitsKeys(size: ScreenSize)
    ensures var c := GetScreenConfig(size);
      var ws := WhitePositions(Keyboard(c.octaves, c.startOctave));
      && KeyboardDimensions(c).width == |ws| * c.whiteKeyWidth
      && ws[|ws| - 1] * c.whiteKeyWidth + c.whiteKeyWidth == KeyboardDimensions(c).width
  {
    var c := GetScreenConfig(size);
    var n, w := c.octaves, c.whiteKeyWidth;
    var ws := WhitePositions(Keyboard(n, c.startOctave));
    assert ws == Range(0, 7 * n + 1) by {
      KeyboardCounts(n, c.startOctave);
    }
    assert |ws| == 7 * n + 1 && ws[|ws| - 1] == 7 * n;
    assert (7 * n) * w + w == (7 * n + 1) * w;
  }

  /** Every black key of a configured keyboard is centred on the boundary between
      the two white keys it names and lies inside the keyboard. */
  lemma BlackKeyPlacement(size: ScreenSize, i: int)
    requires var c := GetScreenConfig(size);
      0 <= i < |Keyboard(c.octaves, c.startOctave)| && Keyboard(c.octaves, c.startOctave)[i].Black?
    ensures var c := GetScreenConfig(size);
      var key := Keyboard(c.octaves, c.startOctave)[i];
      var left := BlackKeyPosition(c, key);
      && left + c.blackKeyWidth as real / 2.0 == (key.betweenKeys.1 * c.whiteKeyWidth) as real
      && 0.0 < left
      && left + c.blackKeyWidth as real < KeyboardDimensions(c).width as real
  {
    var c := GetScreenConfig(size);
    var key := Keyboard(c.octaves, c.startOctave)[i];
    BlackKeyAdjacency(c.octaves, c.startOctave, i);
    KeyboardAt(c.octaves, c.startOctave, i);
    var p := key.betweenKeys.0;
    assert 0 <= p && p + 1 <= 7 * c.octaves;
    SlotGeometry(p, c.octaves, c.whiteKeyWidth);
  }

  /** Slot p + 1 of a row of 7n + 1 white keys of width w starts at (p + 1) * w,
      which is at least w and at most 7n * w. */
  lemma SlotGeometry(p: int, n: int, w: int)
    requires 0 <= p && p + 1 <= 7 * n && w > 0
    ensures (p + 1) * w == p * w + w
    ensures w <= p * w + w <= (7 * n + 1) * w - w
  {
    assert (p + 1) * w == p * w + w;
    assert p * w >= 0;
    var d := 7 * n - (p + 1);
    assert (7 * n) * w == (p + 1) * w + d * w;
    assert d * w >= 0;
    assert (7 * n + 1) * w == (7 * n) * w + w;
  }

  /** With octave controls every key keeps its kind, name, octave label and
      placement, and only its MIDI number moves by 12 * octaveOffset; without
      them the generated keys are returned untouched. */
  lemma CurrentKeysOverlay(c: ScreenConfig, octaveOffset: int, i: int)
    requires 0 <= i < |Keyboard(c.octaves, c.startOctave)|
    ensures |CurrentKeys(c, octaveOffset)| == |Keyboard(c.octaves, c.startOctave)|
    ensures !c.showOctaveControls ==> CurrentKeys(c, octaveOffset) == Keyboard(c.octaves, c.startOctave)
    ensures var base := Keyboard(c.octaves, c.startOctave)[i];
      var key := CurrentKeys(c, octaveOffset)[i];
      && key.midiNote == 12 * (c.startOctave + 1) + i + (if c.showOctaveControls then 12 * octaveOffset else 0)
      && key.White? == base.White?
      && key.note == base.note
      && key.octave == base.octave
      && (key.White? ==> key.position == base.position)
      && (key.Black? ==> key.betweenKeys == base.betweenKeys)
  {
    KeyboardPitch(c.octaves, c.startOctave, i);
  }

  /** A shifted key keeps the octave label of the unshifted keyboard, so its
      label and its MIDI octave differ by exactly the offset. */
  lemma ShiftedLabel(size: ScreenSize, octaveOffset: int, i: int)
    requires var c := GetScreenConfig(size); 0 <= i < |Keyboard(c.octaves, c.startOctave)|
    ensures var c := GetScreenConfig(size);
      var key := CurrentKeys(c, octaveOffset)[i];
      key.octave == key.midiNote / 12 - 1 - (if c.showOctaveControls then octaveOffset else 0)
  {
    var c := GetScreenConfig(size);
    var base := Keyboard(c.octaves, c.startOctave)[i];
    KeyboardPitch(c.octaves, c.startOctave, i);
    CurrentKeysOverlay(c, octaveOffset, i);
    var d := if c.showOctaveControls then octaveOffset else 0;
    assert CurrentKeys(c, octaveOffset)[i].midiNote == base.midiNote + 12 * d;
    DivMod12(base.midiNote / 12 + d, base.midiNote % 12);
  }

  /** Every key on screen plays a valid MIDI note (0 .. 127) for every screen
      class and every offset the octave buttons can reach. */
  lemma CurrentKeysInMidiRange(size: ScreenSize, octaveOffset: int, i: int)
    requires -2 <= octaveOffset <= 2
    requires 0 <= i < |CurrentKeys(GetScreenConfig(size), octaveOffset)|
    ensures 0 <= CurrentKeys(GetScreenConfig(size), octaveOffset)[i].midiNote <= 127
  {
    var c := GetScreenConfig(size);
    KeyboardCounts(c.octaves, c.startOctave);
    CurrentKeysOverlay(c, octaveOffset, i);
  }
}
