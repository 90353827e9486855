/**
 * Key topology of the on-screen piano: the one-octave template KEYS, the
 * generator generateKeys that replicates it for several octaves and closes the
 * keyboard with a trailing white C, and the counting, ordering, adjacency and
 * MIDI-numbering facts the rest of the page relies on.
 */
module Keys {

  /** A key of the keyboard. White keys carry their slot among the white keys,
      black keys the slots of the two white keys they sit between. */
  datatype PianoKey =
    | White(note: string, octave: int, midiNote: int, position: int)
    | Black(note: string, octave: int, midiNote: int, betweenKeys: (int, int))

  /** NOTE_NAMES: the twelve pitch-class names, indexed by pitch class. */
  const NoteNames: seq<string> :=
    ["C", "C#", "D", "D#", "E", "F", "F#", "G", "G#", "A", "A#", "B"]

  /** KEYS: the keys of octave 2 (MIDI 36 to 47). */
  const Template: seq<PianoKey> := [
    White("C", 2, 36, 0),
    Black("C#", 2, 37, (0, 1)),
    White("D", 2, 38, 1),
    Black("D#", 2, 39, (1, 2)),
    White("E", 2, 40, 2),
    White("F", 2, 41, 3),
    Black("F#", 2, 42, (3, 4)),
    White("G", 2, 43, 4),
    Black("G#", 2, 44, (4, 5)),
    White("A", 2, 45, 5),
    Black("A#", 2, 46, (5, 6)),
    White("B", 2, 47, 6)
  ]

  // ---------------------------------------------------------------------------
  // Reference layout: the i-th key of a keyboard, computed directly from i.
  // ---------------------------------------------------------------------------

  /** The pitch classes of the white keys (the C major scale). */
  predicate IsWhiteClass(j: int)
  {
    j == 0 || j == 2 || j == 4 || j == 5 || j == 7 || j == 9 || j == 11
  }

  /** How many white pitch classes lie strictly below pitch class j (0 <= j < 12). */
  function WhitesBelow(j: int): nat
  {
    if j <= 0 then 0
    else if j <= 2 then 1
    else if j <= 4 then 2
    else if j == 5 then 3
    else if j <= 7 then 4
    else if j <= 9 then 5
    else 6
  }

  /** Key j (0 <= j < 12) of octave k of a keyboard whose first octave is s. */
  function KeyIn(s: int, k: int, j: int): PianoKey
    requires 0 <= j < 12
  {
    var midi := 12 * (s + 1 + k) + j;
    if IsWhiteClass(j) then White(NoteNames[j], s + k, midi, 7 * k + WhitesBelow(j))
    else Black(NoteNames[j], s + k, midi, (7 * k + WhitesBelow(j) - 1, 7 * k + WhitesBelow(j)))
  }

  /** The i-th key (counting from 0): key i mod 12 of octave i div 12. */
  function KeyAt(s: int, i: nat): PianoKey
  {
    KeyIn(s, i / 12, i % 12)
  }

  /** The first n full octaves of the keyboard that starts at octave s. */
  function Octaves(n: nat, s: int): seq<PianoKey>
  {
    seq(12 * n, i requires 0 <= i => KeyAt(s, i))
  }

  /** The keyboard generateKeys(n, s) is meant to produce: n octaves and a
      closing white key, or nothing when n is not positive. */
  function Keyboard(n: int, s: int): seq<PianoKey>
  {
    if n > 0 then seq(12 * n + 1, i requires 0 <= i => KeyAt(s, i)) else []
  }

  /** A keyboard is its full octaves followed by the closing key. */
  lemma KeyboardSplit(n: nat, s: int)
    requires n > 0
    ensures Keyboard(n, s) == Octaves(n, s) + [KeyAt(s, 12 * n)]
  {
  }

  // ---------------------------------------------------------------------------
  // The generator as the source writes it.
  // ---------------------------------------------------------------------------

  /** One template key moved to `octave` of a keyboard that starts at `start`
      (the callback of KEYS.map inside generateKeys). */
  function ShiftKey(key: PianoKey, octave: int, start: int): (r: PianoKey)
    ensures r.White? == key.White? && r.note == key.note && r.octave == octave
    ensures r.midiNote - key.midiNote == 12 * (octave - 2)
  {
    match key
    case White(note, _, midi, pos) =>
      White(note, octave, midi + (octave - 2) * 12, pos + (octave - start) * 7)
    case Black(note, _, midi, (l, r)) =>
      Black(note, octave, midi + (octave - 2) * 12, (l + (octave - start) * 7, r + (octave - start) * 7))
  }

  /** KEYS.map(...) for one octave. */
  function ShiftAll(keys: seq<PianoKey>, octave: int, start: int): (r: seq<PianoKey>)
    ensures |r| == |keys|
    ensures forall j :: 0 <= j < |r| ==> r[j].White? == keys[j].White? && r[j].octave == octave
  {
    seq(|keys|, j requires 0 <= j < |keys| => ShiftKey(keys[j], octave, start))
  }

  /** generateKeys: one copy of the template per octave, then a trailing C. */
  method GenerateKeys(octaves: int, startOctave: int) returns (allKeys: seq<PianoKey>)
    ensures allKeys == Keyboard(octaves, startOctave)
  {
    allKeys := [];
    var octave := startOctave;
    while octave < startOctave + octaves
      invariant startOctave <= octave
      invariant octaves > 0 ==> octave <= startOctave + octaves
      invariant octaves <= 0 ==> octave == startOctave
      invariant allKeys == Octaves(octave - startOctave, startOctave)
    {
      var octaveKeys := ShiftAll(Template, octave, startOctave);
      OctaveAppend(octave - startOctave, startOctave);
      allKeys := allKeys + octaveKeys;
      octave := octave + 1;
    }
    assert Octaves(0, startOctave) == [];
    if octaves > 0 {
      allKeys := allKeys + [White("C", startOctave + octaves, 36 + (startOctave + octaves - 2) * 12, octaves * 7)];
      TrailingKey(octaves, startOctave);
      KeyboardSplit(octaves, startOctave);
    }
  }

  // ---------------------------------------------------------------------------
  // Arithmetic and structural helpers.
  // ---------------------------------------------------------------------------

  lemma DivMod12(k: int, j: int)
    requires 0 <= j < 12
    ensures (12 * k + j) / 12 == k && (12 * k + j) % 12 == j
  {
  }

  lemma KeyAtSplit(s: int, k: nat, j: int)
    requires 0 <= j < 12
    ensures KeyAt(s, 12 * k + j) == KeyIn(s, k, j)
  {
    DivMod12(k, j);
  }

  /** The j-th template key shifted to octave s + k is key j of octave k. */
  lemma ShiftTemplate(s: int, k: nat, j: int)
    requires 0 <= j < 12
    ensures ShiftKey(Template[j], s + k, s) == KeyIn(s, k, j)
  {
  }

  /** Octave k of the reference layout. */
  function Block(k: nat, s: int): (r: seq<PianoKey>)
    ensures |r| == 12
  {
    seq(12, j requires 0 <= j < 12 => KeyIn(s, k, j))
  }

  /** KEYS.map(...) for octave s + k is octave k of the reference layout. */
  lemma ShiftedTemplateIsBlock(k: nat, s: int)
    ensures ShiftAll(Template, s + k, s) == Block(k, s)
  {
    forall j | 0 <= j < 12
      ensures ShiftAll(Template, s + k, s)[j] == Block(k, s)[j]
    {
      ShiftTemplate(s, k, j);
    }
  }

  /** n octaves of the reference layout followed by octave n are n + 1 octaves. */
  lemma OctavesAppendBlock(n: nat, s: int)
    ensures Octaves(n, s) + Block(n, s) == Octaves(n + 1, s)
  {
    var a := Octaves(n, s) + Block(n, s);
    forall i | 0 <= i < 12 * (n + 1)
      ensures a[i] == Octaves(n + 1, s)[i]
    {
      if i >= 12 * n {
        KeyAtSplit(s, n, i - 12 * n);
      }
    }
  }

  /** Appending a shifted template to n octaves gives n + 1 octaves. */
  lemma OctaveAppend(n: nat, s: int)
    ensures Octaves(n, s) + ShiftAll(Template, s + n, s) == Octaves(n + 1, s)
  {
    ShiftedTemplateIsBlock(n, s);
    OctavesAppendBlock(n, s);
  }

  /** The closing key pushed after the loop is the key KeyAt places at 12n. */
  lemma TrailingKey(n: nat, s: int)
    ensures White("C", s + n, 36 + (s + n - 2) * 12, n * 7) == KeyAt(s, 12 * n)
  {
    KeyAtSplit(s, n, 0);
  }

  // ---------------------------------------------------------------------------
  // Filters used by the page: filter(isWhiteKey) and filter(isBlackKey).
  // ---------------------------------------------------------------------------

  /** The positions of the white keys, in order. */
  function WhitePositions(keys: seq<PianoKey>): seq<int>
  {
    if keys == [] then []
    else
      var last := keys[|keys| - 1];
      WhitePositions(keys[..|keys| - 1]) + (if last.White? then [last.position] else [])
  }

  /** How many black keys there are. */
  function BlackCount(keys: seq<PianoKey>): nat
  {
    if keys == [] then 0
    else BlackCount(keys[..|keys| - 1]) + (if keys[|keys| - 1].Black? then 1 else 0)
  }

  /** The integers lo, lo + 1, ..., lo + len - 1. */
  function Range(lo: int, len: nat): (r: seq<int>)
    ensures |r| == len
  {
    seq(len, p requires 0 <= p < len => lo + p)
  }

  lemma {:induction false} FiltersAppend(a: seq<PianoKey>, b: seq<PianoKey>)
    ensures WhitePositions(a + b) == WhitePositions(a) + WhitePositions(b)
    ensures BlackCount(a + b) == BlackCount(a) + BlackCount(b)
    decreases |b|
  {
    if b == [] {
      assert a + b == a;
    } else {
      var b' := b[..|b| - 1];
      assert (a + b)[..|a + b| - 1] == a + b';
      FiltersAppend(a, b');
    }
  }

  /** Shifting a run of keys by d octaves adds 7d to every white position and
      keeps the black keys. */
  lemma {:induction false} ShiftFilters(keys: seq<PianoKey>, octave: int, start: int)
    ensures |WhitePositions(ShiftAll(keys, octave, start))| == |WhitePositions(keys)|
    ensures forall p :: 0 <= p < |WhitePositions(keys)| ==>
      WhitePositions(ShiftAll(keys, octave, start))[p] == WhitePositions(keys)[p] + 7 * (octave - start)
    ensures BlackCount(ShiftAll(keys, octave, start)) == BlackCount(keys)
    decreases |keys|
  {
    if keys != [] {
      var init := keys[..|keys| - 1];
      assert ShiftAll(keys, octave, start)[..|keys| - 1] == ShiftAll(init, octave, start);
      ShiftFilters(init, octave, start);
    }
  }

  /** One more key of a run adds its slot (if white) or one (if black). */
  lemma FiltersSnoc(keys: seq<PianoKey>, k: nat)
    requires k < |keys|
    ensures WhitePositions(keys[..k + 1])
        == WhitePositions(keys[..k]) + (if keys[k].White? then [keys[k].position] else [])
    ensures BlackCount(keys[..k + 1]) == BlackCount(keys[..k]) + (if keys[k].Black? then 1 else 0)
  {
    assert keys[..k + 1][..k] == keys[..k];
  }

  /** The first six template keys (C .. F) hold the white slots 0 .. 3. */
  lemma TemplateLowerWhites()
    ensures WhitePositions(Template[..6]) == [0, 1, 2, 3]
  {
    var t := Template;
    assert t[..0] == [];
    FiltersSnoc(t, 0);
    assert WhitePositions(t[..1]) == [0];
    FiltersSnoc(t, 1);
    assert WhitePositions(t[..2]) == [0];
    FiltersSnoc(t, 2);
    assert WhitePositions(t[..3]) == [0, 1];
    FiltersSnoc(t, 3);
    assert WhitePositions(t[..4]) == [0, 1];
    FiltersSnoc(t, 4);
    assert WhitePositions(t[..5]) == [0, 1, 2];
    FiltersSnoc(t, 5);
    assert WhitePositions(t[..6]) == [0, 1, 2, 3];
  }

  lemma TemplateWhitePositions()
    ensures WhitePositions(Template) == Range(0, 7)
  {
    var t := Template;
    TemplateLowerWhites();
    FiltersSnoc(t, 6);
    assert WhitePositions(t[..7]) == [0, 1, 2, 3];
    FiltersSnoc(t, 7);
    assert WhitePositions(t[..8]) == [0, 1, 2, 3, 4];
    FiltersSnoc(t, 8);
    assert WhitePositions(t[..9]) == [0, 1, 2, 3, 4];
    FiltersSnoc(t, 9);
    assert WhitePositions(t[..10]) == [0, 1, 2, 3, 4, 5];
    FiltersSnoc(t, 10);
    assert WhitePositions(t[..11]) == [0, 1, 2, 3, 4, 5];
    FiltersSnoc(t, 11);
    assert WhitePositions(t[..12]) == [0, 1, 2, 3, 4, 5, 6];
    assert t[..12] == t;
  }

  lemma TemplateBlackCount()
    ensures BlackCount(Template) == 5
  {
    FiltersPartition(Template);
    TemplateWhitePositions();
  }

  /** Every key is either white or black: the two filters split the run. */
  lemma {:induction false} FiltersPartition(keys: seq<PianoKey>)
    ensures |WhitePositions(keys)| + BlackCount(keys) == |keys|
    decreases |keys|
  {
    if keys != [] {
      FiltersPartition(keys[..|keys| - 1]);
    }
  }

  lemma RangeAppend(lo: int, a: nat, b: nat)
    ensures Range(lo, a) + Range(lo + a, b) == Range(lo, a + b)
  {
  }

  /** Octave k of the keyboard holds the white slots 7k .. 7k + 6 and 5 black keys. */
  lemma BlockFilters(k: nat, s: int)
    ensures WhitePositions(Block(k, s)) == Range(7 * k, 7)
    ensures BlackCount(Block(k, s)) == 5
  {
    ShiftedTemplateIsBlock(k, s);
    ShiftFilters(Template, s + k, s);
    TemplateWhitePositions();
    TemplateBlackCount();
  }

  /** n full octaves hold the white positions 0 .. 7n - 1, in order. */
  lemma {:induction false} OctavesWhitePositions(n: nat, s: int)
    ensures WhitePositions(Octaves(n, s)) == Range(0, 7 * n)
  {
    if n == 0 {
      assert Octaves(0, s) == [];
    } else {
      var prev := Octaves(n - 1, s);
      var block := Block(n - 1, s);
      assert Octaves(n, s) == prev + block by {
        OctavesAppendBlock(n - 1, s);
      }
      OctavesWhitePositions(n - 1, s);
      BlockFilters(n - 1, s);
      WhitesAppend(prev, block, n - 1);
    }
  }

  /** n octaves' white slots followed by octave n's are the slots of n + 1 octaves. */
  lemma WhitesAppend(prev: seq<PianoKey>, block: seq<PianoKey>, n: nat)
    requires WhitePositions(prev) == Range(0, 7 * n)
    requires WhitePositions(block) == Range(7 * n, 7)
    ensures WhitePositions(prev + block) == Range(0, 7 * (n + 1))
  {
    FiltersAppend(prev, block);
    RangeAppend(0, 7 * n, 7);
  }

  /** n full octaves hold 5n black keys. */
  lemma {:induction false} OctavesBlackCount(n: nat, s: int)
    ensures BlackCount(Octaves(n, s)) == 5 * n
  {
    if n == 0 {
      assert Octaves(0, s) == [];
    } else {
      var prev := Octaves(n - 1, s);
      var block := Block(n - 1, s);
      assert Octaves(n, s) == prev + block by {
        OctavesAppendBlock(n - 1, s);
      }
      assert BlackCount(prev + block) == BlackCount(prev) + BlackCount(block) by {
        FiltersAppend(prev, block);
      }
      assert BlackCount(prev) == 5 * (n - 1) by {
        OctavesBlackCount(n - 1, s);
      }
      assert BlackCount(block) == 5 by {
        BlockFilters(n - 1, s);
      }
    }
  }

  // ---------------------------------------------------------------------------
  // The properties of generateKeys.
  // ---------------------------------------------------------------------------

  lemma KeyboardAt(n: int, s: int, i: int)
    requires 0 <= i < |Keyboard(n, s)|
    ensures n > 0 && i <= 12 * n && Keyboard(n, s)[i] == KeyAt(s, i)
  {
  }

  /** The closing key is white, in slot 7n. */
  lemma TrailingKeyFilters(n: nat, s: int)
    ensures WhitePositions([KeyAt(s, 12 * n)]) == [7 * n]
    ensures BlackCount([KeyAt(s, 12 * n)]) == 0
  {
    var last := KeyAt(s, 12 * n);
    assert last.White? && last.position == 7 * n by {
      KeyAtSplit(s, n, 0);
    }
    assert [last][..0] == [];
  }

  lemma KeyboardWhitePositions(n: nat, s: int)
    requires n > 0
    ensures WhitePositions(Keyboard(n, s)) == Range(0, 7 * n + 1)
  {
    var octs, last := Octaves(n, s), [KeyAt(s, 12 * n)];
    KeyboardSplit(n, s);
    calc {
      WhitePositions(octs + last);
      { FiltersAppend(octs, last); }
      WhitePositions(octs) + WhitePositions(last);
      { OctavesWhitePositions(n, s); TrailingKeyFilters(n, s); }
      Range(0, 7 * n) + [7 * n];
      { assert [7 * n] == Range(7 * n, 1); RangeAppend(0, 7 * n, 1); }
      Range(0, 7 * n + 1);
    }
  }

  lemma KeyboardBlackCount(n: nat, s: int)
    requires n > 0
    ensures BlackCount(Keyboard(n, s)) == 5 * n
  {
    var octs, last := Octaves(n, s), [KeyAt(s, 12 * n)];
    KeyboardSplit(n, s);
    calc {
      BlackCount(octs + last);
      { FiltersAppend(octs, last); }
      BlackCount(octs) + BlackCount(last);
      { OctavesBlackCount(n, s); TrailingKeyFilters(n, s); }
      5 * n;
    }
  }

  /** generateKeys(n, s) has 12n + 1 keys for n >= 1 and none otherwise; its
      white keys, taken in output order, occupy the slots 0, 1, ..., 7n, and
      there are 5n black keys. */
  lemma KeyboardCounts(n: int, s: int)
    ensures n <= 0 ==> Keyboard(n, s) == []
    ensures n > 0 ==> |Keyboard(n, s)| == 12 * n + 1
    ensures n > 0 ==> WhitePositions(Keyboard(n, s)) == Range(0, 7 * n + 1)
    ensures n > 0 ==> BlackCount(Keyboard(n, s)) == 5 * n
  {
    if n > 0 {
      KeyboardWhitePositions(n, s);
      KeyboardBlackCount(n, s);
    }
  }

  /** A black pitch class has white neighbours on both sides, in consecutive slots. */
  lemma BlackClassNeighbours(j: int)
    requires 0 <= j < 12 && !IsWhiteClass(j)
    ensures 1 <= j <= 10 && IsWhiteClass(j - 1) && IsWhiteClass(j + 1)
    ensures WhitesBelow(j - 1) == WhitesBelow(j) - 1 && WhitesBelow(j + 1) == WhitesBelow(j)
  {
  }

  /** Within one octave, a black key's neighbours are white keys in the slots it names. */
  lemma KeyInNeighbours(s: int, k: int, j: int)
    requires 0 <= j < 12 && KeyIn(s, k, j).Black?
    ensures 1 <= j <= 10
    ensures KeyIn(s, k, j).betweenKeys.1 == KeyIn(s, k, j).betweenKeys.0 + 1
    ensures KeyIn(s, k, j - 1).White? && KeyIn(s, k, j - 1).position == KeyIn(s, k, j).betweenKeys.0
    ensures KeyIn(s, k, j + 1).White? && KeyIn(s, k, j + 1).position == KeyIn(s, k, j).betweenKeys.1
  {
    BlackClassNeighbours(j);
  }

  /** The same, counting keys from the start of the keyboard. */
  lemma KeyAtNeighbours(s: int, i: nat)
    requires KeyAt(s, i).Black?
    ensures 1 <= i % 12 <= 10
    ensures KeyAt(s, i).betweenKeys.1 == KeyAt(s, i).betweenKeys.0 + 1
    ensures KeyAt(s, i - 1).White? && KeyAt(s, i - 1).position == KeyAt(s, i).betweenKeys.0
    ensures KeyAt(s, i + 1).White? && KeyAt(s, i + 1).position == KeyAt(s, i).betweenKeys.1
  {
    var k, j := i / 12, i % 12;
    KeyInNeighbours(s, k, j);
    assert i - 1 == 12 * k + (j - 1) && i + 1 == 12 * k + (j + 1);
    KeyAtSplit(s, k, j - 1);
    KeyAtSplit(s, k, j + 1);
  }

  /** Every black key sits between two white neighbours in the output: the key
      before it is the white key at its left slot p and the key after it is the
      white key at slot p + 1. */
  lemma BlackKeyAdjacency(n: int, s: int, i: int)
    requires 0 <= i < |Keyboard(n, s)|
    requires Keyboard(n, s)[i].Black?
    ensures 0 < i < |Keyboard(n, s)| - 1
    ensures Keyboard(n, s)[i].betweenKeys.1 == Keyboard(n, s)[i].betweenKeys.0 + 1
    ensures Keyboard(n, s)[i - 1].White?
    ensures Keyboard(n, s)[i - 1].position == Keyboard(n, s)[i].betweenKeys.0
    ensures Keyboard(n, s)[i + 1].White?
    ensures Keyboard(n, s)[i + 1].position == Keyboard(n, s)[i].betweenKeys.1
  {
    KeyboardAt(n, s, i);
    KeyAtNeighbours(s, i);
    assert i != 12 * n by {
      DivMod12(n, 0);
    }
    KeyboardAt(n, s, i - 1);
    KeyboardAt(n, s, i + 1);
  }

  /** Both slots a black key names are slots of white keys of the same output. */
  lemma BlackKeysReferWhiteSlots(n: int, s: int, i: int)
    requires 0 <= i < |Keyboard(n, s)|
    requires Keyboard(n, s)[i].Black?
    ensures Keyboard(n, s)[i].betweenKeys.0 in WhitePositions(Keyboard(n, s))
    ensures Keyboard(n, s)[i].betweenKeys.1 in WhitePositions(Keyboard(n, s))
  {
    BlackKeyAdjacency(n, s, i);
    KeyboardCounts(n, s);
    var p := Keyboard(n, s)[i].betweenKeys.0;
    var ws := WhitePositions(Keyboard(n, s));
    assert Keyboard(n, s)[i] == KeyAt(s, i);
    assert 0 <= p && p + 1 <= 7 * n;
    assert ws[p] == p && ws[p + 1] == p + 1;
  }

  lemma KeyAtPitch(s: int, i: nat)
    ensures KeyAt(s, i).midiNote == 12 * (s + 1) + i
    ensures KeyAt(s, i).note == NoteNames[KeyAt(s, i).midiNote % 12]
    ensures KeyAt(s, i).octave == KeyAt(s, i).midiNote / 12 - 1
  {
    var k, j := i / 12, i % 12;
    assert i == 12 * k + j;
    DivMod12(s + 1 + k, j);
  }

  /** The i-th key has MIDI number 12(s + 1) + i; its name is the name of its
      pitch class and its octave is the MIDI octave, the trailing C included. */
  lemma KeyboardPitch(n: int, s: int, i: int)
    requires 0 <= i < |Keyboard(n, s)|
    ensures Keyboard(n, s)[i].midiNote == 12 * (s + 1) + i
    ensures Keyboard(n, s)[i].note == NoteNames[Keyboard(n, s)[i].midiNote % 12]
    ensures Keyboard(n, s)[i].octave == Keyboard(n, s)[i].midiNote / 12 - 1
  {
    KeyboardAt(n, s, i);
    KeyAtPitch(s, i);
  }

  /** MIDI numbers increase strictly along the output, so they are unique. */
  lemma KeyboardMidiIncreasing(n: int, s: int, i: int, j: int)
    requires 0 <= i < j < |Keyboard(n, s)|
    ensures Keyboard(n, s)[i].midiNote < Keyboard(n, s)[j].midiNote
  {
    KeyboardPitch(n, s, i);
    KeyboardPitch(n, s, j);
  }

  /** The template is octave 2 of the reference layout. */
  lemma TemplateIsOctaveTwo()
    ensures Template == Octaves(1, 2)
  {
    OctaveAppend(0, 2);
    assert Octaves(0, 2) == [];
    forall j | 0 <= j < 12
      ensures ShiftAll(Template, 2, 2)[j] == Template[j]
    {
      TemplateOctave(j);
      ShiftToOwnOctave(Template[j]);
    }
  }

  /** Every template key is labelled octave 2. */
  lemma TemplateOctave(j: int)
    requires 0 <= j < 12
    ensures Template[j].octave == 2
  {
    if j == 0 {
    } else if j == 1 {
    } else if j == 2 {
    } else if j == 3 {
    } else if j == 4 {
    } else if j == 5 {
    } else if j == 6 {
    } else if j == 7 {
    } else if j == 8 {
    } else if j == 9 {
    } else if j == 10 {
    } else {
    }
  }

  /** Moving a key of octave 2 to octave 2 of a keyboard starting there changes nothing. */
  lemma ShiftToOwnOctave(key: PianoKey)
    requires key.octave == 2
    ensures ShiftKey(key, 2, 2) == key
  {
  }
}
