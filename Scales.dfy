/**
 * Scale engine: the interval table SCALES, getScaleNotes, and the two
 * highlighting predicates isKeyInCurrentScale and isRootNote. Pitch classes
 * are computed with JavaScript's `%`, which truncates toward zero.
 */
module Scales {

  datatype Option<T> = None | Some(value: T)

  /** The keys of SCALES, which is also the type stored in currentScale. */
  datatype ScaleKind = Major | Minor | HarmonicMinor | MelodicMinor

  /** displayScaleType: the Major / Minor toggle that drives highlighting. */
  datatype DisplayScale = DisplayMajor | DisplayMinor

  /** The SCALES entry a display choice indexes ("major" or "minor"). */
  function AsScaleKind(d: DisplayScale): ScaleKind
  {
    match d
    case DisplayMajor => Major
    case DisplayMinor => Minor
  }

  /** SCALES: seven semitone offsets from the root, increasing, starting at 0. */
  function Intervals(k: ScaleKind): (r: seq<int>)
    ensures |r| == 7 && r[0] == 0
    ensures forall i, j :: 0 <= i < j < 7 ==> r[i] < r[j]
    ensures forall i :: 0 <= i < 7 ==> 0 <= r[i] < 12
  {
    match k
    case Major => [0, 2, 4, 5, 7, 9, 11]
    case Minor => [0, 2, 3, 5, 7, 8, 10]
    case HarmonicMinor => [0, 2, 3, 5, 7, 8, 11]
    case MelodicMinor => [0, 2, 3, 5, 7, 9, 11]
  }

  /** JavaScript's `a % 12`: the remainder has the sign of a and |r| < 12. */
  function Rem12(a: int): (r: int)
    ensures -12 < r < 12
    ensures (a - r) % 12 == 0
    ensures a >= 0 ==> r >= 0
    ensures a <= 0 ==> r <= 0
  {
    if a >= 0 then a % 12 else -((-a) % 12)
  }

  /** currentScale: the pitch class of the last note played and the scale type
      selected at that moment. */
  datatype CurrentScale = CurrentScale(root: int, kind: ScaleKind)

  /** getScaleNotes: the pitch classes of the scale of kind k on root. */
  function ScaleNotes(root: int, k: ScaleKind): (r: seq<int>)
    ensures |r| == 7 && r[0] == Rem12(root)
  {
    seq(7, i requires 0 <= i < 7 => Rem12(root + Intervals(k)[i]))
  }

  /** isKeyInCurrentScale: membership is read from the display toggle, never
      from the kind stored in currentScale. */
  predicate IsKeyInCurrentScale(cs: Option<CurrentScale>, display: DisplayScale, midiNote: int)
    ensures cs.None? ==> !IsKeyInCurrentScale(cs, display, midiNote)
  {
    match cs
    case None => false
    case Some(scale) => Rem12(midiNote) in ScaleNotes(scale.root, AsScaleKind(display))
  }

  /** isRootNote. */
  predicate IsRootNote(cs: Option<CurrentScale>, midiNote: int)
    ensures IsRootNote(cs, midiNote) ==> cs.Some? && cs.value.root == Rem12(midiNote)
  {
    match cs
    case None => false
    case Some(scale) => Rem12(midiNote) == scale.root
  }

  // ---------------------------------------------------------------------------
  // Arithmetic on remainders.
  // ---------------------------------------------------------------------------

  /** Rem12 is one-to-one on any window of fewer than 12 consecutive integers. */
  lemma Rem12Injective(a: int, b: int)
    requires a < b < a + 12
    ensures Rem12(a) != Rem12(b)
  {
  }

  /** A remainder is its own remainder. */
  lemma Rem12OfRem12(a: int)
    ensures Rem12(Rem12(a)) == Rem12(a)
  {
  }

  lemma SameRemainder(a: int, b: int)
    ensures a % 12 == b % 12 <==> (a - b) % 12 == 0
  {
    var qa, ra := a / 12, a % 12;
    var qb, rb := b / 12, b % 12;
    assert a - b == 12 * (qa - qb) + (ra - rb);
    if (a - b) % 12 == 0 {
      var q := (a - b) / 12;
      assert ra - rb == 12 * (q - (qa - qb));
    }
  }

  // ---------------------------------------------------------------------------
  // Properties of the scale engine.
  // ---------------------------------------------------------------------------

  /** getScaleNotes returns seven distinct values, the root's pitch class first;
      for a non-negative root they are pitch classes 0 .. 11. */
  lemma ScaleNotesShape(root: int, k: ScaleKind)
    ensures |ScaleNotes(root, k)| == 7
    ensures ScaleNotes(root, k)[0] == Rem12(root)
    ensures forall i, j :: 0 <= i < j < 7 ==> ScaleNotes(root, k)[i] != ScaleNotes(root, k)[j]
    ensures root >= 0 ==> forall i :: 0 <= i < 7 ==> 0 <= ScaleNotes(root, k)[i] < 12
  {
    var iv := Intervals(k);
    forall i, j | 0 <= i < j < 7
      ensures ScaleNotes(root, k)[i] != ScaleNotes(root, k)[j]
    {
      Rem12Injective(root + iv[i], root + iv[j]);
    }
  }

  /** The two worked examples: C major and A natural minor. */
  lemma ScaleExamples()
    ensures ScaleNotes(0, Major) == [0, 2, 4, 5, 7, 9, 11]
    ensures ScaleNotes(9, Minor) == [9, 11, 0, 2, 4, 5, 7]
  {
  }

  /** A non-negative note is highlighted exactly when its distance above the root,
      reduced modulo 12, is one of the scale's intervals. */
  lemma ScaleMembership(root: int, kind: ScaleKind, display: DisplayScale, midiNote: int)
    requires 0 <= root < 12 && midiNote >= 0
    ensures IsKeyInCurrentScale(Some(CurrentScale(root, kind)), display, midiNote)
        <==> (midiNote - root) % 12 in Intervals(AsScaleKind(display))
  {
    var iv := Intervals(AsScaleKind(display));
    var notes := ScaleNotes(root, AsScaleKind(display));
    forall i | 0 <= i < 7
      ensures notes[i] == midiNote % 12 <==> (midiNote - root) % 12 == iv[i]
    {
      IntervalMatch(root, iv[i], midiNote);
    }
    if (midiNote - root) % 12 in iv {
      var i :| 0 <= i < 7 && iv[i] == (midiNote - root) % 12;
      assert notes[i] == midiNote % 12;
    }
  }

  /** The note of a scale degree `root + d` has a non-negative note's pitch
      class exactly when the note lies d semitones above the root, modulo 12. */
  lemma IntervalMatch(root: int, d: int, midiNote: int)
    requires 0 <= root < 12 && 0 <= d < 12 && midiNote >= 0
    ensures Rem12(root + d) == midiNote % 12 <==> (midiNote - root) % 12 == d
  {
    SameRemainder(midiNote, root + d);
    SameRemainder(midiNote - root, d);
  }

  /** A root note is always highlighted as in scale, whatever the display toggle. */
  lemma RootNoteIsInScale(cs: Option<CurrentScale>, display: DisplayScale, midiNote: int)
    ensures IsRootNote(cs, midiNote) ==> IsKeyInCurrentScale(cs, display, midiNote)
  {
    if IsRootNote(cs, midiNote) {
      var root := cs.value.root;
      Rem12OfRem12(midiNote);
      ScaleNotesShape(root, AsScaleKind(display));
      assert ScaleNotes(root, AsScaleKind(display))[0] == Rem12(midiNote);
    }
  }

  /** Without a current scale nothing is highlighted; with one, both predicates
      see only the note's pitch class (its remainder modulo 12). This only
      unfolds the two predicates; OctaveEquivalence states it over octaves. */
  lemma PitchClassOnly(cs: Option<CurrentScale>, display: DisplayScale, m1: int, m2: int)
    requires Rem12(m1) == Rem12(m2)
    ensures cs.None? ==> !IsKeyInCurrentScale(cs, display, m1) && !IsRootNote(cs, m1)
    ensures IsKeyInCurrentScale(cs, display, m1) == IsKeyInCurrentScale(cs, display, m2)
    ensures IsRootNote(cs, m1) == IsRootNote(cs, m2)
  {
  }

  /** For non-negative notes, the same pitch class gives the same highlighting. */
  lemma OctaveEquivalence(cs: Option<CurrentScale>, display: DisplayScale, m: int, octaves: nat)
    requires m >= 0
    ensures IsKeyInCurrentScale(cs, display, m + 12 * octaves) == IsKeyInCurrentScale(cs, display, m)
    ensures IsRootNote(cs, m + 12 * octaves) == IsRootNote(cs, m)
  {
    assert Rem12(m + 12 * octaves) == Rem12(m) by {
      assert (m + 12 * octaves) - m == 12 * octaves;
      SameRemainder(m + 12 * octaves, m);
    }
  }

  /** The scale type stored in currentScale plays no part in highlighting
      (only the predicates unfold here; ScaleMembership says what they compute). */
  lemma StoredKindIgnored(root: int, k1: ScaleKind, k2: ScaleKind, display: DisplayScale, midiNote: int)
    ensures IsKeyInCurrentScale(Some(CurrentScale(root, k1)), display, midiNote)
        == IsKeyInCurrentScale(Some(CurrentScale(root, k2)), display, midiNote)
    ensures IsRootNote(Some(CurrentScale(root, k1)), midiNote) == IsRootNote(Some(CurrentScale(root, k2)), midiNote)
  {
  }
}
