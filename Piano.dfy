/**
 * The page component's state and its handlers: the set of pressed keys, the
 * current scale, the octave offset with its clamping buttons, the screen
 * class, the audio flags, and every call made into the audio library.
 */
module Piano {
  import opened Scales
  import opened Playback
  import Keys
  import Layout

  const MinOffset := -2
  const MaxOffset := 2

  /** The left octave button: one octave down, never below -2. */
  function StepDown(offset: int): (r: int)
    ensures MinOffset <= offset <= MaxOffset ==> MinOffset <= r <= MaxOffset
    ensures offset > MinOffset ==> r == offset - 1
    ensures offset <= MinOffset ==> r == MinOffset
  {
    if offset - 1 > MinOffset then offset - 1 else MinOffset
  }

  /** The right octave button: one octave up, never above 2. */
  function StepUp(offset: int): (r: int)
    ensures MinOffset <= offset <= MaxOffset ==> MinOffset <= r <= MaxOffset
    ensures offset < MaxOffset ==> r == offset + 1
    ensures offset >= MaxOffset ==> r == MaxOffset
  {
    if offset + 1 < MaxOffset then offset + 1 else MaxOffset
  }

  /** Any sequence of button presses (true: up, false: down) keeps an offset in
      [-2, 2] inside it. */
  lemma {:induction false} OffsetStaysInRange(offset: int, presses: seq<bool>)
    requires MinOffset <= offset <= MaxOffset
    ensures MinOffset <= PressAll(offset, presses) <= MaxOffset
    decreases |presses|
  {
    if presses != [] {
      OffsetStaysInRange(if presses[0] then StepUp(offset) else StepDown(offset), presses[1..]);
    }
  }

  /** The offset after a run of button presses. From an offset not below -2,
      only down presses give max(-2, offset - count); from one not above 2,
      only up presses give min(2, offset + count). */
  function PressAll(offset: int, presses: seq<bool>): (r: int)
    ensures MinOffset <= offset && (forall k :: 0 <= k < |presses| ==> !presses[k]) ==>
      r == (if offset - |presses| > MinOffset then offset - |presses| else MinOffset)
    ensures offset <= MaxOffset && (forall k :: 0 <= k < |presses| ==> presses[k]) ==>
      r == (if offset + |presses| < MaxOffset then offset + |presses| else MaxOffset)
    decreases |presses|
  {
    if presses == [] then offset
    else PressAll(if presses[0] then StepUp(offset) else StepDown(offset), presses[1..])
  }

  class VirtualPiano {
    var pressedKeys: set<int>
    var currentScale: Option<CurrentScale>
    var scaleType: ScaleKind
    var displayScaleType: DisplayScale
    var octaveOffset: int
    var screenSize: Layout.ScreenSize
    var audio: AudioState
    /** Every call made into the audio library, oldest first. */
    var calls: seq<AudioCall>

    ghost predicate Valid()
      reads this
    {
      && MinOffset <= octaveOffset <= MaxOffset
      && (currentScale.Some? ==> -12 < currentScale.value.root < 12)
    }

    /** getCurrentKeys for the current screen class and offset: every key on
        screen plays a valid MIDI note. */
    function CurrentKeys(): (keys: seq<Keys.PianoKey>)
      reads this
      requires Valid()
      ensures forall i :: 0 <= i < |keys| ==> 0 <= keys[i].midiNote <= 127
    {
      var keys := Layout.CurrentKeys(Layout.GetScreenConfig(screenSize), octaveOffset);
      assert forall i :: 0 <= i < |keys| ==> 0 <= keys[i].midiNote <= 127 by {
        forall i | 0 <= i < |keys|
          ensures 0 <= keys[i].midiNote <= 127
        {
          Layout.CurrentKeysInMidiRange(screenSize, octaveOffset, i);
        }
      }
      keys
    }

    /** isKeyInCurrentScale for this state: for a current scale with a
        non-negative root (Valid keeps it below 12) and a non-negative note,
        which covers every root a key or a MIDI message can store, the note is
        highlighted
        exactly when its distance above the root, modulo 12, is an interval of
        the displayed scale. */
    function InCurrentScale(midiNote: int): (b: bool)
      reads this
      requires Valid()
      ensures currentScale.None? ==> !b
      ensures currentScale.Some? && currentScale.value.root >= 0 && midiNote >= 0 ==>
        (b <==> (midiNote - currentScale.value.root) % 12 in Intervals(AsScaleKind(displayScaleType)))
    {
      var b := IsKeyInCurrentScale(currentScale, displayScaleType, midiNote);
      assert currentScale.Some? && currentScale.value.root >= 0 && midiNote >= 0 ==>
        (b <==> (midiNote - currentScale.value.root) % 12 in Intervals(AsScaleKind(displayScaleType))) by {
        if currentScale.Some? && currentScale.value.root >= 0 && midiNote >= 0 {
          ScaleMembership(currentScale.value.root, currentScale.value.kind, displayScaleType, midiNote);
        }
      }
      b
    }

    /** The initial state of the component. */
    constructor ()
      ensures Valid()
      ensures pressedKeys == {} && currentScale == None
      ensures scaleType == Major && displayScaleType == DisplayMajor
      ensures octaveOffset == 0 && screenSize == Layout.Desktop
      ensures audio == Initial && calls == []
    {
      pressedKeys := {};
      currentScale := None;
      scaleType := Major;
      displayScaleType := DisplayMajor;
      octaveOffset := 0;
      screenSize := Layout.Desktop;
      audio := Initial;
      calls := [];
    }

    /** handleNoteOn: the note joins the pressed set (a re-press leaves the set
        as it was), the current scale becomes the note's pitch class with the
        selected scale type, and playNote is called every time. */
    method NoteOn(midiNote: int, velocity: int, samplerThrows: bool)
      requires Valid()
      modifies this
      ensures Valid()
      ensures pressedKeys == old(pressedKeys) + {midiNote}
      ensures currentScale == Some(CurrentScale(Rem12(midiNote), old(scaleType)))
      ensures calls == old(calls) + PlayCalls(old(audio), midiNote, velocity, samplerThrows)
      ensures scaleType == old(scaleType) && displayScaleType == old(displayScaleType)
      ensures octaveOffset == old(octaveOffset) && screenSize == old(screenSize) && audio == old(audio)
    {
      pressedKeys := pressedKeys + {midiNote};
      var noteIndex := Rem12(midiNote);
      currentScale := Some(CurrentScale(noteIndex, scaleType));
      calls := calls + PlayCalls(audio, midiNote, velocity, samplerThrows);
    }

    /** handleNoteOff: only this note leaves the pressed set (nothing changes if
        it was not held), the current scale stays, and stopNote is called
        every time. */
    method NoteOff(midiNote: int)
      requires Valid()
      modifies this
      ensures Valid()
      ensures pressedKeys == old(pressedKeys) - {midiNote}
      ensures calls == old(calls) + StopCalls(old(audio), midiNote)
      ensures currentScale == old(currentScale)
      ensures scaleType == old(scaleType) && displayScaleType == old(displayScaleType)
      ensures octaveOffset == old(octaveOffset) && screenSize == old(screenSize) && audio == old(audio)
    {
      pressedKeys := pressedKeys - {midiNote};
      calls := calls + StopCalls(audio, midiNote);
    }

    /** The left octave button. */
    method OctaveDown()
      requires Valid()
      modifies this`octaveOffset
      ensures Valid()
      ensures octaveOffset == StepDown(old(octaveOffset))
    {
      octaveOffset := StepDown(octaveOffset);
    }

    /** The right octave button. */
    method OctaveUp()
      requires Valid()
      modifies this`octaveOffset
      ensures Valid()
      ensures octaveOffset == StepUp(old(octaveOffset))
    {
      octaveOffset := StepUp(octaveOffset);
    }

    /** The Scale Type selector: only later notes pick it up. */
    method SelectScaleType(kind: ScaleKind)
      requires Valid()
      modifies this`scaleType
      ensures Valid() && scaleType == kind
    {
      scaleType := kind;
    }

    /** The Major / Minor highlighting toggle. */
    method SelectDisplayScale(display: DisplayScale)
      requires Valid()
      modifies this`displayScaleType
      ensures Valid() && displayScaleType == display
    {
      displayScaleType := display;
    }

    /** checkScreenSize on a resize. */
    method Resize(width: int)
      requires Valid()
      modifies this`screenSize
      ensures Valid() && screenSize == Layout.Classify(width)
    {
      screenSize := Layout.Classify(width);
    }

    /** One step of the piano initialisation effect or of its callbacks. */
    method OnLoadEvent(e: LoadEvent)
      requires Valid()
      modifies this`audio
      ensures Valid() && audio == Step(old(audio), e)
    {
      audio := Step(audio, e);
    }
  }

  /** Pressing middle C twice keeps one held note but strikes the backend twice;
      releasing a note that is not held changes nothing but the call record. */
  method RestrikeAndStrayRelease()
  {
    var piano := new VirtualPiano();
    piano.NoteOn(60, 100, false);
    piano.NoteOn(60, 80, false);
    assert piano.pressedKeys == {60};
    assert piano.calls == [FallbackTone(60, 100), FallbackTone(60, 80)];
    var e := piano.InCurrentScale(64);
    var eFlat := piano.InCurrentScale(63);
    assert e && !eFlat;
    piano.NoteOff(61);
    assert piano.pressedKeys == {60};
    assert piano.currentScale == Some(CurrentScale(0, Major));
    piano.NoteOff(60);
    assert piano.pressedKeys == {};
    assert piano.currentScale == Some(CurrentScale(0, Major));
  }

  /** After the sampler is created and its samples load, notes reach the sampler
      and note-offs release it; the octave buttons stop at the bounds. */
  method LoadThenPlay()
  {
    var piano := new VirtualPiano();
    piano.OnLoadEvent(SamplerCreated);
    piano.NoteOn(64, 127, false);
    assert piano.calls == [FallbackTone(64, 127)];
    piano.OnLoadEvent(SamplesLoaded);
    piano.NoteOn(64, 127, false);
    piano.NoteOff(64);
    assert piano.calls == [FallbackTone(64, 127), Attack(64, 1.0), Release(64)];
    piano.OctaveDown();
    piano.OctaveDown();
    piano.OctaveDown();
    assert piano.octaveOffset == -2;
  }
}
