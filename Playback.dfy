/**
 * Playback dispatch: which backend playNote and stopNote reach, given whether
 * the sampler reference exists and whether pianoLoaded is set, and how the
 * loading callbacks move those two flags. The audio library itself is left
 * abstract: a call into it is recorded as an AudioCall.
 */
module Playback {

  /** pianoRef.current !== null, and the pianoLoaded state. */
  datatype AudioState = AudioState(hasSampler: bool, pianoLoaded: bool)

  /** Before initPiano has run: no sampler, nothing loaded. */
  const Initial := AudioState(false, false)

  /** What the initialisation effect can report.
      SamplerCreated: the try block assigned pianoRef.current.
      InitFailed: the try block threw, and its catch ran initFallbackAudio.
      SamplesLoaded: the sampler's onload callback.
      SamplesFailed: the sampler's onerror callback, which runs initFallbackAudio. */
  datatype LoadEvent = SamplerCreated | InitFailed | SamplesLoaded | SamplesFailed

  /** One event: creation sets the reference, every other event sets
      pianoLoaded; neither flag is ever cleared. */
  function Step(st: AudioState, e: LoadEvent): (r: AudioState)
    ensures r.hasSampler <==> st.hasSampler || e == SamplerCreated
    ensures r.pianoLoaded <==> st.pianoLoaded || e != SamplerCreated
  {
    match e
    case SamplerCreated => st.(hasSampler := true)
    case InitFailed => st.(pianoLoaded := true)
    case SamplesLoaded => st.(pianoLoaded := true)
    case SamplesFailed => st.(pianoLoaded := true)
  }

  /** The state after a run of load events, in order. */
  function Run(st: AudioState, events: seq<LoadEvent>): (r: AudioState)
    ensures st.hasSampler ==> r.hasSampler
    ensures st.pianoLoaded ==> r.pianoLoaded
    decreases |events|
  {
    if events == [] then st else Run(Step(st, events[0]), events[1..])
  }

  /** A call into the audio library. Attack carries the velocity normalised to
      0 .. 1 as playNote passes it to the sampler. */
  datatype AudioCall =
    | Attack(midiNote: int, gain: real)
    | FallbackTone(midiNote: int, velocity: int)
    | Release(midiNote: int)

  /** playNote: the sampler when the reference exists and pianoLoaded holds,
      the oscillator fallback otherwise, and the fallback too when the sampler
      call throws (samplerThrows stands for that outcome of the library). */
  function PlayCalls(st: AudioState, midiNote: int, velocity: int, samplerThrows: bool): (r: seq<AudioCall>)
    ensures |r| == 1 && r[0].midiNote == midiNote && !r[0].Release?
  {
    if st.hasSampler && st.pianoLoaded && !samplerThrows then [Attack(midiNote, velocity as real / 127.0)]
    else [FallbackTone(midiNote, velocity)]
  }

  /** stopNote: a release to the sampler whenever the reference exists (loaded
      or not), nothing without one. A throwing release is swallowed. */
  function StopCalls(st: AudioState, midiNote: int): (r: seq<AudioCall>)
    ensures |r| <= 1
    ensures forall k :: 0 <= k < |r| ==> r[k] == Release(midiNote)
  {
    if st.hasSampler then [Release(midiNote)] else []
  }

  /** The volume effect: slider value 0 .. 100 to decibels, linearly. */
  function VolumeDb(v: real): (db: real)
    ensures v == 0.0 ==> db == -60.0
    ensures v == 100.0 ==> db == 0.0
    ensures 0.0 <= v <= 100.0 ==> -60.0 <= db <= 0.0
  {
    v / 100.0 * 60.0 - 60.0
  }

  // ---------------------------------------------------------------------------
  // Properties.
  // ---------------------------------------------------------------------------

  /** Every note-on reaches the library exactly once, for that note; it reaches
      the sampler exactly when a sampler exists, pianoLoaded holds and the
      sampler does not throw. */
  lemma PlayDispatch(st: AudioState, midiNote: int, velocity: int, samplerThrows: bool)
    ensures |PlayCalls(st, midiNote, velocity, samplerThrows)| == 1
    ensures PlayCalls(st, midiNote, velocity, samplerThrows)[0].midiNote == midiNote
    ensures PlayCalls(st, midiNote, velocity, samplerThrows)[0].Attack?
        <==> st.hasSampler && st.pianoLoaded && !samplerThrows
    ensures PlayCalls(st, midiNote, velocity, samplerThrows)[0].Release? == false
  {
  }

  /** Without a sampler, stopNote does nothing; with one it releases that note.
      This only unfolds StopCalls; the statement over whole event histories is
      FallbackForeverWithoutSampler. */
  lemma StopDispatch(st: AudioState, midiNote: int)
    ensures !st.hasSampler ==> StopCalls(st, midiNote) == []
    ensures st.hasSampler ==> StopCalls(st, midiNote) == [Release(midiNote)]
  {
  }

  /** Both flags only ever go from false to true. pianoLoaded is set exactly when
      some event other than SamplerCreated has happened, and the sampler
      exists exactly when SamplerCreated has happened. */
  lemma {:induction false} RunFlags(st: AudioState, events: seq<LoadEvent>)
    ensures Run(st, events).pianoLoaded
        <==> st.pianoLoaded || exists k :: 0 <= k < |events| && events[k] != SamplerCreated
    ensures Run(st, events).hasSampler <==> st.hasSampler || SamplerCreated in events
    decreases |events|
  {
    if events != [] {
      var rest := events[1..];
      RunFlags(Step(st, events[0]), rest);
      assert events == [events[0]] + rest;
      if exists k :: 0 <= k < |rest| && rest[k] != SamplerCreated {
        var k :| 0 <= k < |rest| && rest[k] != SamplerCreated;
        assert events[k + 1] != SamplerCreated;
      }
      if exists k :: 0 <= k < |events| && events[k] != SamplerCreated {
        var k :| 0 <= k < |events| && events[k] != SamplerCreated;
        if k > 0 {
          assert rest[k - 1] != SamplerCreated;
        }
      }
    }
  }

  /** pianoLoaded, once set, stays set. */
  lemma LoadedIsMonotone(st: AudioState, events: seq<LoadEvent>)
    requires st.pianoLoaded
    ensures Run(st, events).pianoLoaded
  {
    RunFlags(st, events);
  }

  /** Until a load callback or the init failure has been seen, every note goes to
      the fallback oscillator. */
  lemma FallbackWhileLoading(events: seq<LoadEvent>, midiNote: int, velocity: int, samplerThrows: bool)
    requires forall k :: 0 <= k < |events| ==> events[k] == SamplerCreated
    ensures PlayCalls(Run(Initial, events), midiNote, velocity, samplerThrows) == [FallbackTone(midiNote, velocity)]
  {
    RunFlags(Initial, events);
  }

  /** Once the sampler exists and its samples have loaded, every note that does
      not throw goes to the sampler, whatever happens afterwards. */
  lemma SamplerAfterLoad(before: seq<LoadEvent>, after: seq<LoadEvent>, midiNote: int, velocity: int)
    requires SamplerCreated in before
    ensures PlayCalls(Run(Initial, before + [SamplesLoaded] + after), midiNote, velocity, false)
        == [Attack(midiNote, velocity as real / 127.0)]
  {
    var events := before + [SamplesLoaded] + after;
    assert events[|before|] == SamplesLoaded;
    var i :| 0 <= i < |before| && before[i] == SamplerCreated;
    assert events[i] == SamplerCreated;
    RunFlags(Initial, events);
  }

  /** A failed sample load does not switch to the oscillator for good: the
      reference stays set, pianoLoaded becomes true, and every later note that
      does not throw goes to the sampler, whatever events follow. */
  lemma SamplerAfterLoadError(before: seq<LoadEvent>, after: seq<LoadEvent>, midiNote: int, velocity: int)
    requires SamplerCreated in before
    ensures Run(Initial, before + [SamplesFailed] + after) == AudioState(true, true)
    ensures PlayCalls(Run(Initial, before + [SamplesFailed] + after), midiNote, velocity, false)
        == [Attack(midiNote, velocity as real / 127.0)]
  {
    var events := before + [SamplesFailed] + after;
    assert events[|before|] == SamplesFailed;
    var i :| 0 <= i < |before| && before[i] == SamplerCreated;
    assert events[i] == SamplerCreated;
    RunFlags(Initial, events);
  }

  /** When the sampler could not even be created, every note uses the fallback
      and every note-off does nothing, forever. */
  lemma FallbackForeverWithoutSampler(events: seq<LoadEvent>, midiNote: int, velocity: int, samplerThrows: bool)
    requires SamplerCreated !in events
    ensures PlayCalls(Run(Initial, events), midiNote, velocity, samplerThrows) == [FallbackTone(midiNote, velocity)]
    ensures StopCalls(Run(Initial, events), midiNote) == []
  {
    RunFlags(Initial, events);
  }

  /** The volume mapping is linear: 0.6 dB per slider step. */
  lemma VolumeLinear(a: real, b: real)
    ensures VolumeDb(a) - VolumeDb(b) == (a - b) * 0.6
    ensures a < b ==> VolumeDb(a) < VolumeDb(b)
  {
  }
}
