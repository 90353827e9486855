# Tonic virtual piano: verified model of the page logic

Tonic is a browser piano. Its one page component (`app/page.tsx`) works out a
keyboard layout from the window width, generates the key list, plays notes
through a sample-based instrument with an oscillator fallback, tracks which
keys are held, and highlights the notes of a scale built on the last note
played. This project models that logic in Dafny and proves what the page
relies on:

- **Keys** (`Keys.dfy`): the one-octave template `KEYS`, `NOTE_NAMES` and
  `generateKeys`. `generateKeys` is a method with the source's loop over
  octaves. It is proved equal to `Keyboard(n, s)`, a reference layout that
  gives the i-th key directly from i. Lemmas about `Keyboard` give the key
  counts, the order of the white slots, the adjacency of each black key to
  its two white neighbours, and the MIDI numbering, names and octaves.
- **Layout** (`Layout.dfy`): the width breakpoints, the `getScreenConfig`
  table, `getKeyboardDimensions`, `getBlackKeyPosition` and the octave-shift
  overlay `getCurrentKeys`.
- **Scales** (`Scales.dfy`): `SCALES`, `getScaleNotes`, `isKeyInCurrentScale`
  and `isRootNote`. JavaScript's `%` truncates toward zero; `Rem12` models it
  for negative operands too.
- **Playback** (`Playback.dfy`): the dispatch in `playNote` / `stopNote` over
  the pair (sampler reference set, `pianoLoaded`), the transitions of that pair
  under the loading callbacks, and the volume mapping to decibels. Calls into
  the audio library are recorded as `AudioCall` values.
- **Piano** (`Piano.dfy`): the component state as a class. It holds the pressed
  set, the current scale, the scale type, the display toggle, the octave
  offset, the screen class, the audio flags and the record of library calls.
  Its methods are `handleNoteOn`, `handleNoteOff`, the octave buttons, the
  selectors, the resize handler and the loading events.

Four behaviours of the code are easy to misread; the model follows the code:

- The comments at `app/page.tsx:292` and `app/page.tsx:300` both say
  "Fallback to basic oscillator". Only the `catch` of `initPiano`
  (`app/page.tsx:298-302`) does that. There the sampler reference was never
  set, so every note uses the oscillator for good
  (`Playback.FallbackForeverWithoutSampler`). In `onerror`
  (`app/page.tsx:290-294`), `initFallbackAudio` only sets `pianoLoaded`. The
  sampler reference stays set, so later notes go to the sampler again
  (`Playback.SamplerAfterLoadError`).
- The comment at `app/page.tsx:326` says "Convert 0-100 to decibels (-60 to
  0)". The formula `v / 100 * 60 - 60` does span exactly that range, and it is
  linear in decibels, 0.6 dB per slider step in exact arithmetic
  (`Playback.VolumeDb`, `Playback.VolumeLinear`). The slider drives only the
  sampler's volume node: the fallback tone's envelope is connected straight to
  the output (`app/page.tsx:358`), so the volume does not affect it.
- Highlighting uses the Major/Minor display toggle. The scale type stored in
  `currentScale` is never read for membership (`Scales.StoredKindIgnored`).
- With the octave offset applied, a key keeps its unshifted octave label. The
  label then differs from the octave it plays by the offset
  (`Layout.ShiftedLabel`).

## Model

| member | source | states |
|---|---|---|
| `Keys.Template` | app/page.tsx:49-62 | The literal KEYS table; `Keys.TemplateIsOctaveTwo`, `Keys.TemplateWhitePositions` and `Keys.TemplateBlackCount` state what it holds. |
| `Keys.NoteNames` | app/page.tsx:112-125 | The twelve names C .. B; `Keys.KeyboardPitch` states that every generated key is named `NOTE_NAMES[midi mod 12]`. |
| `Keys.ShiftKey` | app/page.tsx:71-89 | A shifted key keeps its kind and name, takes the new octave, and moves 12 MIDI numbers per octave above 2; `Keys.ShiftTemplate` gives its slots. |
| `Keys.ShiftAll` | app/page.tsx:71-89 | KEYS.map keeps the length and each key's kind and puts every key in the new octave; `Keys.ShiftedTemplateIsBlock` says which octave of the layout it yields. |
| `Keys.GenerateKeys` | app/page.tsx:65-103 | The loop over octaves, pushing one shifted copy of KEYS per octave, then the trailing C, produces exactly the reference layout `Keyboard(octaves, startOctave)`. That layout is empty when octaves <= 0. |
| `Keys.TemplateIsOctaveTwo` | app/page.tsx:49-62 | The template KEYS is octave 2 of the reference layout: MIDI 36-47 with the standard white slots and black-key pairs. |
| `Keys.ShiftTemplate` | app/page.tsx:72-88 | Moving the j-th template key to octave s+k gives the key the reference layout puts at index 12k+j: MIDI +12 per octave, white slot and black pair +7 per octave. |
| `Keys.TemplateWhitePositions` | app/page.tsx:49-62 | The white keys of KEYS occupy slots 0..6, in order. |
| `Keys.TemplateBlackCount` | app/page.tsx:49-62 | KEYS holds five black keys. |
| `Keys.FiltersPartition` | app/page.tsx:127-133 | Every key is white or black: the white positions and the black count add up to the number of keys. |
| `Keys.ShiftedTemplateIsBlock` | app/page.tsx:72-88 | KEYS mapped to octave s+k is octave k of the reference layout. |
| `Keys.OctaveAppend` | app/page.tsx:69-91 | One loop iteration appends octave n of the reference layout to the n octaves built so far. |
| `Keys.KeyboardSplit` | app/page.tsx:93-101 | For n >= 1 the reference layout is its n full octaves followed by the closing key. |
| `Keys.TrailingKey` | app/page.tsx:93-101 | The closing white C pushed after the loop is the reference key at index 12n, in slot 7n. |
| `Keys.KeyboardCounts` | app/page.tsx:65-103 | For n >= 1 there are 12n+1 keys. In output order the white keys occupy slots 0, 1, ..., 7n, and there are 5n black keys. For n <= 0 the list is empty. |
| `Keys.BlackKeyAdjacency` | app/page.tsx:49-62 | Each black key is neither first nor last. Its pair is (p, p+1). The key just before it is the white key in slot p and the key just after it is the white key in slot p+1. |
| `Keys.BlackKeysReferWhiteSlots` | app/page.tsx:81-88 | Both slots a black key names are slots of white keys in the same output. |
| `Keys.KeyboardPitch` | app/page.tsx:72-100 | The i-th key has MIDI number 12(s+1)+i. Its name is `NOTE_NAMES[midi mod 12]` and its octave is `midi div 12 - 1`, the trailing C included. |
| `Keys.KeyboardMidiIncreasing` | app/page.tsx:76-100 | MIDI numbers increase strictly in output order, so they are unique. |
| `Layout.Classify` | app/page.tsx:182-195 | Every width falls in exactly one class. Below 640 is mobile, 640-1023 tablet, 1024-1279 laptop, 1280-1599 large, and 1600 or more desktop. |
| `Layout.GetScreenConfig` | app/page.tsx:204-258 | The classes get 1, 2, 3, 4 and 5 octaves. The start octave is between 2 and 4. Only mobile and tablet show octave controls. Black keys are narrower and shorter than white ones, and their width is even. |
| `Layout.KeyboardDimensions` | app/page.tsx:566-572 | The height is the white-key height and the width is at least one white key; `Layout.KeyboardWidthFitsKeys` ties the width to the generated keys. |
| `Layout.BlackKeyPosition` | app/page.tsx:545-550 | A white key gets 0; `Layout.BlackKeyPlacement` says where a black key goes. |
| `Layout.CurrentKeys` | app/page.tsx:553-564 | As many keys as generated, and the generated keys themselves when octave controls are hidden; `Layout.CurrentKeysOverlay` gives each shifted key. |
| `Layout.WiderShowsMore` | app/page.tsx:182-258 | A wider window never gets fewer octaves. |
| `Layout.KeyboardWidthFitsKeys` | app/page.tsx:566-572 | The keyboard width (7n+1)·whiteKeyWidth is the number of generated white keys times the white width, and the last white key ends at the right edge. |
| `Layout.BlackKeyPlacement` | app/page.tsx:545-550 | The left edge `p·ww + ww - bw/2` puts each black key's centre on the border between its two white keys, strictly inside the keyboard. |
| `Layout.CurrentKeysOverlay` | app/page.tsx:553-564 | With octave controls, each key's MIDI number moves by exactly 12·offset and its kind, name, octave, slot and pair stay the same. Without them the generated keys come back untouched. |
| `Layout.ShiftedLabel` | app/page.tsx:553-564 | After the overlay a key's octave label equals its MIDI octave minus the offset. |
| `Layout.CurrentKeysInMidiRange` | app/page.tsx:553-564 | For every screen class and every offset in [-2, 2], every key on screen has a MIDI number in 0..127. |
| `Scales.Intervals` | app/page.tsx:105-110 | Each SCALES entry has seven offsets. They start at 0, increase strictly and lie in 0..11. |
| `Scales.Rem12` | app/page.tsx:490 | JavaScript `m % 12`: the remainder has the sign of m, is below 12 in magnitude, and differs from m by a multiple of 12. |
| `Scales.ScaleNotes` | app/page.tsx:484-486 | Seven values, the root's pitch class (JavaScript `root % 12`) first; `Scales.ScaleNotesShape` adds distinctness. |
| `Scales.IsKeyInCurrentScale` | app/page.tsx:488-493 | False without a current scale; `Scales.ScaleMembership` gives the membership rule. |
| `Scales.IsRootNote` | app/page.tsx:495-498 | True only with a current scale whose root is the note's remainder modulo 12; `Scales.RootNoteIsInScale` relates it to membership. |
| `Scales.ScaleNotesShape` | app/page.tsx:484-486 | `getScaleNotes(root, k)` returns 7 distinct values with `root % 12` first. For root >= 0 they are pitch classes in [0, 12). |
| `Scales.ScaleExamples` | app/page.tsx:484-486 | C major is [0,2,4,5,7,9,11] and A natural minor is [9,11,0,2,4,5,7]. |
| `Scales.ScaleMembership` | app/page.tsx:488-493 | For a root in 0..11 and a note >= 0, the note is highlighted iff (note - root) mod 12 is an interval of the displayed scale. |
| `Scales.RootNoteIsInScale` | app/page.tsx:488-498 | `isRootNote(m)` implies `isKeyInCurrentScale(m)`. |
| `Scales.PitchClassOnly` | app/page.tsx:488-498 | Both predicates are false without a current scale. Both depend only on the note's remainder modulo 12. |
| `Scales.OctaveEquivalence` | app/page.tsx:488-498 | For a note >= 0, moving it by whole octaves does not change either predicate. |
| `Scales.StoredKindIgnored` | app/page.tsx:488-493 | Changing the scale type stored in currentScale changes neither predicate. |
| `Playback.Step` | app/page.tsx:286-309 | Creation sets the sampler reference, every other load event sets pianoLoaded, and neither flag is cleared. |
| `Playback.Run` | app/page.tsx:264-309 | A run of load events never clears a flag; `Playback.RunFlags` characterises both flags exactly. |
| `Playback.PlayCalls` | app/page.tsx:373-400 | Exactly one call, for that note, never a release; `Playback.PlayDispatch` says which backend. |
| `Playback.StopCalls` | app/page.tsx:403-412 | At most one call, a release of that note; `Playback.StopDispatch` says when. |
| `Playback.PlayDispatch` | app/page.tsx:373-400 | Each playNote makes exactly one library call, for that note. It reaches the sampler iff the reference is set, pianoLoaded holds and the sampler does not throw; otherwise it plays the fallback tone. |
| `Playback.StopDispatch` | app/page.tsx:403-412 | stopNote does nothing without a sampler. With one it releases that note, whether loaded or not. |
| `Playback.RunFlags` | app/page.tsx:264-309 | After any run of load events, pianoLoaded holds iff it held before or some event other than the sampler's creation occurred. The sampler reference is set iff it was set before or the sampler was created. So both flags only go from false to true. |
| `Playback.LoadedIsMonotone` | app/page.tsx:286-309 | Once pianoLoaded is set, it stays set. |
| `Playback.FallbackWhileLoading` | app/page.tsx:378-393 | Until onload, onerror or the init failure has happened, every note plays the fallback tone. |
| `Playback.SamplerAfterLoad` | app/page.tsx:286-289 | Once the sampler exists and onload has fired, every note that does not throw reaches the sampler, whatever events follow. |
| `Playback.SamplerAfterLoadError` | app/page.tsx:290-309 | In any history where onerror comes after the sampler's creation, whatever events follow, the state is (sampler set, loaded), so every note that does not throw reaches the sampler. |
| `Playback.FallbackForeverWithoutSampler` | app/page.tsx:298-302 | If the sampler was never created, every note plays the fallback tone and every note-off does nothing. |
| `Playback.VolumeDb` | app/page.tsx:324-330 | Slider 0 maps to -60 dB and 100 maps to 0 dB; values in between stay within -60..0 dB. |
| `Playback.VolumeLinear` | app/page.tsx:327 | In exact arithmetic the mapping is linear at 0.6 dB per slider step and strictly increasing. |
| `Piano.StepDown` | app/page.tsx:935-936 | Stepping down from inside [-2, 2] stays inside. Above -2 it subtracts one; at -2 it stays at -2. |
| `Piano.StepUp` | app/page.tsx:950-951 | Stepping up from inside [-2, 2] stays inside. Below 2 it adds one; at 2 it stays at 2. |
| `Piano.PressAll` | app/page.tsx:935-951 | From inside the bound on that side, k down presses give max(-2, o-k) and k up presses give min(2, o+k). |
| `Piano.OffsetStaysInRange` | app/page.tsx:935-951 | Any sequence of octave-button presses from an offset in [-2, 2] leaves it in [-2, 2]. |
| `Piano.VirtualPiano.CurrentKeys` | app/page.tsx:553-564 | The keys rendered for the component's screen class and offset all play MIDI notes in 0..127. |
| `Piano.VirtualPiano.InCurrentScale` | app/page.tsx:488-493 | For the component's state: nothing is highlighted without a current scale. With one whose root is non-negative (the class invariant keeps it at most 11) and a note >= 0, the note is highlighted iff (note - root) mod 12 is an interval of the displayed scale. |
| `Piano.VirtualPiano.constructor` | app/page.tsx:136-160 | Initial state: nothing pressed, no current scale, major selected and displayed, offset 0, desktop, no sampler, not loaded, no library calls. |
| `Piano.VirtualPiano.NoteOn` | app/page.tsx:414-424 | The pressed set becomes old ∪ {m}, so a re-press leaves it unchanged. currentScale becomes (m % 12, selected type). playNote's call is appended on every invocation. Nothing else changes. |
| `Piano.VirtualPiano.NoteOff` | app/page.tsx:427-440 | The pressed set becomes old minus {m}, a no-op if m was not held. currentScale is unchanged. stopNote's calls are appended on every invocation. Nothing else changes. |
| `Piano.VirtualPiano.OctaveDown` | app/page.tsx:935 | The offset becomes StepDown(old offset), which keeps the invariant -2 <= offset <= 2. |
| `Piano.VirtualPiano.OctaveUp` | app/page.tsx:950 | The offset becomes StepUp(old offset), which keeps the invariant. |
| `Piano.VirtualPiano.SelectScaleType` | app/page.tsx:771-774 | Only the selected scale type changes. Later note-ons store it. |
| `Piano.VirtualPiano.SelectDisplayScale` | app/page.tsx:724-746 | Only the Major/Minor display toggle changes. |
| `Piano.VirtualPiano.Resize` | app/page.tsx:182-195 | The screen class becomes the class of the new width. |
| `Piano.VirtualPiano.OnLoadEvent` | app/page.tsx:264-309 | The audio flags move by one load-event step and nothing else changes. |

## Left out

- The Tone.js audio graph (Sampler, Volume, Oscillator, AmplitudeEnvelope): it is a foreign library with floating-point frequencies. Play and stop are kept only as recorded calls. Whether a sampler call throws is a parameter of `NoteOn`.
- Conversion of MIDI numbers to the library's note names (`Tone.Frequency(...).toNote()`): adapter code inside the library.
- Teardown (`dispose` of the sampler and volume node) and the initial -10 dB of the volume node: resource handling with no state the page reads.
- WebMidi enabling, listener registration, device (dis)connection and the device-name list (`setupMIDIInputs`, `initMidi`): asynchronous library plumbing. The velocity scaling `Math.round(rawVelocity * 127 * 0.1)` is floating-point rounding. It is not modelled, and no velocity bound is claimed.
- The React wiring: useState/useEffect/useCallback, the resize listener registration and dependency arrays. Only the state transitions they produce are modelled.
- The mouse and touch handlers on each key: they call `handleNoteOn(key.midiNote, 100)` and `handleNoteOff(key.midiNote)`, which are modelled.
- `getKeyClassName`, all JSX, the hero screen, navigation, background and fonts: presentation only.
- `handleEnterExperience` and `startAudio`: a timed UI transition and an audio-context start.
- Numbers: JavaScript numbers are modelled as unbounded integers. Breakpoints, MIDI numbers, offsets and pixel sizes are all small integers here. Pixel offsets use `real` and are exact: the widths are integers and every black width is even. The dB value and the normalised velocity `velocity / 127` passed to the sampler are modelled as exact reals. JavaScript computes their binary64 roundings instead, so the 0.6 dB step of `Playback.VolumeLinear` holds only in exact arithmetic. Both endpoints of the dB mapping (0 to -60, 100 to 0) are exact in JavaScript too.
- `Scales.ScaleNotesShape`: the range [0, 12) is stated only for a non-negative root, because JavaScript's `%` gives non-positive remainders below zero. Distinctness holds for every root.
- `Scales.ScaleMembership`: stated for notes >= 0 and roots in 0..11, the values MIDI input and the generated keys produce.
