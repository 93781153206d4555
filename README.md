# Tone generator: keyboard table, key-state query, audio fill loop and key scan

This project models the sequential core of a small real-time tone generator. The
program opens an SDL audio device and plays a waveform. It polls an X11 keyboard,
and 16 scanned keys choose the note that is played. Esc ends the program.

- `utils.dfy`, module `Utils` (from `utils.cc`):
  - the `switch` that maps the repository's logical keys to X11 keysyms, with 0 for
    keys it does not name;
  - an independently written inverse table, used to prove that the map is injective;
  - the character each Latin-1 key stands for, used to prove that letter, digit and
    punctuation keys are queried under their characters' codes;
  - `is_key_press_by_vk`, which finds the keysym's keycode and tests bit `keycode % 8`
    of byte `keycode / 8` of the 32-byte keymap snapshot;
  - `is_key_press_by_keycode`, the query for a logical key;
  - the snapshot read as the set of held keycodes, with both round trips between the
    set and XQueryKeymap's byte layout (bit `b` of byte `j` is keycode `8j + b`).
- `sound_synthesizer.dfy`, module `Synthesizer` (from `sound_synthesizer.cc`):
  - class `NoiseMaker` with the four fields the source keeps (the waveform, the clock,
    the sample rate and the amplitude), plus `paused`, which stands for the SDL
    device's pause state (an SDL device opens paused);
  - its constructor, `Make`, `setUserCallback`, `play`, `pause` and the audio callback;
  - `Render`, the specification of the samples that one callback writes;
  - the 16-step key scan of `main`, the polling loop that ends on Esc, and `main`'s
    making and running of the engine.
- `wrappers.dfy`: the `Option` datatype.

How the model represents the source:

- The clock `m_globalTime` is a `double` that grows by `1/sampleRate` per sample. Here
  it is an exact tick count `ticks`, and the time is `ticks / sampleRate` seconds as a
  real.
- The waveform is any function from time to a value.
- The `(Sint16)` cast is truncation toward zero (`Truncate`).
- XKeysymToKeycode is a function parameter `keycodeOf`: the server's keyboard mapping.
- Each XQueryKeymap call is the 32-byte snapshot it would fill. Every query in the scan
  gets its own snapshot, and a keysym without a keycode never reads it.
- The shared `g_frecuency` is the datatype `Frequency`. Its values are the 400 Hz
  start-up value, silence (0 Hz), or `Semitone(k)`, which stands for 440 Hz raised by
  `k` semitones.

Facts about the code that the model keeps:

- The sample is truncated toward zero and is not clipped.
- `main` opens the device at 44010 Hz with amplitude 28000 (`RunProgram`).
- When several keys are held, the highest scanned index wins.
- The scan string `"ZSXCFVGBNJMK,l."` has 15 characters, so step 16 reads its NUL
  terminator and queries keysym 0. `ScanChars` spells that byte out.
- The scan passes raw characters as keysyms. Its twelve upper-case letters are the
  keysyms XK_Z, XK_S, and so on, which the key table never produces (it sends kKeyZ
  to XK_z). Whether they read pressed depends only on the server's keyboard mapping
  giving those keysyms a keycode, which the model leaves to `keycodeOf`. Only `,`,
  `l` and `.` are keysyms of keys the table names (`ScanKeysymsAgainstTable`).

## Model

| member | source | states |
|---|---|---|
| Utils.KeysymOf | utils.cc:27-241 | a key maps to keysym 0 exactly when the switch does not name it; every listed key is found again from its keysym by the independent inverse table; a key that stands for a character is queried under that character's code, and every other listed key under a keysym of 0xFF00 or more |
| Utils.EditingKeysym | utils.cc:29-66 | Backspace to Num Lock: a key this group names gets a keysym on the 0xFF00 page that the inverse table maps back to it, and the key types no character |
| Utils.KeypadKeysym | utils.cc:67-100 | the keypad keys get keysyms on the 0xFF00 page that the inverse table maps back to them |
| Utils.FunctionKeysym | utils.cc:101-124 | F1 to F12 get keysyms on the 0xFF00 page that the inverse table maps back to them |
| Utils.ModifierKeysym | utils.cc:125-142 | the modifier keys get keysyms on the 0xFF00 page that the inverse table maps back to them |
| Utils.PunctuationKeysym | utils.cc:143-186 | space, punctuation and digit keys get the code of their character, which the inverse table maps back to them |
| Utils.LetterKeysym | utils.cc:187-238 | the letter keys get the code of their lower-case letter, which the inverse table maps back to them |
| Utils.KeysymInjective | utils.cc:28-239 | no two listed logical keys share a keysym |
| Utils.KeyOfSymbolKeysym | utils.cc:155-174 | every digit's ASCII code is the keysym of a key that stands for that digit |
| Utils.KeyOfLetterKeysym | utils.cc:187-238 | every lower-case letter's ASCII code is the keysym of a key that stands for that letter |
| Utils.LetterAndDigitKeysymsAreAscii | utils.cc:155-174 | for a lower-case letter or digit, the key filed under its ASCII code is queried under that code, so querying the raw character reads exactly as querying the key |
| Utils.IsKeyPressByVk | utils.cc:247-256 | false whenever the keysym has no keycode, whatever the snapshot holds (the byte index keycode/8 < 32 is checked in bounds) |
| Utils.IsKeyPressByVkIsHeld | utils.cc:252-255 | for a keysym with a keycode, the query is true exactly when the keycode is among the snapshot's held keycodes |
| Utils.IsKeyPressByKeycode | utils.cc:243-245 | a logical key the table does not name is queried as keysym 0, and so reads released when keysym 0 has no keycode |
| Utils.PackByteBit | utils.cc:255 | bit b of a byte packed in XQueryKeymap's layout is set exactly when keycode base + b is held |
| Utils.KeyBitAt | utils.cc:255 | the query's bit test on keycode 8j + b reads bit b of byte j |
| Utils.KeymapOfHeld | utils.cc:252-255 | encoding a set of held keycodes in XQueryKeymap's layout and reading back every keycode's bit gives the same set |
| Utils.PackHeldByte | utils.cc:252-255 | re-encoding the held keycodes of a snapshot gives back each of its bytes |
| Utils.KeymapOfHeldKeycodes | utils.cc:252-255 | every 32-byte snapshot is the encoding of the keycodes its bits report as held |
| Utils.IsKeyPressByVkHeld | utils.cc:247-256 | on the snapshot of a set of held keycodes, the query is true exactly when the keysym has a keycode and that keycode is held |
| Synthesizer.Truncate | sound_synthesizer.cc:71 | the cast gives the integer next to the value on the side of zero, less than 1 away |
| Synthesizer.SampleAt | sound_synthesizer.cc:70-73 | without a waveform the sample is 0 |
| Synthesizer.ScaledWithinAmplitude | sound_synthesizer.cc:71 | a waveform value within [-1, 1], scaled by the amplitude and cast, is no larger in magnitude than the amplitude |
| Synthesizer.SampleWithinAmplitude | sound_synthesizer.cc:71 | a waveform value within [-1, 1] gives a sample no larger in magnitude than the amplitude, so with amplitude 28000 the cast to Sint16 stays in range |
| Synthesizer.Render | sound_synthesizer.cc:67-74 | n samples are produced, and sample i is generated at tick start + i + 1, because the clock advances before each sample |
| Synthesizer.RenderContinuous | sound_synthesizer.cc:67-69 | m samples followed by n more from where the clock stopped equal m + n samples in one go: time is continuous across buffers |
| Synthesizer.RenderSilent | sound_synthesizer.cc:70-73 | with no waveform installed every sample is 0 |
| Synthesizer.NoiseMaker.constructor | sound_synthesizer.cc:57-61 | a new engine has clock 0, no waveform, the given sample rate and amplitude, and is paused |
| Synthesizer.NoiseMaker.Make | sound_synthesizer.cc:39-55 | an engine is returned exactly when the device opens with a mono S16 stream at the sample rate and 2048-frame buffers; it is new, with clock 0 and no waveform |
| Synthesizer.NoiseMaker.SetUserCallback | sound_synthesizer.cc:37 | the waveform becomes the given one (last write wins) and nothing else changes |
| Synthesizer.NoiseMaker.Play | sound_synthesizer.cc:33-35 | the device is unpaused and nothing else changes |
| Synthesizer.NoiseMaker.Pause | sound_synthesizer.cc:30-32 | the device is paused and nothing else changes |
| Synthesizer.NoiseMaker.AudioCallback | sound_synthesizer.cc:63-75 | the clock advances by exactly len / 2; slots 0..len/2-1 hold Render from the old clock; every later slot, including the one holding an odd trailing byte, is unchanged |
| Synthesizer.ScanKeysym | sound_synthesizer.cc:115 | the scan queries keysym 0 at step 15 (the NUL terminator) and only there |
| Synthesizer.HighestPressed | sound_synthesizer.cc:114-119 | the result is a pressed index with no pressed index above it, and it is absent exactly when nothing is pressed |
| Synthesizer.ScanKeys | sound_synthesizer.cc:113-122 | step k of the scan asks the key-state query about the k-th scan character on its own snapshot; after one pass the frequency is the semitone of the highest pressed index, or silence if none is pressed, whatever it was before |
| Synthesizer.ScanKeysymsAgainstTable | sound_synthesizer.cc:115 | steps 0-11 (upper-case letters) and 15 (NUL) query keysyms that no key of the table has; steps 12-14 query the keysyms of kKeyComma, kKeyL and kKeyStop |
| Synthesizer.SelectionIsHighestPressed | sound_synthesizer.cc:113-122 | the scan's result is silence or a semitone below 16 that reads pressed, with every higher step released; it is silence exactly when all 16 steps read released; step 15 cannot win while keysym 0 has no keycode |
| Synthesizer.EscPressedIsEscQuery | sound_synthesizer.cc:112 | the loop's Esc test is the key-state query for kKeyEsc, which the table sends to XK_Escape |
| Synthesizer.ScanUntilEsc | sound_synthesizer.cc:112-123 | the loop scans only while Esc reads released and stops at the first poll where it reads pressed; the frequency is the last scan's selection, or the one it started with if no scan ran |
| Synthesizer.RunEngine | sound_synthesizer.cc:106-124 | the waveform is installed; afterwards the device is paused exactly when Esc was seen, otherwise playing, and the frequency is the last scan's selection |
| Synthesizer.MainSamplesFitSint16 | sound_synthesizer.cc:71 | with main's amplitude 28000, a waveform value within [-1, 1] gives a sample inside the Sint16 range |
| Synthesizer.RunProgram | sound_synthesizer.cc:100-126 | an engine exists exactly when the device opens at 44010 Hz (mono S16, 2048 frames); without it nothing is polled and the frequency stays at its start-up value; with it the engine has amplitude 28000 and the waveform installed, is paused exactly when Esc was seen, and the frequency is the last scan's selection |

## Left out

- `utils::initialize` and `utils::deinitialize` (utils.cc:12-25), and the `UtilsSystem`
  wrapper, are left out: they only open and close the X display through foreign calls.
  XKeysymToKeycode and XQueryKeymap are parameters instead.
- utils.hpp is not part of this model, so the enum's numeric values are unknown. The
  `Unlisted` constructor stands for every KeyCode value that no case names.
- IsKeyPressByVk: the snapshot is an input, so "XQueryKeymap is not called" is stated as
  "the result does not depend on the snapshot".
- The byte layout of the stream is not modelled. `AudioCallback` sees the stream as
  Sint16 slots of type `int`, so host byte order is left out.
- AudioCallback requires `0 <= len`. SDL never passes a negative length. The source
  would convert a negative length to a huge unsigned count.
- Truncate: when the cast's value is outside the Sint16 range, C++ behaviour is
  undefined. The model keeps the truncated integer. `SampleWithinAmplitude` gives the
  conditions under which the value is in range.
- Floating point is left out:
  - `make_noise` with `sin` and `PI = 3.14159`;
  - `pow(2, 1/12)` and the 440 Hz frequency formula;
  - the rounding error that builds up in the `double` clock;
  - the rounding of the product `m_callback(t) * m_amplitude` before the `(Sint16)`
    cast, which at an integer boundary can move the sample by one.
  The model uses exact ticks, a semitone index and an abstract waveform instead.
- Rate: a sample rate of 0 is excluded. In the source it would give an infinite time
  step.
- SDL is left out:
  - `SDL_Init`, `SDL_PauseAudio` and `SDL_CloseAudio` in the destructor;
  - the userdata and callback fields of the audio spec;
  - the `NoiseMaker` that `Make` leaks when the device does not open.
  The device open is the parameter `openAudio`. The pause state is the field `paused`.
- The unsynchronised sharing of `g_frecuency` between the audio thread and the polling
  loop is concurrency and is not modelled. The waveform is a fixed function, so changes
  of frequency do not reach the samples.
- RunEngine, RunProgram: SDL calls the audio callback on its own thread while the
  polling loop runs, and each call advances the clock. The model does not interleave
  those calls with the polls, so the clock stays where it was during the run (0 in
  `RunProgram`). `AudioCallback` covers each call on its own.
- ScanUntilEsc: the keyboard is a finite sequence of polls. If the sequence ends before Esc
  reads pressed, the loop stops and RunEngine does not pause. The real program would keep polling.
- ScanUntilEsc, RunEngine: `keycodeOf` is one function for the whole run, so the
  server's keyboard mapping is held fixed. Xlib would pick up a mapping change.
- Process exit codes, the failure of `utilsSys.initialize()` in `main` and the stderr diagnostics
  are left out.
