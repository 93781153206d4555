/**
 * The tone engine (class NoiseMaker) and the driver loop of the tone generator.
 *
 * The engine's clock is a double that grows by 1/sampleRate per sample; here it is
 * the exact tick count `ticks`, the time being ticks / sampleRate seconds. The
 * waveform is any function from time to a value, and the sample written is that
 * value times the amplitude, truncated toward zero as C++ converts a double to
 * an integer. SDL itself is not modelled: the device open is a parameter and the
 * device's pause flag is a field of the engine.
 */
module Synthesizer {
  import opened Wrappers
  import opened Utils

  /** A sample rate in Hz; the time step is its inverse, so it is not zero. */
  type Rate = n: nat | n > 0 witness 1

  /** A waveform: time in seconds to a value, nominally in [-1, 1]. */
  type Waveform = real -> real

  /** C++'s conversion of a double to an integer type: truncation toward zero. */
  function Truncate(x: real): (r: int)
    ensures 0.0 <= x ==> r as real <= x < r as real + 1.0
    ensures x < 0.0 ==> r as real - 1.0 < x <= r as real
  {
    if x >= 0.0 then x.Floor else -((-x).Floor)
  }

  /** A waveform value scaled by the amplitude and cast to Sint16, as the callback writes it. */
  function Scaled(value: real, amplitude: nat): int
  {
    Truncate(value * amplitude as real)
  }

  /** The time, in seconds, of clock tick `tick`. */
  function TimeAt(tick: nat, rate: Rate): real
  {
    tick as real / rate as real
  }

  /** The value written for the sample generated at clock tick `tick`. */
  function SampleAt(wave: Option<Waveform>, amplitude: nat, rate: Rate, tick: nat): (s: int)
    ensures wave.None? ==> s == 0
  {
    match wave
    case None => 0
    case Some(f) => Scaled(f(TimeAt(tick, rate)), amplitude)
  }

  /** Scaling a value in [-1, 1] by a non-negative factor keeps it within that factor. */
  lemma ScaledWithin(v: real, a: real)
    requires -1.0 <= v <= 1.0 && 0.0 <= a
    ensures -a <= v * a <= a
  {
    if v >= 0.0 {
      assert v * a <= 1.0 * a;
    } else {
      assert (-v) * a <= 1.0 * a;
    }
  }

  /** The same bound with the amplitude given as an unsigned integer. */
  lemma ScaledBound(value: real, amplitude: nat)
    requires -1.0 <= value <= 1.0
    ensures -(amplitude as real) <= value * amplitude as real <= amplitude as real
  {
    ScaledWithin(value, amplitude as real);
  }

  /** Truncating a value within [-n, n] gives an integer within [-n, n]. */
  lemma TruncateWithin(x: real, n: nat)
    requires -(n as real) <= x <= n as real
    ensures -(n as int) <= Truncate(x) <= n
  {
  }

  /** A value in [-1, 1] scaled by the amplitude stays within [-amplitude, amplitude]. */
  lemma ScaledWithinAmplitude(value: real, amplitude: nat)
    requires -1.0 <= value <= 1.0
    ensures -(amplitude as int) <= Scaled(value, amplitude) <= amplitude
  {
    ScaledBound(value, amplitude);
    TruncateWithin(value * amplitude as real, amplitude);
  }

  /**
   * A waveform within [-1, 1] gives a sample of at most the amplitude in magnitude,
   * so with an amplitude of at most 32767 the cast to Sint16 stays in range.
   */
  lemma SampleWithinAmplitude(wave: Option<Waveform>, amplitude: nat, rate: Rate, tick: nat)
    requires wave.Some? ==> -1.0 <= wave.value(TimeAt(tick, rate)) <= 1.0
    ensures -(amplitude as int) <= SampleAt(wave, amplitude, rate, tick) <= amplitude
  {
    if wave.Some? {
      ScaledWithinAmplitude(wave.value(TimeAt(tick, rate)), amplitude);
    }
  }

  /**
   * The `n` samples generated after clock tick `start`: the i-th of them at tick
   * start + i + 1, the clock being advanced before each sample is computed.
   */
  function Render(wave: Option<Waveform>, amplitude: nat, rate: Rate, start: nat, n: nat): (s: seq<int>)
    ensures |s| == n
    ensures forall i :: 0 <= i < n ==> s[i] == SampleAt(wave, amplitude, rate, start + i + 1)
  {
    if n == 0 then []
    else Render(wave, amplitude, rate, start, n - 1) + [SampleAt(wave, amplitude, rate, start + n)]
  }

  /**
   * Time is continuous across buffers: m samples followed by n more, the second
   * batch starting where the clock stopped, are the m + n samples of one batch.
   */
  lemma {:induction false} RenderContinuous(wave: Option<Waveform>, amplitude: nat, rate: Rate, start: nat, m: nat, n: nat)
    ensures Render(wave, amplitude, rate, start, m) + Render(wave, amplitude, rate, start + m, n)
         == Render(wave, amplitude, rate, start, m + n)
  {
    if n > 0 {
      RenderContinuous(wave, amplitude, rate, start, m, n - 1);
    }
  }

  /** Without a waveform every sample is silence. */
  lemma RenderSilent(amplitude: nat, rate: Rate, start: nat, n: nat)
    ensures Render(None, amplitude, rate, start, n) == seq(n, _ => 0)
  {
  }

  /** The audio format SDL is asked for: signed 16-bit samples in host byte order. */
  datatype AudioFormat = S16Sys

  /** The fields of SDL_AudioSpec that NoiseMaker::Make fills in. */
  datatype AudioSpec = AudioSpec(freq: nat, format: AudioFormat, channels: nat, samples: nat)

  /** The audio engine: a waveform, a clock, a sample rate and an amplitude. */
  class NoiseMaker {
    var callback: Option<Waveform>
    /** The number of samples generated so far; the clock reads ticks / sampleRate seconds. */
    var ticks: nat
    const sampleRate: Rate
    const amplitude: nat
    /**
     * The audio device's pause state. The constructor opens no device; the flag starts
     * true because the device Make opens afterwards starts out paused.
     */
    var paused: bool

    /** A new engine: clock at zero and no waveform installed. */
    constructor (sampleRate: Rate, amplitude: nat)
      ensures this.sampleRate == sampleRate && this.amplitude == amplitude
      ensures ticks == 0 && callback == None && paused
    {
      this.sampleRate := sampleRate;
      this.amplitude := amplitude;
      ticks := 0;
      callback := None;
      paused := true;
    }

    /**
     * NoiseMaker::Make: asks SDL (`openAudio`) for a mono S16 stream at the sample
     * rate with 2048-frame buffers; no engine when the device does not open.
     */
    static method Make(sampleRate: Rate, amplitude: nat, openAudio: AudioSpec -> bool)
      returns (engine: Option<NoiseMaker>)
      ensures engine.Some? <==> openAudio(AudioSpec(sampleRate, S16Sys, 1, 2048))
      ensures engine.Some? ==> fresh(engine.value)
      ensures engine.Some? ==> engine.value.sampleRate == sampleRate && engine.value.amplitude == amplitude
      ensures engine.Some? ==> engine.value.ticks == 0 && engine.value.callback == None && engine.value.paused
    {
      var noiseMaker := new NoiseMaker(sampleRate, amplitude);
      var spec := AudioSpec(sampleRate, S16Sys, 1, 2048);
      if !openAudio(spec) {
        return None;
      }
      return Some(noiseMaker);
    }

    /** The engine's clock in seconds. */
    function GlobalTime(): real
      reads this
    {
      TimeAt(ticks, sampleRate)
    }

    /** Installs (or, with None, removes) the waveform; nothing else changes. */
    method SetUserCallback(cb: Option<Waveform>)
      modifies this`callback
      ensures callback == cb
    {
      callback := cb;
    }

    /** Resumes delivery of audio callbacks. */
    method Play()
      modifies this`paused
      ensures !paused
    {
      paused := false;
    }

    /** Stops delivery of audio callbacks. */
    method Pause()
      modifies this`paused
      ensures paused
    {
      paused := true;
    }

    /**
     * The audio callback: fills the first len / 2 Sint16 slots of the stream, one
     * clock tick per slot, and leaves the rest (with an odd len, the slot holding
     * the last byte) as it was.
     */
    method AudioCallback(buf: array<int>, len: int)
      requires 0 <= len <= 2 * buf.Length
      modifies this`ticks, buf
      ensures ticks == old(ticks) + len / 2
      ensures buf[..len / 2] == Render(callback, amplitude, sampleRate, old(ticks), len / 2)
      ensures buf[len / 2..] == old(buf[len / 2..])
    {
      var i := 0;
      while i < len / 2
        invariant 0 <= i <= len / 2
        invariant ticks == old(ticks) + i
        invariant forall j :: 0 <= j < i ==> buf[j] == SampleAt(callback, amplitude, sampleRate, old(ticks) + j + 1)
        invariant forall j :: i <= j < buf.Length ==> buf[j] == old(buf[j])
      {
        ticks := ticks + 1;
        if callback.Some? {
          buf[i] := Scaled(callback.value(GlobalTime()), amplitude);
        } else {
          buf[i] := 0;
        }
        i := i + 1;
      }
    }
  }

  // ---------------------------------------------------------------------------
  // The driver loop

  /**
   * The shared frequency g_frecuency: the 400 Hz it starts with, silence (0 Hz),
   * or 440 Hz raised by `k` semitones.
   */
  datatype Frequency = StartUp | Silence | Semitone(k: nat)

  /**
   * The characters the scan hands to the key-state query, as laid out in memory:
   * the 15 characters of the string literal and its NUL terminator, which the
   * scan's 16th step reads.
   */
  const ScanChars: string := "ZSXCFVGBNJMK,l.\0"

  /** The keysym queried at step `k` of the scan. */
  function ScanKeysym(k: nat): (vk: nat)
    requires k < 16
    ensures k == 15 <==> vk == 0
  {
    ScanChars[k] as nat
  }

  /**
   * How the scanned keysyms relate to the key table: the twelve upper-case letters
   * are keysyms XK_Z, XK_S, ... that the table gives no key (it uses the lower-case
   * keysyms), the NUL step is keysym 0, and only ',', 'l' and '.' are keysyms of
   * keys the table names.
   */
  lemma ScanKeysymsAgainstTable(k: nat)
    requires k < 16
    ensures k < 12 || k == 15 ==> KeyOfKeysym(ScanKeysym(k)).None?
    ensures k == 12 ==> KeyOfKeysym(ScanKeysym(k)) == Some(KeyComma)
    ensures k == 13 ==> KeyOfKeysym(ScanKeysym(k)) == Some(KeyL)
    ensures k == 14 ==> KeyOfKeysym(ScanKeysym(k)) == Some(KeyStop)
  {
  }

  /** The snapshots taken by the 16 queries of one scan, one each. */
  type ScanSnapshots = s: seq<Keymap> | |s| == 16 witness seq(16, _ => seq(32, _ => 0 as bv8))

  /** The answers of the 16 queries of one scan. */
  function ScanAnswers(keycodeOf: nat -> KeyCode, snapshots: ScanSnapshots): (answers: seq<bool>)
    ensures |answers| == 16
    ensures forall k :: 0 <= k < 16 ==> answers[k] == IsKeyPressByVk(ScanKeysym(k), keycodeOf, snapshots[k])
  {
    seq(16, k requires 0 <= k < 16 => IsKeyPressByVk(ScanKeysym(k), keycodeOf, snapshots[k]))
  }

  /** The highest index whose answer is true, if any. */
  function HighestPressed(answers: seq<bool>): (r: Option<nat>)
    ensures r.Some? ==> r.value < |answers| && answers[r.value]
    ensures r.Some? ==> forall j :: r.value < j < |answers| ==> !answers[j]
    ensures r.None? <==> forall j :: 0 <= j < |answers| ==> !answers[j]
  {
    if |answers| == 0 then None
    else if answers[|answers| - 1] then Some(|answers| - 1)
    else HighestPressed(answers[..|answers| - 1])
  }

  /** The frequency one scan leaves behind. */
  function Selection(answers: seq<bool>): Frequency
  {
    match HighestPressed(answers)
    case Some(k) => Semitone(k)
    case None => Silence
  }

  /**
   * One pass of the key scan: every pressed key overwrites the frequency, so the
   * highest pressed index wins; when none is pressed the frequency becomes 0.
   * The frequency held before the scan never survives it.
   */
  method ScanKeys(freq: Frequency, keycodeOf: nat -> KeyCode, snapshots: ScanSnapshots)
    returns (newFreq: Frequency)
    ensures newFreq == Selection(ScanAnswers(keycodeOf, snapshots))
  {
    ghost var answers := ScanAnswers(keycodeOf, snapshots);
    newFreq := freq;
    var isKeyPressed := false;
    for k := 0 to 16
      invariant isKeyPressed <==> HighestPressed(answers[..k]).Some?
      invariant isKeyPressed ==> newFreq == Semitone(HighestPressed(answers[..k]).value)
    {
      assert answers[..k + 1][..k] == answers[..k];
      if IsKeyPressByVk(ScanKeysym(k), keycodeOf, snapshots[k]) {
        newFreq := Semitone(k);
        isKeyPressed := true;
      }
    }
    assert answers[..16] == answers;
    if !isKeyPressed {
      newFreq := Silence;
    }
  }

  /**
   * The scan selects the highest pressed index, or silence when none is pressed;
   * the 16th step, which queries keysym 0, can only win while keysym 0 has a keycode.
   */
  lemma SelectionIsHighestPressed(keycodeOf: nat -> KeyCode, snapshots: ScanSnapshots)
    ensures var sel := Selection(ScanAnswers(keycodeOf, snapshots));
      && (sel.Silence? || sel.Semitone?)
      && (sel.Semitone? ==> sel.k < 16 && IsKeyPressByVk(ScanKeysym(sel.k), keycodeOf, snapshots[sel.k]))
      && (sel.Semitone? ==> forall j :: sel.k < j < 16 ==> !IsKeyPressByVk(ScanKeysym(j), keycodeOf, snapshots[j]))
      && (sel.Silence? <==> forall j :: 0 <= j < 16 ==> !IsKeyPressByVk(ScanKeysym(j), keycodeOf, snapshots[j]))
      && (keycodeOf(0) == NoSymbol ==> sel != Semitone(15))
  {
  }

  /** The snapshots taken by one iteration of the polling loop: the Esc query, then the scan. */
  datatype Poll = Poll(esc: Keymap, scan: ScanSnapshots)

  /** XK_Escape, the keysym the table gives kKeyEsc (EscPressedIsEscQuery ties the two). */
  const EscapeKeysym: nat := 0xFF1B

  /** Whether the Esc query of a poll reports the key pressed. */
  predicate EscPressed(keycodeOf: nat -> KeyCode, poll: Poll)
  {
    IsKeyPressByVk(EscapeKeysym, keycodeOf, poll.esc)
  }

  /** The Esc query is is_key_press_by_keycode(kKeyEsc): the table sends it to XK_Escape. */
  lemma EscPressedIsEscQuery(keycodeOf: nat -> KeyCode, poll: Poll)
    ensures EscPressed(keycodeOf, poll) == IsKeyPressByKeycode(KeyEsc, keycodeOf, poll.esc)
  {
  }

  /**
   * The polling loop of main, run over the polls the keyboard delivers: it scans
   * while the Esc query reports released, and stops at the first poll whose Esc
   * query reports pressed (`exited`). If the polls run out first, it stops there.
   */
  method ScanUntilEsc(keycodeOf: nat -> KeyCode, polls: seq<Poll>, freq: Frequency)
    returns (exited: bool, iterations: nat, newFreq: Frequency)
    ensures iterations <= |polls|
    ensures forall i :: 0 <= i < iterations ==> !EscPressed(keycodeOf, polls[i])
    ensures exited <==> iterations < |polls|
    ensures exited ==> EscPressed(keycodeOf, polls[iterations])
    ensures newFreq == if iterations == 0 then freq else Selection(ScanAnswers(keycodeOf, polls[iterations - 1].scan))
  {
    iterations := 0;
    newFreq := freq;
    while iterations < |polls| && !EscPressed(keycodeOf, polls[iterations])
      invariant iterations <= |polls|
      invariant forall i :: 0 <= i < iterations ==> !EscPressed(keycodeOf, polls[i])
      invariant newFreq == if iterations == 0 then freq else Selection(ScanAnswers(keycodeOf, polls[iterations - 1].scan))
    {
      var i := iterations;
      newFreq := ScanKeys(newFreq, keycodeOf, polls[i].scan);
      iterations := i + 1;
      assert polls[iterations - 1] == polls[i];
    }
    exited := iterations < |polls|;
  }

  /**
   * main once the engine exists: installs the waveform, starts playback and polls
   * the keyboard until Esc, then pauses. The audio callbacks SDL makes while the
   * device plays are not interleaved with the polls, so the clock does not move here.
   */
  method RunEngine(engine: NoiseMaker, makeNoise: Waveform, keycodeOf: nat -> KeyCode, polls: seq<Poll>)
    returns (exited: bool, iterations: nat, freq: Frequency)
    modifies engine`callback, engine`paused
    ensures engine.callback == Some(makeNoise)
    ensures iterations <= |polls|
    ensures forall i :: 0 <= i < iterations ==> !EscPressed(keycodeOf, polls[i])
    ensures exited <==> iterations < |polls|
    ensures exited ==> EscPressed(keycodeOf, polls[iterations])
    ensures engine.paused <==> exited
    ensures freq == if iterations == 0 then StartUp else Selection(ScanAnswers(keycodeOf, polls[iterations - 1].scan))
  {
    engine.SetUserCallback(Some(makeNoise));
    engine.Play();
    exited, iterations, freq := ScanUntilEsc(keycodeOf, polls, StartUp);
    if exited {
      engine.Pause();
    }
  }

  /** The sample rate main opens the device at. */
  const MainSampleRate: Rate := 44010

  /** The amplitude main gives the engine. */
  const MainAmplitude: nat := 28000

  /** With main's amplitude, a waveform within [-1, 1] gives samples that fit in Sint16. */
  lemma MainSamplesFitSint16(wave: Option<Waveform>, tick: nat)
    requires wave.Some? ==> -1.0 <= wave.value(TimeAt(tick, MainSampleRate)) <= 1.0
    ensures -0x8000 <= SampleAt(wave, MainAmplitude, MainSampleRate, tick) < 0x8000
  {
    SampleWithinAmplitude(wave, MainAmplitude, MainSampleRate, tick);
  }

  /**
   * main after the keyboard connection is up: makes the engine at 44010 Hz with
   * amplitude 28000, gives up if the device does not open, and otherwise runs it.
   */
  method RunProgram(makeNoise: Waveform, openAudio: AudioSpec -> bool, keycodeOf: nat -> KeyCode, polls: seq<Poll>)
    returns (engine: Option<NoiseMaker>, exited: bool, iterations: nat, freq: Frequency)
    ensures engine.Some? <==> openAudio(AudioSpec(MainSampleRate, S16Sys, 1, 2048))
    ensures engine.None? ==> !exited && iterations == 0 && freq == StartUp
    ensures engine.Some? ==> fresh(engine.value)
    ensures engine.Some? ==> engine.value.sampleRate == MainSampleRate && engine.value.amplitude == MainAmplitude
    ensures engine.Some? ==> engine.value.ticks == 0 && engine.value.callback == Some(makeNoise)
    ensures engine.Some? ==> (engine.value.paused <==> exited)
    ensures iterations <= |polls|
    ensures forall i :: 0 <= i < iterations ==> !EscPressed(keycodeOf, polls[i])
    ensures engine.Some? ==> (exited <==> iterations < |polls|)
    ensures exited ==> EscPressed(keycodeOf, polls[iterations])
    ensures freq == if iterations == 0 then StartUp else Selection(ScanAnswers(keycodeOf, polls[iterations - 1].scan))
  {
    engine := NoiseMaker.Make(MainSampleRate, MainAmplitude, openAudio);
    if engine.None? {
      return None, false, 0, StartUp;
    }
    exited, iterations, freq := RunEngine(engine.value, makeNoise, keycodeOf, polls);
  }
}
