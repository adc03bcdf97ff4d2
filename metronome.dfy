/**
 * The `Metronome` component (src/components/Metronome.jsx): a tempo in beats
 * per minute, a running flag, a beat counter and the number of beats per
 * measure. Each click plays the accent sound on the first beat of a measure
 * and advances the counter modulo the measure.
 *
 * The handlers are methods of the class `Metronome`, each leaving the state as
 * it is once React has applied the updates the handler queued. A click returns
 * whether the accent sound is played; the sounds themselves and the interval
 * timer are not part of the model. Text fields arrive parsed: `None` stands for
 * the NaN that `parseInt` gives on text that is not a number.
 */
module Metronome {
  import opened Wrappers
  import opened JsText

  const InitialBpm: int := 100
  const InitialBeatsPerMeasure: int := 4
  const MinBpm: int := 40
  const MaxBpm: int := 240
  const MinBeats: int := 2
  const MaxBeats: int := 12
  const BpmStep: int := 5

  // ---------------------------------------------------------------------------
  // The counter

  /** `count % beatsPerMeasure === 0`: the click on this count is the accented one. */
  function IsAccent(count: int, beatsPerMeasure: int): (r: bool)
    requires beatsPerMeasure > 0
    ensures r <==> count % beatsPerMeasure == 0
  {
    RemainderZeroNegated(count, beatsPerMeasure);
    JsRemainder(count, beatsPerMeasure) == 0
  }

  /** `(prevCount + 1) % beatsPerMeasure`: the counter after a click. */
  function NextCount(count: int, beatsPerMeasure: int): (r: int)
    requires 0 <= count < beatsPerMeasure
    ensures 0 <= r < beatsPerMeasure
    ensures r == 0 <==> count == beatsPerMeasure - 1
    ensures r != 0 ==> r == count + 1
  {
    JsRemainder(count + 1, beatsPerMeasure)
  }

  /** The counter after `clicks` clicks from the start of a measure. */
  function CountAfter(clicks: nat, beatsPerMeasure: int): (r: int)
    requires beatsPerMeasure > 0
    ensures 0 <= r < beatsPerMeasure
  {
    if clicks == 0 then 0 else NextCount(CountAfter(clicks - 1, beatsPerMeasure), beatsPerMeasure)
  }

  /** Within a measure, only the count 0 is accented. */
  lemma AccentOnlyAtZero(count: int, b: int)
    requires 0 <= count < b
    ensures IsAccent(count, b) <==> count == 0
  {
    RemainderOfDecomposition(0, count, b);
  }

  /** One click more is one more modulo the measure. */
  lemma NextCountIsSuccessor(a: nat, b: int)
    requires b > 0
    ensures NextCount(a % b, b) == (a + 1) % b
  {
    var q, c := a / b, a % b;
    if c == b - 1 {
      RemainderOfDecomposition(q + 1, 0, b);
      assert a + 1 == (q + 1) * b + 0;
    } else {
      RemainderOfDecomposition(q, c + 1, b);
      assert a + 1 == q * b + (c + 1);
    }
  }

  /**
   * From the start of a measure the counter is the number of clicks modulo the
   * measure, so exactly the clicks numbered 0, b, 2b, ... are accented.
   */
  lemma {:induction false} CountAfterIsRemainder(clicks: nat, beatsPerMeasure: int)
    requires beatsPerMeasure > 0
    ensures CountAfter(clicks, beatsPerMeasure) == clicks % beatsPerMeasure
    ensures IsAccent(CountAfter(clicks, beatsPerMeasure), beatsPerMeasure) <==> clicks % beatsPerMeasure == 0
  {
    if clicks > 0 {
      CountAfterIsRemainder(clicks - 1, beatsPerMeasure);
      NextCountIsSuccessor(clicks - 1, beatsPerMeasure);
    }
    AccentOnlyAtZero(CountAfter(clicks, beatsPerMeasure), beatsPerMeasure);
  }

  // ---------------------------------------------------------------------------
  // The tempo and measure controls

  /** The range slider, `handleBpmChange`: only a value in [40, 240] is taken. */
  function SliderBpm(bpm: int, parsed: Option<int>): (r: int)
    ensures parsed.Some? && MinBpm <= parsed.value <= MaxBpm ==> r == parsed.value
    ensures !(parsed.Some? && MinBpm <= parsed.value <= MaxBpm) ==> r == bpm
  {
    if parsed.Some? && parsed.value >= MinBpm && parsed.value <= MaxBpm then parsed.value else bpm
  }

  /** The "-5 BPM" button, `Math.max(40, bpm - 5)`. */
  function DecreasedBpm(bpm: int): (r: int)
    ensures r >= MinBpm
    ensures r == MinBpm || r == bpm - BpmStep
    ensures r >= bpm - BpmStep
    ensures bpm >= MinBpm + BpmStep ==> r == bpm - BpmStep
  {
    if bpm - BpmStep > MinBpm then bpm - BpmStep else MinBpm
  }

  /** The "+5 BPM" button, `Math.min(240, bpm + 5)`. */
  function IncreasedBpm(bpm: int): (r: int)
    ensures r <= MaxBpm
    ensures r == MaxBpm || r == bpm + BpmStep
    ensures r <= bpm + BpmStep
    ensures bpm <= MaxBpm - BpmStep ==> r == bpm + BpmStep
  {
    if bpm + BpmStep < MaxBpm then bpm + BpmStep else MaxBpm
  }

  /** Starting anywhere in [40, 240], the buttons keep the tempo there; a step down then up returns when not clamped. */
  lemma ButtonsKeepRange(bpm: int)
    requires MinBpm <= bpm <= MaxBpm
    ensures MinBpm <= DecreasedBpm(bpm) <= MaxBpm && MinBpm <= IncreasedBpm(bpm) <= MaxBpm
    ensures bpm >= MinBpm + BpmStep ==> IncreasedBpm(DecreasedBpm(bpm)) == bpm
    ensures bpm <= MaxBpm - BpmStep ==> DecreasedBpm(IncreasedBpm(bpm)) == bpm
  {
  }

  /** The number field, `parseInt(value) || 100`: NaN and 0 give 100; no range check. */
  function NumberFieldBpm(parsed: Option<int>): (r: int)
    ensures r != 0
    ensures parsed.None? || parsed == Some(0) ==> r == InitialBpm
    ensures parsed.Some? && parsed.value != 0 ==> r == parsed.value
  {
    if parsed.Some? && parsed.value != 0 then parsed.value else InitialBpm
  }

  /** The number field lets through tempos the slider refuses. */
  lemma NumberFieldIgnoresRange()
    ensures NumberFieldBpm(Some(1000)) == 1000 && SliderBpm(InitialBpm, Some(1000)) == InitialBpm
    ensures NumberFieldBpm(Some(-5)) == -5
  {
  }

  /** `handleBeatsPerMeasureChange`'s test: only a value in [2, 12] is taken. */
  predicate AcceptsBeats(parsed: Option<int>) {
    parsed.Some? && MinBeats <= parsed.value <= MaxBeats
  }

  // ---------------------------------------------------------------------------
  // The component's state

  class Metronome {
    var bpm: int
    var playing: bool
    var count: int
    var beatsPerMeasure: int

    /** The measure has 2 to 12 beats and the counter is a beat of it. */
    ghost predicate Valid()
      reads this
    {
      MinBeats <= beatsPerMeasure <= MaxBeats && 0 <= count < beatsPerMeasure
    }

    constructor ()
      ensures Valid()
      ensures bpm == InitialBpm && !playing && count == 0 && beatsPerMeasure == InitialBeatsPerMeasure
    {
      bpm := InitialBpm;
      playing := false;
      count := 0;
      beatsPerMeasure := InitialBeatsPerMeasure;
    }

    /** `playClick`: report the accent for the current count, then advance the counter. */
    method PlayClick() returns (accent: bool)
      requires Valid()
      modifies this`count
      ensures Valid()
      ensures accent <==> IsAccent(old(count), beatsPerMeasure)
      ensures count == NextCount(old(count), beatsPerMeasure)
    {
      accent := IsAccent(count, beatsPerMeasure);
      count := NextCount(count, beatsPerMeasure);
    }

    /**
     * `startStop`: flip `playing`; when starting, reset the counter and click
     * once. The click reads the counter of the render the button was pressed
     * in, before the reset takes effect, so its accent depends on where the
     * counter stood when the metronome was last stopped; the queued updates
     * leave the counter at 1 modulo the measure.
     */
    method StartStop() returns (click: Option<bool>)
      requires Valid()
      modifies this`playing, this`count
      ensures Valid()
      ensures playing == !old(playing)
      ensures old(playing) ==> click.None? && count == old(count)
      ensures !old(playing) ==> click == Some(IsAccent(old(count), beatsPerMeasure)) && count == NextCount(0, beatsPerMeasure)
    {
      var wasPlaying := playing;
      playing := !wasPlaying;
      click := None;
      if !wasPlaying {
        var staleCount := count;
        count := 0;
        click := Some(IsAccent(staleCount, beatsPerMeasure));
        count := NextCount(count, beatsPerMeasure);
      }
    }

    /** `startStop` as its reset evidently intends: the first click after starting is the accent. */
    method StartStopIntended() returns (click: Option<bool>)
      requires Valid()
      modifies this`playing, this`count
      ensures Valid()
      ensures playing == !old(playing)
      ensures old(playing) ==> click.None? && count == old(count)
      ensures !old(playing) ==> click == Some(true) && count == NextCount(0, beatsPerMeasure)
    {
      var wasPlaying := playing;
      playing := !wasPlaying;
      click := None;
      if !wasPlaying {
        count := 0;
        var accent := PlayClick();
        click := Some(accent);
      }
    }

    /** `handleBpmChange`. */
    method HandleBpmChange(parsed: Option<int>)
      modifies this`bpm
      ensures bpm == SliderBpm(old(bpm), parsed)
    {
      bpm := SliderBpm(bpm, parsed);
    }

    /** The "-5 BPM" button. */
    method DecreaseBpm()
      modifies this`bpm
      ensures bpm == DecreasedBpm(old(bpm))
    {
      bpm := DecreasedBpm(bpm);
    }

    /** The "+5 BPM" button. */
    method IncreaseBpm()
      modifies this`bpm
      ensures bpm == IncreasedBpm(old(bpm))
    {
      bpm := IncreasedBpm(bpm);
    }

    /** The number field. */
    method SetBpmFromField(parsed: Option<int>)
      modifies this`bpm
      ensures bpm == NumberFieldBpm(parsed)
    {
      bpm := NumberFieldBpm(parsed);
    }

    /** `handleBeatsPerMeasureChange`: a value in [2, 12] becomes the measure and restarts the count. */
    method HandleBeatsPerMeasureChange(parsed: Option<int>)
      requires Valid()
      modifies this`beatsPerMeasure, this`count
      ensures Valid()
      ensures AcceptsBeats(parsed) ==> beatsPerMeasure == parsed.value && count == 0
      ensures !AcceptsBeats(parsed) ==> beatsPerMeasure == old(beatsPerMeasure) && count == old(count)
    {
      if AcceptsBeats(parsed) {
        beatsPerMeasure := parsed.value;
        count := 0;
      }
    }
  }

  /**
   * A concrete run: start (the first click), one more click, stop, start
   * again. The counter stood at 2 of 4 when stopped, so the click of the
   * second start is not accented.
   */
  method RestartAfterTwoClicks() returns (firstClick: Option<bool>)
    ensures firstClick == Some(false)
  {
    var m := new Metronome();
    var _ := m.StartStop();
    var _ := m.PlayClick();
    var _ := m.StartStop();
    firstClick := m.StartStop();
  }

  /** The same run with the intended start: the first click is accented. */
  method RestartAfterTwoClicksIntended() returns (firstClick: Option<bool>)
    ensures firstClick == Some(true)
  {
    var m := new Metronome();
    var _ := m.StartStopIntended();
    var _ := m.PlayClick();
    var _ := m.StartStopIntended();
    firstClick := m.StartStopIntended();
  }
}
