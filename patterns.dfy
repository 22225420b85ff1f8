/** The lighting patterns (static, blink, pulse) and the dispatch that picks one.
    The device is seen only through what is sent to it: the waits that precede
    each command and the colours that are set. */
module Patterns {
  import opened Colors
  import opened Fade

  /** The settle delay before every colour command, in milliseconds. */
  const SettleMs: int := 20

  /** One thing the device sees: a requested wait (in milliseconds) or a colour. */
  datatype Event = Wait(ms: int) | Set(color: RGBA)

  /** The colours among `events`, in the order they were sent. */
  function ColorTrace(events: seq<Event>): (cs: seq<RGBA>)
    ensures |cs| <= |events|
    decreases |events|
  {
    if events == [] then []
    else
      var last := events[|events| - 1];
      ColorTrace(events[..|events| - 1]) + (if last.Set? then [last.color] else [])
  }

  /** `n` copies of `s` one after the other; nothing when `n <= 0`. */
  function Repeat<T>(s: seq<T>, n: int): seq<T>
    decreases n
  {
    if n <= 0 then [] else Repeat(s, n - 1) + s
  }

  /** `s` back to front. */
  function Reverse<T>(s: seq<T>): seq<T>
    decreases |s|
  {
    if s == [] then [] else [s[|s| - 1]] + Reverse(s[..|s| - 1])
  }

  /** What `Static` sends: the settle delay, then the colour. */
  function StaticEvents(col: RGBA): seq<Event> {
    [Wait(SettleMs), Set(col)]
  }

  /** The events of one `Static` call per colour of `cs`, in order. */
  function Settled(cs: seq<RGBA>): (events: seq<Event>)
    ensures |events| == 2 * |cs|
    decreases |cs|
  {
    if cs == [] then [] else Settled(cs[..|cs| - 1]) + StaticEvents(cs[|cs| - 1])
  }

  /** One repetition of `Blink`: wait, the colour, wait, off. */
  function BlinkRound(col: RGBA, dur: int): seq<Event> {
    [Wait(dur)] + StaticEvents(col) + [Wait(dur)] + StaticEvents(COLOR_OFF)
  }

  function BlinkEvents(col: RGBA, dur: int, times: int): seq<Event> {
    Repeat(BlinkRound(col, dur), times)
  }

  /** The first `n` fade-up samples: j = 0 .. n-1. */
  function FadeUpPrefix(col: RGBA, steps: int, n: nat): (up: seq<RGBA>)
    requires steps < U32 && (n == 0 || n <= steps)
    ensures |up| == n
  {
    if n == 0 then [] else FadeUpPrefix(col, steps, n - 1) + [Sample(col, n - 1, steps)]
  }

  /** The first `n` fade-down samples: j = steps .. steps-n+1. */
  function FadeDownPrefix(col: RGBA, steps: int, n: nat): (down: seq<RGBA>)
    requires steps < U32 && (n == 0 || n <= steps)
    ensures |down| == n
  {
    if n == 0 then [] else FadeDownPrefix(col, steps, n - 1) + [Sample(col, steps - n + 1, steps)]
  }

  /** The fade-up samples j = 0 .. steps-1 (none when `steps <= 0`). */
  function FadeUp(col: RGBA, steps: int): seq<RGBA>
    requires steps < U32
  {
    FadeUpPrefix(col, steps, if steps <= 0 then 0 else steps)
  }

  /** The fade-down samples j = steps .. 1 (none when `steps <= 0`). */
  function FadeDown(col: RGBA, steps: int): seq<RGBA>
    requires steps < U32
  {
    FadeDownPrefix(col, steps, if steps <= 0 then 0 else steps)
  }

  /** The colours of one repetition of `Pulse`: fade up, fade down, off. */
  function PulseRound(col: RGBA, steps: int): seq<RGBA>
    requires steps < U32
  {
    FadeUp(col, steps) + FadeDown(col, steps) + [COLOR_OFF]
  }

  function PulseEvents(col: RGBA, times: int, steps: int): seq<Event>
    requires steps < U32
  {
    Repeat(Settled(PulseRound(col, steps)), times)
  }

  /** The events of the pattern `lighttype` names; an unknown name sends nothing. */
  function PatternEvents(lighttype: string, col: RGBA, dur: int, times: int, steps: int): seq<Event>
    requires lighttype == "pulse" ==> steps < U32
  {
    match lighttype
    case "static" => StaticEvents(col)
    case "blink" => BlinkEvents(col, dur, times)
    case "pulse" => PulseEvents(col, times, steps)
    case _ => []
  }

  /** Everything the tool sends to an opened device: off, the pattern, a final wait. */
  function RunEvents(lighttype: string, col: RGBA, dur: int, times: int, steps: int): seq<Event>
    requires lighttype == "pulse" ==> steps < U32
  {
    StaticEvents(COLOR_OFF) + PatternEvents(lighttype, col, dur, times, steps) + [Wait(SettleMs)]
  }

  // ---------------------------------------------------------------------------
  // Lemmas about traces

  lemma {:induction false} ColorTraceAppend(a: seq<Event>, b: seq<Event>)
    ensures ColorTrace(a + b) == ColorTrace(a) + ColorTrace(b)
    decreases |b|
  {
    if b == [] {
      assert a + b == a;
    } else {
      var init := b[..|b| - 1];
      ColorTraceAppend(a, init);
      assert (a + b)[..|a + b| - 1] == a + init;
      assert (a + b)[|a + b| - 1] == b[|b| - 1];
    }
  }

  lemma StaticTrace(col: RGBA)
    ensures ColorTrace(StaticEvents(col)) == [col]
  {
    assert StaticEvents(col)[..1] == [Wait(SettleMs)];
    assert [Wait(SettleMs)][..0] == [];
  }

  /** Issuing `Static` once per colour sends exactly those colours. */
  lemma {:induction false} SettledTrace(cs: seq<RGBA>)
    ensures ColorTrace(Settled(cs)) == cs
    decreases |cs|
  {
    if cs != [] {
      var init := cs[..|cs| - 1];
      SettledTrace(init);
      ColorTraceAppend(Settled(init), StaticEvents(cs[|cs| - 1]));
      StaticTrace(cs[|cs| - 1]);
      assert init + [cs[|cs| - 1]] == cs;
    }
  }

  lemma SettledSnoc(cs: seq<RGBA>, col: RGBA)
    ensures Settled(cs + [col]) == Settled(cs) + StaticEvents(col)
  {
    assert (cs + [col])[..|cs|] == cs;
  }

  lemma {:induction false} SettledAppend(a: seq<RGBA>, b: seq<RGBA>)
    ensures Settled(a + b) == Settled(a) + Settled(b)
    decreases |b|
  {
    if b == [] {
      assert a + b == a;
    } else {
      var init := b[..|b| - 1];
      SettledAppend(a, init);
      assert (a + b)[..|a + b| - 1] == a + init;
      assert (a + b)[|a + b| - 1] == b[|b| - 1];
    }
  }

  lemma AppendAssoc<T>(a: seq<T>, b: seq<T>, c: seq<T>)
    ensures a + b + c == a + (b + c)
  {
  }

  lemma Regroup<T>(a: seq<T>, b: seq<T>, c: seq<T>, e: seq<T>)
    ensures a + b + c + e == a + (b + c + e)
  {
  }

  /** Sending one repetition of Pulse is sending its fade-up, its fade-down, then off. */
  lemma PulseRoundEvents(col: RGBA, steps: int)
    requires steps < U32
    ensures Settled(PulseRound(col, steps))
         == Settled(FadeUp(col, steps)) + Settled(FadeDown(col, steps)) + StaticEvents(COLOR_OFF)
  {
    SettledAppend(FadeUp(col, steps), FadeDown(col, steps));
    SettledSnoc(FadeUp(col, steps) + FadeDown(col, steps), COLOR_OFF);
  }

  /** The colours of a repetition are the repetition of the colours. */
  lemma {:induction false} RepeatTrace(events: seq<Event>, n: int)
    ensures ColorTrace(Repeat(events, n)) == Repeat(ColorTrace(events), n)
    decreases n
  {
    if n > 0 {
      RepeatTrace(events, n - 1);
      ColorTraceAppend(Repeat(events, n - 1), events);
    }
  }

  lemma {:induction false} RepeatLength<T>(s: seq<T>, n: int)
    ensures |Repeat(s, n)| == if n <= 0 then 0 else n * |s|
    decreases n
  {
    if n > 0 {
      RepeatLength(s, n - 1);
      MulDistributes(|s|, n - 1);
    }
  }

  /** Element `r` of copy `i` of a repetition is element `r` of the original. */
  lemma {:induction false} RepeatAt<T>(s: seq<T>, n: int, i: nat, r: nat)
    requires i < n && r < |s|
    ensures i * |s| + r < |Repeat(s, n)|
    ensures Repeat(s, n)[i * |s| + r] == s[r]
    decreases n
  {
    RepeatLength(s, n);
    RepeatLength(s, n - 1);
    MulDistributes(|s|, i);
    assert (i + 1) * |s| == |s| * (i + 1);
    if i < n - 1 {
      RepeatAt(s, n - 1, i, r);
    } else {
      assert i * |s| == (n - 1) * |s|;
    }
  }

  lemma {:induction false} ReverseAt<T>(s: seq<T>, k: nat)
    requires k < |s|
    ensures |Reverse(s)| == |s|
    ensures Reverse(s)[k] == s[|s| - 1 - k]
    decreases |s|
  {
    if k > 0 {
      ReverseAt(s[..|s| - 1], k - 1);
    } else if |s| > 1 {
      ReverseAt(s[..|s| - 1], 0);
    } else {
      assert Reverse(s[..|s| - 1]) == [];
    }
  }

  // ---------------------------------------------------------------------------
  // What each pattern sends

  /** Blink sends `col, COLOR_OFF` once per repetition: 2 * times colours, none
      when `times <= 0`. */
  lemma BlinkTrace(col: RGBA, dur: int, times: int)
    ensures ColorTrace(BlinkEvents(col, dur, times)) == Repeat([col, COLOR_OFF], times)
    ensures |ColorTrace(BlinkEvents(col, dur, times))| == if times <= 0 then 0 else 2 * times
  {
    RepeatTrace(BlinkRound(col, dur), times);
    RepeatLength([col, COLOR_OFF], times);
    var round := BlinkRound(col, dur);
    ColorTraceAppend([Wait(dur)] + StaticEvents(col) + [Wait(dur)], StaticEvents(COLOR_OFF));
    ColorTraceAppend([Wait(dur)] + StaticEvents(col), [Wait(dur)]);
    ColorTraceAppend([Wait(dur)], StaticEvents(col));
    StaticTrace(col);
    StaticTrace(COLOR_OFF);
    assert ColorTrace([Wait(dur)]) == [] by {
      assert [Wait(dur)][..0] == [];
    }
    assert ColorTrace(round) == [col, COLOR_OFF];
  }

  /** The colours of Blink alternate: `col` at every even position, off at every odd one. */
  lemma BlinkAlternates(col: RGBA, dur: int, times: int, i: nat)
    requires i < times
    ensures |ColorTrace(BlinkEvents(col, dur, times))| == 2 * times
    ensures ColorTrace(BlinkEvents(col, dur, times))[2 * i] == col
    ensures ColorTrace(BlinkEvents(col, dur, times))[2 * i + 1] == COLOR_OFF
  {
    BlinkTrace(col, dur, times);
    RepeatAt([col, COLOR_OFF], times, i, 0);
    RepeatAt([col, COLOR_OFF], times, i, 1);
  }

  /** Blinking red twice with 100 ms phases: every colour command is preceded by
      the phase wait and then the settle delay. */
  lemma BlinkScenario()
    ensures var red := RGBA(0xff, 0x00, 0x00, 0xff);
            BlinkEvents(red, 100, 2)
            == [Wait(100), Wait(20), Set(red), Wait(100), Wait(20), Set(COLOR_OFF),
                Wait(100), Wait(20), Set(red), Wait(100), Wait(20), Set(COLOR_OFF)]
  {
    var red := RGBA(0xff, 0x00, 0x00, 0xff);
    assert Repeat(BlinkRound(red, 100), 1) == BlinkRound(red, 100);
  }

  /** A two-step pulse of full red: dark, half, full, half, off. */
  lemma PulseScenario()
    ensures PulseRound(RGBA(0xff, 0x00, 0x00, 0xff), 2)
            == [RGBA(0x00, 0x00, 0x00, 0xff), RGBA(0x7f, 0x00, 0x00, 0xff), RGBA(0xff, 0x00, 0x00, 0xff),
                RGBA(0x7f, 0x00, 0x00, 0xff), COLOR_OFF]
  {
    var red := RGBA(0xff, 0x00, 0x00, 0xff);
    assert FadeChannel(0xff, 1, 2) == 0x7f;
    assert FadeChannel(0xff, 2, 2) == 0xff;
    assert FadeChannel(0x00, 1, 2) == 0 && FadeChannel(0x00, 2, 2) == 0;
    assert FadeUp(red, 2) == [Sample(red, 0, 2), Sample(red, 1, 2)];
    assert FadeDown(red, 2) == [Sample(red, 2, 2), Sample(red, 1, 2)];
  }

  /** Pulse sends the colours of one repetition, `times` times. */
  lemma PulseTrace(col: RGBA, times: int, steps: int)
    requires steps < U32
    ensures ColorTrace(PulseEvents(col, times, steps)) == Repeat(PulseRound(col, steps), times)
  {
    RepeatTrace(Settled(PulseRound(col, steps)), times);
    SettledTrace(PulseRound(col, steps));
  }

  /** How many colours Pulse sends: times * (2 * steps + 1) for a positive step
      count, one (off) per repetition otherwise, none when `times <= 0`. */
  lemma PulseTraceLength(col: RGBA, times: int, steps: int)
    requires steps < U32
    ensures |ColorTrace(PulseEvents(col, times, steps))|
            == if times <= 0 then 0 else if steps <= 0 then times else times * (2 * steps + 1)
  {
    PulseTrace(col, times, steps);
    RepeatLength(PulseRound(col, steps), times);
  }

  /** With no positive step count there is nothing to divide by: every
      repetition sends only COLOR_OFF. */
  lemma PulseWithoutSteps(col: RGBA, times: int, steps: int)
    requires steps <= 0
    ensures ColorTrace(PulseEvents(col, times, steps)) == Repeat([COLOR_OFF], times)
  {
    PulseTrace(col, times, steps);
    assert PulseRound(col, steps) == [COLOR_OFF];
  }

  lemma {:induction false} FadeUpPrefixAt(col: RGBA, steps: int, n: nat, j: nat)
    requires steps < U32 && (n == 0 || n <= steps) && j < n
    ensures FadeUpPrefix(col, steps, n)[j] == Sample(col, j, steps)
    decreases n
  {
    if j < n - 1 {
      FadeUpPrefixAt(col, steps, n - 1, j);
    }
  }

  lemma {:induction false} FadeDownPrefixAt(col: RGBA, steps: int, n: nat, k: nat)
    requires steps < U32 && (n == 0 || n <= steps) && k < n
    ensures FadeDownPrefix(col, steps, n)[k] == Sample(col, steps - k, steps)
    decreases n
  {
    if k < n - 1 {
      FadeDownPrefixAt(col, steps, n - 1, k);
    }
  }

  /** Within one repetition the fade-up brightens channel by channel and the
      fade-down dims; no sample is brighter than the target; the fade-up starts
      dark, the fade-down starts at the target itself, and the repetition ends
      with COLOR_OFF. */
  lemma PulseRoundShape(col: RGBA, steps: int)
    requires 0 < steps <= MaxExactSteps
    ensures |PulseRound(col, steps)| == 2 * steps + 1
    ensures FadeUp(col, steps)[0] == RGBA(0, 0, 0, col.a)
    ensures FadeDown(col, steps)[0] == col
    ensures PulseRound(col, steps)[2 * steps] == COLOR_OFF
    ensures forall j, k :: 0 <= j <= k < steps ==>
              NoBrighter(FadeUp(col, steps)[j], FadeUp(col, steps)[k])
    ensures forall j, k :: 0 <= j <= k < steps ==>
              NoBrighter(FadeDown(col, steps)[k], FadeDown(col, steps)[j])
    ensures forall j :: 0 <= j < steps ==>
              NoBrighter(FadeUp(col, steps)[j], col) && NoBrighter(FadeDown(col, steps)[j], col)
  {
    SampleEnds(col, steps);
    FadeUpPrefixAt(col, steps, steps, 0);
    FadeDownPrefixAt(col, steps, steps, 0);
    PulseRoundAt(col, steps, 2 * steps);
    forall j, k | 0 <= j <= k < steps
      ensures NoBrighter(FadeUp(col, steps)[j], FadeUp(col, steps)[k])
      ensures NoBrighter(FadeDown(col, steps)[k], FadeDown(col, steps)[j])
    {
      FadeOrderAt(col, steps, j, k);
    }
    forall j | 0 <= j < steps
      ensures NoBrighter(FadeUp(col, steps)[j], col) && NoBrighter(FadeDown(col, steps)[j], col)
    {
      FadeOrderAt(col, steps, j, j);
    }
  }

  /** The pointwise step of PulseRoundShape: for `j <= k`, fade-up position `j`
      is no brighter than position `k`, fade-down position `k` no brighter than
      position `j`, and both are no brighter than the target. */
  lemma FadeOrderAt(col: RGBA, steps: int, j: nat, k: nat)
    requires 0 < steps <= MaxExactSteps && j <= k < steps
    ensures NoBrighter(FadeUp(col, steps)[j], FadeUp(col, steps)[k])
    ensures NoBrighter(FadeDown(col, steps)[k], FadeDown(col, steps)[j])
    ensures NoBrighter(FadeUp(col, steps)[j], col) && NoBrighter(FadeDown(col, steps)[j], col)
  {
    FadeUpPrefixAt(col, steps, steps, j);
    FadeUpPrefixAt(col, steps, steps, k);
    FadeDownPrefixAt(col, steps, steps, j);
    FadeDownPrefixAt(col, steps, steps, k);
    SampleMonotone(col, j, k, steps);
    SampleMonotone(col, steps - k, steps - j, steps);
    SampleMonotone(col, j, j, steps);
    SampleMonotone(col, steps - j, steps - j, steps);
  }

  /** Position `p` of one repetition: fade-up sample `p`, then fade-down sample
      `2 * steps - p`, and COLOR_OFF last. */
  lemma PulseRoundAt(col: RGBA, steps: int, p: nat)
    requires 0 < steps < U32 && p <= 2 * steps
    ensures |PulseRound(col, steps)| == 2 * steps + 1
    ensures p < steps ==> PulseRound(col, steps)[p] == Sample(col, p, steps)
    ensures steps <= p < 2 * steps ==> PulseRound(col, steps)[p] == Sample(col, 2 * steps - p, steps)
    ensures p == 2 * steps ==> PulseRound(col, steps)[p] == COLOR_OFF
  {
    var up, down := FadeUp(col, steps), FadeDown(col, steps);
    assert PulseRound(col, steps) == up + down + [COLOR_OFF];
    if p < steps {
      FadeUpPrefixAt(col, steps, steps, p);
      assert PulseRound(col, steps)[p] == up[p];
    } else if p < 2 * steps {
      FadeDownPrefixAt(col, steps, steps, p - steps);
      assert PulseRound(col, steps)[p] == down[p - steps];
    }
  }

  /** Every sample of a repetition but the final off keeps the alpha of `col`. */
  lemma PulseKeepsAlpha(col: RGBA, steps: int, p: nat)
    requires 0 < steps < U32 && p < 2 * steps
    ensures PulseRound(col, steps)[p].a == col.a
  {
    PulseRoundAt(col, steps, p);
  }

  /** The fade-down is the fade-up shifted by one sample and reversed. */
  lemma FadeDownMirrorsUp(col: RGBA, steps: int)
    requires 0 < steps < U32
    ensures FadeDown(col, steps) == Reverse(FadeUp(col, steps)[1..] + [Sample(col, steps, steps)])
  {
    var shifted := FadeUp(col, steps)[1..] + [Sample(col, steps, steps)];
    ReverseAt(shifted, 0);
    forall k | 0 <= k < steps
      ensures FadeDown(col, steps)[k] == Reverse(shifted)[k]
    {
      ReverseAt(shifted, k);
      FadeDownPrefixAt(col, steps, steps, k);
      if k > 0 {
        FadeUpPrefixAt(col, steps, steps, steps - k);
      }
    }
  }

  /** The tool first turns the light off, then sends the chosen pattern's colours. */
  lemma RunTrace(lighttype: string, col: RGBA, dur: int, times: int, steps: int)
    requires lighttype == "pulse" ==> steps < U32
    ensures ColorTrace(RunEvents(lighttype, col, dur, times, steps))
            == [COLOR_OFF] + ColorTrace(PatternEvents(lighttype, col, dur, times, steps))
  {
    var pattern := PatternEvents(lighttype, col, dur, times, steps);
    ColorTraceAppend(StaticEvents(COLOR_OFF) + pattern, [Wait(SettleMs)]);
    ColorTraceAppend(StaticEvents(COLOR_OFF), pattern);
    StaticTrace(COLOR_OFF);
    assert ColorTrace([Wait(SettleMs)]) == [] by {
      assert [Wait(SettleMs)][..0] == [];
    }
  }

  /** An unrecognised pattern name is not an error: only COLOR_OFF is sent. */
  lemma UnknownPatternOnlyTurnsOff(lighttype: string, col: RGBA, dur: int, times: int, steps: int)
    requires lighttype != "static" && lighttype != "blink" && lighttype != "pulse"
    ensures ColorTrace(RunEvents(lighttype, col, dur, times, steps)) == [COLOR_OFF]
  {
    RunTrace(lighttype, col, dur, times, steps);
  }

  // ---------------------------------------------------------------------------
  // The device and the pattern procedures

  /** An opened device, seen through the events it receives. Sleeps are recorded
      as events so that their order relative to the colour commands is kept. */
  class Device {
    var events: seq<Event>

    constructor ()
      ensures events == []
    {
      events := [];
    }

    method SetColor(col: RGBA)
      modifies this
      ensures events == old(events) + [Set(col)]
    {
      events := events + [Set(col)];
    }

    method Sleep(ms: int)
      modifies this
      ensures events == old(events) + [Wait(ms)]
    {
      events := events + [Wait(ms)];
    }
  }

  /** Wait for the device to settle, then set one colour. */
  method Static(d: Device, col: RGBA)
    modifies d
    ensures d.events == old(d.events) + StaticEvents(col)
  {
    d.Sleep(SettleMs);
    d.SetColor(col);
  }

  /** `times` repetitions of: wait `dur`, the colour, wait `dur`, off. */
  method Blink(d: Device, col: RGBA, dur: int, times: int)
    modifies d
    ensures d.events == old(d.events) + BlinkEvents(col, dur, times)
  {
    ghost var round := BlinkRound(col, dur);
    var i := 0;
    while i < times
      invariant 0 <= i <= if times <= 0 then 0 else times
      invariant d.events == old(d.events) + Repeat(round, i)
    {
      ghost var before := d.events;
      d.Sleep(dur);
      Static(d, col);
      d.Sleep(dur);
      Static(d, COLOR_OFF);
      Regroup(before, [Wait(dur)], StaticEvents(col), [Wait(dur)]);
      AppendAssoc(before, [Wait(dur)] + StaticEvents(col) + [Wait(dur)], StaticEvents(COLOR_OFF));
      AppendAssoc(old(d.events), Repeat(round, i), round);
      i := i + 1;
    }
  }

  /** `times` repetitions of: fade up over samples 0 .. steps-1, fade down over
      samples steps .. 1, off. */
  method Pulse(d: Device, col: RGBA, times: int, steps: int)
    requires steps < U32
    modifies d
    ensures d.events == old(d.events) + PulseEvents(col, times, steps)
  {
    ghost var round := Settled(PulseRound(col, steps));
    var i := 0;
    while i < times
      invariant 0 <= i <= if times <= 0 then 0 else times
      invariant d.events == old(d.events) + Repeat(round, i)
    {
      PulseRepetition(d, col, steps);
      AppendAssoc(old(d.events), Repeat(round, i), round);
      i := i + 1;
    }
  }

  /** The body of Pulse's outer loop: one fade up, one fade down, then off. */
  method PulseRepetition(d: Device, col: RGBA, steps: int)
    requires steps < U32
    modifies d
    ensures d.events == old(d.events) + Settled(PulseRound(col, steps))
  {
    ghost var up := if steps <= 0 then 0 else steps;
    var j := 0;
    while j < steps
      invariant 0 <= j <= up
      invariant d.events == old(d.events) + Settled(FadeUpPrefix(col, steps, j))
    {
      SettledSnoc(FadeUpPrefix(col, steps, j), Sample(col, j, steps));
      AppendAssoc(old(d.events), Settled(FadeUpPrefix(col, steps, j)), StaticEvents(Sample(col, j, steps)));
      Static(d, Sample(col, j, steps));
      j := j + 1;
    }
    assert FadeUpPrefix(col, steps, j) == FadeUp(col, steps);
    ghost var rising := d.events;
    ghost var done := 0;
    j := steps;
    while j > 0
      invariant 0 <= done <= up
      invariant steps > 0 ==> done == steps - j
      invariant steps <= 0 ==> j == steps
      invariant d.events == rising + Settled(FadeDownPrefix(col, steps, done))
    {
      SettledSnoc(FadeDownPrefix(col, steps, done), Sample(col, j, steps));
      AppendAssoc(rising, Settled(FadeDownPrefix(col, steps, done)), StaticEvents(Sample(col, j, steps)));
      Static(d, Sample(col, j, steps));
      j := j - 1;
      done := done + 1;
    }
    assert FadeDownPrefix(col, steps, done) == FadeDown(col, steps);
    Static(d, COLOR_OFF);
    PulseRoundEvents(col, steps);
    Regroup(old(d.events), Settled(FadeUp(col, steps)), Settled(FadeDown(col, steps)),
            StaticEvents(COLOR_OFF));
  }

  /** The pattern part of the tool: turn the light off, run the pattern that
      `lighttype` names (nothing for an unknown name), wait once more. */
  method Run(d: Device, lighttype: string, col: RGBA, dur: int, times: int, steps: int)
    requires lighttype == "pulse" ==> steps < U32
    modifies d
    ensures d.events == old(d.events) + RunEvents(lighttype, col, dur, times, steps)
  {
    Static(d, COLOR_OFF);
    match lighttype {
      case "static" => Static(d, col);
      case "blink" => Blink(d, col, dur, times);
      case "pulse" => Pulse(d, col, times, steps);
      case _ =>
    }
    d.Sleep(SettleMs);
    Regroup(old(d.events), StaticEvents(COLOR_OFF), PatternEvents(lighttype, col, dur, times, steps),
            [Wait(SettleMs)]);
  }

  /** The whole tool against an opened device: resolve the colour name first; on
      an unknown name report the error and send nothing, otherwise run. */
  method RunCommand(d: Device, colorName: string, lighttype: string, dur: int, times: int, steps: int)
    returns (err: Option<LookupError>)
    requires lighttype == "pulse" ==> steps < U32
    modifies d
    ensures err.Some? <==> LookupColorName(colorName).Err?
    ensures err.Some? ==> err.value == InvalidColor(colorName) && d.events == old(d.events)
    ensures err.None? ==>
              d.events == old(d.events) + RunEvents(lighttype, LookupColorName(colorName).value, dur, times, steps)
  {
    match LookupColorName(colorName)
    case Err(e) =>
      err := Some(e);
    case Ok(col) =>
      Run(d, lighttype, col, dur, times, steps);
      err := None;
  }
}
