# blinkstick: colour names and lighting patterns, in Dafny

`blinkstick` is a command-line tool for a BlinkStick USB light. It resolves a
colour name, opens the first BlinkStick it finds, turns the light off and then
runs one of three patterns:

- `static` sets the colour once.
- `blink` alternates the colour and off `times` times.
- `pulse` fades the colour up and down `times` times in `steps` steps.

This project models the two parts of `blinkstick.go` that have exact behaviour:

- **The colour-name resolver** (module `Colors`, file `colors.dfy`).
  - `ColorTable` is the fixed table: the extended colour keywords of CSS Color Module Level 3 (section 4.3) plus the key `"off"`. It uses the same 148 entries and values as the source.
  - `LookupColorName` is an exact, case-sensitive lookup. It returns `Ok(colour)` or `Err(InvalidColor(name))`.
- **The pattern engine** (modules `Fade`, file `fade.dfy`, and `Patterns`, file `patterns.dfy`).
  - The device is a class `Device` whose `events` sequence records what it receives: `Set(colour)` for each `SetColor` and `Wait(ms)` for each sleep. Recording the waits keeps their order relative to the colour commands.
  - `Static`, `Blink` and `Pulse` are methods with the source's loops. Each is proved to append exactly the events given by a specification function (`StaticEvents`, `BlinkEvents`, `PulseEvents`).
  - `ColorTrace` projects the colours out of an event sequence. Lemmas prove what those colours are.
  - `Run` is the dispatch in `main`: turn off, run the selected pattern, wait 20 ms. `RunCommand` adds the name resolution that comes before it.
  - `Fade` holds the `uint32` arithmetic of a pulse sample, written out. It covers the wrap-around of the product, the division by `steps`, the `>> 8` and the truncation to a byte.

Stated assumption: `color.RGBA.RGBA()` comes from Go's `image/color` package, which is not part of this model. It is taken to widen each 8-bit channel `c` to `c * 0x101` (`Fade.Widen`).

Points where the code behaves differently from what one might expect (the model follows the code):

- A pulse repetition sends `2 * steps + 1` colours. Fade-up uses samples `j = 0 .. steps-1` and fade-down uses `j = steps .. 1`, so the two share no endpoint sample.
- `steps <= 0` does not divide by zero. Both fade loops are skipped, so each repetition sends only `COLOR_OFF`.
- An unknown `lighttype` is not an error. No case of the `switch` matches, so only the leading `COLOR_OFF` is sent.
- Every `SetColor` goes through `Static`, so 20 ms settle waits come before every colour, including those of `blink`.

## Model

| member | source | states |
|---|---|---|
| Colors.COLOR_OFF | blinkstick.go:14 | the colour sent to turn the light off: opaque black, (0, 0, 0, 0xff) |
| Colors.ColorTable | blinkstick.go:109-258 | the 148-entry name table; every colour in it is fully opaque (alpha 0xff) |
| Colors.LookupColorName | blinkstick.go:108-264 | a name resolves exactly when it is a key of the table, to that key's colour; the colour is opaque; any other string gives an error carrying the string |
| Colors.OffAndBlackAreColorOff | blinkstick.go:257 | "off" (line 257) and "black" (line 117) both resolve to COLOR_OFF, the opaque black of line 14 |
| Colors.KeywordsResolve | blinkstick.go:259-260 | "red" resolves to (0xff, 0, 0, 0xff) and "blue" to (0, 0, 0xff, 0xff) |
| Colors.CapitalisedKeywordFails | blinkstick.go:259-263 | lookup is case-sensitive: "Red" is an error naming "Red" |
| Fade.Widen | blinkstick.go:90 | the assumed 8-to-16-bit widening: both bytes of the result equal the channel, so `uint8` of it gives the channel back |
| Fade.MulU32 | blinkstick.go:93-95 | `uint32` multiplication: the result is below 2^32 and exact whenever the true product is |
| Fade.FadeChannel | blinkstick.go:93-102 | one scaled channel: the uint32 product wraps mod 2^32, is divided by steps, shifted right 8 and truncated to a byte; whenever the product does not wrap it equals `c16 * j / steps / 256` and is at most the target byte |
| Fade.Sample | blinkstick.go:93-96 | a pulse sample keeps the alpha of the target colour |
| Fade.NoWrap | blinkstick.go:93-95 | with at most 65537 steps, `channel16 * j` never wraps for `j <= steps` |
| Fade.FadeChannelEnds | blinkstick.go:93-102 | a scaled channel is 0 at `j = 0` and exactly the target byte at `j = steps` |
| Fade.FadeChannelExact | blinkstick.go:93-96 | without wrap-around a scaled channel is `c16 * j / steps / 256` and never exceeds the target byte |
| Fade.FadeChannelMonotone | blinkstick.go:93-102 | a scaled channel does not decrease as `j` grows from 0 to `steps` |
| Fade.SampleEnds | blinkstick.go:93-102 | sample 0 is black with the target's alpha; sample `steps` is the target colour itself |
| Fade.SampleMonotone | blinkstick.go:93-102 | samples brighten channel by channel with `j`, and none is brighter than the target |
| Fade.WrapBreaksMonotonicity | blinkstick.go:93 | above 65537 steps the product wraps: with 70000 steps full red goes from 239 at j = 65537 to 0 at j = 65538 |
| Patterns.Device.SetColor | blinkstick.go:75 | a colour command is appended to the device's events and nothing else changes |
| Patterns.Device.Sleep | blinkstick.go:74 | a sleep is recorded as a wait event, in order |
| Patterns.Static | blinkstick.go:73-76 | appends exactly the settle wait and then the one colour |
| Patterns.SettledTrace | blinkstick.go:73-76 | issuing Static once per colour sends exactly those colours, in order |
| Patterns.Blink | blinkstick.go:79-86 | appends `times` repetitions of wait, colour, wait, off; nothing when `times <= 0` |
| Patterns.BlinkTrace | blinkstick.go:79-86 | Blink's colours are `col, COLOR_OFF` repeated: 2 * times colours, none when `times <= 0` |
| Patterns.BlinkAlternates | blinkstick.go:80-85 | Blink's colours alternate: `col` at every even position, COLOR_OFF at every odd one |
| Patterns.BlinkScenario | blinkstick.go:79-86 | blinking red twice at 100 ms sends exactly wait 100, wait 20, red, wait 100, wait 20, off, twice |
| Patterns.Pulse | blinkstick.go:89-106 | appends `times` copies of one repetition's events; nothing when `times <= 0` |
| Patterns.PulseRepetition | blinkstick.go:92-104 | one pass of the outer loop appends the fade-up, the fade-down and then off, each colour after a settle wait |
| Patterns.PulseRoundEvents | blinkstick.go:92-104 | one repetition's events are the fade-up's, then the fade-down's, then off's |
| Patterns.PulseTrace | blinkstick.go:89-106 | Pulse's colours are one repetition's colours repeated `times` times |
| Patterns.PulseTraceLength | blinkstick.go:91-105 | Pulse sends times * (2 * steps + 1) colours when steps > 0, `times` when steps <= 0, none when times <= 0 |
| Patterns.PulseWithoutSteps | blinkstick.go:92-104 | with `steps <= 0` every repetition sends only COLOR_OFF, with no division |
| Patterns.FadeUpPrefixAt | blinkstick.go:92-96 | the fade-up's `j`-th colour is sample `j` |
| Patterns.FadeDownPrefixAt | blinkstick.go:98-102 | the fade-down's `k`-th colour is sample `steps - k` |
| Patterns.PulseRoundAt | blinkstick.go:92-104 | a repetition has 2 * steps + 1 colours: samples 0 .. steps-1, samples steps .. 1, then COLOR_OFF |
| Patterns.PulseRoundShape | blinkstick.go:92-104 | within a repetition the fade-up brightens and the fade-down dims channel by channel; the fade-up starts dark, the fade-down starts at the target, no sample exceeds the target, and the repetition ends with COLOR_OFF |
| Patterns.PulseKeepsAlpha | blinkstick.go:96-102 | every sample of a repetition keeps the target's alpha |
| Patterns.FadeDownMirrorsUp | blinkstick.go:92-103 | the fade-down is the fade-up shifted by one sample and reversed |
| Patterns.PulseScenario | blinkstick.go:89-106 | a two-step pulse of full red is dark, 0x7f, 0xff, 0x7f, off |
| Patterns.Run | blinkstick.go:57-66 | appends off, the events of the pattern that `lighttype` names (none for an unknown name), then a 20 ms wait |
| Patterns.RunTrace | blinkstick.go:57-65 | the colours sent are COLOR_OFF followed by the selected pattern's colours |
| Patterns.UnknownPatternOnlyTurnsOff | blinkstick.go:58-65 | an unrecognised `lighttype` sends only COLOR_OFF and is not an error |
| Patterns.RunCommand | blinkstick.go:35-66 | an unknown colour name is reported and nothing is sent to the device; otherwise the device gets exactly the events of Run with the resolved colour |

## Left out

- Flag parsing, the usage text and the printing of errors (blinkstick.go:18-39) are command-line I/O. `RunCommand` returns the lookup error instead of printing it.
- Device enumeration, the choice of the first BlinkStick, `Open`, `Close` and `SetKeepActive` go through the `github.com/boombuler/led` library, which is not part of this model. The opened device is a parameter. `RunCommand` resolves the colour name before it touches the device, as the source resolves it before it looks for devices. With no device attached, or when `Open` fails, the source still resolves the name and reports an unknown one, but no event reaches any device; the model has no device-less form of `RunCommand`.
- Real time: each `time.Sleep` is recorded as a `Wait(ms)` event with the requested milliseconds. Durations are not converted to `time.Duration`, so the 64-bit nanosecond overflow of a huge `-duration` is not modelled.
- The text of the error message (`Invalid color %q`) is not modelled; only the error and the name it carries are.
- Colors.ColorTable: the source's map literal is modelled as a match over its 148 distinct keys. That is the same partial function, but a map literal that size is beyond what the verifier unfolds. For the same reason, case-sensitivity is proved for a representative name ("Red") and not for every capitalised string.
- Patterns.Pulse, Patterns.Run, Patterns.RunCommand, Patterns.PatternEvents, Patterns.RunEvents: require `steps < 2^32` (for Run, RunCommand, PatternEvents and RunEvents only when `lighttype` is `"pulse"`). For larger values Go's `uint32(steps)` truncates the divisor, and a multiple of 2^32 makes it zero, which panics. Neither is modelled.
- Patterns.PulseRepetition: one pass of Pulse's outer loop is its own method, to keep each proof small. The loops and the order of calls are those of the source.
- Fade.FadeChannelMonotone, Fade.FadeChannelEnds and the pulse shape lemmas: proved only for `steps <= 65537`. Above that the `uint32` product wraps (modelled in `MulU32`), and `WrapBreaksMonotonicity` shows that the fade is then no longer monotone.
