# softStepper in Dafny

A model of the `softStepper` driver for one stepper motor. The motor has four phase pins (A, B, C, D) and one enable pin, all driven through GPIO. The driver keeps a `StepState` in 0..3 and a `PulseDuration`. Each call of `Step` does three things:

1. It drives the phase pattern of the current state onto A–D and moves to the next state, modulo 4. A `StepState` outside 0..3 is reset to 0 and no phase pin is written.
2. It pulses the enable pin high.
3. It drives the enable pin low again.

Everything is in `stepper.dfy`, module `SoftStepper`:

- The Go struct `Stepper` is a class. The pin handles are constant fields holding the pin numbers the pins were opened with. Each pin's logic level is a boolean field. A ghost field `Writes` logs every `SetHigh`/`SetLow` in the order issued.
- `Step` is a method proved against specification functions. `Next` is the state transition. `Pattern` is the commutation table. `StepWrites` is the exact write sequence of one step.
- Lemmas over `NextN` and `StepsWrites` state what repeated steps do: period 4, the four-step sequence from any in-range state, and splitting a run of steps.

## Behaviour

- `Step` writes the pattern of the state it is leaving, then advances. The table is 0: A H, B L, C L, D H; 1: A L, B H, C L, D H; 2: A L, B H, C H, D L; 3: A H, B L, C H, D L.
- An out-of-range `StepState` is silently reset to 0, and no phase pin is written.
- `InitStepper` issues no `SetHigh`/`SetLow`, so the model leaves the initial levels unspecified.
- There is one enable pin and the motor steps forward only: no direction, hold or release.

## Model

| member | source | states |
|---|---|---|
| SoftStepper.Stepper.constructor | softStepper.go:42-60 | The new stepper is bound to the five given pin numbers, at `StepState` 0 with `PulseDuration` 15, and has issued no `SetHigh`/`SetLow` (the write log is empty) |
| SoftStepper.Stepper.Drive | softStepper.go:66-69 | `SetHigh`/`SetLow` on one pin: that pin's level becomes the driven value, every other pin's level, the state and the pulse duration are unchanged, and the write is appended to the log |
| SoftStepper.Stepper.Step | softStepper.go:62-100 | The new `StepState` is `Next` of the old one. From an in-range state the phase pins hold that state's `Pattern`; from any other state the phase pins are untouched. The enable pin ends low, `PulseDuration` is unchanged, and the writes issued are exactly `StepWrites` of the old state |
| SoftStepper.Next | softStepper.go:63-94 | The state after a step is always in 0..3. It is (s+1) mod 4 for s in 0..3 and 0 for every other value |
| SoftStepper.Pattern | softStepper.go:64-90 | In every pattern written, A and B are complementary, C and D are complementary, and exactly two phases are high |
| SoftStepper.StepWrites | softStepper.go:62-100 | A step issues six writes from an in-range state and two from any other. The last two are enable high then enable low. No earlier write touches the enable pin |
| SoftStepper.PatternsDistinct | softStepper.go:64-90 | The four states drive four different phase patterns |
| SoftStepper.AdjacentPatternsReverseOneCoil | softStepper.go:64-91 | From any state to the next (3 wraps to 0), exactly one of the coils A/B and C/D reverses |
| SoftStepper.NextNInRange | softStepper.go:63-91 | n steps from a state s in 0..3 reach (s+n) mod 4 |
| SoftStepper.NextNOutOfRange | softStepper.go:92-93 | n ≥ 1 steps from an out-of-range state reach (n-1) mod 4; the first step lands on 0 |
| SoftStepper.NextNLandsInRange | softStepper.go:63-94 | After at least one step the state is in 0..3, whatever value it held before |
| SoftStepper.PeriodFour | softStepper.go:63-91 | 4k steps from an in-range state return to that state |
| SoftStepper.StepsWritesSplit | softStepper.go:62-100 | The writes of m+n steps are the writes of m steps followed by the writes of n steps from the state reached |
| SoftStepper.StepsWritesPeriodic | softStepper.go:62-100 | From an in-range state, 4+n steps issue the four-step write sequence followed by the writes of n steps from the same state (period 4 of the pin patterns) |
| SoftStepper.FourStepCycle | softStepper.go:62-100 | Four steps from any in-range state s issue the writes of the steps leaving s, (s+1) mod 4, (s+2) mod 4 and (s+3) mod 4, in that order: each state's pattern followed by enable high then low |
| SoftStepper.CycleFromZero | softStepper.go:62-100 | The corollary for state 0: four steps drive the patterns of states 0, 1, 2, 3 in that order, each followed by an enable pulse high then low |
| SoftStepper.FourSteps | softStepper.go:62-100 | Four `Step` calls from an in-range state restore `StepState`. The phase pins are left at the pattern of the preceding state. The enable pin is low and `PulseDuration` is unchanged. The writes issued are the four-step sequence of `FourStepCycle`, which `StepsWritesPeriodic` shows repeats |

## Left out

- The GPIO library (`sysfsGPIO.InitPin`, `SetHigh`, `SetLow`) is foreign code that cannot be seen. Pins are abstract boolean levels, and the errors `InitPin` returns are discarded by the source, so there is no error path.
- `time.Sleep` in `Step` blocks in real time. `PulseDuration` is kept only as an integer that `Step` does not change. Overflow of the millisecond duration is not modelled.
- `fmt.Println` logging has no effect on state and is left out.
- `main` is a demo loop over fixed pin numbers and is not part of this model.
- `examples/example1.go` is a demo driver that calls a six-argument `InitStepper` and a `StepForward` method. Neither exists in `softStepper.go`, so it is not part of this model.
- Aliasing between pin handles is not modelled: the five pins are taken to be distinct objects.
- Go's fixed-width `int` is modelled as an unbounded integer. The only arithmetic in `Step` is the sleep-duration product `time.Millisecond * time.Duration(PulseDuration)` (softStepper.go:98), which the model drops together with `time.Sleep`.
