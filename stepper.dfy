/** A model of the soft stepper driver: one motor, four phase pins A-D and one
    enable pin, advanced one full step at a time by a four-state commutation
    table. Pin hardware is abstract: each pin is a logic level held by the
    driver, and every SetHigh/SetLow the driver issues is logged in order. */
module SoftStepper {

  /** The five pins a stepper drives. */
  datatype PinId = Ena | A | B | C | D

  /** One SetHigh (high == true) or SetLow (high == false) call on a pin. */
  datatype Write = Write(pin: PinId, high: bool)

  /** The levels of the four phase pins; true is logic high. */
  datatype Phase = Phase(a: bool, b: bool, c: bool, d: bool)

  /** The number of phases a pattern drives high. */
  function HighCount(p: Phase): (n: nat)
    ensures n <= 4
  {
    (if p.a then 1 else 0) + (if p.b then 1 else 0) +
    (if p.c then 1 else 0) + (if p.d then 1 else 0)
  }

  /** The states the commutation switch has an arm for. */
  predicate InRange(s: int) {
    0 <= s < 4
  }

  /** The pattern Step drives while leaving state s. Both coils are always
      energised: A/B and C/D are complementary pairs. */
  function Pattern(s: int): (p: Phase)
    requires InRange(s)
    ensures p.a == !p.b && p.c == !p.d
    ensures HighCount(p) == 2
  {
    match s
    case 0 => Phase(true, false, false, true)
    case 1 => Phase(false, true, false, true)
    case 2 => Phase(false, true, true, false)
    case 3 => Phase(true, false, true, false)
  }

  /** The state Step leaves behind: the successor modulo 4 of an in-range
      state, and 0 for any other value. */
  function Next(s: int): (r: int)
    ensures InRange(r)
    ensures InRange(s) ==> r == (s + 1) % 4
    ensures !InRange(s) ==> r == 0
  {
    match s
    case 0 => 1
    case 1 => 2
    case 2 => 3
    case 3 => 0
    case _ => 0
  }

  /** The phase-pin writes Step issues from state s, in the order A, B, C, D;
      none at all when s has no arm. */
  function PhaseWrites(s: int): seq<Write>
  {
    if InRange(s) then
      var p := Pattern(s);
      [Write(A, p.a), Write(B, p.b), Write(C, p.c), Write(D, p.d)]
    else []
  }

  /** Everything Step issues from state s: the phase writes, then the enable
      pulse. The enable pin is written exactly twice, high and then low, after
      every phase write. */
  function StepWrites(s: int): (w: seq<Write>)
    ensures |w| == if InRange(s) then 6 else 2
    ensures w[|w| - 2] == Write(Ena, true) && w[|w| - 1] == Write(Ena, false)
    ensures forall i :: 0 <= i < |w| - 2 ==> w[i].pin != Ena
  {
    PhaseWrites(s) + [Write(Ena, true), Write(Ena, false)]
  }

  /** The state reached after n calls of Step from state s. */
  function NextN(s: int, n: nat): int
    decreases n
  {
    if n == 0 then s else NextN(Next(s), n - 1)
  }

  /** The writes n calls of Step issue from state s. */
  function StepsWrites(s: int, n: nat): seq<Write>
    decreases n
  {
    if n == 0 then [] else StepWrites(s) + StepsWrites(Next(s), n - 1)
  }

  /** From an in-range state, n steps add n to the state modulo 4. */
  lemma {:induction false} NextNInRange(s: int, n: nat)
    requires InRange(s)
    ensures NextN(s, n) == (s + n) % 4
    decreases n
  {
    if n > 0 {
      NextNInRange(Next(s), n - 1);
      assert (s + 1) % 4 + (n - 1) == s + n || (s + 1) % 4 + (n - 1) == s + n - 4;
    }
  }

  /** From an out-of-range state, the first step lands on 0 and the rest count
      up from there. */
  lemma NextNOutOfRange(s: int, n: nat)
    requires !InRange(s) && n > 0
    ensures NextN(s, n) == (n - 1) % 4
  {
    NextNInRange(0, n - 1);
  }

  /** Whatever value StepState held, it is in range after at least one step. */
  lemma {:induction false} NextNLandsInRange(s: int, n: nat)
    requires n > 0
    ensures InRange(NextN(s, n))
    decreases n
  {
    if n > 1 {
      NextNLandsInRange(Next(s), n - 1);
    }
  }

  /** Four steps from an in-range state return to it. */
  lemma PeriodFour(s: int, k: nat)
    requires InRange(s)
    ensures NextN(s, 4 * k) == s
  {
    NextNInRange(s, 4 * k);
    assert (s + 4 * k) % 4 == s;
  }

  /** m steps followed by n steps issue the same writes as m + n steps. */
  lemma {:induction false} StepsWritesSplit(s: int, m: nat, n: nat)
    ensures StepsWrites(s, m + n) == StepsWrites(s, m) + StepsWrites(NextN(s, m), n)
    decreases m
  {
    if m > 0 {
      StepsWritesSplit(Next(s), m - 1, n);
      assert StepsWrites(s, m + n) == StepWrites(s) + StepsWrites(Next(s), (m - 1) + n);
    }
  }

  /** From an in-range state the write sequence repeats with period 4: four
      more steps first reissue the four-step sequence and then continue
      exactly as if they had not been taken. */
  lemma StepsWritesPeriodic(s: int, n: nat)
    requires InRange(s)
    ensures StepsWrites(s, 4 + n) == StepsWrites(s, 4) + StepsWrites(s, n)
  {
    StepsWritesSplit(s, 4, n);
    PeriodFour(s, 1);
  }

  /** Four steps from an in-range state s issue, in order, the writes of the
      steps leaving s, s + 1, s + 2 and s + 3 (modulo 4): each state's pattern
      followed by an enable pulse. */
  lemma FourStepCycle(s: int)
    requires InRange(s)
    ensures StepsWrites(s, 4) ==
      StepWrites(s) + StepWrites((s + 1) % 4) + StepWrites((s + 2) % 4) + StepWrites((s + 3) % 4)
  {
    assert Next(s) == (s + 1) % 4 && Next(Next(s)) == (s + 2) % 4 && Next(Next(Next(s))) == (s + 3) % 4 by {
      assert s == 0 || s == 1 || s == 2 || s == 3;
    }
    FourStepsUnfold(s);
    var w0, w1, w2, w3 := StepWrites(s), StepWrites(Next(s)), StepWrites(Next(Next(s))), StepWrites(Next(Next(Next(s))));
    ConcatAssoc(w0, w1, w2 + w3);
    ConcatAssoc(w0 + w1, w2, w3);
  }

  /** Four steps from any state issue the writes of the four states visited. */
  lemma FourStepsUnfold(s: int)
    ensures StepsWrites(s, 4) ==
      StepWrites(s) + (StepWrites(Next(s)) + (StepWrites(Next(Next(s))) + StepWrites(Next(Next(Next(s))))))
  {
    var s3 := Next(Next(Next(s)));
    SingleStepWrites(s3);
    assert StepsWrites(s, 4) == StepWrites(s) + StepsWrites(Next(s), 3);
    assert StepsWrites(Next(s), 3) == StepWrites(Next(s)) + StepsWrites(Next(Next(s)), 2);
    assert StepsWrites(Next(Next(s)), 2) == StepWrites(Next(Next(s))) + StepsWrites(s3, 1);
  }

  /** Sequence concatenation is associative. */
  lemma ConcatAssoc<T>(x: seq<T>, y: seq<T>, z: seq<T>)
    ensures x + (y + z) == x + y + z
  {
  }

  /** One step issues exactly StepWrites. */
  lemma SingleStepWrites(s: int)
    ensures StepsWrites(s, 1) == StepWrites(s)
  {
    assert StepsWrites(s, 1) == StepWrites(s) + StepsWrites(Next(s), 0);
  }

  /** The corollary for state 0: four steps drive the patterns of states 0, 1,
      2 and 3 in that order, each followed by enable high then low. */
  lemma CycleFromZero()
    ensures StepsWrites(0, 4) ==
      PhaseWrites(0) + [Write(Ena, true), Write(Ena, false)] +
      PhaseWrites(1) + [Write(Ena, true), Write(Ena, false)] +
      PhaseWrites(2) + [Write(Ena, true), Write(Ena, false)] +
      PhaseWrites(3) + [Write(Ena, true), Write(Ena, false)]
  {
    FourStepCycle(0);
  }

  /** Every state of the cycle has its own pattern. */
  lemma PatternsDistinct(s: int, t: int)
    requires InRange(s) && InRange(t)
    ensures Pattern(s) == Pattern(t) <==> s == t
  {
  }

  /** Consecutive patterns of the cycle (3 is followed by 0) differ in exactly
      one coil: either A/B reverses or C/D does, never both. */
  lemma AdjacentPatternsReverseOneCoil(s: int)
    requires InRange(s)
    ensures (Pattern(s).a != Pattern(Next(s)).a) != (Pattern(s).c != Pattern(Next(s)).c)
  {
  }

  /** The driver for one stepper motor. The pin fields hold the numbers the
      pins were opened with; the level fields hold what was last driven on
      each pin, and Writes logs every write in order. */
  class Stepper {
    const PinEna: int
    const PinA: int
    const PinB: int
    const PinC: int
    const PinD: int
    var StepState: int
    var PulseDuration: int

    // The fields above keep the Go struct's names; the level fields and the
    // write log below exist only in the model and follow Dafny's camelCase.
    var levelEna: bool
    var levelA: bool
    var levelB: bool
    var levelC: bool
    var levelD: bool

    ghost var Writes: seq<Write>

    /** The levels of the phase pins. */
    function Phases(): Phase
      reads this
    {
      Phase(Level(A), Level(B), Level(C), Level(D))
    }

    /** The level of one pin. */
    function Level(p: PinId): bool
      reads this
    {
      match p
      case Ena => levelEna
      case A => levelA
      case B => levelB
      case C => levelC
      case D => levelD
    }

    /** A stepper bound to the given pin numbers, at state 0 with a 15 ms
        pulse. No SetHigh/SetLow is issued, so the pin levels are unspecified. */
    constructor (enaPin: int, pinA: int, pinB: int, pinC: int, pinD: int)
      ensures PinEna == enaPin && PinA == pinA && PinB == pinB && PinC == pinC && PinD == pinD
      ensures StepState == 0 && PulseDuration == 15
      ensures Writes == []
    {
      PinEna, PinA, PinB, PinC, PinD := enaPin, pinA, pinB, pinC, pinD;
      StepState := 0;
      PulseDuration := 15;
      Writes := [];
    }

    /** SetHigh (high == true) or SetLow on one pin. */
    method Drive(p: PinId, high: bool)
      modifies this
      ensures levelEna == if p == Ena then high else old(levelEna)
      ensures levelA == if p == A then high else old(levelA)
      ensures levelB == if p == B then high else old(levelB)
      ensures levelC == if p == C then high else old(levelC)
      ensures levelD == if p == D then high else old(levelD)
      ensures StepState == old(StepState) && PulseDuration == old(PulseDuration)
      ensures Writes == old(Writes) + [Write(p, high)]
    {
      match p {
        case Ena => levelEna := high;
        case A => levelA := high;
        case B => levelB := high;
        case C => levelC := high;
        case D => levelD := high;
      }
      Writes := Writes + [Write(p, high)];
    }

    /** One full step: drive the pattern of the current state, move to the next
        state (an out-of-range state is reset to 0 and drives no phase pin),
        then pulse the enable pin high and back low. */
    method Step()
      modifies this
      ensures StepState == Next(old(StepState))
      ensures InRange(old(StepState)) ==> Phases() == Pattern(old(StepState))
      ensures !InRange(old(StepState)) ==> Phases() == old(Phases())
      ensures !levelEna
      ensures PulseDuration == old(PulseDuration)
      ensures Writes == old(Writes) + StepWrites(old(StepState))
    {
      ghost var s0, w0 := StepState, Writes;
      match StepState {
        case 0 =>
          Drive(A, true);
          Drive(B, false);
          Drive(C, false);
          Drive(D, true);
          StepState := 1;
        case 1 =>
          Drive(A, false);
          Drive(B, true);
          Drive(C, false);
          Drive(D, true);
          StepState := 2;
        case 2 =>
          Drive(A, false);
          Drive(B, true);
          Drive(C, true);
          Drive(D, false);
          StepState := 3;
        case 3 =>
          Drive(A, true);
          Drive(B, false);
          Drive(C, true);
          Drive(D, false);
          StepState := 0;
        case _ =>
          StepState := 0;
      }
      assert Writes == w0 + PhaseWrites(s0);
      Drive(Ena, true);
      Drive(Ena, false);
      assert Writes == w0 + (PhaseWrites(s0) + [Write(Ena, true), Write(Ena, false)]);
    }
  }

  /** Four Step calls from an in-range state restore StepState, leave the
      pattern of the state before it on the phase pins, and issue the
      four-step write sequence, which then repeats. */
  method FourSteps(st: Stepper)
    requires InRange(st.StepState)
    modifies st
    ensures st.StepState == old(st.StepState)
    ensures st.Phases() == Pattern((old(st.StepState) + 3) % 4)
    ensures st.Writes == old(st.Writes) + StepsWrites(old(st.StepState), 4)
    ensures !st.levelEna && st.PulseDuration == old(st.PulseDuration)
  {
    ghost var s, w := st.StepState, st.Writes;
    ghost var w0, w1, w2, w3 := StepWrites(s), StepWrites(Next(s)),
      StepWrites(Next(Next(s))), StepWrites(Next(Next(Next(s))));
    st.Step();
    ghost var after1 := st.Writes;
    st.Step();
    ghost var after2 := st.Writes;
    st.Step();
    ghost var after3 := st.Writes;
    st.Step();
    assert st.Writes == after3 + w3 && after3 == after2 + w2 && after2 == after1 + w1 && after1 == w + w0;
    FourStepsUnfold(s);
    ConcatAssoc(w, w0, w1 + (w2 + w3));
    ConcatAssoc(w + w0, w1, w2 + w3);
    ConcatAssoc(w + w0 + w1, w2, w3);
    assert Next(Next(Next(s))) == (s + 3) % 4 by {
      assert s == 0 || s == 1 || s == 2 || s == 3;
    }
  }
}
