/** The robot: reads a snapshot of the PPM decoder, classifies it into
    sticks, and drives four mecanum wheels from the right stick. */
module Robot {
  import opened Ints
  import opened Flysky
  import opened Helper
  import Ppm
  import HelperProperties
  import FlyskyProperties

  /** The previous signed magnitudes, kept as u8 (`PwmValues`). */
  datatype PwmValues = PwmValues(pwmY: U8, pwmX: U8)

  /** The last command a motor received: `forward`, `backward` or `stop` of
      the `Motor` interface; Idle before the first one. */
  datatype MotorAction = Idle | Forward(duty: U8) | Backward(duty: U8) | Stop

  /** The four wheel commands a, b, c, d. */
  datatype Wheels = Wheels(a: I16, b: I16, c: I16, d: I16)

  function Wheel(w: Wheels, i: nat): I16
    requires i < 4
  {
    if i == 0 then w.a else if i == 1 then w.b else if i == 2 then w.c else w.d
  }

  /** `apply_motor`: the sign selects the action, the magnitude (cast to
      u8) the duty. */
  function ApplyMotor(value: I16): (action: MotorAction)
    ensures action.Forward? <==> value > 0
    ensures action.Backward? <==> value < 0
    ensures action == Stop <==> value == 0
    ensures action != Idle
    ensures -MAX_POTENCY <= value <= MAX_POTENCY && value != 0 ==> action.duty == Abs(value)
  {
    if value > 0 then Forward(TruncateToU8(value))
    else if value < 0 then Backward(TruncateToU8(WrapI16(0 - value as int)))
    else Stop
  }

  /** The forward input y of `right_stick_management`: the signed magnitude
      of an Up or Down reading, 0 for any other position. */
  function AxisY(movement: StickMovement, prev: U8): (y: I16)
    ensures !(movement.upDown.Up? || movement.upDown.Down?) ==> y == 0
  {
    match movement.upDown
    case Up(v) => MapU16ToI16(v, prev)
    case Down(v) => MapU16ToI16(v, prev)
    case _ => 0
  }

  /** The strafe input x: the signed magnitude of a Right or Left reading,
      0 for any other position. */
  function AxisX(movement: StickMovement, prev: U8): (x: I16)
    ensures !(movement.rightLeft.Right? || movement.rightLeft.Left?) ==> x == 0
  {
    match movement.rightLeft
    case Right(v) => MapU16ToI16(v, prev)
    case Left(v) => MapU16ToI16(v, prev)
    case _ => 0
  }

  /** The mecanum sums, in i16 (wrapping): each wheel is its exact sum
      modulo 2^16, and exactly that sum when the inputs cannot overflow. */
  function MecanumSums(y: I16, x: I16, r: I16): (w: Wheels)
    ensures (y + x + r - w.a) % 0x1_0000 == 0 && (y - x - r - w.b) % 0x1_0000 == 0
    ensures (y - x + r - w.c) % 0x1_0000 == 0 && (y + x - r - w.d) % 0x1_0000 == 0
    ensures NoWrap(y, x, r) ==> w == Wheels(y + x + r, y - x - r, y - x + r, y + x - r)
  {
    Wheels(WrapI16(y + x + r), WrapI16(y - x - r), WrapI16(y - x + r), WrapI16(y + x - r))
  }

  /** The largest wheel magnitude, taken with i16 `abs`: it is one of the
      four magnitudes and bounds every wheel except a wrapped -32768. */
  function MaxMagnitude(w: Wheels): (m: I16)
    ensures m == WrappingAbsI16(w.a) || m == WrappingAbsI16(w.b) || m == WrappingAbsI16(w.c) || m == WrappingAbsI16(w.d)
    ensures forall i :: 0 <= i < 4 && Wheel(w, i) != -0x8000 ==> Abs(Wheel(w, i)) <= m
  {
    Max(WrappingAbsI16(w.a), Max(WrappingAbsI16(w.b), Max(WrappingAbsI16(w.c), WrappingAbsI16(w.d))))
  }

  /** One wheel scaled by 255/m and cast back to i16 (a float cast, so it
      rounds toward zero and saturates): the magnitude becomes
      |v| * 255 / m, never more than |v|, and the direction is never
      reversed (a small wheel may drop to 0). */
  function Scale(v: I16, m: int): (s: I16)
    requires m > MAX_POTENCY
    ensures Abs(s) == Abs(v) * MAX_POTENCY / m <= Abs(v)
    ensures v >= 0 ==> s >= 0
    ensures v <= 0 ==> s <= 0
  {
    var q := TruncDiv(v * MAX_POTENCY, m);
    assert Abs(v * MAX_POTENCY) == Abs(v) * MAX_POTENCY;
    MulLeMono(Abs(v), MAX_POTENCY, m);
    DivAtMost(Abs(v) * MAX_POTENCY, Abs(v), m);
    SaturateI16(q)
  }

  /** Proportional rescaling: when a wheel exceeds 255 in magnitude, all four
      are scaled by the same factor; otherwise they pass through. No wheel
      grows or reverses direction (a small one may drop to 0), and unless a wheel is a wrapped -32768 all
      four end within [-255, 255]. */
  function Normalize(w: Wheels): (n: Wheels)
    ensures MaxMagnitude(w) <= MAX_POTENCY ==> n == w
    ensures forall i :: 0 <= i < 4 ==>
      && Abs(Wheel(n, i)) <= Abs(Wheel(w, i))
      && (Wheel(w, i) >= 0 ==> Wheel(n, i) >= 0)
      && (Wheel(w, i) <= 0 ==> Wheel(n, i) <= 0)
    ensures (forall i :: 0 <= i < 4 ==> Wheel(w, i) != -0x8000) ==>
      forall i :: 0 <= i < 4 ==> -MAX_POTENCY <= Wheel(n, i) <= MAX_POTENCY
  {
    var m := MaxMagnitude(w);
    if m > MAX_POTENCY then
      ScaleAll(w, m);
      Wheels(Scale(w.a, m), Scale(w.b, m), Scale(w.c, m), Scale(w.d, m))
    else
      w
  }

  /** Scaling all four wheels by 255/m shrinks each without reversing its
      direction (a small one may drop to 0), and brings each wheel no larger than m within 255. */
  lemma ScaleAll(w: Wheels, m: int)
    requires m > MAX_POTENCY
    ensures var n := Wheels(Scale(w.a, m), Scale(w.b, m), Scale(w.c, m), Scale(w.d, m));
      forall i :: 0 <= i < 4 ==>
        && Abs(Wheel(n, i)) <= Abs(Wheel(w, i))
        && (Wheel(w, i) >= 0 ==> Wheel(n, i) >= 0)
        && (Wheel(w, i) <= 0 ==> Wheel(n, i) <= 0)
        && (Abs(Wheel(w, i)) <= m ==> -MAX_POTENCY <= Wheel(n, i) <= MAX_POTENCY)
  {
    var n := Wheels(Scale(w.a, m), Scale(w.b, m), Scale(w.c, m), Scale(w.d, m));
    forall i | 0 <= i < 4
      ensures Wheel(n, i) == Scale(Wheel(w, i), m)
      ensures Abs(Wheel(w, i)) <= m ==> -MAX_POTENCY <= Wheel(n, i) <= MAX_POTENCY
    {
      ScaleWithin(Wheel(w, i), m);
    }
  }

  /** The wheel commands for forward y, strafe x and rotation r: within
      [-255, 255] whenever the sums do not wrap. */
  function Mix(y: I16, x: I16, r: I16): (w: Wheels)
    ensures NoWrap(y, x, r) ==> forall i :: 0 <= i < 4 ==> -MAX_POTENCY <= Wheel(w, i) <= MAX_POTENCY
  {
    var sums := MecanumSums(y, x, r);
    assert NoWrap(y, x, r) ==> sums.a != -0x8000 && sums.b != -0x8000 && sums.c != -0x8000 && sums.d != -0x8000;
    Normalize(sums)
  }

  /** The wheel commands `right_stick_management` computes for `movement`
      when the previous magnitudes are `prev`; the rotation is always 0, so
      the diagonal pairs agree, and a stick centred on both axes stops all
      four wheels. */
  function Drive(movement: StickMovement, prev: PwmValues): (w: Wheels)
    ensures w.a == w.d && w.b == w.c
    ensures !movement.upDown.Up? && !movement.upDown.Down? && !movement.rightLeft.Right? && !movement.rightLeft.Left? ==>
      w == Wheels(0, 0, 0, 0)
  {
    Mix(AxisY(movement, prev.pwmY), AxisX(movement, prev.pwmX), 0)
  }

  /** The inputs are small enough that no mecanum sum wraps. */
  predicate NoWrap(y: I16, x: I16, r: I16)
  {
    Abs(y) + Abs(x) + Abs(r) < 0x8000
  }

  /** With no rotation, wheels a and d get the same command, and so do b and c. */
  lemma MixPairs(y: I16, x: I16)
    ensures Mix(y, x, 0).a == Mix(y, x, 0).d
    ensures Mix(y, x, 0).b == Mix(y, x, 0).c
  {
  }

  /** Pure forward gives four equal commands; pure strafe gives (x, -x, -x, x). */
  lemma MixForwardAndStrafe(v: I16)
    requires -MAX_POTENCY <= v <= MAX_POTENCY
    ensures Mix(v, 0, 0) == Wheels(v, v, v, v)
    ensures Mix(0, v, 0) == Wheels(v, -v, -v, v)
  {
  }

  /** When no sum exceeds 255 in magnitude, the sums reach the motors unchanged. */
  lemma MixPassesThrough(y: I16, x: I16, r: I16)
    requires NoWrap(y, x, r)
    requires Abs(y + x + r) <= MAX_POTENCY && Abs(y - x - r) <= MAX_POTENCY
    requires Abs(y - x + r) <= MAX_POTENCY && Abs(y + x - r) <= MAX_POTENCY
    ensures Mix(y, x, r) == Wheels(y + x + r, y - x - r, y - x + r, y + x - r)
  {
    assert MaxMagnitude(MecanumSums(y, x, r)) <= MAX_POTENCY;
  }

  /** Scaling a wheel no larger than m by 255/m brings it within 255. */
  lemma ScaleWithin(v: I16, m: int)
    requires m > MAX_POTENCY
    ensures Abs(v) <= m ==> Abs(Scale(v, m)) <= MAX_POTENCY
  {
    if Abs(v) <= m {
      DivAtMost(Abs(v) * MAX_POTENCY, MAX_POTENCY, m);
    }
  }

  /** When no sum wraps, every wheel command lies in [-255, 255], none points
      against its sum (a small one may drop to 0), and the order of the magnitudes is kept (the
      rescaling is proportional, not a per-wheel clip). */
  lemma MixWithinRange(y: I16, x: I16, r: I16)
    requires NoWrap(y, x, r)
    ensures var sums, w := MecanumSums(y, x, r), Mix(y, x, r);
      && (forall i :: 0 <= i < 4 ==> -MAX_POTENCY <= Wheel(w, i) <= MAX_POTENCY)
      && (forall i :: 0 <= i < 4 ==> (Wheel(sums, i) >= 0 ==> Wheel(w, i) >= 0) && (Wheel(sums, i) <= 0 ==> Wheel(w, i) <= 0))
      && (forall i, j :: 0 <= i < 4 && 0 <= j < 4 && Abs(Wheel(sums, i)) <= Abs(Wheel(sums, j)) ==>
            Abs(Wheel(w, i)) <= Abs(Wheel(w, j)))
  {
    var sums := MecanumSums(y, x, r);
    var m := MaxMagnitude(sums);
    assert sums == Wheels(y + x + r, y - x - r, y - x + r, y + x - r);
    assert forall i :: 0 <= i < 4 ==> Abs(Wheel(sums, i)) <= m;
    if m > MAX_POTENCY {
      forall i | 0 <= i < 4
        ensures Abs(Scale(Wheel(sums, i), m)) == Abs(Wheel(sums, i)) * MAX_POTENCY / m <= MAX_POTENCY
        ensures Wheel(sums, i) >= 0 ==> Scale(Wheel(sums, i), m) >= 0
        ensures Wheel(sums, i) <= 0 ==> Scale(Wheel(sums, i), m) <= 0
      {
        ScaleWithin(Wheel(sums, i), m);
      }
      assert forall i :: 0 <= i < 4 ==> Wheel(Mix(y, x, r), i) == Scale(Wheel(sums, i), m);
      forall i, j | 0 <= i < 4 && 0 <= j < 4 && Abs(Wheel(sums, i)) <= Abs(Wheel(sums, j))
        ensures Abs(Wheel(Mix(y, x, r), i)) <= Abs(Wheel(Mix(y, x, r), j))
      {
        DivMonotone(Abs(Wheel(sums, i)) * MAX_POTENCY, Abs(Wheel(sums, j)) * MAX_POTENCY, m);
      }
    }
  }

  /** Saturation: (300, 300) sums to (600, 0, 0, 600), rescaled to (255, 0, 0, 255). */
  lemma SaturatedExample()
    ensures MecanumSums(300, 300, 0) == Wheels(600, 0, 0, 600)
    ensures Mix(300, 300, 0) == Wheels(255, 0, 0, 255)
  {
  }

  /** A small wheel stops: (300, 299) sums to (599, 1, 1, 599), and the
      rescale truncates 1 * 255 / 599 to 0, so wheels b and c go from a
      forward sum to `stop`. */
  lemma SmallWheelStops()
    ensures MecanumSums(300, 299, 0) == Wheels(599, 1, 1, 599)
    ensures Mix(300, 299, 0) == Wheels(255, 0, 0, 255)
    ensures ApplyMotor(Mix(300, 299, 0).b) == Stop && ApplyMotor(Mix(300, 299, 0).c) == Stop
  {
  }

  /** The previous magnitudes reach only the ignored `prev` argument of the
      signed mapper, so the commands do not depend on them. */
  lemma DriveIgnoresPwmValues(movement: StickMovement, p: PwmValues, q: PwmValues)
    ensures Drive(movement, p) == Drive(movement, q)
  {
    assert AxisY(movement, p.pwmY) == AxisY(movement, q.pwmY);
    assert AxisX(movement, p.pwmX) == AxisX(movement, q.pwmX);
  }

  /** For any frame the decoder can hold (every width below the 4000 us gap),
      the right stick's inputs are within [-821, 1387], no mecanum sum wraps,
      and every wheel command lies in [-255, 255]. */
  lemma FrameDrivesInRange(values: seq<U16>, prev: PwmValues)
    requires |values| == 6
    requires forall i :: 0 <= i < 6 ==> values[i] < Ppm.BLANK_PPM_SIGNAL
    ensures var mv := Classify(values).right.movement;
      && NoWrap(AxisY(mv, prev.pwmY), AxisX(mv, prev.pwmX), 0)
      && forall i :: 0 <= i < 4 ==> -MAX_POTENCY <= Wheel(Drive(mv, prev), i) <= MAX_POTENCY
  {
    var mv := Classify(values).right.movement;
    HelperProperties.SignedBelowBlank(values[0], prev.pwmX);
    HelperProperties.SignedBelowBlank(values[1], prev.pwmY);
    assert -821 <= AxisY(mv, prev.pwmY) <= 1387;
    assert -821 <= AxisX(mv, prev.pwmX) <= 1387;
    MixWithinRange(AxisY(mv, prev.pwmY), AxisX(mv, prev.pwmX), 0);
  }

  /** The robot's state: the previous magnitudes and each motor's last
      command. `flysky` stands for the FlySky manager, whose only state is
      the PPM decoder's. */
  class Robot {
    var pwmValues: PwmValues
    var motorA: MotorAction
    var motorB: MotorAction
    var motorC: MotorAction
    var motorD: MotorAction
    const flysky: Ppm.Decoder

    constructor (decoder: Ppm.Decoder)
      ensures flysky == decoder
      ensures pwmValues == PwmValues(0, 0)
      ensures motorA == Idle && motorB == Idle && motorC == Idle && motorD == Idle
    {
      flysky := decoder;
      pwmValues := PwmValues(0, 0);
      motorA, motorB, motorC, motorD := Idle, Idle, Idle, Idle;
    }

    /** The state after driving the wheels from `movement`, starting from the
        previous magnitudes `prev`. */
    ghost predicate DrivenBy(movement: StickMovement, prev: PwmValues)
      reads this
    {
      var y := AxisY(movement, prev.pwmY);
      var x := AxisX(movement, prev.pwmX);
      var w := Drive(movement, prev);
      && pwmValues == PwmValues(TruncateToU8(y), TruncateToU8(x))
      && motorA == ApplyMotor(w.a) && motorB == ApplyMotor(w.b)
      && motorC == ApplyMotor(w.c) && motorD == ApplyMotor(w.d)
    }

    /** `right_stick_management`. */
    method RightStickManagement(movement: StickMovement)
      modifies this
      ensures DrivenBy(movement, old(pwmValues))
    {
      ghost var prev := pwmValues;
      var y: I16 := match movement.upDown
        case Up(v) => MapU16ToI16(v, pwmValues.pwmY)
        case Down(v) => MapU16ToI16(v, pwmValues.pwmY)
        case _ => 0;
      var x: I16 := match movement.rightLeft
        case Right(v) => MapU16ToI16(v, pwmValues.pwmX)
        case Left(v) => MapU16ToI16(v, pwmValues.pwmX)
        case _ => 0;
      assert y == AxisY(movement, prev.pwmY);
      assert x == AxisX(movement, prev.pwmX);

      pwmValues := pwmValues.(pwmY := TruncateToU8(y));
      pwmValues := pwmValues.(pwmX := TruncateToU8(x));

      var r: I16 := 0;

      var sums := MecanumSums(y, x, r);
      var a, b, c, d := sums.a, sums.b, sums.c, sums.d;
      var max := MaxMagnitude(Wheels(a, b, c, d));
      if max > MAX_POTENCY {
        a := Scale(a, max);
        b := Scale(b, max);
        c := Scale(c, max);
        d := Scale(d, max);
        assert Wheels(a, b, c, d) == Normalize(sums);
      } else {
        assert Wheels(a, b, c, d) == Normalize(sums);
      }
      assert Normalize(sums) == Mix(y, x, 0);
      assert Mix(y, x, 0) == Drive(movement, prev);

      motorA := ApplyMotor(a);
      motorB := ApplyMotor(b);
      motorC := ApplyMotor(c);
      motorD := ApplyMotor(d);
    }

    /** `StickProcessor::process`: only the right stick drives the robot. */
    method Process(stick: Stick)
      modifies this
      ensures stick.kind == RightStick ==> DrivenBy(stick.movement, old(pwmValues))
      ensures stick.kind != RightStick ==>
        && pwmValues == old(pwmValues)
        && motorA == old(motorA) && motorB == old(motorB) && motorC == old(motorC) && motorD == old(motorD)
    {
      match stick.kind
      case RightStick =>
        RightStickManagement(stick.movement);
      case _ =>
    }

    /** `process_flysky_sticks`: one control cycle. The sticks are processed
        in the order left, right, vra, vrb; only the right one acts. */
    method ProcessFlySkySticks()
      requires flysky.Valid()
      modifies this
      ensures DrivenBy(Classify(flysky.channelValues[..]).right.movement, old(pwmValues))
      ensures forall i :: 0 <= i < 4 ==>
        -MAX_POTENCY <= Wheel(Drive(Classify(flysky.channelValues[..]).right.movement, old(pwmValues)), i) <= MAX_POTENCY
    {
      ghost var values := flysky.channelValues[..];
      ghost var prev := pwmValues;
      var channels := flysky.GetChannels();
      var status := ToFlySky(channels);
      assert ValuesOf(channels) == values;
      assert status == Classify(values);
      FlyskyProperties.ClassifyKeepsKinds(values);
      Process(status.left);
      assert pwmValues == prev;
      Process(status.right);
      assert DrivenBy(status.right.movement, prev);
      Process(status.vra);
      Process(status.vrb);
      assert flysky.channelValues[..] == values;
      FrameDrivesInRange(values, prev);
    }
  }
}
