/** The axis mappers: four ways of turning a pulse width into a drive
    magnitude. Only the signed dead-zone mapper is wired into the drive
    path; the other three are kept as selectable strategies. */
module Helper {
  import opened Ints
  import opened Flysky

  const MAX_POTENCY: int := 255
  const MIN_POTENCY: int := 0

  /** `map_value_to_potency`: linear from [1000, 2000] onto [0, 255], after
      clamping. */
  function MapValueToPotency(value: U16): (r: U8)
    ensures r == (Clamp(value, MIN_POSITION, MAX_POSITION) - MIN_POSITION) * MAX_POTENCY / 1000
    ensures value <= MIN_POSITION ==> r == 0
    ensures value >= MAX_POSITION ==> r == MAX_POTENCY
  {
    var inMin, inMax := MIN_POSITION, MAX_POSITION;
    var outMin, outMax := MIN_POTENCY, MAX_POTENCY;
    var clamped := Clamp(value, inMin, inMax);
    var scaled := (clamped - inMin) * (outMax - outMin) / (inMax - inMin) + outMin;
    TruncateToU8(scaled)
  }

  /** `map_u16_to_u8_2`: the distance from the centre 1500, after clamping,
      scaled onto [0, 255]; the direction is discarded. */
  function MapU16ToU8Folded(value: U16): (r: U8)
    ensures r == Abs(Clamp(value, MIN_POSITION, MAX_POSITION) - MID_POSITION) * MAX_POTENCY / 500
    ensures value == MID_POSITION ==> r == 0
    ensures value <= MIN_POSITION || value >= MAX_POSITION ==> r == MAX_POTENCY
  {
    var clamped := Clamp(value, MIN_POSITION, MAX_POSITION);
    var mid := (MIN_POSITION + MAX_POSITION) / 2;
    if clamped < mid then
      TruncateToU8((mid - clamped) * MAX_POTENCY / (mid - MIN_POSITION))
    else
      TruncateToU8((clamped - mid) * MAX_POTENCY / (MAX_POSITION - mid))
  }

  /** `map_u16_to_u8`: the folded magnitude with a hysteresis of 2 around
      the previous output `last`. */
  function MapU16ToU8(value: U16, last: U8): (r: U8)
    ensures r == last || r == MapU16ToU8Folded(value)
    ensures r == last <==> Abs(MapU16ToU8Folded(value) - last) <= 2
    ensures Abs(r - MapU16ToU8Folded(value)) <= 2
  {
    var scaled := MapU16ToU8Folded(value);
    var threshold := 2;
    if Abs(scaled - last) <= threshold then last else scaled
  }

  const CENTER: int := 1500
  const DEADZONE: int := 50

  /** `map_u16_to_i16`: zero inside the dead zone [1450, 1550], otherwise the
      distance beyond the dead zone scaled so that 2000 gives 255 and 1000
      gives -255. The input is not clamped, and `prev` is not used. The
      firmware computes in f32 and casts (saturating) to i16; here the
      quotient is truncated as an integer. */
  function MapU16ToI16(value: U16, prev: U8): (r: I16)
    ensures CENTER - DEADZONE <= value <= CENTER + DEADZONE ==> r == 0
    ensures value > CENTER + DEADZONE ==> r >= 0
    ensures value < CENTER - DEADZONE ==> r <= 0
    ensures value == MAX_POSITION ==> r == MAX_POTENCY
    ensures value == MIN_POSITION ==> r == -MAX_POTENCY
    ensures MIN_POSITION <= value <= MAX_POSITION ==> -MAX_POTENCY <= r <= MAX_POTENCY
    ensures value >= MAX_POSITION + 2 ==> r > MAX_POTENCY
    ensures value <= MIN_POSITION - 2 ==> r < -MAX_POTENCY
  {
    if value > CENTER + DEADZONE then
      SaturateI16((value - (CENTER + DEADZONE)) * MAX_POTENCY / (MAX_POSITION - (CENTER + DEADZONE)))
    else if value < CENTER - DEADZONE then
      -(((CENTER - DEADZONE) - value) * MAX_POTENCY / ((CENTER - DEADZONE) - MIN_POSITION))
    else
      0
  }
}

/** Properties relating the mappers' results for different inputs. */
module HelperProperties {
  import opened Ints
  import opened Flysky
  import opened Helper

  /** Every mapper clamps first: widths below 1000 act as 1000 and widths
      above 2000 as 2000. */
  lemma MappersClamp(value: U16, last: U8)
    ensures MapValueToPotency(value) == MapValueToPotency(Clamp(value, MIN_POSITION, MAX_POSITION))
    ensures MapU16ToU8Folded(value) == MapU16ToU8Folded(Clamp(value, MIN_POSITION, MAX_POSITION))
    ensures MapU16ToU8(value, last) == MapU16ToU8(Clamp(value, MIN_POSITION, MAX_POSITION), last)
  {
  }

  /** The linear mapper never decreases as the width grows. */
  lemma PotencyMonotone(a: U16, b: U16)
    requires a <= b
    ensures MapValueToPotency(a) <= MapValueToPotency(b)
  {
  }

  /** The folded mapper is symmetric about the centre. */
  lemma FoldedSymmetric(k: nat)
    requires k <= MID_POSITION
    ensures MapU16ToU8Folded(MID_POSITION - k) == MapU16ToU8Folded(MID_POSITION + k)
  {
  }

  /** The folded mapper grows with the distance from the centre, on either
      side. */
  lemma FoldedMonotoneAwayFromCenter(a: U16, b: U16)
    requires MID_POSITION <= a <= b || b <= a <= MID_POSITION
    ensures MapU16ToU8Folded(a) <= MapU16ToU8Folded(b)
  {
  }

  /** Feeding the hysteresis mapper its own output changes nothing: the
      output is a fixed point for the same width. */
  lemma HysteresisSettles(value: U16, last: U8)
    ensures MapU16ToU8(value, MapU16ToU8(value, last)) == MapU16ToU8(value, last)
  {
  }

  /** A change of 1 (to 51) is absorbed, a change of 5 (to 55) is passed on. */
  lemma HysteresisExamples()
    ensures MapU16ToU8Folded(1600) == 51 && MapU16ToU8(1600, 50) == 50
    ensures MapU16ToU8Folded(1608) == 55 && MapU16ToU8(1608, 50) == 55
  {
  }

  /** The signed mapper never decreases as the width grows. */
  lemma SignedMonotone(a: U16, b: U16, pa: U8, pb: U8)
    requires a <= b
    ensures MapU16ToI16(a, pa) <= MapU16ToI16(b, pb)
  {
  }

  /** For any width a PPM frame can hold (below the 4000 us gap), the signed
      magnitude lies in [-821, 1387]. */
  lemma SignedBelowBlank(value: U16, prev: U8)
    requires value < 4000
    ensures -821 <= MapU16ToI16(value, prev) <= 1387
  {
    SignedMonotone(0, value, prev, prev);
    SignedMonotone(value, 3999, prev, prev);
  }
}
