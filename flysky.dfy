/** The FlySky stick classifier: the six pulse widths of a PPM frame become
    four logical sticks, each axis holding a position bucket and the raw
    width. */
module Flysky {
  import opened Ints

  // Stick positions: the middle band and the physical range
  const RANGE_MID_POSITION_MAX: int := 1550
  const RANGE_MID_POSITION_MIN: int := 1450
  const MAX_POSITION: int := 2000
  const MIN_POSITION: int := 1000
  const MID_POSITION: int := 1500

  datatype Position = Up(value: U16) | Down(value: U16) | Left(value: U16) | Right(value: U16) | Center(value: U16)

  datatype StickMovement = StickMovement(upDown: Position, rightLeft: Position, center: Position)

  /** The tag of the firmware's `Stick` enum; every variant carries a movement. */
  datatype StickKind = RightStick | LeftStick | VraStick | VrbStick

  datatype Stick = Stick(kind: StickKind, movement: StickMovement)

  datatype FlySky = FlySky(right: Stick, left: Stick, vra: Stick, vrb: Stick)

  /** `set_right_value`. */
  function SetRightValue(stick: Stick, value: U16): (r: Stick)
    ensures r.kind == stick.kind
    ensures r.movement.rightLeft == Right(value)
    ensures r.movement.upDown == stick.movement.upDown && r.movement.center == stick.movement.center
  {
    stick.(movement := stick.movement.(rightLeft := Right(value)))
  }

  /** `set_left_value`. */
  function SetLeftValue(stick: Stick, value: U16): (r: Stick)
    ensures r.kind == stick.kind
    ensures r.movement.rightLeft == Left(value)
    ensures r.movement.upDown == stick.movement.upDown && r.movement.center == stick.movement.center
  {
    stick.(movement := stick.movement.(rightLeft := Left(value)))
  }

  /** `set_up_value`. */
  function SetUpValue(stick: Stick, value: U16): (r: Stick)
    ensures r.kind == stick.kind
    ensures r.movement.upDown == Up(value)
    ensures r.movement.rightLeft == stick.movement.rightLeft && r.movement.center == stick.movement.center
  {
    stick.(movement := stick.movement.(upDown := Up(value)))
  }

  /** `set_down_value`. */
  function SetDownValue(stick: Stick, value: U16): (r: Stick)
    ensures r.kind == stick.kind
    ensures r.movement.upDown == Down(value)
    ensures r.movement.rightLeft == stick.movement.rightLeft && r.movement.center == stick.movement.center
  {
    stick.(movement := stick.movement.(upDown := Down(value)))
  }

  /** `set_center_value`: only the `center` field records a centred reading. */
  function SetCenterValue(stick: Stick, value: U16): (r: Stick)
    ensures r.kind == stick.kind
    ensures r.movement.center == Center(value)
    ensures r.movement.upDown == stick.movement.upDown && r.movement.rightLeft == stick.movement.rightLeft
  {
    stick.(movement := stick.movement.(center := Center(value)))
  }

  /** `FlySky::default`: every axis centred at 1500, except the left stick's
      vertical axis, which starts at Center(1000). */
  function Default(): (f: FlySky)
    ensures f.right.kind == RightStick && f.left.kind == LeftStick && f.vra.kind == VraStick && f.vrb.kind == VrbStick
    ensures f.left.movement.upDown == Center(MIN_POSITION)
    ensures forall p :: p in [f.right.movement.upDown, f.right.movement.rightLeft, f.right.movement.center,
                              f.left.movement.rightLeft, f.left.movement.center,
                              f.vra.movement.upDown, f.vra.movement.rightLeft, f.vra.movement.center,
                              f.vrb.movement.upDown, f.vrb.movement.rightLeft, f.vrb.movement.center]
                       ==> p == Center(MID_POSITION)
  {
    var centred := StickMovement(Center(MID_POSITION), Center(MID_POSITION), Center(MID_POSITION));
    FlySky(
      Stick(RightStick, centred),
      Stick(LeftStick, centred.(upDown := Center(MIN_POSITION))),
      Stick(VraStick, centred),
      Stick(VrbStick, centred))
  }

  // ----- The classification, stated per field -----

  /** Which side of the middle band a channel's width falls on. */
  datatype Bucket = Above | Below | Centred

  /** The per-channel thresholds. Channel 0 and channel 2 only leave the
      centre inside [1000, 2000] (channel 2 splitting at 1500); channels 1,
      3, 4 and 5 use the strict 1450/1550 band with no range bound. */
  function ChannelBucket(id: int, v: U16): Bucket
  {
    if id == 0 then
      (if 1550 < v <= 2000 then Above else if 1000 <= v < 1450 then Below else Centred)
    else if id == 2 then
      (if 1500 < v <= 2000 then Above else if 1000 <= v < 1500 then Below else Centred)
    else
      (if v > 1550 then Above else if v < 1450 then Below else Centred)
  }

  function Horizontal(b: Bucket, v: U16, otherwise: Position): Position
  {
    match b
    case Above => Right(v)
    case Below => Left(v)
    case Centred => otherwise
  }

  function Vertical(b: Bucket, v: U16, otherwise: Position): Position
  {
    match b
    case Above => Up(v)
    case Below => Down(v)
    case Centred => otherwise
  }

  /** A stick's `center` after its channels `first` and `second` (processed
      in that order, `second` only when `n` channels cover it): the last of
      them that was centred, or 1500. */
  function CenterAfter(values: seq<U16>, n: nat, first: nat, second: nat): Position
    requires first < second < |values|
  {
    if n > second && ChannelBucket(second, values[second]) == Centred then Center(values[second])
    else if n > first && ChannelBucket(first, values[first]) == Centred then Center(values[first])
    else Center(MID_POSITION)
  }

  /** The status once channels 0..n-1 of the frame have been classified,
      starting from the default. */
  function AfterChannels(values: seq<U16>, n: nat): FlySky
    requires |values| == 6
  {
    var v := values;
    FlySky(
      Stick(RightStick, StickMovement(
        if n > 1 then Vertical(ChannelBucket(1, v[1]), v[1], Center(MID_POSITION)) else Center(MID_POSITION),
        if n > 0 then Horizontal(ChannelBucket(0, v[0]), v[0], Center(MID_POSITION)) else Center(MID_POSITION),
        CenterAfter(v, n, 0, 1))),
      Stick(LeftStick, StickMovement(
        if n > 2 then Vertical(ChannelBucket(2, v[2]), v[2], Center(MIN_POSITION)) else Center(MIN_POSITION),
        if n > 3 then Horizontal(ChannelBucket(3, v[3]), v[3], Center(MID_POSITION)) else Center(MID_POSITION),
        CenterAfter(v, n, 2, 3))),
      Stick(VraStick, StickMovement(
        Center(MID_POSITION),
        if n > 4 then Horizontal(ChannelBucket(4, v[4]), v[4], Center(MID_POSITION)) else Center(MID_POSITION),
        if n > 4 && ChannelBucket(4, v[4]) == Centred then Center(v[4]) else Center(MID_POSITION))),
      Stick(VrbStick, StickMovement(
        Center(MID_POSITION),
        if n > 5 then Horizontal(ChannelBucket(5, v[5]), v[5], Center(MID_POSITION)) else Center(MID_POSITION),
        if n > 5 && ChannelBucket(5, v[5]) == Centred then Center(v[5]) else Center(MID_POSITION))))
  }

  /** The classification of a whole frame. */
  function Classify(values: seq<U16>): FlySky
    requires |values| == 6
  {
    AfterChannels(values, 6)
  }

  function ValuesOf(channels: seq<(int, U16)>): (values: seq<U16>)
    ensures |values| == |channels|
    ensures forall i :: 0 <= i < |channels| ==> values[i] == channels[i].1
  {
    seq(|channels|, i requires 0 <= i < |channels| => channels[i].1)
  }

  /** `StickConverter::to_flysky`: starts from the default status and walks
      the enumerated channels in order, each one overwriting one axis of one
      stick through a setter. */
  method ToFlySky(channels: seq<(int, U16)>) returns (status: FlySky)
    requires |channels| == 6
    requires forall i :: 0 <= i < |channels| ==> channels[i].0 == i
    ensures status == Classify(ValuesOf(channels))
  {
    ghost var values := ValuesOf(channels);
    status := Default();
    for i := 0 to |channels|
      invariant status == AfterChannels(values, i)
    {
      var (idChannel, value) := channels[i];
      match idChannel
      case 0 =>
        if value > RANGE_MID_POSITION_MAX && value <= MAX_POSITION {
          status := status.(right := SetRightValue(status.right, value));
        } else if value < RANGE_MID_POSITION_MIN && value >= MIN_POSITION {
          status := status.(right := SetLeftValue(status.right, value));
        } else {
          status := status.(right := SetCenterValue(status.right, value));
        }
      case 1 =>
        if value > RANGE_MID_POSITION_MAX {
          status := status.(right := SetUpValue(status.right, value));
        } else if value < RANGE_MID_POSITION_MIN {
          status := status.(right := SetDownValue(status.right, value));
        } else {
          status := status.(right := SetCenterValue(status.right, value));
        }
      case 2 =>
        if value > MID_POSITION && value <= MAX_POSITION {
          status := status.(left := SetUpValue(status.left, value));
        } else if value < MID_POSITION && value >= MIN_POSITION {
          status := status.(left := SetDownValue(status.left, value));
        } else {
          status := status.(left := SetCenterValue(status.left, value));
        }
      case 3 =>
        if value > RANGE_MID_POSITION_MAX {
          status := status.(left := SetRightValue(status.left, value));
        } else if value < RANGE_MID_POSITION_MIN {
          status := status.(left := SetLeftValue(status.left, value));
        } else {
          status := status.(left := SetCenterValue(status.left, value));
        }
      case 4 =>
        if value > RANGE_MID_POSITION_MAX {
          status := status.(vra := SetRightValue(status.vra, value));
        } else if value < RANGE_MID_POSITION_MIN {
          status := status.(vra := SetLeftValue(status.vra, value));
        } else {
          status := status.(vra := SetCenterValue(status.vra, value));
        }
      case 5 =>
        if value > RANGE_MID_POSITION_MAX {
          status := status.(vrb := SetRightValue(status.vrb, value));
        } else if value < RANGE_MID_POSITION_MIN {
          status := status.(vrb := SetLeftValue(status.vrb, value));
        } else {
          status := status.(vrb := SetCenterValue(status.vrb, value));
        }
      case _ =>
    }
  }
}

/** Properties of the classification of a whole frame. */
module FlyskyProperties {
  import opened Ints
  import opened Flysky

  /** Channel 0 moves the right stick's horizontal axis only inside
      (1550, 2000] and [1000, 1450); anything else is a centred reading. */
  lemma Channel0Thresholds(values: seq<U16>)
    requires |values| == 6
    ensures var rl := Classify(values).right.movement.rightLeft;
      && (rl == Right(values[0]) <==> 1550 < values[0] <= 2000)
      && (rl == Left(values[0]) <==> 1000 <= values[0] < 1450)
      && (rl == Center(MID_POSITION) <==> !(1550 < values[0] <= 2000 || 1000 <= values[0] < 1450))
  {
  }

  /** Channels 1, 3, 4 and 5 have strict thresholds and no range bound. */
  lemma StrictChannelThresholds(values: seq<U16>)
    requires |values| == 6
    ensures var f := Classify(values);
      && (f.right.movement.upDown == Up(values[1]) <==> values[1] > 1550)
      && (f.right.movement.upDown == Down(values[1]) <==> values[1] < 1450)
      && (f.left.movement.rightLeft == Right(values[3]) <==> values[3] > 1550)
      && (f.left.movement.rightLeft == Left(values[3]) <==> values[3] < 1450)
      && (f.vra.movement.rightLeft == Right(values[4]) <==> values[4] > 1550)
      && (f.vra.movement.rightLeft == Left(values[4]) <==> values[4] < 1450)
      && (f.vrb.movement.rightLeft == Right(values[5]) <==> values[5] > 1550)
      && (f.vrb.movement.rightLeft == Left(values[5]) <==> values[5] < 1450)
  {
  }

  /** Channel 2 splits the left stick's vertical axis at 1500, inside
      [1000, 2000]; a centred or out-of-range reading leaves it at its
      default Center(1000). */
  lemma Channel2Thresholds(values: seq<U16>)
    requires |values| == 6
    ensures var ud := Classify(values).left.movement.upDown;
      && (ud == Up(values[2]) <==> 1500 < values[2] <= 2000)
      && (ud == Down(values[2]) <==> 1000 <= values[2] < 1500)
      && (ud == Center(MIN_POSITION) <==> !(1500 < values[2] <= 2000 || 1000 <= values[2] < 1500))
  {
  }

  /** The vertical and horizontal axes of a stick never hold a centred
      reading's width: that goes only to `center`, and the later of a
      stick's two centred channels wins. */
  lemma CenterPrecedence(values: seq<U16>)
    requires |values| == 6
    ensures var f := Classify(values);
      && f.right.movement.center ==
           (if ChannelBucket(1, values[1]) == Centred then Center(values[1])
            else if ChannelBucket(0, values[0]) == Centred then Center(values[0])
            else Center(MID_POSITION))
      && f.left.movement.center ==
           (if ChannelBucket(3, values[3]) == Centred then Center(values[3])
            else if ChannelBucket(2, values[2]) == Centred then Center(values[2])
            else Center(MID_POSITION))
      && (ChannelBucket(1, values[1]) == Centred ==> f.right.movement.upDown == Center(MID_POSITION))
      && (ChannelBucket(0, values[0]) == Centred ==> f.right.movement.rightLeft == Center(MID_POSITION))
      && (ChannelBucket(3, values[3]) == Centred ==> f.left.movement.rightLeft == Center(MID_POSITION))
      && (ChannelBucket(4, values[4]) == Centred ==> f.vra.movement.rightLeft == Center(MID_POSITION))
      && (ChannelBucket(5, values[5]) == Centred ==> f.vrb.movement.rightLeft == Center(MID_POSITION))
  {
  }

  /** The four sticks keep their variants, and the potentiometers' vertical
      axes are never written. */
  lemma ClassifyKeepsKinds(values: seq<U16>)
    requires |values| == 6
    ensures var f := Classify(values);
      && f.right.kind == RightStick && f.left.kind == LeftStick
      && f.vra.kind == VraStick && f.vrb.kind == VrbStick
      && f.vra.movement.upDown == Center(MID_POSITION) && f.vrb.movement.upDown == Center(MID_POSITION)
  {
  }

  /** Boundary readings on channel 0, and an out-of-range one on channel 1. */
  lemma BoundaryReadings(values: seq<U16>)
    requires |values| == 6
    ensures values[0] == 1551 ==> Classify(values).right.movement.rightLeft == Right(1551)
    ensures values[0] == 1449 ==> Classify(values).right.movement.rightLeft == Left(1449)
    ensures values[0] in {1450, 1500, 1550} ==> Classify(values).right.movement.rightLeft == Center(MID_POSITION)
    ensures values[1] == 2500 ==> Classify(values).right.movement.upDown == Up(2500)
  {
  }
}
