/**
 * The WCM's MC3416 accelerometer driver (wcm_mc3416.c) over the WCM copy
 * of the I2C layer. Every exchange with the chip is described first as
 * an Effect, a function of the bus's scripted answers: the status it
 * ends with, how many answers it uses, the transfers it puts on the bus
 * and the console lines it sends. The driver's methods are proved to
 * have exactly those effects; the driver's promises (chip recognition,
 * register merges, the wake-up rule, the abort chain of init, the
 * two's complement axes and the offset arithmetic) are stated about the
 * functions.
 */
module Mc3416 {
  import opened Common
  import opened Hal
  import opened I2c
  import opened Eeprom

  // ------------------------------------------------------------ constants (pm_mc3416.h)

  const Address: u8 := 0x4C
  const DeviceStatusRegister: u8 := 0x05
  const ModeRegister: u8 := 0x07
  const SampleRateRegister: u8 := 0x08
  const ChipIdRegister: u8 := 0x18
  const RangeRegister: u8 := 0x20
  const ProductCodeLowRegister: u8 := 0x3B

  const ModeStandby: u8 := 0x00
  const ModeWake: u8 := 0x01

  const ChipId: bv8 := 0xA0
  const ProductCode: bv8 := 0x20
  const StateMask: bv8 := 0x03
  /** MC3416_ODR_MASK and MC3416_ODR (= MC3416_ODR_128). */
  const OdrMask: bv8 := 0xF8
  const Odr: bv8 := 0x00
  /** MC3416_RANGE_MASK and MC3416_RANGE_REG_VAL (= MC3416_REG_RANGE_2G). */
  const RangeMask: bv8 := 0x80
  const RangeValue: bv8 := 0x09

  /** y_ref_value: the Y count of 1 g, the axis that points up when the buoy is level. */
  const YReference: int := 16384
  /** MC3416_RANGE_RES_2G: 2 g over 2^15 counts. */
  const Resolution: real := 0.00006103515625

  /** The X, Y and Z output registers, low byte before high byte, in the order read_axis reads them. */
  function AxisRegister(k: nat): u8
    requires k < 6
  {
    [0x0D, 0x0E, 0x0F, 0x10, 0x11, 0x12][k]
  }

  // ------------------------------------------------------------ effects on the bus

  /**
   * What one exchange with the chip does: the status it ends with, how
   * many scripted bus answers it uses, the transfers and console lines it
   * adds, and the bytes it reads.
   */
  datatype Effect = Effect(status: Status, used: nat, packets: seq<Packet>, log: seq<Msg>, data: seq<u8>)

  /** The exchange e, run from the answers rs with the trace and log as given, left the values after. */
  predicate Did(e: Effect, rs: seq<Reply>, trace0: seq<Packet>, log0: seq<Msg>,
                status: Status, replies: seq<Reply>, trace: seq<Packet>, log: seq<Msg>)
  {
    e.used <= |rs| && status == e.status && replies == rs[e.used..]
    && trace == trace0 + e.packets && log == log0 + e.log
  }

  /** e1 and then e2 on the answers e1 leaves: the status is e2's. */
  function Seq(e1: Effect, e2: Effect): Effect
  {
    Effect(e2.status, e1.used + e2.used, e1.packets + e2.packets, e1.log + e2.log, e1.data + e2.data)
  }

  /** e with further console lines. */
  function Note(e: Effect, m: seq<Msg>): Effect
  {
    e.(log := e.log + m)
  }

  /** The line given, when the status is a failure. */
  function Lines(status: Status, line: Msg): seq<Msg>
  {
    if status != Ok then [line] else []
  }

  /** e, followed by the line given if it failed. */
  function OrReport(e: Effect, line: Msg): Effect
  {
    Note(e, Lines(e.status, line))
  }

  /** Two exchanges run one after the other have their sequence's effect. */
  lemma DidSeq(e1: Effect, e2: Effect, rs: seq<Reply>, trace0: seq<Packet>, log0: seq<Msg>,
               s1: Status, replies1: seq<Reply>, trace1: seq<Packet>, log1: seq<Msg>,
               s2: Status, replies2: seq<Reply>, trace2: seq<Packet>, log2: seq<Msg>)
    requires Did(e1, rs, trace0, log0, s1, replies1, trace1, log1)
    requires Did(e2, replies1, trace1, log1, s2, replies2, trace2, log2)
    ensures Did(Seq(e1, e2), rs, trace0, log0, s2, replies2, trace2, log2)
  {
    DropDrop(rs, e1.used, e2.used);
    Assoc(trace0, e1.packets, e2.packets);
    Assoc(log0, e1.log, e2.log);
  }

  /** Console lines sent after an exchange, and a status chosen after it, give the adjusted effect. */
  lemma DidAdjust(e: Effect, rs: seq<Reply>, trace0: seq<Packet>, log0: seq<Msg>,
                  s: Status, replies: seq<Reply>, trace: seq<Packet>, log: seq<Msg>,
                  s': Status, m: seq<Msg>)
    requires Did(e, rs, trace0, log0, s, replies, trace, log)
    ensures Did(e.(status := s', log := e.log + m), rs, trace0, log0, s', replies, trace, log + m)
  {
    Assoc(log0, e.log, m);
  }

  /** wcm_i2c_command_read_reg of one byte; stale is what the caller's byte held before. */
  function ReadReg(rs: seq<Reply>, reg: u8, stale: u8): (e: Effect)
    requires |rs| >= 2
    ensures e.used <= 2 && |e.data| == 1
  {
    var status := PairStatus(rs[0], rs[1]);
    Effect(status, PairUsed(rs[0]), PairPackets(Address, [reg], false, 1, rs[0]),
           RegisterLog(WcmI2c, rs[0], rs[1]), [if status == Ok then Fit(rs[1].bytes, 1)[0] else stale])
  }

  /** wcm_i2c_command_write_reg of [register, value]. */
  function WriteReg(rs: seq<Reply>, reg: u8, value: u8): (e: Effect)
    requires |rs| >= 1
    ensures e.used == 1
  {
    var status := rs[0].status;
    Effect(status, 1, [Write(Address, [reg, value], true)],
           if status == Ok then [] else [Failure(WcmI2c, "write_command_reg:", status)], [])
  }

  // ------------------------------------------------------------ register operations

  const WakeupDelayFinished := Text("wakeup delay finished!\r\n")
  const ModeWriteFailed := Text("mc3416_set_mode: write_failed!\r\n")

  /** mc3416_set_mode: the mode register written; a wake request also reports the wake-up delay. */
  function SetModeEffect(rs: seq<Reply>, mode: u8): (e: Effect)
    requires |rs| >= 1
    ensures e.used == 1
  {
    var w := WriteReg(rs, ModeRegister, mode);
    Note(w, (if Bits(mode) & Bits(ModeWake) == Bits(ModeWake) then [WakeupDelayFinished] else [])
            + (if w.status != Ok then [ModeWriteFailed] else []))
  }

  const ModeReadFailed := Text("mc3416_check_mode: read_failed!\r\n")
  const StandbyMode := Text("mc3416_check_mode: STANDBY_MODE!\r\n")

  /** mc3416_check_mode: the device status read, and BUSY when its state bits say standby. */
  function CheckModeEffect(rs: seq<Reply>): (e: Effect)
    requires |rs| >= 2
    ensures e.used <= 2 && |e.data| == 1
  {
    var r := ReadReg(rs, DeviceStatusRegister, 0);
    if r.status != Ok then Note(r, [ModeReadFailed])
    else if Bits(r.data[0]) & StateMask == Bits(ModeStandby) then r.(status := Busy, log := r.log + [StandbyMode])
    else r
  }

  /**
   * The mode check reports OK exactly when the device status was read and
   * its state bits are not standby, and BUSY when they are standby or when
   * the bus itself answered BUSY.
   */
  lemma CheckModeStatus(rs: seq<Reply>)
    requires |rs| >= 2
    ensures var bus, mode := PairStatus(rs[0], rs[1]), Bits(Fit(rs[1].bytes, 1)[0]) & StateMask;
      var s := CheckModeEffect(rs).status;
      (s == Ok <==> bus == Ok && mode != 0)
      && (s == Busy <==> bus == Busy || (bus == Ok && mode == 0))
      && (bus != Ok && bus != Busy ==> s == bus)
  {
  }

  /** The two read-modify-write settings init makes. */
  datatype Setting = SampleRate | Range

  function SettingRegister(which: Setting): u8
  {
    if which == SampleRate then SampleRateRegister else RangeRegister
  }

  /**
   * The value written back: the sample rate keeps bits 7..3 of the old
   * register and sets the rate bits to 128 Hz; the range keeps only bit 7
   * and sets the 2 g range and resolution bits.
   */
  function Merged(which: Setting, current: u8): (r: u8)
    ensures which == SampleRate ==> Bits(r) & OdrMask == Bits(current) & OdrMask && Bits(r) & 0x07 == Odr
    ensures which == Range ==> Bits(r) & RangeMask == Bits(current) & RangeMask && Bits(r) & 0x7F == RangeValue
  {
    if which == SampleRate then Byte((Bits(current) & OdrMask) | Odr) else Byte((Bits(current) & RangeMask) | RangeValue)
  }

  function ReadFailed(which: Setting): Msg
  {
    if which == SampleRate then Text("mc3416_set_sampling_rate: read_failed!\r\n")
    else Text("mc3416_set_range_resolution: read_failed!\r\n")
  }

  function WriteFailed(which: Setting): Msg
  {
    if which == SampleRate then Text("mc3416_set_sampling_rate: write_failed!\r\n")
    else Text("mc3416_set_range_resolution: write_failed!\r\n")
  }

  /** mc3416_set_sampling_rate and mc3416_set_range_resolution: read, merge, write back. */
  function MergeEffect(rs: seq<Reply>, which: Setting): (e: Effect)
    requires |rs| >= 3
    ensures e.used <= 3
  {
    var r := ReadReg(rs, SettingRegister(which), 0);
    if r.status != Ok then Note(r, [ReadFailed(which)])
    else
      var w := WriteReg(rs[r.used..], SettingRegister(which), Merged(which, r.data[0]));
      OrReport(Seq(r, w), WriteFailed(which))
  }

  const ChipReadFailed := Text("mc3416_validate_chip: chipID_read_failed!\r\n")
  const ProductReadFailed := Text("mc3416_validate_chip: Pcode_read_failed!\r\n")
  const ChipIdIncorrect := Text("mc3416_validate_chip: Chip_ID_incorrect!\r\n")
  const ProductCodeIncorrect := Text("mc3416_validate_chip: Product_Code_incorrect!\r\n")

  predicate ChipMatches(chip: u8)
  {
    Bits(chip) & 0xF0 == ChipId
  }

  predicate ProductMatches(pcode: u8)
  {
    Bits(pcode) & 0xF1 == ProductCode
  }

  /** mc3416_validate_chip: the chip ID and then the product code read, then both compared. */
  function ValidateEffect(rs: seq<Reply>): (e: Effect)
    requires |rs| >= 4
    ensures e.used <= 4
  {
    var c := ReadReg(rs, ChipIdRegister, 0);
    if c.status != Ok then Note(c, [ChipReadFailed])
    else
      var p := ReadReg(rs[c.used..], ProductCodeLowRegister, 0);
      var both := Seq(c, p);
      if p.status != Ok then Note(both, [ProductReadFailed])
      else if !ChipMatches(c.data[0]) then both.(status := Mc3416Error, log := both.log + [ChipIdIncorrect])
      else if !ProductMatches(p.data[0]) then both.(status := Mc3416Error, log := both.log + [ProductCodeIncorrect])
      else both
  }

  /**
   * The chip is accepted exactly when both reads succeed, the chip ID's
   * high nibble is 0xA and the product code masked with 0xF1 is 0x20; a
   * failed read returns the bus's status, and the chip ID is judged
   * before the product code.
   */
  lemma ValidateAccepts(rs: seq<Reply>)
    requires |rs| >= 4
    ensures var e, c := ValidateEffect(rs), PairStatus(rs[0], rs[1]);
      var chip, pcode := Fit(rs[1].bytes, 1)[0], Fit(rs[3].bytes, 1)[0];
      (e.status == Ok <==> c == Ok && PairStatus(rs[2], rs[3]) == Ok && ChipMatches(chip) && ProductMatches(pcode))
      && (c != Ok ==> e.status == c && e.packets == PairPackets(Address, [ChipIdRegister], false, 1, rs[0]))
      && (c == Ok && PairStatus(rs[2], rs[3]) != Ok ==> e.status == PairStatus(rs[2], rs[3]))
      && (c == Ok && PairStatus(rs[2], rs[3]) == Ok && !ChipMatches(chip) ==>
            e.status == Mc3416Error && e.log[|e.log| - 1] == ChipIdIncorrect)
  {
    var c := ReadReg(rs, ChipIdRegister, 0);
    if c.status == Ok {
      assert rs[c.used..][0] == rs[2] && rs[c.used..][1] == rs[3];
    }
  }

  // ------------------------------------------------------------ the axes

  const AxisReadFailed := Text("mc3416_sample_axis: axis_read_failed!\r\n")

  /** One axis register read of mc3416_read_axis: a failure is only reported. */
  function AxisByte(rs: seq<Reply>, k: nat, stale: u8): (e: Effect)
    requires k < 6 && |rs| >= 2
    ensures e.used <= 2 && |e.data| == 1
  {
    var r := ReadReg(rs, AxisRegister(k), stale);
    OrReport(r, AxisReadFailed)
  }

  /**
   * Axis register reads k to 5, each whatever the ones before did; the
   * status is that of the last read. A failed read leaves its byte as the
   * uninitialised local held it, given as stale[k].
   */
  function AxisScan(rs: seq<Reply>, k: nat, stale: seq<u8>): (e: Effect)
    requires k < 6 && |rs| >= 2 * (6 - k) && |stale| == 6
    ensures e.used <= 2 * (6 - k) && |e.data| == 6 - k
    decreases 6 - k
  {
    var b := AxisByte(rs, k, stale[k]);
    if k == 5 then b else Seq(b, AxisScan(rs[b.used..], k + 1, stale))
  }

  /** The answers left when the last axis read (Z high) begins. */
  function LastRead(rs: seq<Reply>, k: nat, stale: seq<u8>): (r: seq<Reply>)
    requires k < 6 && |rs| >= 2 * (6 - k) && |stale| == 6
    ensures |r| >= 2
    decreases 6 - k
  {
    if k == 5 then rs else LastRead(rs[AxisByte(rs, k, stale[k]).used..], k + 1, stale)
  }

  /** read_axis returns the status of its last read alone: earlier failures are only logged. */
  lemma {:induction false} AxisStatusIsLast(rs: seq<Reply>, k: nat, stale: seq<u8>)
    requires k < 6 && |rs| >= 2 * (6 - k) && |stale| == 6
    ensures var last := LastRead(rs, k, stale);
      AxisScan(rs, k, stale).status == PairStatus(last[0], last[1])
    decreases 6 - k
  {
    if k < 5 {
      AxisStatusIsLast(rs[AxisByte(rs, k, stale[k]).used..], k + 1, stale);
    }
  }

  /** The three raw axis counts (xout, yout, zout). */
  datatype Axes = Axes(x: i16, y: i16, z: i16)

  /** (int16_t)((uint16_t)hi << 8 | lo): the two bytes read as a two's complement count. */
  function Axis(hi: u8, lo: u8): (r: i16)
    ensures Wrap16(r) == hi * 256 + lo
    ensures r < 0 <==> hi >= 0x80
  {
    AsI16(hi * 256 + lo)
  }

  /** The count gives back the two bytes it was assembled from. */
  lemma AxisBytes(hi: u8, lo: u8)
    ensures Wrap16(Axis(hi, lo)) / 256 == hi && Wrap16(Axis(hi, lo)) % 256 == lo
  {
  }

  /** The counts from the six bytes read_axis reads. */
  function Assemble(b: seq<u8>): Axes
    requires |b| == 6
  {
    Axes(Axis(b[1], b[0]), Axis(b[3], b[2]), Axis(b[5], b[4]))
  }

  // ------------------------------------------------------------ offsets

  /** `count -= offset` on an int16_t count and a uint16_t offset: the difference wrapped to 16 bits. */
  function Corrected(count: i16, offset: u16): (r: i16)
    ensures (r - (count - offset)) % 0x1_0000 == 0
  {
    ToI16(count - offset)
  }

  /** The counts after the offset subtraction of mc3416_convert_to_g. */
  function Convert(a: Axes, o: Offsets): Axes
  {
    Axes(Corrected(a.x, o.x), Corrected(a.y, o.y), Corrected(a.z, o.z))
  }

  /** The counts calibrate leaves: Y loses its 1 g reference, in int16_t arithmetic. */
  function LessReference(a: Axes): Axes
  {
    a.(y := ToI16(a.y - YReference))
  }

  /** The offsets calibrate stores: the counts, Y less its 1 g reference, as 16-bit patterns. */
  function CalibrationOffsets(a: Axes): Offsets
  {
    var c := LessReference(a);
    Offsets(Wrap16(c.x), Wrap16(c.y), Wrap16(c.z))
  }

  lemma WrapCancels(c: i16, d: int)
    ensures ToI16(c - Wrap16(ToI16(c - d))) == ToI16(d)
  {
    var w := Wrap16(ToI16(c - d));
    assert ((c - w) - d) % 0x1_0000 == 0 by {
      assert (w - (c - d)) % 0x1_0000 == 0;
    }
    var q := (c - w - d) / 0x1_0000;
    assert c - w == d + 0x1_0000 * q;
    SameResidue(c - w, d, q);
  }

  lemma SameResidue(a: int, b: int, q: int)
    requires a == b + 0x1_0000 * q
    ensures ToI16(a) == ToI16(b)
  {
    assert a % 0x1_0000 == b % 0x1_0000;
  }

  /**
   * Calibrating on a reading and then converting that same reading gives
   * (0, 1 g, 0) counts: the offsets cancel the counts modulo 2^16.
   */
  lemma CalibrateThenConvert(a: Axes)
    ensures Convert(a, CalibrationOffsets(a)) == Axes(0, YReference, 0)
  {
    WrapCancels(a.x, 0);
    WrapCancels(a.y, YReference);
    WrapCancels(a.z, 0);
  }

  /** Zero offsets leave the counts as read. */
  lemma ZeroOffsetsConvert(a: Axes)
    ensures Convert(a, Offsets(0, 0, 0)) == a
  {
  }

  /** The accelerations xg, yg, zg in g. */
  datatype Gravity = Gravity(x: real, y: real, z: real)

  /** The counts scaled by the 2 g resolution; every value lies in [-2, 2). */
  function Scale(a: Axes): (g: Gravity)
    ensures -2.0 <= g.x < 2.0 && -2.0 <= g.y < 2.0 && -2.0 <= g.z < 2.0
    ensures g.x * 16384.0 == a.x as real && g.y * 16384.0 == a.y as real && g.z * 16384.0 == a.z as real
  {
    Gravity(a.x as real * Resolution, a.y as real * Resolution, a.z as real * Resolution)
  }

  // ------------------------------------------------------------ composed operations

  /** The public operation a wake-up belongs to, which names its console lines. */
  datatype Caller = ReadTilt | Calibrate

  function CallerName(c: Caller): string
  {
    if c == ReadTilt then "wcm_mc3416_read_tilt: " else "wcm_mc3416_calibrate: "
  }

  function ModeCheckFailed(c: Caller): Msg
  {
    Text(CallerName(c) + "mode_check_failed!\r\n")
  }

  function WakeupFailed(c: Caller): Msg
  {
    Text(CallerName(c) + "Wakeup_failed!\r\n")
  }

  function SampleFailed(c: Caller): Msg
  {
    Text(CallerName(c) + (if c == ReadTilt then "Sample_axis_failed!\r\n" else "Read_axis_failed!\r\n"))
  }

  /** A mode change whose failure the caller reports with the line given. */
  function EnterModeEffect(rs: seq<Reply>, mode: u8, failed: Msg): (e: Effect)
    requires |rs| >= 1
    ensures e.used == 1
  {
    var s := SetModeEffect(rs, mode);
    OrReport(s, failed)
  }

  /**
   * The start of read_tilt and calibrate: the mode checked, a device in
   * standby (BUSY) woken, any other failure reported and returned.
   */
  function ReadyEffect(rs: seq<Reply>, c: Caller): (e: Effect)
    requires |rs| >= 3
    ensures e.used <= 3
  {
    var m := CheckModeEffect(rs);
    if m.status != Busy && m.status != Ok then Note(m, [ModeCheckFailed(c)])
    else if m.status == Busy then Seq(m, EnterModeEffect(rs[m.used..], ModeWake, WakeupFailed(c)))
    else m
  }

  /** A device found in standby is woken, and the operation goes on only if that works. */
  lemma ReadyWakes(rs: seq<Reply>, c: Caller)
    requires |rs| >= 3
    ensures var m, e := CheckModeEffect(rs), ReadyEffect(rs, c);
      (m.status == Ok ==> e.status == Ok && e.packets == m.packets)
      && (m.status == Busy ==>
            e.packets == m.packets + [Write(Address, [ModeRegister, ModeWake], true)]
            && e.status == rs[m.used].status)
      && (m.status != Ok && m.status != Busy ==> e.status == m.status && e.packets == m.packets)
  {
  }

  /** The mode check, the wake-up if needed and then the axis reads, as read_tilt and calibrate do them. */
  function SampleEffect(rs: seq<Reply>, stale: seq<u8>, c: Caller): (e: Effect)
    requires |rs| >= 15 && |stale| == 6
    ensures e.used <= 15
  {
    var r := ReadyEffect(rs, c);
    if r.status != Ok then r
    else
      var a := AxisScan(rs[r.used..], 0, stale);
      OrReport(Seq(r, a), SampleFailed(c))
  }

  /** The bytes the axis reads of SampleEffect clock in, when the device is ready. */
  function SampleData(rs: seq<Reply>, stale: seq<u8>, c: Caller): (b: seq<u8>)
    requires |rs| >= 15 && |stale| == 6
    ensures |b| == 6
  {
    AxisScan(rs[ReadyEffect(rs, c).used..], 0, stale).data
  }

  /** The configuration steps of wcm_mc3416_init before the offsets are read, in order. */
  function Step(rs: seq<Reply>, k: nat): (e: Effect)
    requires k < 4 && |rs| >= StepNeed(k)
    ensures e.used <= StepNeed(k)
  {
    match k
    case 0 => ValidateEffect(rs)
    case 1 => SetModeEffect(rs, ModeStandby)
    case 2 => MergeEffect(rs, SampleRate)
    case 3 => MergeEffect(rs, Range)
  }

  /** How many bus answers step k may use at most. */
  function StepNeed(k: nat): nat
  {
    if k == 0 then 4 else if k == 1 then 1 else 3
  }

  /** How many bus answers steps k to 3 may use at most. */
  function NeedFrom(k: nat): nat
    requires k <= 4
    decreases 4 - k
  {
    if k == 4 then 0 else StepNeed(k) + NeedFrom(k + 1)
  }

  function StepFailed(k: nat): Msg
  {
    Text("wcm_mc3416_init: " + (if k == 0 then "no_chip_detected!\r\n"
      else if k == 1 then "standby_mode_not_entered!\r\n"
      else if k == 2 then "Sampling_rate_not_configured!\r\n"
      else "Range_res_not_configured!\r\n"))
  }

  /** Steps k to 3, in order: the first failure is reported and ends init before any later step. */
  function PrepareFrom(rs: seq<Reply>, k: nat): (e: Effect)
    requires k <= 4 && |rs| >= NeedFrom(k)
    ensures e.used <= NeedFrom(k)
    decreases 4 - k
  {
    if k == 4 then Effect(Ok, 0, [], [], [])
    else
      var e := Step(rs, k);
      if e.status != Ok then Note(e, [StepFailed(k)]) else Seq(e, PrepareFrom(rs[e.used..], k + 1))
  }

  /**
   * A chip that is not recognised, or a bus that fails while it is being
   * identified, ends init with only the identification on the bus: no
   * mode, rate or range register is written.
   */
  lemma {:induction false} NoChipNoConfiguration(rs: seq<Reply>)
    requires |rs| >= NeedFrom(0)
    ensures ValidateEffect(rs).status != Ok ==>
      PrepareFrom(rs, 0).status == ValidateEffect(rs).status
      && PrepareFrom(rs, 0).packets == ValidateEffect(rs).packets
      && Write(Address, [ModeRegister, ModeStandby], true) !in PrepareFrom(rs, 0).packets
  {
    if ValidateEffect(rs).status != Ok {
      ValidatePackets(rs);
    }
  }

  /** The transfers of identification are register reads only. */
  lemma ValidatePackets(rs: seq<Reply>)
    requires |rs| >= 4
    ensures forall p :: p in ValidateEffect(rs).packets ==> p.Read? || (p.Write? && !p.stop)
  {
  }

  /** A configuration that succeeds has run every step, the last one the range setting. */
  lemma {:induction false} PrepareOkRunsAll(rs: seq<Reply>, k: nat)
    requires k < 4 && |rs| >= NeedFrom(k)
    ensures PrepareFrom(rs, k).status == Ok ==>
      Step(rs, k).status == Ok && PrepareFrom(rs[Step(rs, k).used..], k + 1).status == Ok
      && |PrepareFrom(rs, k).packets| >= 4 - k
    decreases 4 - k
  {
    var e := Step(rs, k);
    if PrepareFrom(rs, k).status == Ok {
      assert e.status == Ok;
      StepPackets(rs, k);
      if k < 3 {
        PrepareOkRunsAll(rs[e.used..], k + 1);
      }
    }
  }

  /** Every step puts at least one transfer on the bus. */
  lemma StepPackets(rs: seq<Reply>, k: nat)
    requires k < 4 && |rs| >= StepNeed(k)
    ensures |Step(rs, k).packets| >= 1
  {
  }

  /** A successful step k followed by steps k + 1 to 3 is the configuration from step k. */
  lemma PrepareContinues(rs: seq<Reply>, k: nat, trace0: seq<Packet>, log0: seq<Msg>,
                         replies1: seq<Reply>, trace1: seq<Packet>, log1: seq<Msg>,
                         status: Status, replies2: seq<Reply>, trace2: seq<Packet>, log2: seq<Msg>)
    requires k < 4 && |rs| >= NeedFrom(k)
    requires Did(Step(rs, k), rs, trace0, log0, Ok, replies1, trace1, log1)
    requires |replies1| >= NeedFrom(k + 1)
    requires Did(PrepareFrom(replies1, k + 1), replies1, trace1, log1, status, replies2, trace2, log2)
    ensures Did(PrepareFrom(rs, k), rs, trace0, log0, status, replies2, trace2, log2)
  {
    DidSeq(Step(rs, k), PrepareFrom(replies1, k + 1), rs, trace0, log0, Ok, replies1, trace1, log1,
           status, replies2, trace2, log2);
  }

  /** After a successful step k enough answers remain for the steps after it. */
  lemma PrepareRemaining(rs: seq<Reply>, k: nat, replies1: seq<Reply>)
    requires k < 4 && |rs| >= NeedFrom(k)
    requires Step(rs, k).used <= |rs| && replies1 == rs[Step(rs, k).used..]
    ensures |replies1| >= NeedFrom(k + 1)
  {
  }

  /** A failed step k, reported, is the configuration from step k. */
  lemma PrepareStops(rs: seq<Reply>, k: nat, trace0: seq<Packet>, log0: seq<Msg>,
                     status: Status, replies1: seq<Reply>, trace1: seq<Packet>, log1: seq<Msg>)
    requires k < 4 && |rs| >= NeedFrom(k)
    requires Did(Step(rs, k), rs, trace0, log0, status, replies1, trace1, log1) && status != Ok
    ensures Did(PrepareFrom(rs, k), rs, trace0, log0, status, replies1, trace1, log1 + [StepFailed(k)])
  {
    DidAdjust(Step(rs, k), rs, trace0, log0, status, replies1, trace1, log1, status, [StepFailed(k)]);
  }

  /** A failed mode check or wake-up is the whole of the sample. */
  lemma SampleStops(rs: seq<Reply>, stale: seq<u8>, c: Caller, trace0: seq<Packet>, log0: seq<Msg>,
                    status: Status, replies1: seq<Reply>, trace1: seq<Packet>, log1: seq<Msg>)
    requires |rs| >= 15 && |stale| == 6
    requires Did(ReadyEffect(rs, c), rs, trace0, log0, status, replies1, trace1, log1) && status != Ok
    ensures Did(SampleEffect(rs, stale, c), rs, trace0, log0, status, replies1, trace1, log1)
  {
  }

  /** A ready device, the axis reads and their report are the sample. */
  lemma SampleDone(rs: seq<Reply>, stale: seq<u8>, c: Caller, trace0: seq<Packet>, log0: seq<Msg>,
                   replies1: seq<Reply>, trace1: seq<Packet>, log1: seq<Msg>,
                   status: Status, replies2: seq<Reply>, trace2: seq<Packet>, log2: seq<Msg>)
    requires |rs| >= 15 && |stale| == 6
    requires Did(ReadyEffect(rs, c), rs, trace0, log0, Ok, replies1, trace1, log1)
    requires |replies1| >= 12
    requires Did(AxisScan(replies1, 0, stale), replies1, trace1, log1, status, replies2, trace2, log2)
    ensures replies1 == rs[ReadyEffect(rs, c).used..]
    ensures Did(SampleEffect(rs, stale, c), rs, trace0, log0, status, replies2, trace2,
                log2 + Lines(status, SampleFailed(c)))
  {
    var r, a := ReadyEffect(rs, c), AxisScan(replies1, 0, stale);
    DidSeq(r, a, rs, trace0, log0, Ok, replies1, trace1, log1, status, replies2, trace2, log2);
    DidAdjust(Seq(r, a), rs, trace0, log0, status, replies2, trace2, log2, status, Lines(status, SampleFailed(c)));
  }

  /** A sample that succeeds found the device ready. */
  lemma SampleOkReady(rs: seq<Reply>, stale: seq<u8>, c: Caller)
    requires |rs| >= 15 && |stale| == 6
    ensures SampleEffect(rs, stale, c).status == Ok ==> ReadyEffect(rs, c).status == Ok
  {
  }

  const WakeNotEntered := Text("wcm_mc3416_init: wake_mode_not_entered!\r\n")
  const StandbyFailed := Text("wcm_mc3416_standby: failed to enter standby mode!\r\n")

  // ------------------------------------------------------------ the driver

  /** The driver's static state: counts, offsets and accelerations, and the EEPROM buffer. */
  class Accelerometer {
    var counts: Axes
    var offsets: Offsets
    var gravity: Gravity
    const settings: Settings

    constructor()
      ensures counts == Axes(0, 0, 0) && offsets == Offsets(0, 0, 0) && gravity == Gravity(0.0, 0.0, 0.0)
      ensures settings.data.Length == DataLength && fresh(settings)
    {
      counts := Axes(0, 0, 0);
      offsets := Offsets(0, 0, 0);
      gravity := Gravity(0.0, 0.0, 0.0);
      settings := new Settings();
    }

    /** The console line given, sent when the status is a failure. */
    static method Report(con: Console, status: Status, line: Msg)
      modifies con
      ensures con.log == old(con.log) + Lines(status, line)
    {
      if status != Ok {
        con.Send(line);
      }
    }

    /** One byte read by wcm_i2c_command_read_reg. */
    static method ReadRegister(bus: Bus, con: Console, reg: u8, stale: u8) returns (status: Status, value: u8)
      requires |bus.replies| >= 2
      modifies bus, con
      ensures var e := ReadReg(old(bus.replies), reg, stale);
        Did(e, old(bus.replies), old(bus.trace), old(con.log), status, bus.replies, bus.trace, con.log)
        && value == e.data[0]
    {
      var data;
      status, data := CommandReadReg(WcmI2c, bus, con, Address, reg, 1, [stale]);
      value := data[0];
    }

    /** [register, value] written by wcm_i2c_command_write_reg. */
    static method WriteRegister(bus: Bus, con: Console, reg: u8, value: u8) returns (status: Status)
      requires |bus.replies| >= 1
      modifies bus, con
      ensures Did(WriteReg(old(bus.replies), reg, value), old(bus.replies), old(bus.trace), old(con.log),
                  status, bus.replies, bus.trace, con.log)
    {
      assert [reg, value][..2] == [reg, value];
      status := CommandWriteReg(WcmI2c, bus, con, Address, reg, value, 2);
    }

    /** mc3416_set_mode. */
    static method SetMode(bus: Bus, con: Console, mode: u8) returns (status: Status)
      requires |bus.replies| >= 1
      modifies bus, con
      ensures Did(SetModeEffect(old(bus.replies), mode), old(bus.replies), old(bus.trace), old(con.log),
                  status, bus.replies, bus.trace, con.log)
    {
      ghost var rs, trace0, log0 := bus.replies, bus.trace, con.log;
      status := WriteRegister(bus, con, ModeRegister, mode);
      ghost var log1 := con.log;
      if Bits(mode) & Bits(ModeWake) == Bits(ModeWake) {
        con.Send(WakeupDelayFinished);
      }
      if status != Ok {
        con.Send(ModeWriteFailed);
      }
      DidAdjust(WriteReg(rs, ModeRegister, mode), rs, trace0, log0, status, bus.replies, bus.trace, log1,
                status, con.log[|log1|..]);
    }

    /** A mode change whose failure is reported with the line given. */
    static method EnterMode(bus: Bus, con: Console, mode: u8, failed: Msg) returns (status: Status)
      requires |bus.replies| >= 1
      modifies bus, con
      ensures Did(EnterModeEffect(old(bus.replies), mode, failed), old(bus.replies), old(bus.trace),
                  old(con.log), status, bus.replies, bus.trace, con.log)
    {
      ghost var rs, trace0, log0 := bus.replies, bus.trace, con.log;
      status := SetMode(bus, con, mode);
      ghost var log1 := con.log;
      if status != Ok {
        con.Send(failed);
      }
      DidAdjust(SetModeEffect(rs, mode), rs, trace0, log0, status, bus.replies, bus.trace, log1,
                status, con.log[|log1|..]);
    }

    /** mc3416_check_mode. */
    static method CheckMode(bus: Bus, con: Console) returns (status: Status)
      requires |bus.replies| >= 2
      modifies bus, con
      ensures Did(CheckModeEffect(old(bus.replies)), old(bus.replies), old(bus.trace), old(con.log),
                  status, bus.replies, bus.trace, con.log)
    {
      ghost var rs, trace0, log0 := bus.replies, bus.trace, con.log;
      var mode;
      status, mode := ReadRegister(bus, con, DeviceStatusRegister, 0);
      ghost var log1 := con.log;
      if status != Ok {
        con.Send(ModeReadFailed);
        DidAdjust(ReadReg(rs, DeviceStatusRegister, 0), rs, trace0, log0, status, bus.replies, bus.trace, log1,
                  status, [ModeReadFailed]);
        return;
      }
      if Bits(mode) & StateMask == Bits(ModeStandby) {
        status := Busy;
        con.Send(StandbyMode);
        DidAdjust(ReadReg(rs, DeviceStatusRegister, 0), rs, trace0, log0, Ok, bus.replies, bus.trace, log1,
                  Busy, [StandbyMode]);
      }
    }

    /** mc3416_set_sampling_rate and mc3416_set_range_resolution. */
    static method SetRegisterBits(bus: Bus, con: Console, which: Setting) returns (status: Status)
      requires |bus.replies| >= 3
      modifies bus, con
      ensures Did(MergeEffect(old(bus.replies), which), old(bus.replies), old(bus.trace), old(con.log),
                  status, bus.replies, bus.trace, con.log)
    {
      ghost var rs, trace0, log0 := bus.replies, bus.trace, con.log;
      var value;
      status, value := ReadRegister(bus, con, SettingRegister(which), 0);
      ghost var r := ReadReg(rs, SettingRegister(which), 0);
      ghost var replies1, trace1, log1 := bus.replies, bus.trace, con.log;
      if status != Ok {
        con.Send(ReadFailed(which));
        DidAdjust(r, rs, trace0, log0, status, replies1, trace1, log1, status, [ReadFailed(which)]);
        return;
      }
      status := WriteRegister(bus, con, SettingRegister(which), Merged(which, value));
      ghost var log2 := con.log;
      if status != Ok {
        con.Send(WriteFailed(which));
      }
      ghost var w := WriteReg(replies1, SettingRegister(which), Merged(which, value));
      DidSeq(r, w, rs, trace0, log0, Ok, replies1, trace1, log1, status, bus.replies, bus.trace, log2);
      DidAdjust(Seq(r, w), rs, trace0, log0, status, bus.replies, bus.trace, log2, status, con.log[|log2|..]);
    }

    /** The chip ID read of mc3416_validate_chip. */
    static method ReadChipId(bus: Bus, con: Console) returns (status: Status, chip: u8)
      requires |bus.replies| >= 2
      modifies bus, con
      ensures var c := ReadReg(old(bus.replies), ChipIdRegister, 0);
        chip == c.data[0]
        && Did(if status != Ok then Note(c, [ChipReadFailed]) else c, old(bus.replies), old(bus.trace),
               old(con.log), status, bus.replies, bus.trace, con.log)
    {
      ghost var rs, trace0, log0 := bus.replies, bus.trace, con.log;
      status, chip := ReadRegister(bus, con, ChipIdRegister, 0);
      if status != Ok {
        ghost var log1 := con.log;
        con.Send(ChipReadFailed);
        DidAdjust(ReadReg(rs, ChipIdRegister, 0), rs, trace0, log0, status, bus.replies, bus.trace, log1,
                  status, [ChipReadFailed]);
      }
    }

    /** mc3416_validate_chip. */
    static method ValidateChip(bus: Bus, con: Console) returns (status: Status)
      requires |bus.replies| >= 4
      modifies bus, con
      ensures Did(ValidateEffect(old(bus.replies)), old(bus.replies), old(bus.trace), old(con.log),
                  status, bus.replies, bus.trace, con.log)
    {
      ghost var rs, trace0, log0 := bus.replies, bus.trace, con.log;
      var chip;
      status, chip := ReadChipId(bus, con);
      if status != Ok {
        return;
      }
      ghost var c := ReadReg(rs, ChipIdRegister, 0);
      ghost var replies1, trace1, log1 := bus.replies, bus.trace, con.log;
      var pcode;
      status, pcode := ReadRegister(bus, con, ProductCodeLowRegister, 0);
      ghost var p := ReadReg(replies1, ProductCodeLowRegister, 0);
      DidSeq(c, p, rs, trace0, log0, Ok, replies1, trace1, log1, status, bus.replies, bus.trace, con.log);
      ghost var log2 := con.log;
      if status != Ok {
        con.Send(ProductReadFailed);
        DidAdjust(Seq(c, p), rs, trace0, log0, status, bus.replies, bus.trace, log2, status, [ProductReadFailed]);
        return;
      }
      if Bits(chip) & 0xF0 != ChipId {
        con.Send(ChipIdIncorrect);
        DidAdjust(Seq(c, p), rs, trace0, log0, Ok, bus.replies, bus.trace, log2, Mc3416Error, [ChipIdIncorrect]);
        return Mc3416Error;
      }
      if Bits(pcode) & 0xF1 != ProductCode {
        con.Send(ProductCodeIncorrect);
        DidAdjust(Seq(c, p), rs, trace0, log0, Ok, bus.replies, bus.trace, log2, Mc3416Error,
                  [ProductCodeIncorrect]);
        return Mc3416Error;
      }
    }

    /** The start of read_tilt and calibrate: check the mode and wake a device in standby. */
    static method Ready(bus: Bus, con: Console, c: Caller) returns (status: Status)
      requires |bus.replies| >= 3
      modifies bus, con
      ensures Did(ReadyEffect(old(bus.replies), c), old(bus.replies), old(bus.trace), old(con.log),
                  status, bus.replies, bus.trace, con.log)
    {
      ghost var rs, trace0, log0 := bus.replies, bus.trace, con.log;
      status := CheckMode(bus, con);
      ghost var m := CheckModeEffect(rs);
      ghost var replies1, trace1, log1 := bus.replies, bus.trace, con.log;
      if status != Busy && status != Ok {
        con.Send(ModeCheckFailed(c));
        DidAdjust(m, rs, trace0, log0, status, replies1, trace1, log1, status, [ModeCheckFailed(c)]);
        return;
      }
      if status == Busy {
        status := EnterMode(bus, con, ModeWake, WakeupFailed(c));
        DidSeq(m, EnterModeEffect(replies1, ModeWake, WakeupFailed(c)), rs, trace0, log0, Busy,
               replies1, trace1, log1, status, bus.replies, bus.trace, con.log);
      }
    }

    /** Axis register read k of mc3416_read_axis, reported on the console when it fails. */
    static method ReadAxisByte(bus: Bus, con: Console, k: nat, stale: u8) returns (status: Status, value: u8)
      requires k < 6 && |bus.replies| >= 2
      modifies bus, con
      ensures var e := AxisByte(old(bus.replies), k, stale);
        Did(e, old(bus.replies), old(bus.trace), old(con.log), status, bus.replies, bus.trace, con.log)
        && [value] == e.data
    {
      ghost var rs, trace0, log0 := bus.replies, bus.trace, con.log;
      status, value := ReadRegister(bus, con, AxisRegister(k), stale);
      ghost var log1 := con.log;
      if status != Ok {
        con.Send(AxisReadFailed);
      }
      DidAdjust(ReadReg(rs, AxisRegister(k), stale), rs, trace0, log0, status, bus.replies, bus.trace, log1,
                status, con.log[|log1|..]);
    }

    /** Axis register reads k to 5 of mc3416_read_axis, each made whatever the ones before returned. */
    static method ReadAxisFrom(bus: Bus, con: Console, k: nat, stale: seq<u8>) returns (status: Status, data: seq<u8>)
      requires k < 6 && |bus.replies| >= 2 * (6 - k) && |stale| == 6
      modifies bus, con
      ensures var e := AxisScan(old(bus.replies), k, stale);
        Did(e, old(bus.replies), old(bus.trace), old(con.log), status, bus.replies, bus.trace, con.log)
        && data == e.data
      decreases 6 - k
    {
      ghost var rs, trace0, log0 := bus.replies, bus.trace, con.log;
      var value;
      status, value := ReadAxisByte(bus, con, k, stale[k]);
      data := [value];
      if k == 5 {
        return;
      }
      ghost var b := AxisByte(rs, k, stale[k]);
      ghost var replies1, trace1, log1 := bus.replies, bus.trace, con.log;
      var rest;
      status, rest := ReadAxisFrom(bus, con, k + 1, stale);
      DidSeq(b, AxisScan(replies1, k + 1, stale), rs, trace0, log0, b.status, replies1, trace1, log1,
             status, bus.replies, bus.trace, con.log);
      data := data + rest;
    }

    /**
     * mc3416_read_axis: the six axis registers read; the counts are
     * assembled from whatever the bytes hold and the status is the last
     * read's.
     */
    method ReadAxis(bus: Bus, con: Console, stale: seq<u8>) returns (status: Status)
      requires |bus.replies| >= 12 && |stale| == 6
      modifies this, bus, con
      ensures var e := AxisScan(old(bus.replies), 0, stale);
        Did(e, old(bus.replies), old(bus.trace), old(con.log), status, bus.replies, bus.trace, con.log)
        && counts == Assemble(e.data)
      ensures offsets == old(offsets) && gravity == old(gravity)
    {
      var data;
      status, data := ReadAxisFrom(bus, con, 0, stale);
      counts := Assemble(data);
    }

    /** The mode check, wake-up and axis reads shared by read_tilt and calibrate. */
    method Sample(bus: Bus, con: Console, stale: seq<u8>, c: Caller) returns (status: Status)
      requires |bus.replies| >= 15 && |stale| == 6
      modifies this, bus, con
      ensures Did(SampleEffect(old(bus.replies), stale, c), old(bus.replies), old(bus.trace), old(con.log),
                  status, bus.replies, bus.trace, con.log)
      ensures counts == if ReadyEffect(old(bus.replies), c).status == Ok
                        then Assemble(SampleData(old(bus.replies), stale, c)) else old(counts)
      ensures offsets == old(offsets) && gravity == old(gravity)
    {
      ghost var rs, trace0, log0 := bus.replies, bus.trace, con.log;
      ghost var offsets0, gravity0 := offsets, gravity;
      status := Ready(bus, con, c);
      ghost var replies1, trace1, log1 := bus.replies, bus.trace, con.log;
      if status != Ok {
        SampleStops(rs, stale, c, trace0, log0, status, replies1, trace1, log1);
        return;
      }
      status := ReadAxis(bus, con, stale);
      ghost var replies2, trace2, log2, counts2 := bus.replies, bus.trace, con.log, counts;
      Report(con, status, SampleFailed(c));
      SampleDone(rs, stale, c, trace0, log0, replies1, trace1, log1, status, replies2, trace2, log2);
      assert counts == counts2 && offsets == offsets0 && gravity == gravity0;
    }

    /**
     * wcm_mc3416_read_tilt without the angle itself: after a successful
     * sample the offsets are subtracted from the counts and the
     * accelerations computed; a failed sample leaves them as the reads
     * left them.
     */
    method ReadTiltSample(bus: Bus, con: Console, stale: seq<u8>) returns (status: Status)
      requires |bus.replies| >= 15 && |stale| == 6
      modifies this, bus, con
      ensures var rs := old(bus.replies);
        Did(SampleEffect(rs, stale, ReadTilt), rs, old(bus.trace), old(con.log), status, bus.replies,
            bus.trace, con.log)
        && (ReadyEffect(rs, ReadTilt).status != Ok ==> counts == old(counts) && gravity == old(gravity))
        && (ReadyEffect(rs, ReadTilt).status == Ok && status != Ok ==>
              counts == Assemble(SampleData(rs, stale, ReadTilt)) && gravity == old(gravity))
        && (status == Ok ==>
              counts == Convert(Assemble(SampleData(rs, stale, ReadTilt)), old(offsets)) && gravity == Scale(counts))
      ensures offsets == old(offsets)
    {
      status := Sample(bus, con, stale, ReadTilt);
      if status != Ok {
        return;
      }
      counts := Convert(counts, offsets);
      gravity := Scale(counts);
    }

    /**
     * The end of wcm_mc3416_calibrate: the Y count loses its 1 g reference,
     * the counts become the offsets and the offsets are persisted.
     */
    method StoreCalibration(con: Console, emu: Emulator)
      requires settings.data.Length == DataLength && |emu.statuses| >= 2
      modifies this, con, emu, settings.data
      ensures counts == LessReference(old(counts))
      ensures offsets == CalibrationOffsets(old(counts))
      ensures emu.calls == old(emu.calls) + [WriteCall(0, Encode(offsets)), CommitCall]
      ensures emu.store == (if old(emu.statuses)[0] == Ok then Encode(offsets) else old(emu.store))
      ensures con.log == old(con.log) + WriteLog(old(emu.statuses)[0], old(emu.statuses)[1])
      ensures gravity == old(gravity)
    {
      counts := counts.(y := ToI16(counts.y - YReference));
      offsets := Offsets(Wrap16(counts.x), Wrap16(counts.y), Wrap16(counts.z));
      ghost var counts1, offsets1, gravity1 := counts, offsets, gravity;
      settings.WriteSettings(emu, con, offsets);
      assert counts == counts1 && offsets == offsets1 && gravity == gravity1;
    }

    /**
     * wcm_mc3416_calibrate: after a successful sample the Y count loses its
     * 1 g reference, the counts become the offsets and are persisted; a
     * failed sample changes no offset and writes nothing to the EEPROM.
     */
    method CalibrateOffsets(bus: Bus, con: Console, emu: Emulator, stale: seq<u8>) returns (status: Status)
      requires |bus.replies| >= 15 && |stale| == 6
      requires settings.data.Length == DataLength && |emu.statuses| >= 2
      modifies this, bus, con, emu, settings.data
      ensures var rs := old(bus.replies);
        Did(Note(SampleEffect(rs, stale, Calibrate),
                 if status == Ok then WriteLog(old(emu.statuses)[0], old(emu.statuses)[1]) else []),
            rs, old(bus.trace), old(con.log), status, bus.replies, bus.trace, con.log)
      ensures status != Ok ==> offsets == old(offsets) && emu.calls == old(emu.calls) && emu.store == old(emu.store)
      ensures status == Ok ==>
        var a := Assemble(SampleData(old(bus.replies), stale, Calibrate));
        counts == LessReference(a) && offsets == CalibrationOffsets(a)
      ensures status == Ok ==>
        emu.calls == old(emu.calls) + [WriteCall(0, Encode(offsets)), CommitCall]
        && emu.store == (if old(emu.statuses)[0] == Ok then Encode(offsets) else old(emu.store))
      ensures gravity == old(gravity)
    {
      ghost var rs, trace0, log0 := bus.replies, bus.trace, con.log;
      status := Sample(bus, con, stale, Calibrate);
      if status != Ok {
        return;
      }
      SampleOkReady(rs, stale, Calibrate);
      ghost var replies1, trace1, log1 := bus.replies, bus.trace, con.log;
      ghost var statuses1, counts1 := emu.statuses, counts;
      StoreCalibration(con, emu);
      assert counts1 == Assemble(SampleData(rs, stale, Calibrate));
      DidAdjust(SampleEffect(rs, stale, Calibrate), rs, trace0, log0, Ok, replies1, trace1, log1,
                Ok, WriteLog(statuses1[0], statuses1[1]));
    }

    /** wcm_mc3416_zero_offsets: the offsets become zero and are persisted; the status is always OK. */
    method ZeroOffsets(con: Console, emu: Emulator) returns (status: Status)
      requires settings.data.Length == DataLength && |emu.statuses| >= 2
      modifies this, con, emu, settings.data
      ensures status == Ok && offsets == Offsets(0, 0, 0)
      ensures emu.calls == old(emu.calls) + [WriteCall(0, Encode(Offsets(0, 0, 0))), CommitCall]
      ensures old(emu.statuses)[0] == Ok ==> emu.store == Encode(Offsets(0, 0, 0))
      ensures con.log == old(con.log) + WriteLog(old(emu.statuses)[0], old(emu.statuses)[1])
      ensures counts == old(counts) && gravity == old(gravity)
    {
      offsets := Offsets(0, 0, 0);
      ghost var counts0, gravity0 := counts, gravity;
      settings.WriteSettings(emu, con, offsets);
      assert counts == counts0 && gravity == gravity0;
      status := Ok;
    }

    /** wcm_mc3416_standby. */
    static method Standby(bus: Bus, con: Console) returns (status: Status)
      requires |bus.replies| >= 1
      modifies bus, con
      ensures Did(EnterModeEffect(old(bus.replies), ModeStandby, StandbyFailed), old(bus.replies), old(bus.trace),
                  old(con.log), status, bus.replies, bus.trace, con.log)
    {
      status := EnterMode(bus, con, ModeStandby, StandbyFailed);
    }

    /** Configuration step k of wcm_mc3416_init. */
    static method RunStep(bus: Bus, con: Console, k: nat) returns (status: Status)
      requires k < 4 && |bus.replies| >= StepNeed(k)
      modifies bus, con
      ensures Did(Step(old(bus.replies), k), old(bus.replies), old(bus.trace), old(con.log),
                  status, bus.replies, bus.trace, con.log)
    {
      if k == 0 {
        status := ValidateChip(bus, con);
      } else if k == 1 {
        status := SetMode(bus, con, ModeStandby);
      } else if k == 2 {
        status := SetRegisterBits(bus, con, SampleRate);
      } else {
        status := SetRegisterBits(bus, con, Range);
      }
    }

    /** Configuration steps k to 3 of wcm_mc3416_init, the first failure reported and returned. */
    static method Prepare(bus: Bus, con: Console, k: nat) returns (status: Status)
      requires k <= 4 && |bus.replies| >= NeedFrom(k)
      modifies bus, con
      ensures Did(PrepareFrom(old(bus.replies), k), old(bus.replies), old(bus.trace), old(con.log),
                  status, bus.replies, bus.trace, con.log)
      decreases 4 - k
    {
      if k == 4 {
        return Ok;
      }
      ghost var rs, trace0, log0 := bus.replies, bus.trace, con.log;
      status := RunStep(bus, con, k);
      ghost var replies1, trace1, log1 := bus.replies, bus.trace, con.log;
      if status != Ok {
        con.Send(StepFailed(k));
        PrepareStops(rs, k, trace0, log0, status, replies1, trace1, log1);
        return;
      }
      PrepareRemaining(rs, k, replies1);
      status := Prepare(bus, con, k + 1);
      PrepareContinues(rs, k, trace0, log0, replies1, trace1, log1, status, bus.replies, bus.trace, con.log);
    }

    /**
     * The end of wcm_mc3416_init: the offsets read from the EEPROM
     * (mc3416_flash_read_offset, which always reports OK) and the device
     * woken.
     */
    method Finish(bus: Bus, con: Console, emu: Emulator) returns (status: Status)
      requires |bus.replies| >= 1
      requires settings.data.Length == DataLength && |emu.statuses| >= 1
      modifies this, bus, con, emu, settings.data
      ensures Did(EnterModeEffect(old(bus.replies), ModeWake, WakeNotEntered), old(bus.replies), old(bus.trace),
                  old(con.log) + (if old(emu.statuses)[0] == Ok then [] else [ReadBufferFailed]),
                  status, bus.replies, bus.trace, con.log)
      ensures emu.calls == old(emu.calls) + [ReadCall(0, DataLength)] && emu.store == old(emu.store)
      ensures offsets == if old(emu.statuses)[0] == Ok then Decode(Fit(old(emu.store), DataLength)) else old(offsets)
      ensures counts == old(counts) && gravity == old(gravity)
    {
      ghost var replies0, trace0, counts0, gravity0 := bus.replies, bus.trace, counts, gravity;
      offsets := settings.ReadSettings(emu, con, offsets);
      assert bus.replies == replies0 && bus.trace == trace0 && counts == counts0 && gravity == gravity0;
      ghost var calls1, store1, offsets1 := emu.calls, emu.store, offsets;
      status := EnterMode(bus, con, ModeWake, WakeNotEntered);
      assert emu.calls == calls1 && emu.store == store1 && offsets == offsets1;
    }

    /**
     * wcm_mc3416_init after eeprom_configure: identification and
     * configuration, and if they succeed the offset read and the wake-up.
     */
    method Start(bus: Bus, con: Console, emu: Emulator) returns (status: Status)
      requires |bus.replies| >= NeedFrom(0) + 1
      requires settings.data.Length == DataLength && |emu.statuses| >= 1
      modifies this, bus, con, emu, settings.data
      ensures var rs := old(bus.replies);
        var p := PrepareFrom(rs, 0);
        (p.status != Ok ==>
           Did(p, rs, old(bus.trace), old(con.log), status, bus.replies, bus.trace, con.log)
           && offsets == old(offsets) && emu.calls == old(emu.calls))
        && (p.status == Ok ==>
              var w := EnterModeEffect(rs[p.used..], ModeWake, WakeNotEntered);
              status == w.status && bus.trace == old(bus.trace) + p.packets + w.packets
              && con.log == old(con.log) + p.log + (if old(emu.statuses)[0] == Ok then [] else [ReadBufferFailed]) + w.log
              && emu.calls == old(emu.calls) + [ReadCall(0, DataLength)]
              && offsets == (if old(emu.statuses)[0] == Ok then Decode(Fit(old(emu.store), DataLength))
                             else old(offsets)))
      ensures emu.store == old(emu.store) && counts == old(counts) && gravity == old(gravity)
    {
      ghost var rs, counts0, gravity0, offsets0 := bus.replies, counts, gravity, offsets;
      ghost var calls0, store0, statuses0 := emu.calls, emu.store, emu.statuses;
      status := Prepare(bus, con, 0);
      assert counts == counts0 && gravity == gravity0 && offsets == offsets0;
      assert emu.calls == calls0 && emu.store == store0 && emu.statuses == statuses0;
      if status != Ok {
        return;
      }
      ghost var p := PrepareFrom(rs, 0);
      assert bus.replies == rs[p.used..];
      ghost var log1 := con.log;
      status := Finish(bus, con, emu);
      Assoc(log1, if statuses0[0] == Ok then [] else [ReadBufferFailed],
            EnterModeEffect(rs[p.used..], ModeWake, WakeNotEntered).log);
    }

    /**
     * wcm_mc3416_init: eeprom_configure loads the offsets, then
     * identification, standby, sample rate, range, the offset read and the
     * wake-up in that order, the first failure ending init.
     */
    method Init(bus: Bus, con: Console, emu: Emulator) returns (status: Status)
      requires |bus.replies| >= NeedFrom(0) + 1
      requires settings.data.Length == DataLength && |emu.statuses| >= 5
      modifies this, bus, con, emu, settings.data
      ensures var rs := old(bus.replies);
        var p := PrepareFrom(rs, 0);
        (p.status != Ok ==> status == p.status && bus.trace == old(bus.trace) + p.packets)
        && (p.status == Ok ==>
              var w := EnterModeEffect(rs[p.used..], ModeWake, WakeNotEntered);
              status == w.status && bus.trace == old(bus.trace) + p.packets + w.packets)
      ensures var c := ConfigureEffect(old(emu.statuses), old(emu.store), old(offsets));
        var p := PrepareFrom(old(bus.replies), 0);
        emu.store == c.store
        && (p.status != Ok ==>
              offsets == c.offsets && emu.calls == old(emu.calls) + c.calls
              && con.log == old(con.log) + c.log + p.log)
      ensures var c := ConfigureEffect(old(emu.statuses), old(emu.store), old(offsets));
        var rs := old(bus.replies);
        var p := PrepareFrom(rs, 0);
        var read := old(emu.statuses)[c.used];
        p.status == Ok ==>
          emu.calls == old(emu.calls) + c.calls + [ReadCall(0, DataLength)]
          && offsets == (if read == Ok then Decode(Fit(c.store, DataLength)) else c.offsets)
          && con.log == old(con.log) + c.log + p.log + (if read == Ok then [] else [ReadBufferFailed])
                        + EnterModeEffect(rs[p.used..], ModeWake, WakeNotEntered).log
      ensures counts == old(counts) && gravity == old(gravity)
    {
      offsets := settings.Configure(emu, con, offsets);
      status := Start(bus, con, emu);
    }
  }
}
