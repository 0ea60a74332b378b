/**
 * The LTC2944 battery gas gauge driver (pm_ltc2944.c): initialisation
 * with one retry of the control-register read, and a manual conversion
 * followed by five register reads in a fixed order, each result scaled
 * to volts, amperes, degrees Celsius or milliampere-hours. The firmware
 * scales in double; the model uses the same formulas over the reals.
 */
module Ltc2944 {
  import opened Common
  import opened Hal
  import opened I2c

  const Address: u8 := 0x64
  const StatusRegister: u8 := 0x00
  const ControlRegister: u8 := 0x01
  const AccumulatedChargeMsb: u8 := 0x02
  const VoltageMsb: u8 := 0x08
  const CurrentMsb: u8 := 0x0E
  const TemperatureMsb: u8 := 0x14

  /** Manual mode, prescaler M = 4096, /ALCC disabled, analog section on. */
  const ManualConversion: u8 := 0x78

  /** The capacity of the battery in mAh. */
  const BatteryCapacity: real := 5200.0

  // ------------------------------------------------------------ conversions

  /** The charge a full accumulated-charge register stands for: 1000 * 0xffff * qLSB * M * 50 mOhm / (RSENSE * 4096). */
  const MaxCharge: real := 1000.0 * 65535.0 * 0.00034 * 4096.0 * 0.05 / (0.015 * 4096.0)

  /** (uint16_t)(0xffff * capacity / max_charge + 0.5): the register level of a battery holding `capacity`. */
  function ChargeRegisterValue(capacity: real): int
  {
    (65535.0 * capacity / MaxCharge + 0.5).Floor
  }

  /** The register level written at start-up, 4588 (0x11EC), rounds the capacity to the nearest level. */
  lemma FullChargeRegister()
    ensures ChargeRegisterValue(BatteryCapacity) == 4588 == 0x11EC
    ensures Wrap16(4588) / 256 == 0x11 && Wrap16(4588) % 256 == 0xEC
    ensures Charge(4587) < Charge(4588) <= BatteryCapacity < Charge(4589)
  {
    assert MaxCharge == 65535.0 * 17.0 / 15.0;
    assert 65535.0 * BatteryCapacity / MaxCharge == 78000.0 / 17.0;
  }

  /** VSENSE = 70.8 V * code / 65535. */
  function Voltage(code: u16): (v: real)
    ensures 0.0 <= v <= 70.8
    ensures code == 0xFFFF ==> v == 70.8
  {
    70.8 * code as real / 65535.0
  }

  /** IBAT = (64 mV / RSENSE) * (code - 32767) / 32767: zero at mid-scale, positive when charging. */
  function Current(code: u16): (c: real)
    ensures c == 0.0 <==> code == 32767
    ensures c > 0.0 <==> code > 32767
  {
    (64.0 * 0.001 / 0.015) * (code as real - 32767.0) / 32767.0
  }

  /** T = code * 510 K / 65535 - 273.15, in degrees Celsius. */
  function Temperature(code: u16): (t: real)
    ensures -273.15 <= t <= 236.85
  {
    code as real * 510.0 / 65535.0 - 273.15
  }

  /** The accumulated charge in mAh, with the same scale as MaxCharge. */
  function Charge(code: u16): (q: real)
    ensures 0.0 <= q <= MaxCharge
    ensures code == 0xFFFF ==> q == MaxCharge
  {
    1000.0 * code as real * 0.00034 * 4096.0 * 0.05 / (0.015 * 4096.0)
  }

  /** A larger register value always stands for more charge. */
  lemma ChargeMonotone(a: u16, b: u16)
    requires a < b
    ensures Charge(a) < Charge(b)
  {
    assert Charge(b) - Charge(a) == (b - a) as real * (1000.0 * 0.00034 * 0.05 / 0.015);
  }

  // ------------------------------------------------------------------ init

  /** How many bus answers the control-register read and its one retry use. */
  function ControlUsed(rs: seq<Reply>): nat
    requires |rs| >= 4
  {
    var u := PairUsed(rs[0]);
    if PairStatus(rs[0], rs[1]) == Ok then 2 else u + PairUsed(rs[u])
  }

  /** The status of the control-register read, after the retry if the first attempt failed. */
  function ControlStatus(rs: seq<Reply>): Status
    requires |rs| >= 4
  {
    var u := PairUsed(rs[0]);
    if PairStatus(rs[0], rs[1]) == Ok then Ok else PairStatus(rs[u], rs[u + 1])
  }

  /** (uint8_t)data: the low byte of a one-byte response read. */
  function ByteRead(r: Reply): u8
  {
    BigEndian(Fit(r.bytes, 1)) % 256
  }

  /** The control register as read by the attempt that succeeded. */
  function ControlValue(rs: seq<Reply>): u8
    requires |rs| >= 4
  {
    if PairStatus(rs[0], rs[1]) == Ok then ByteRead(rs[1]) else ByteRead(rs[PairUsed(rs[0]) + 1])
  }

  /** The control register with B[0] set, which shuts the analog section down. */
  function WithShutdown(control: u8): (r: u8)
    ensures Bits(r) & 0xFE == Bits(control) & 0xFE && Bits(r) & 1 == 1
  {
    Byte(Bits(control) | 1)
  }

  /** The transfers of the control-register read and its retry. */
  function ControlPackets(rs: seq<Reply>): seq<Packet>
    requires |rs| >= 4
  {
    var u := PairUsed(rs[0]);
    PairPackets(Address, [ControlRegister], false, 1, rs[0])
      + (if PairStatus(rs[0], rs[1]) == Ok then [] else PairPackets(Address, [ControlRegister], false, 1, rs[u]))
  }

  /** The console lines of the control-register read and its retry. */
  function ControlLog(rs: seq<Reply>): seq<Msg>
    requires |rs| >= 4
  {
    var u := PairUsed(rs[0]);
    ResponseLog(PmI2c, rs[0], rs[1])
      + (if PairStatus(rs[0], rs[1]) == Ok then [] else ResponseLog(PmI2c, rs[u], rs[u + 1]))
  }

  /** The control-register read of pm_ltc2944_init, retried once if it fails. */
  method ReadControl(bus: Bus, con: Console) returns (status: Status, control: u8)
    requires |bus.replies| >= 4
    modifies bus, con
    ensures var rs := old(bus.replies);
      status == ControlStatus(rs)
      && (status == Ok ==> control == ControlValue(rs))
      && bus.replies == rs[ControlUsed(rs)..]
      && bus.trace == old(bus.trace) + ControlPackets(rs)
      && con.log == old(con.log) + ControlLog(rs)
  {
    ghost var rs := bus.replies;
    var data;
    status, data := WriteCommandReadResponse(PmI2c, bus, con, Address, [ControlRegister], 1, 1, 0);
    if status != Ok {
      DropDrop(rs, PairUsed(rs[0]), 0);
      status, data := WriteCommandReadResponse(PmI2c, bus, con, Address, [ControlRegister], 1, 1, 0);
      DropDrop(rs, PairUsed(rs[0]), PairUsed(rs[PairUsed(rs[0])]));
    }
    control := data % 256;
  }

  /**
   * pm_ltc2944_init: read the control register (retried once), write it
   * back with the shutdown bit set, then write the full-charge level to
   * the accumulated-charge registers; the first failure is returned.
   */
  method Init(bus: Bus, con: Console) returns (status: Status)
    requires |bus.replies| >= 6
    modifies bus, con
    ensures var rs := old(bus.replies);
      var t := ControlUsed(rs);
      (ControlStatus(rs) != Ok ==> status == ControlStatus(rs) && bus.trace == old(bus.trace) + ControlPackets(rs))
      && (ControlStatus(rs) == Ok ==>
            status == (if rs[t].status != Ok then rs[t].status else rs[t + 1].status)
            && bus.trace == old(bus.trace) + ControlPackets(rs)
               + [Write(Address, [ControlRegister, WithShutdown(ControlValue(rs))], true)]
               + (if rs[t].status != Ok then [] else [Write(Address, [AccumulatedChargeMsb, 0x11, 0xEC], true)]))
  {
    ghost var rs := bus.replies;
    var control;
    status, control := ReadControl(bus, con);
    if status != Ok {
      return;
    }
    ghost var t := ControlUsed(rs);
    status := WriteCommandPacket(PmI2c, bus, con, Address, [ControlRegister, WithShutdown(control)], 0);
    if status != Ok {
      return;
    }
    var level := Wrap16(ChargeRegisterValue(BatteryCapacity));
    FullChargeRegister();
    status := WriteCommandPacket(PmI2c, bus, con, Address, [AccumulatedChargeMsb, level / 256, level % 256], 0);
    assert rs[t..][1..][0] == rs[t + 1];
  }

  // ------------------------------------------------------------------ read

  /** The outputs of pm_ltc2944_read: *v, *c, *t, *charge and *status_value. */
  datatype Gauge = Gauge(voltage: real, current: real, temperature: real, charge: real, statusValue: u8)

  /** The registers read after the conversion, in order, and how many bytes each has. */
  function Register(k: nat): u8
    requires k < 5
  {
    [VoltageMsb, CurrentMsb, TemperatureMsb, AccumulatedChargeMsb, StatusRegister][k]
  }

  function Width(k: nat): nat
  {
    if k == 4 then 1 else 2
  }

  /** Register read k (a write at 1 + 2k, a read at 2 + 2k) succeeded. */
  predicate RegisterOk(rs: seq<Reply>, k: nat)
    requires |rs| >= 2 * k + 3
  {
    PairStatus(rs[2 * k + 1], rs[2 * k + 2]) == Ok
  }

  /** The first register read that fails, or 5 if none does. */
  function FirstFailedRegister(rs: seq<Reply>, k: nat): (f: nat)
    requires |rs| >= 11 && k <= 5
    ensures k <= f <= 5
    decreases 5 - k
  {
    if k == 5 then 5 else if !RegisterOk(rs, k) then k else FirstFailedRegister(rs, k + 1)
  }

  /** Every register read before the one FirstFailedRegister names succeeded, and that one, if any, failed. */
  lemma {:induction false} FirstFailedRegisterIsFirst(rs: seq<Reply>, k: nat)
    requires |rs| >= 11 && k <= 5
    ensures var f := FirstFailedRegister(rs, k);
      (forall j :: k <= j < f ==> RegisterOk(rs, j)) && (f < 5 ==> !RegisterOk(rs, f))
    decreases 5 - k
  {
    if k < 5 && RegisterOk(rs, k) {
      FirstFailedRegisterIsFirst(rs, k + 1);
    }
  }

  /** The big-endian value register read k clocked in. */
  function RegisterCode(rs: seq<Reply>, k: nat): u16
    requires k < 5 && |rs| >= 2 * k + 3
  {
    var b := Fit(rs[2 * k + 2].bytes, Width(k));
    BigEndianBound(b);
    assert Pow256(2) == 0x1_0000 && Pow256(1) == 0x100;
    BigEndian(b)
  }

  /** The outputs after read k has stored its scaled value. */
  function Stored(g: Gauge, k: nat, code: u16): Gauge
    requires k < 5
  {
    match k
    case 0 => g.(voltage := Voltage(code))
    case 1 => g.(current := Current(code))
    case 2 => g.(temperature := Temperature(code))
    case 3 => g.(charge := Charge(code))
    case 4 => g.(statusValue := code % 256)
  }

  /** The outputs after the first f register reads have stored their values. */
  function Assigned(prior: Gauge, rs: seq<Reply>, f: nat): Gauge
    requires f <= 5 && |rs| >= 11
  {
    if f == 0 then prior else Stored(Assigned(prior, rs, f - 1), f - 1, RegisterCode(rs, f - 1))
  }

  /** The outputs read k reaches hold its scaled value; the others keep what the caller had. */
  lemma {:induction false} AssignedFields(prior: Gauge, rs: seq<Reply>, f: nat)
    requires f <= 5 && |rs| >= 11
    ensures var g := Assigned(prior, rs, f);
      g.voltage == (if f > 0 then Voltage(RegisterCode(rs, 0)) else prior.voltage)
      && g.current == (if f > 1 then Current(RegisterCode(rs, 1)) else prior.current)
      && g.temperature == (if f > 2 then Temperature(RegisterCode(rs, 2)) else prior.temperature)
      && g.charge == (if f > 3 then Charge(RegisterCode(rs, 3)) else prior.charge)
      && g.statusValue == (if f > 4 then RegisterCode(rs, 4) % 256 else prior.statusValue)
  {
    if f > 0 {
      AssignedFields(prior, rs, f - 1);
    }
  }

  /** The transfers of the conversion command and the first k register reads, all succeeding. */
  function ReadPackets(k: nat): seq<Packet>
    requires k <= 5
  {
    if k == 0 then [Write(Address, [ControlRegister, ManualConversion], true)]
    else ReadPackets(k - 1) + [Write(Address, [Register(k - 1)], false), Packet.Read(Address, Width(k - 1))]
  }

  /** The console line pm_ltc2944_read sends once the current register has been read. */
  function CurrentLine(code: u16): Msg
  {
    Field("pm_ltc2944_read: current data", Hex(code))
  }

  /** The console lines the first k register reads leave when they all succeed. */
  function LinesBefore(rs: seq<Reply>, k: nat): seq<Msg>
    requires k <= 5 && |rs| >= 11
  {
    if k > 1 then [CurrentLine(RegisterCode(rs, 1))] else []
  }

  /** The console lines of a read whose conversion command succeeded and whose register reads stop at f. */
  function ReadLog(rs: seq<Reply>, f: nat): seq<Msg>
    requires f <= 5 && |rs| >= 11
  {
    LinesBefore(rs, f) + (if f < 5 then ResponseLog(PmI2c, rs[2 * f + 1], rs[2 * f + 2]) else [])
  }

  /**
   * What pm_ltc2944_read leaves behind when its conversion command
   * succeeds: the first failing register read f (5 if none) decides the
   * status, which outputs hold new values and which console lines were
   * sent; the transfers are all written out when every read succeeds.
   */
  predicate Outcome(rs: seq<Reply>, prior: Gauge, trace0: seq<Packet>, log0: seq<Msg>,
                    status: Status, g: Gauge, trace: seq<Packet>, log: seq<Msg>)
    requires |rs| >= 11
  {
    var f := FirstFailedRegister(rs, 0);
    (status == Ok <==> f == 5)
    && (f < 5 ==> status == PairStatus(rs[2 * f + 1], rs[2 * f + 2]))
    && g == Assigned(prior, rs, f)
    && log == log0 + ReadLog(rs, f)
    && (f == 5 ==> trace == trace0 + ReadPackets(5))
  }

  /** The state after the conversion command and the first k register reads, all successful. */
  predicate Progress(k: nat, rs: seq<Reply>, trace0: seq<Packet>, log0: seq<Msg>, prior: Gauge,
                     replies: seq<Reply>, trace: seq<Packet>, log: seq<Msg>, g: Gauge)
  {
    k <= 5 && |rs| >= 11 && replies == rs[2 * k + 1..]
    && trace == trace0 + ReadPackets(k) && log == log0 + LinesBefore(rs, k)
    && g == Assigned(prior, rs, k) && FirstFailedRegister(rs, 0) == FirstFailedRegister(rs, k)
  }

  /** A successful register read k moves the read on to k + 1. */
  lemma Advance(k: nat, rs: seq<Reply>, trace0: seq<Packet>, log0: seq<Msg>, prior: Gauge,
                replies: seq<Reply>, trace: seq<Packet>, log: seq<Msg>, g: Gauge,
                replies': seq<Reply>, trace': seq<Packet>, log': seq<Msg>, g': Gauge)
    requires k < 5 && Progress(k, rs, trace0, log0, prior, replies, trace, log, g)
    requires PairStatus(rs[2 * k + 1], rs[2 * k + 2]) == Ok && replies' == rs[2 * k + 3..]
    requires trace' == trace + [Write(Address, [Register(k)], false), Packet.Read(Address, Width(k))]
    requires log' == log + (if k == 1 then [CurrentLine(RegisterCode(rs, 1))] else [])
    requires g' == Stored(g, k, RegisterCode(rs, k))
    ensures Progress(k + 1, rs, trace0, log0, prior, replies', trace', log', g')
  {
    Assoc(trace0, ReadPackets(k), [Write(Address, [Register(k)], false), Packet.Read(Address, Width(k))]);
  }

  /** A failed register read k ends the read with the outcome of a read stopping at k. */
  lemma Stop(k: nat, rs: seq<Reply>, trace0: seq<Packet>, log0: seq<Msg>, prior: Gauge,
             replies: seq<Reply>, trace: seq<Packet>, log: seq<Msg>, g: Gauge,
             status: Status, trace': seq<Packet>, log': seq<Msg>)
    requires k < 5 && Progress(k, rs, trace0, log0, prior, replies, trace, log, g)
    requires status == PairStatus(rs[2 * k + 1], rs[2 * k + 2]) && status != Ok
    requires log' == log + ResponseLog(PmI2c, rs[2 * k + 1], rs[2 * k + 2])
    ensures Outcome(rs, prior, trace0, log0, status, g, trace', log')
  {
    Assoc(log0, LinesBefore(rs, k), ResponseLog(PmI2c, rs[2 * k + 1], rs[2 * k + 2]));
  }

  /** Once all five register reads have succeeded, the read is complete. */
  lemma Completed(rs: seq<Reply>, trace0: seq<Packet>, log0: seq<Msg>, prior: Gauge,
                  replies: seq<Reply>, trace: seq<Packet>, log: seq<Msg>, g: Gauge)
    requires Progress(5, rs, trace0, log0, prior, replies, trace, log, g)
    ensures Outcome(rs, prior, trace0, log0, Ok, g, trace, log)
  {
    assert ReadLog(rs, 5) == LinesBefore(rs, 5);
  }

  /** Register read k of pm_ltc2944_read: a command write without a stop, then the response. */
  method ReadRegister(bus: Bus, con: Console, k: nat, ghost rs: seq<Reply>) returns (status: Status, data: u16)
    requires k < 5 && |rs| >= 11 && bus.replies == rs[2 * k + 1..]
    modifies bus, con
    ensures status == PairStatus(rs[2 * k + 1], rs[2 * k + 2])
    ensures status == Ok ==>
      data == RegisterCode(rs, k) && bus.replies == rs[2 * k + 3..]
      && bus.trace == old(bus.trace) + [Write(Address, [Register(k)], false), Packet.Read(Address, Width(k))]
    ensures con.log == old(con.log) + ResponseLog(PmI2c, rs[2 * k + 1], rs[2 * k + 2])
  {
    var value;
    status, value := WriteCommandReadResponse(PmI2c, bus, con, Address, [Register(k)], Width(k), 1, 0);
    DropDrop(rs, 2 * k + 1, 2);
    if status == Ok {
      assert value == RegisterCode(rs, k);
      data := value;
    } else {
      data := 0;
    }
  }

  /**
   * Register reads k to 4 of pm_ltc2944_read, in order: each successful
   * read stores its scaled value and the read goes on; the first failure
   * ends it.
   */
  method ReadFrom(bus: Bus, con: Console, k: nat, ghost rs: seq<Reply>, ghost trace0: seq<Packet>,
                  ghost log0: seq<Msg>, prior: Gauge, g: Gauge)
    returns (status: Status, h: Gauge)
    requires Progress(k, rs, trace0, log0, prior, bus.replies, bus.trace, con.log, g)
    modifies bus, con
    ensures Outcome(rs, prior, trace0, log0, status, h, bus.trace, con.log)
    decreases 5 - k
  {
    if k == 5 {
      Completed(rs, trace0, log0, prior, bus.replies, bus.trace, con.log, g);
      return Ok, g;
    }
    ghost var replies, trace, log := bus.replies, bus.trace, con.log;
    var data;
    status, data := ReadRegister(bus, con, k, rs);
    if status != Ok {
      Stop(k, rs, trace0, log0, prior, replies, trace, log, g, status, bus.trace, con.log);
      return status, g;
    }
    var next := Stored(g, k, data);
    if k == 1 {
      con.Send(CurrentLine(data));
    }
    Advance(k, rs, trace0, log0, prior, replies, trace, log, g, bus.replies, bus.trace, con.log, next);
    status, h := ReadFrom(bus, con, k + 1, rs, trace0, log0, prior, next);
  }

  /**
   * pm_ltc2944_read: start a manual conversion, then read voltage,
   * current, temperature, accumulated charge and status in that order.
   * The first failure is returned; the outputs stored before it keep
   * their new values and the rest keep the caller's.
   */
  method Read(bus: Bus, con: Console, prior: Gauge) returns (status: Status, g: Gauge)
    requires |bus.replies| >= 11
    modifies bus, con
    ensures var rs := old(bus.replies);
      (rs[0].status != Ok ==>
         status == rs[0].status && g == prior
         && con.log == old(con.log) + [Failure(PmI2c, "write_command_packet:", status)])
      && (rs[0].status == Ok ==> Outcome(rs, prior, old(bus.trace), old(con.log), status, g, bus.trace, con.log))
  {
    ghost var rs, trace0, log0 := bus.replies, bus.trace, con.log;
    status := WriteCommandPacket(PmI2c, bus, con, Address, [ControlRegister, ManualConversion], 0);
    if status != Ok {
      return status, prior;
    }
    status, g := ReadFrom(bus, con, 0, rs, trace0, log0, prior, prior);
  }
}
