/**
 * The MS5637 pressure sensor driver (pm_ms5637.c): reset, PROM read of
 * the CRC and six calibration coefficients, the two raw conversions D1
 * (pressure) and D2 (temperature), and the first- and second-order
 * compensation that turns them into millibars and degrees Celsius.
 * The firmware computes in double; the model computes the same formulas
 * over the reals.
 */
module Ms5637 {
  import opened Common
  import opened Hal
  import opened I2c

  const Address: u8 := 0x76
  const CmdReset: u8 := 0x1E
  const CmdConvertD1: u8 := 0x48
  const CmdConvertD2: u8 := 0x58
  const CmdAdcRead: u8 := 0x00

  /** The PROM read command of word k: 0xA0 + (k << 1). */
  function PromCommand(k: nat): u8
    requires k < 7
  {
    0xA0 + 2 * k
  }

  /** What the driver keeps of PROM word k: the CRC nibble, bits 15..12, of word 0; the whole word otherwise. */
  function PromValue(k: nat, word: u16): u16
  {
    if k == 0 then (word / 4096) % 16 else word
  }

  /** The CRC nibble is the high nibble of the first byte the sensor sends. */
  lemma CrcIsHighNibble(hi: u8, lo: u8)
    ensures BigEndian([hi, lo]) < 0x1_0000
    ensures PromValue(0, BigEndian([hi, lo])) == hi / 16
  {
    BigEndianWord(hi, lo);
  }

  // ------------------------------------------------------------ compensation

  /** First-order values: dT, TEMP (hundredths of a degree), OFF and SENS. */
  datatype FirstOrder = FirstOrder(dt: real, temp: real, off: real, sens: real)

  /** Second-order corrections T2, OFF2 and SENS2. */
  datatype Correction = Correction(t2: real, off2: real, sens2: real)

  /** Compensated pressure in millibars and temperature in degrees Celsius. */
  datatype Reading = Reading(pressure: real, temperature: real)

  function FirstOrderOf(c: seq<u16>, d2: u32): FirstOrder
    requires |c| == 7
  {
    var dt := d2 as real - c[5] as real * 256.0;
    var temp := 2000.0 + dt * c[6] as real / 8388608.0;
    var off := c[2] as real * 131072.0 + c[4] as real * dt / 64.0;
    var sens := c[1] as real * 65536.0 + c[3] as real * dt / 128.0;
    FirstOrder(dt, temp, off, sens)
  }

  /**
   * The second-order correction: below 20 degrees (TEMP < 2000) all three
   * terms, with an extra term below -15 degrees (TEMP < -1500, strictly);
   * otherwise only the temperature term.
   */
  function SecondOrder(dt: real, temp: real): (k: Correction)
    ensures k.t2 >= 0.0 && k.off2 >= 0.0 && k.sens2 >= 0.0
    ensures temp >= 2000.0 ==> k.off2 == 0.0 && k.sens2 == 0.0
  {
    if temp < 2000.0 then
      var tmp := (temp - 2000.0) * (temp - 2000.0) / 16.0;
      var low := Correction(3.0 * dt * dt / 8589934592.0, 61.0 * tmp, 29.0 * tmp);
      if temp < -1500.0 then
        var extra := (temp + 1500.0) * (temp + 1500.0);
        Correction(low.t2, low.off2 + 17.0 * extra, low.sens2 + 9.0 * extra)
      else low
    else
      Correction(5.0 * dt * dt / 274877906944.0, 0.0, 0.0)
  }

  function Compensate(c: seq<u16>, d1: u32, d2: u32): (r: Reading)
    requires |c| == 7
    ensures r.temperature <= FirstOrderOf(c, d2).temp / 100.0
  {
    var f := FirstOrderOf(c, d2);
    var k := SecondOrder(f.dt, f.temp);
    var temp := f.temp - k.t2;
    var off := f.off - k.off2;
    var sens := f.sens - k.sens2;
    var p := (d1 as real * sens / 2097152.0 - off) / 32768.0;
    Reading(p / 100.0, temp / 100.0)
  }

  /** The colder the sensor below 20 degrees, the larger the offset and sensitivity corrections. */
  lemma CorrectionGrowsWhenColder(dt: real, a: real, b: real)
    requires a <= b < 2000.0
    ensures SecondOrder(dt, a).off2 >= SecondOrder(dt, b).off2
    ensures SecondOrder(dt, a).sens2 >= SecondOrder(dt, b).sens2
  {
    var sa, sb := (a - 2000.0) * (a - 2000.0), (b - 2000.0) * (b - 2000.0);
    SquareMonotone(2000.0 - b, 2000.0 - a);
    assert (2000.0 - b) * (2000.0 - b) == sb && (2000.0 - a) * (2000.0 - a) == sa;
    var ea := if a < -1500.0 then (a + 1500.0) * (a + 1500.0) else 0.0;
    var eb := if b < -1500.0 then (b + 1500.0) * (b + 1500.0) else 0.0;
    if b < -1500.0 {
      SquareMonotone(-1500.0 - b, -1500.0 - a);
      assert (-1500.0 - b) * (-1500.0 - b) == eb && (-1500.0 - a) * (-1500.0 - a) == ea;
    } else if a < -1500.0 {
      SquareMonotone(0.0, -1500.0 - a);
      assert (-1500.0 - a) * (-1500.0 - a) == ea;
    }
    assert ea >= eb;
    assert SecondOrder(dt, a).off2 == 61.0 * (sa / 16.0) + 17.0 * ea;
    assert SecondOrder(dt, b).off2 == 61.0 * (sb / 16.0) + 17.0 * eb;
    assert SecondOrder(dt, a).sens2 == 29.0 * (sa / 16.0) + 9.0 * ea;
    assert SecondOrder(dt, b).sens2 == 29.0 * (sb / 16.0) + 9.0 * eb;
  }

  lemma SquareMonotone(x: real, y: real)
    requires 0.0 <= x <= y
    ensures x * x <= y * y
  {
  }

  /**
   * At TEMP == -1500 the code takes the plain low-temperature branch; the
   * extra term would be 0 there, so the correction is the limit of the
   * very-low branch and no step occurs at the threshold.
   */
  lemma NoStepAtVeryLowThreshold(dt: real, t: real)
    requires t < -1500.0
    ensures SecondOrder(dt, t).off2 - SecondOrder(dt, -1500.0).off2
         == 61.0 * ((t - 2000.0) * (t - 2000.0) - 3500.0 * 3500.0) / 16.0 + 17.0 * (t + 1500.0) * (t + 1500.0)
  {
  }

  /** The data-sheet example: dT = 68, the high-temperature branch, about 1100.03 mbar at 20.00 degrees. */
  lemma DataSheetExample()
    ensures FirstOrderOf([0, 46372, 43981, 29059, 27842, 31553, 28165], 8077636).dt == 68.0
    ensures FirstOrderOf([0, 46372, 43981, 29059, 27842, 31553, 28165], 8077636).temp >= 2000.0
    ensures var r := Compensate([0, 46372, 43981, 29059, 27842, 31553, 28165], 6465444, 8077636);
      1100.02 < r.pressure < 1100.03 && 20.00 < r.temperature < 20.01
  {
  }

  // -------------------------------------------------------------- PROM spec

  /** PROM word k, read with transaction k (a write at 2k, a read at 2k + 1), succeeded. */
  predicate WordOk(rs: seq<Reply>, k: nat)
    requires |rs| >= 2 * k + 2
  {
    rs[2 * k].status == Ok && rs[2 * k + 1].status == Ok
  }

  /** The first PROM word whose transaction fails, or 7 if none does. */
  function FirstFailedWord(rs: seq<Reply>, k: nat): (f: nat)
    requires |rs| >= 14 && k <= 7
    ensures k <= f <= 7
    decreases 7 - k
  {
    if k == 7 then 7 else if !WordOk(rs, k) then k else FirstFailedWord(rs, k + 1)
  }

  /** Every word before the one FirstFailedWord names succeeded, and that one, if any, failed. */
  lemma {:induction false} FirstFailedWordIsFirst(rs: seq<Reply>, k: nat)
    requires |rs| >= 14 && k <= 7
    ensures var f := FirstFailedWord(rs, k);
      (forall j :: k <= j < f ==> WordOk(rs, j)) && (f < 7 ==> !WordOk(rs, f))
    decreases 7 - k
  {
    if k < 7 && WordOk(rs, k) {
      FirstFailedWordIsFirst(rs, k + 1);
    }
  }

  /** The big-endian word the read of transaction k clocked in. */
  function WordRead(rs: seq<Reply>, k: nat): u16
    requires |rs| >= 2 * k + 2
  {
    var b := Fit(rs[2 * k + 1].bytes, 2);
    assert b == [b[0], b[1]];
    BigEndianWord(b[0], b[1]);
    BigEndian(b)
  }

  /** The transfers of the first k PROM words. */
  function PromPackets(k: nat): seq<Packet>
    requires k <= 7
  {
    if k == 0 then []
    else PromPackets(k - 1) + [Write(Address, [PromCommand(k - 1)], true), Read(Address, 2)]
  }

  /** The table entries the first i PROM words give. */
  function PromEntries(rs: seq<Reply>, i: nat): (t: seq<u16>)
    requires i <= 7 && |rs| >= 2 * i
    ensures |t| == i
  {
    if i == 0 then [] else PromEntries(rs, i - 1) + [PromValue(i - 1, WordRead(rs, i - 1))]
  }

  /** The console lines of a PROM read that fails at word f. */
  function PromLog(rs: seq<Reply>, f: nat): seq<Msg>
    requires f < 7 && |rs| >= 14
  {
    ResponseLog(PmI2c, rs[2 * f], rs[2 * f + 1])
      + [Text(if f == 0 then "pm_ms5637_prom_read: Could not read CRC!\r\n"
              else "pm_ms5637_prom_read: Could not read calibration coefficient!\r\n")]
  }

  // ------------------------------------------------------- raw conversions

  /** The status of one conversion (a command write at rs[0]) followed by its ADC read (rs[1], rs[2]). */
  function ConversionStatus(rs: seq<Reply>): Status
    requires |rs| >= 3
  {
    if rs[0].status != Ok then rs[0].status else PairStatus(rs[1], rs[2])
  }

  /** The console lines one conversion leaves when it fails; `which` is 1 for D1 and 2 for D2. */
  function ConversionLog(rs: seq<Reply>, which: nat): seq<Msg>
    requires |rs| >= 3
  {
    if rs[0].status != Ok then
      [Failure(PmI2c, "write_command_packet:", rs[0].status),
       Text(if which == 1 then "ms5637_read_d1_d2: Could not convert D1!\r\n"
            else "ms5637_read_d1_d2: Could not convert D2!\r\n")]
    else if PairStatus(rs[1], rs[2]) != Ok then
      ResponseLog(PmI2c, rs[1], rs[2])
        + [Text(if which == 1 then "ms5637_read_d1_d2: Could not read ADC (1)!\r\n"
                else "ms5637_read_d1_d2: Could not read ADC (2)!\r\n")]
    else []
  }

  /** The status of ms5637_read_d1_d2: that of its first failing step. */
  function D1D2Status(rs: seq<Reply>): Status
    requires |rs| >= 6
  {
    if ConversionStatus(rs) != Ok then ConversionStatus(rs) else ConversionStatus(rs[3..])
  }

  /** The console lines ms5637_read_d1_d2 leaves when it stops early. */
  function D1D2Log(rs: seq<Reply>): seq<Msg>
    requires |rs| >= 6
  {
    if ConversionStatus(rs) != Ok then ConversionLog(rs, 1) else ConversionLog(rs[3..], 2)
  }

  /** The 24-bit conversion result an ADC read clocked in. */
  function AdcValue(r: Reply): u32
  {
    var b := Fit(r.bytes, 3);
    BigEndianBound(b);
    assert Pow256(3) == 0x100_0000;
    BigEndian(b)
  }

  const D1D2Packets: seq<Packet> := [
    Write(Address, [CmdConvertD1], true), Write(Address, [CmdAdcRead], true), Read(Address, 3),
    Write(Address, [CmdConvertD2], true), Write(Address, [CmdAdcRead], true), Read(Address, 3)]

  class Sensor {
    /** c[0]: the PROM CRC nibble; c[1] .. c[6]: the calibration coefficients C1 .. C6. */
    const c: array<u16>
    /** The last raw pressure (D1) and temperature (D2) conversion results. */
    var d1: u32
    var d2: u32

    constructor()
      ensures c.Length == 7 && fresh(c) && d1 == 0 && d2 == 0
      ensures forall k :: 0 <= k < 7 ==> c[k] == 0
    {
      c := new u16[7](_ => 0);
      d1 := 0;
      d2 := 0;
    }

    /** ms5637_reset: the reset command, written once with a stop. */
    method Reset(bus: Bus, con: Console) returns (status: Status)
      requires |bus.replies| >= 1
      modifies bus, con
      ensures status == old(bus.replies)[0].status && bus.replies == old(bus.replies)[1..]
      ensures bus.trace == old(bus.trace) + [Write(Address, [CmdReset], true)]
      ensures con.log == old(con.log) + (if status == Ok then [] else [Failure(PmI2c, "write_command_packet:", status)])
    {
      status := WriteCommandPacket(PmI2c, bus, con, Address, [CmdReset], 0);
    }

    /** ms5637_adc_read: the ADC read command and a 3-byte response; the value is passed back only on success. */
    method AdcRead(bus: Bus, con: Console, prior: u32) returns (status: Status, adc: u32)
      requires |bus.replies| >= 2
      modifies bus, con
      ensures var w, r := old(bus.replies)[0], old(bus.replies)[1];
        status == PairStatus(w, r)
        && adc == (if status == Ok then AdcValue(r) else prior)
        && bus.replies == old(bus.replies)[PairUsed(w)..]
        && bus.trace == old(bus.trace) + PairPackets(Address, [CmdAdcRead], true, 3, w)
        && con.log == old(con.log) + ResponseLog(PmI2c, w, r)
    {
      var data;
      status, data := WriteCommandReadResponse(PmI2c, bus, con, Address, [CmdAdcRead], 3, 0, prior);
      adc := data;
    }

    /** One PROM word: its read command and a 2-byte response, kept as PromValue on success. */
    method PromWord(bus: Bus, con: Console, k: nat) returns (status: Status, value: u16)
      requires k < 7
      requires |bus.replies| >= 2
      modifies bus, con
      ensures var rs := old(bus.replies);
        status == PairStatus(rs[0], rs[1])
        && (status == Ok ==>
              value == PromValue(k, WordRead(rs, 0)) && bus.replies == rs[2..]
              && bus.trace == old(bus.trace) + [Write(Address, [PromCommand(k)], true), Packet.Read(Address, 2)]
              && con.log == old(con.log))
        && (status != Ok ==> con.log == old(con.log) + ResponseLog(PmI2c, rs[0], rs[1]))
    {
      var data;
      status, data := WriteCommandReadResponse(PmI2c, bus, con, Address, [PromCommand(k)], 2, 0, 0);
      if status == Ok {
        assert data == WordRead(old(bus.replies), 0);
        value := PromValue(k, data);
      } else {
        value := 0;
      }
    }

    /**
     * ms5637_prom_read: the CRC word and then coefficients 1 to 6, each with
     * its own transaction; the first failure is reported and ends the read,
     * leaving that entry and the later ones as they were.
     */
    method PromRead(bus: Bus, con: Console) returns (status: Status)
      requires c.Length == 7
      requires |bus.replies| >= 14
      modifies c, bus, con
      ensures var rs := old(bus.replies);
        var f := FirstFailedWord(rs, 0);
        (status == Ok <==> f == 7)
        && c[..] == PromEntries(rs, f) + old(c[..])[f..]
        && (f == 7 ==> bus.trace == old(bus.trace) + PromPackets(7) && con.log == old(con.log))
        && (f < 7 ==> status == PairStatus(rs[2 * f], rs[2 * f + 1]) && con.log == old(con.log) + PromLog(rs, f))
    {
      ghost var rs := bus.replies;
      var value;
      status, value := PromWord(bus, con, 0);
      if status != Ok {
        con.Send(Text("pm_ms5637_prom_read: Could not read CRC!\r\n"));
        FirstFailureIs(rs, 0, 0);
        return;
      }
      c[0] := value;
      assert c[..] == PromEntries(rs, 1) + old(c[..])[1..];
      status := PromCoefficients(bus, con, rs, old(bus.trace), old(con.log), old(c[..]));
    }

    /** One coefficient word of ms5637_prom_read: read, stored on success and reported on failure. */
    method PromCoefficient(bus: Bus, con: Console, i: nat, ghost rs: seq<Reply>, ghost trace0: seq<Packet>,
                           ghost c0: seq<u16>)
      returns (status: Status)
      requires c.Length == 7 && |c0| == 7 && 1 <= i <= 6
      requires |rs| >= 14 && bus.replies == rs[2 * i..]
      requires bus.trace == trace0 + PromPackets(i)
      requires c[..] == PromEntries(rs, i) + c0[i..]
      modifies c, bus, con
      ensures status == PairStatus(rs[2 * i], rs[2 * i + 1]) && (status == Ok <==> WordOk(rs, i))
      ensures status == Ok ==>
        bus.replies == rs[2 * (i + 1)..]
        && bus.trace == trace0 + PromPackets(i + 1)
        && con.log == old(con.log)
        && c[..] == PromEntries(rs, i + 1) + c0[i + 1..]
      ensures status != Ok ==> con.log == old(con.log) + PromLog(rs, i) && c[..] == old(c[..])
    {
      ghost var here := bus.replies;
      assert here[0] == rs[2 * i] && here[1] == rs[2 * i + 1];
      assert WordRead(here, 0) == WordRead(rs, i);
      var value;
      status, value := PromWord(bus, con, i);
      if status != Ok {
        con.Send(Text("pm_ms5637_prom_read: Could not read calibration coefficient!\r\n"));
        return;
      }
      ghost var before := c[..];
      c[i] := value;
      assert c[..] == before[i := value];
      UpdateAtSplit(PromEntries(rs, i), c0[i..], value);
      assert c0[i..][1..] == c0[i + 1..];
      DropDrop(rs, 2 * i, 2);
    }

    /** The coefficient loop of ms5637_prom_read, words 1 to 6, after the CRC word has been read. */
    method PromCoefficients(bus: Bus, con: Console, ghost rs: seq<Reply>, ghost trace0: seq<Packet>,
                            ghost log0: seq<Msg>, ghost c0: seq<u16>)
      returns (status: Status)
      requires c.Length == 7 && |c0| == 7
      requires |rs| >= 14 && WordOk(rs, 0) && bus.replies == rs[2..]
      requires bus.trace == trace0 + PromPackets(1) && con.log == log0
      requires c[..] == PromEntries(rs, 1) + c0[1..]
      modifies c, bus, con
      ensures var f := FirstFailedWord(rs, 0);
        (status == Ok <==> f == 7)
        && c[..] == PromEntries(rs, f) + c0[f..]
        && (f == 7 ==> bus.trace == trace0 + PromPackets(7) && con.log == log0)
        && (f < 7 ==> status == PairStatus(rs[2 * f], rs[2 * f + 1]) && con.log == log0 + PromLog(rs, f))
    {
      status := Ok;
      var i := 1;
      while i <= 6
        invariant 1 <= i <= 7 && status == Ok
        invariant FirstFailedWord(rs, 0) == FirstFailedWord(rs, i)
        invariant bus.replies == rs[2 * i..]
        invariant bus.trace == trace0 + PromPackets(i)
        invariant con.log == log0
        invariant c[..] == PromEntries(rs, i) + c0[i..]
      {
        status := PromCoefficient(bus, con, i, rs, trace0, c0);
        if status != Ok {
          return;
        }
        i := i + 1;
      }
    }

    /**
     * One raw conversion of ms5637_read_d1_d2: the convert command (D1 or
     * D2), then an ADC read; the first failing step is reported.
     */
    method Conversion(bus: Bus, con: Console, which: nat) returns (status: Status, adc: u32)
      requires which == 1 || which == 2
      requires |bus.replies| >= 3
      modifies bus, con
      ensures var rs := old(bus.replies);
        status == ConversionStatus(rs)
        && con.log == old(con.log) + ConversionLog(rs, which)
        && (status == Ok ==>
              adc == AdcValue(rs[2]) && bus.replies == rs[3..]
              && bus.trace == old(bus.trace)
                 + [Write(Address, [if which == 1 then CmdConvertD1 else CmdConvertD2], true),
                    Write(Address, [CmdAdcRead], true), Packet.Read(Address, 3)])
    {
      status := WriteCommandPacket(PmI2c, bus, con, Address, [if which == 1 then CmdConvertD1 else CmdConvertD2], 0);
      if status != Ok {
        con.Send(Text(if which == 1 then "ms5637_read_d1_d2: Could not convert D1!\r\n"
                      else "ms5637_read_d1_d2: Could not convert D2!\r\n"));
        adc := 0;
        return;
      }
      status, adc := AdcRead(bus, con, 0);
      if status != Ok {
        con.Send(Text(if which == 1 then "ms5637_read_d1_d2: Could not read ADC (1)!\r\n"
                      else "ms5637_read_d1_d2: Could not read ADC (2)!\r\n"));
      }
    }

    /**
     * ms5637_read_d1_d2: convert D1, read it, convert D2, read it. The
     * first failing step is reported and ends the sequence; D1 is kept as
     * soon as its read succeeds, D2 only when the whole sequence does.
     */
    method ReadD1D2(bus: Bus, con: Console) returns (status: Status)
      requires |bus.replies| >= 6
      modifies this, bus, con
      ensures var rs := old(bus.replies);
        status == D1D2Status(rs)
        && con.log == old(con.log) + D1D2Log(rs)
        && d1 == (if ConversionStatus(rs) == Ok then AdcValue(rs[2]) else old(d1))
        && d2 == (if status == Ok then AdcValue(rs[5]) else old(d2))
        && (status == Ok ==> bus.trace == old(bus.trace) + D1D2Packets)
    {
      ghost var rs := bus.replies;
      var adc;
      status, adc := Conversion(bus, con, 1);
      if status != Ok {
        return;
      }
      d1 := adc;
      assert rs[3..][2] == rs[5];
      status, adc := Conversion(bus, con, 2);
      if status != Ok {
        return;
      }
      d2 := adc;
    }

    /** pm_ms5637_get_calibration_coefficients: the seven PROM entries, copied out. */
    method GetCalibrationCoefficients() returns (cc: seq<u16>)
      requires c.Length == 7
      ensures |cc| == 7 && forall k :: 0 <= k < 7 ==> cc[k] == c[k]
    {
      cc := [];
      for i := 0 to 7
        invariant cc == c[..i]
      {
        cc := cc + [c[i]];
      }
    }

    /** pm_ms5637_init: reset once, then read the PROM; a failed reset is reported and skips the PROM read. */
    method Init(bus: Bus, con: Console) returns (status: Status)
      requires c.Length == 7
      requires |bus.replies| >= 15
      modifies c, bus, con
      ensures var rs := old(bus.replies);
        (rs[0].status != Ok ==>
          status == rs[0].status && c[..] == old(c[..])
          && con.log == old(con.log) + [Failure(PmI2c, "write_command_packet:", status),
                                        Text("pm_ms5637_init: Could not reset!\r\n")])
        && (rs[0].status == Ok ==>
          var f := FirstFailedWord(rs[1..], 0);
          (status == Ok <==> f == 7) && c[..] == PromEntries(rs[1..], f) + old(c[..])[f..])
    {
      status := Reset(bus, con);
      if status != Ok {
        con.Send(Text("pm_ms5637_init: Could not reset!\r\n"));
        return;
      }
      status := PromRead(bus, con);
    }

    /**
     * pm_ms5637_read: the raw conversions and, if they succeed, the raw
     * values and the compensated pressure and temperature; on failure none
     * of the four outputs is written.
     */
    method Read(bus: Bus, con: Console, prior: (u32, Reading, u32))
      returns (status: Status, d1Out: u32, reading: Reading, d2Out: u32)
      requires c.Length == 7
      requires |bus.replies| >= 6
      modifies this, bus, con
      ensures var rs := old(bus.replies);
        status == D1D2Status(rs)
        && d1 == (if ConversionStatus(rs) == Ok then AdcValue(rs[2]) else old(d1))
        && d2 == (if status == Ok then AdcValue(rs[5]) else old(d2))
        && con.log == old(con.log) + D1D2Log(rs)
      ensures var rs := old(bus.replies);
        status == Ok ==>
          d1Out == AdcValue(rs[2]) && d2Out == AdcValue(rs[5])
          && reading == Compensate(c[..], d1Out, d2Out)
          && bus.trace == old(bus.trace) + D1D2Packets
      ensures status != Ok ==> (d1Out, reading, d2Out) == prior
    {
      status := ReadD1D2(bus, con);
      if status != Ok {
        d1Out, reading, d2Out := prior.0, prior.1, prior.2;
        return;
      }
      d1Out := d1;
      d2Out := d2;
      reading := Compensate(c[..], d1, d2);
    }
  }

  lemma {:induction false} FirstFailureIs(rs: seq<Reply>, k: nat, f: nat)
    requires |rs| >= 14 && k <= f <= 7
    requires forall j :: k <= j < f ==> WordOk(rs, j)
    requires f < 7 ==> !WordOk(rs, f)
    ensures FirstFailedWord(rs, k) == f
    decreases f - k
  {
    if k < f {
      FirstFailureIs(rs, k + 1, f);
    }
  }
}
