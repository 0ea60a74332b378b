/**
 * The power-management (PM) board's command handling (pm.c): the keyword
 * dispatcher for PC console commands, the dispatcher for 8-byte SPI frames
 * from the main board with its RESP read-out session, hardware
 * initialisation, and the polling loop that ties them together.
 *
 * Driver results (leak ADC, LTC2944, MS5637, MC3416, input pins) are
 * supplied as a Sensors record; the drivers themselves are modelled in
 * their own modules. Output pins are a map from rail to electrical level,
 * and every pin write is also recorded, in order, in `drives`.
 */
module Pm {
  import opened Common
  import opened Text
  import Ltc2944
  import Ms5637

  // ------------------------------------------------------------ hardware

  /** The PM's output pins. DriverEn is the driver-disable pin: high means disabled. */
  datatype Rail =
    | V3v3va | BattSel | BattSerPwr | CtdPwr | DriverEn | MainPwr
    | VbsPwr | VbsSerPwr | WcmDiag | WcmPwr | WcmRly | LtcI2c

  /** One write of an output pin. */
  datatype PinWrite = PinWrite(rail: Rail, level: bool)

  /** The level an output pin is driven at (get_output_level); a pin never written reads low. */
  predicate Pin(rails: map<Rail, bool>, r: Rail)
  {
    r in rails && rails[r]
  }

  /** The PM's input pins, as read when a command samples them. */
  datatype Inputs = Inputs(accelInt: bool, gpio1: bool, gpio2: bool, pg: bool, alcc: bool, fault: bool)

  /**
   * What the drivers report when a command calls them: each status with the
   * values it comes with. For the LTC2944, `reached` is how many of its five
   * outputs (voltage, current, temperature, charge, status) the read stored
   * before it stopped, and `values` holds those values.
   */
  datatype Sensors = Sensors(
    leak: Status, volts: real,
    ltc: Status, reached: nat, values: Ltc2944.Gauge,
    coefficients: seq<u16>,
    ms: Status, d1: u32, d2: u32, reading: Ms5637.Reading,
    tilt: Status, angle: real,
    calibrate: Status, zero: Status,
    inputs: Inputs,
    ltcInit: Status, msInit: Status, mcInit: Status)

  /** The driver outputs seen by a caller whose variables held `prior`. */
  function Captured(prior: Ltc2944.Gauge, values: Ltc2944.Gauge, reached: nat): (g: Ltc2944.Gauge)
    ensures reached >= 5 ==> g == values
    ensures reached == 0 ==> g == prior
  {
    Ltc2944.Gauge(
      if reached > 0 then values.voltage else prior.voltage,
      if reached > 1 then values.current else prior.current,
      if reached > 2 then values.temperature else prior.temperature,
      if reached > 3 then values.charge else prior.charge,
      if reached > 4 then values.statusValue else prior.statusValue)
  }

  // --------------------------------------------------------------- state

  /** The output bits a POWER frame captures, in RESP order. */
  datatype PowerBits = PowerBits(batt: bool, driver: bool, vbs: bool, vbsSerial: bool, wcmD: bool, wcmP: bool, wcmR: bool)

  /** The input bits a STATUS frame captures, in RESP order. */
  datatype StatusBits = StatusBits(gpio1: bool, gpio2: bool, pg: bool, alcc: bool, fault: bool)

  /**
   * The statics of handle_spi_command: the last primary frame, how many of
   * its values have been sent, and the values captured for RESP.
   */
  datatype Session = Session(
    last: string, sent: nat, power: PowerBits, status: StatusBits,
    gauge: Ltc2944.Gauge, msTemperature: real)

  /** Everything the PM's command handling reads and changes. */
  datatype State = State(
    rails: map<Rail, bool>, drives: seq<PinWrite>,
    spiInitialized: bool, timerElapsed: bool,
    session: Session, tx: Word,
    log: seq<Msg>, vbs: seq<Msg>)

  const NoPower := PowerBits(false, false, false, false, false, false, false)
  const NoStatus := StatusBits(false, false, false, false, false)

  /** The statics as the program is loaded: all zero. */
  const FirstSession := Session([], 0, NoPower, NoStatus, Ltc2944.Gauge(0.0, 0.0, 0.0, 0.0, 0), 0.0)


  function Logged(st: State, ms: seq<Msg>): State
  {
    st.(log := st.log + ms)
  }

  /** A message sent to both the PC console and the VBS port. */
  function Broadcast(st: State, m: Msg): State
  {
    st.(log := st.log + [m], vbs := st.vbs + [m])
  }

  function Driven(st: State, r: Rail, level: bool): State
  {
    st.(rails := st.rails[r := level], drives := st.drives + [PinWrite(r, level)])
  }

  /** One message when a call failed, none when it succeeded. */
  function Failure(status: Status, text: string): seq<Msg>
  {
    if status == Ok then [] else [Text(text)]
  }

  // ------------------------------------------------------- console lines

  /** The fixed console messages, as the source spells them. */
  const MainName := "Main_PWR_EN"
  const RelayName := "WCM_RLY"
  const WcmPowerName := "WCM_PWR_EN"
  const MainUnchanged := "Main_PWR_EN unchanged"
  const RelayUnchanged := "WCM_RLY unchanged"
  const ValidText := "VALID\r\n"
  const InvalidText := "INVALID\r\n"
  const LeakFailed := "handle_command: Could not read leak detector!\r\n"
  const PingReceived := "handle_command: Ping Received!\r\n"
  const LtcFailed := "handle_command: Could not read LTC2944!\r\n"
  const MsFailed := "handle_command: Could not read MS5637!\r\n"
  const TiltFailed := "handle_command: Could not read MC3416!\r\n"
  const CalibrateFailed := "handle_command: Could not calibrate MC3416!\r\n"
  const ZeroFailed := "handle_command: Could not zero MC3416!\r\n"
  const MainOff := "handle_command: pm_gpio_Main_power_off\r\n"
  const MainOn := "handle_command: pm_gpio_Main_power_on\r\n"
  const LtcInitDone := "initInternalHW: pm_ltc2944_init done\r\n"
  const LtcInitFailed := "initInternalHW: Could not initialize LTC2944!\r\n"
  const MsInitDone := "initInternalHW: pm_ms5637_init done\r\n"
  const MsInitFailed := "initInternalHW: Could not initialize MS5637!\r\n"
  const McInitDone := "initInternalHW: pm_mc3416_init done\r\n"
  const McInitFailed := "initInternalHW: Could not initialize MC3416!\r\n"
  const SpiLeakFailed := "handle_spi_command: Could not read leak detector!\r\n"
  const SpiPing := "handle_command: Ping!\r\n"
  const SpiLtcFailed := "handle_spi_command: Could not read LTC2944!\r\n"
  const SpiMsFailed := "handle_spi_command: Could not read MS5637!\r\n"
  const UnknownText := "handle_spi_command: Unknown command!\r\n"
  const SpiStarted := "pm_run: SPI initialized\r\n"
  const ArmFailed := "pm_run: pm_spi_start_read failed (1)!\r\n"
  const RearmFailed := "pm_run: pm_spi_start_read failed (2)!\r\n"
  const EnteringSleep := "pm_run: entering sleep mode\r\n"
  const ExitingSleep := "pm_run: exiting sleep mode\r\n"
  const RunStarted := "pm_run: started\r\n"


  function GaugeLines(g: Ltc2944.Gauge): seq<Msg>
  {
    [Field("VOLTAGE", Num(g.voltage)), Field("CURRENT", Num(g.current)),
     Field("LTC2944 TEMPERATURE", Num(g.temperature)), Field("CHARGE", Num(g.charge)),
     Field("STATUS", Hex(g.statusValue))]
  }

  function CoefficientLines(c: seq<u16>): seq<Msg>
    requires |c| == 7
  {
    [Field("CRC", Count(c[0])), Field("C1", Count(c[1])), Field("C2", Count(c[2])), Field("C3", Count(c[3])),
     Field("C4", Count(c[4])), Field("C5", Count(c[5])), Field("C6", Count(c[6]))]
  }

  function ReadingLines(s: Sensors): seq<Msg>
  {
    [Field("D1", Count(s.d1)), Field("D2", Count(s.d2)),
     Field("PRESSURE", Num(s.reading.pressure)), Field("TEMPERATURE", Num(s.reading.temperature))]
  }

  /**
   * read_mc3416: the angle line is printed whether or not the read worked;
   * a failed read leaves the angle variable uninitialised.
   */
  function TiltLines(s: Sensors): seq<Msg>
  {
    [Field("ACCEL TILT ANGLE", if s.tilt == Ok then Num(s.angle) else Indeterminate)]
    + Failure(s.tilt, TiltFailed)
  }

  /**
   * The output pins in the order read_power_bits prints them, with the
   * names it prints. BATT_SER_PWR_EN and CTD_PWR_EN are not printed: their
   * lines are commented out.
   */
  const PowerNames: seq<string> := [
    "+3V3VA_EN", "BATT_SEL", "DRIVER_EN", "Main_PWR_EN",
    "VBS_PWR_EN", "VBS_SER_PWR_EN", "WCM_DIAG_EN", "WCM_PWR_EN", "WCM_RLY"]
  const PowerRails: seq<Rail> := [V3v3va, BattSel, DriverEn, MainPwr, VbsPwr, VbsSerPwr, WcmDiag, WcmPwr, WcmRly]

  /** The console setters whose rails read_power_bits reports, in the order it prints them. */
  const ReportedSetters: seq<nat> := [10, 11, 14, 15, 16, 17, 18, 19, 20]

  /**
   * read_power_bits: nine lines, the j-th naming the j-th reported setter's
   * keyword and showing the level of the rail that setter drives.
   */
  function PowerLines(rails: map<Rail, bool>): (ms: seq<Msg>)
    ensures |ms| == |ReportedSetters| == 9
    ensures forall j :: 0 <= j < |ms| ==>
      var k := ReportedSetters[j];
      FirstSetter <= k < |UartKeys| && ms[j] == Field(UartKeys[k], Bit(Pin(rails, SetterRail(k))))
  {
    PowerTablesAgree();
    seq(|PowerRails|, j requires 0 <= j < |PowerRails| => Field(PowerNames[j], Bit(Pin(rails, PowerRails[j]))))
  }

  /** The printed names and rails are those of the reported setters. */
  lemma PowerTablesAgree()
    ensures |PowerNames| == |PowerRails| == |ReportedSetters|
    ensures forall j :: 0 <= j < |ReportedSetters| ==>
      FirstSetter <= ReportedSetters[j] < |UartKeys|
      && PowerNames[j] == UartKeys[ReportedSetters[j]] && PowerRails[j] == SetterRail(ReportedSetters[j])
  {
  }

  function StatusLines(i: Inputs): seq<Msg>
  {
    [Field("/ACCEL_INT", Bit(i.accelInt)), Field("EXT_GPIO1", Bit(i.gpio1)), Field("EXT_GPIO2", Bit(i.gpio2)),
     Field("LT8618_PG", Bit(i.pg)), Field("/LTC2944_ALCC", Bit(i.alcc)), Field("/WCM_FAULT", Bit(i.fault))]
  }

  function InitLine(status: Status, done: string, failed: string): Msg
  {
    Text(if status == Ok then done else failed)
  }

  /** initInternalHW: LTC2944 (with its I2C enable on around it), MS5637, MC3416; each result to both ports. */
  function Reinitialized(st: State, s: Sensors): State
  {
    var st1 := Driven(Driven(st, LtcI2c, true), LtcI2c, false);
    var st2 := Broadcast(st1, InitLine(s.ltcInit, LtcInitDone, LtcInitFailed));
    var st3 := Broadcast(st2, InitLine(s.msInit, MsInitDone, MsInitFailed));
    Broadcast(st3, InitLine(s.mcInit, McInitDone, McInitFailed))
  }

  // -------------------------------------------------- PC console commands

  /** The keywords handle_command tests, in order; 10 and beyond are setters. */
  const UartKeys: seq<string> := [
    "read_leak", "pm_ping", "read_ltc2944", "read_ms5637", "read_mc3416",
    "calibrate_mc3416", "zero_mc3416", "read_power_bits", "read_status_bits", "reinitialize",
    "+3V3VA_EN", "BATT_SEL", "BATT_SER_PWR_EN", "CTD_PWR_EN", "DRIVER_EN",
    "Main_PWR_EN", "VBS_PWR_EN", "VBS_SER_PWR_EN", "WCM_DIAG_EN", "WCM_PWR_EN", "WCM_RLY"]

  const FirstSetter: nat := 10
  const MainSetter: nat := 15
  const RelaySetter: nat := 20

  /** The rails of the console setters, in keyword order. */
  const SetterRails: seq<Rail> := [
    V3v3va, BattSel, BattSerPwr, CtdPwr, DriverEn, MainPwr, VbsPwr, VbsSerPwr, WcmDiag, WcmPwr, WcmRly]

  /** The rail setter k drives. */
  function SetterRail(k: nat): Rail
    requires FirstSetter <= k < |UartKeys|
  {
    SetterRails[k - FirstSetter]
  }

  /** The setters that only act while the driver is enabled (its disable pin low). */
  predicate Gated(k: nat)
  {
    k == MainSetter || k == RelaySetter
  }

  /** The level a setter drives its rail to for argument i: DRIVER_EN disables on 1 only. */
  function SetterLevel(k: nat, i: int): bool
  {
    if k == 14 then i == 1 else i != 0
  }

  /** atoi of the second strtok token: the caller must supply one. */
  function ArgumentValue(command: string): int
    requires HasArgument(command)
  {
    Atoi(Argument(command))
  }

  /** The command text the setter writes back: "NAME value". */
  function Rewrite(name: string, i: int): string
  {
    name + " " + IntToString(i)
  }

  /** A setter that reads its argument has one (strtok must not return NULL). */
  predicate UartParses(rails: map<Rail, bool>, command: string)
  {
    var k := FirstMatch(UartKeys, command);
    k.Some? && k.value >= FirstSetter && !(Gated(k.value) && Pin(rails, DriverEn)) ==> HasArgument(command)
  }

  /** The outcome of handle_command: the new state, whether the command was valid, and the command text afterwards. */
  datatype Handled = Handled(state: State, valid: bool, echo: string)

  /** The query commands (keywords 0 to 9). */
  function UartQuery(st: State, k: nat, s: Sensors): State
    requires k < FirstSetter && |s.coefficients| == 7
  {
    if k == 0 then
      Logged(st, [if s.leak == Ok then Field("LEAK", Num(s.volts)) else Text(LeakFailed)])
    else if k == 1 then
      Logged(st, [Text(PingReceived)]).(timerElapsed := true)
    else if k == 2 then
      Logged(Driven(Driven(st, LtcI2c, true), LtcI2c, false),
        if s.ltc == Ok then GaugeLines(s.values) else [Text(LtcFailed)])
    else if k == 3 then
      Logged(st, CoefficientLines(s.coefficients)
        + (if s.ms == Ok then ReadingLines(s) else [Text(MsFailed)]))
    else if k == 4 then Logged(st, TiltLines(s))
    else if k == 5 then Logged(st, Failure(s.calibrate, CalibrateFailed))
    else if k == 6 then Logged(st, Failure(s.zero, ZeroFailed))
    else if k == 7 then Logged(st, PowerLines(st.rails))
    else if k == 8 then Logged(st, StatusLines(s.inputs))
    else Reinitialized(st, s)
  }

  /** Main_PWR_EN: only while the driver is enabled; switching Main off also ends the SPI session. */
  function MainSet(st: State, command: string): Handled
    requires !Pin(st.rails, DriverEn) ==> HasArgument(command)
  {
    if Pin(st.rails, DriverEn) then
      Handled(Logged(st, [Field(MainName, Bit(Pin(st.rails, MainPwr)))]), true, MainUnchanged)
    else
      var i := ArgumentValue(command);
      Handled(MainSwitched(st, i), true, Rewrite(MainName, i))
  }

  /** Main power to i != 0; off also clears bSPIInitialized; then the call is reported. */
  function MainSwitched(st: State, i: int): State
  {
    var st1 := Driven(st, MainPwr, i != 0);
    var st2 := if i == 0 then st1.(spiInitialized := false) else st1;
    Logged(st2, [Text(if i == 0 then MainOff else MainOn)])
  }

  /** WCM_RLY: only while the driver is enabled; the new WCM power level is reported. */
  function RelaySet(st: State, command: string): Handled
    requires !Pin(st.rails, DriverEn) ==> HasArgument(command)
  {
    if Pin(st.rails, DriverEn) then
      Handled(Logged(st, [Field(RelayName, Bit(Pin(st.rails, WcmRly)))]), true, RelayUnchanged)
    else
      var i := ArgumentValue(command);
      var st1 := Relayed(st, i != 0);
      Handled(Logged(st1, [Field(WcmPowerName, Bit(Pin(st1.rails, WcmPwr)))]), true, Rewrite(RelayName, i))
  }

  /** The setters (keywords 10 to 20). */
  /** An ungated setter: drive its rail to the level the value gives and echo "NAME value". */
  function PlainSet(st: State, k: nat, command: string): Handled
    requires FirstSetter <= k < |UartKeys| && HasArgument(command)
  {
    var i := ArgumentValue(command);
    Handled(Driven(st, SetterRail(k), SetterLevel(k, i)), true, Rewrite(UartKeys[k], i))
  }

  function UartSetter(st: State, k: nat, command: string): Handled
    requires FirstSetter <= k < |UartKeys|
    requires !(Gated(k) && Pin(st.rails, DriverEn)) ==> HasArgument(command)
  {
    if k == MainSetter then MainSet(st, command)
    else if k == RelaySetter then RelaySet(st, command)
    else PlainSet(st, k, command)
  }

  /** handle_command: the first keyword the command contains decides; no keyword makes it invalid. */
  function UartCommand(st: State, command: string, s: Sensors): Handled
    requires UartParses(st.rails, command) && |s.coefficients| == 7
  {
    match FirstMatch(UartKeys, command)
    case None => Handled(st, false, command)
    case Some(k) =>
      if k < FirstSetter then Handled(UartQuery(st, k, s), true, command)
      else UartSetter(st, k, command)
  }

  // ------------------------------------------------------------ SPI frames

  /** The keywords of the chain after the LEAK test, in order; 9 and beyond are setters. */
  const SpiKeys: seq<string> := [
    "pm_ping", "LTC2944", "MS5637", "read_mc3416", "calibrate_mc3416", "zero_mc3416",
    "POWER", "STATUS", "RESP",
    "+3V3VA", "BATT", "DRIVER", "VBS_P", "VBS_S", "WCM_D", "WCM_P", "WCM_EN"]

  const Resp: nat := 8
  const FirstSpiSetter: nat := 9
  const RelaySpiSetter: nat := 16

  /** The primary frames RESP continues, in the order it tests the last frame. */
  const RespKeys: seq<string> := ["LEAK", "LTC2944", "MS5637", "POWER", "STATUS"]

  const UnknownFrame := Text(UnknownText)

  /** WCM_EN reads its argument only while the driver is disabled (its pin high). */
  predicate SpiParses(rails: map<Rail, bool>, frame: string)
  {
    var k := FirstMatch(SpiKeys, frame);
    k.Some? && k.value >= FirstSpiSetter && !(k.value == RelaySpiSetter && !Pin(rails, DriverEn)) ==> HasArgument(frame)
  }

  /** The standalone LEAK test, made before the main chain. */
  function Leaked(st: State, frame: string, s: Sensors): (r: State)
    ensures r.rails == st.rails
  {
    if !Contains(frame, "LEAK") then st
    else
      var st1 := st.(session := st.session.(last := frame));
      if s.leak == Ok then st1.(tx := Decimal(s.volts, 2))
      else Logged(st1, [Text(SpiLeakFailed)])
  }

  /** A primary read that answers with its first value and sets the count to 1, or logs its failure. */
  function Answered(st: State, status: Status, w: Word, failed: string): State
  {
    if status == Ok then st.(tx := w, session := st.session.(sent := 1))
    else Logged(st, [Text(failed)])
  }

  /** The primary frames (keywords 0 to 7): each records itself as the last frame. */
  function Primary(st0: State, k: nat, frame: string, s: Sensors): State
    requires k < Resp
  {
    var st := st0.(session := st0.session.(last := frame));
    if k == 0 then
      Logged(st, [Text(SpiPing)]).(timerElapsed := true)
    else if k == 1 then
      var st1 := Driven(Driven(st, LtcI2c, true), LtcI2c, false);
      var st2 := st1.(session := st1.session.(gauge := Captured(st1.session.gauge, s.values, s.reached)));
      Answered(st2, s.ltc, Decimal(s.values.voltage, 3), SpiLtcFailed)
    else if k == 2 then
      var st1 := if s.ms == Ok then st.(session := st.session.(msTemperature := s.reading.temperature)) else st;
      Answered(st1, s.ms, Decimal(s.reading.pressure, 2), SpiMsFailed)
    else if k == 3 then
      Answered(st, s.tilt, Decimal(s.angle, 2), TiltFailed)
    else if k == 4 then Logged(st, Failure(s.calibrate, CalibrateFailed))
    else if k == 5 then Logged(st, Failure(s.zero, ZeroFailed))
    else if k == 6 then
      var r := st.rails;
      var bits := PowerBits(Pin(r, BattSel), Pin(r, DriverEn), Pin(r, VbsPwr), Pin(r, VbsSerPwr),
                            Pin(r, WcmDiag), Pin(r, WcmPwr), Pin(r, WcmRly));
      st.(session := st.session.(power := bits, sent := 1), tx := Integer(Flag(Pin(r, V3v3va))))
    else
      var i := s.inputs;
      var bits := StatusBits(i.gpio1, i.gpio2, i.pg, i.alcc, i.fault);
      st.(session := st.session.(status := bits, sent := 1), tx := Integer(Flag(i.accelInt)))
  }

  /** RESP after an LTC2944 frame: the current, temperature, charge and status, then dashes. */
  function LtcNext(q: Session): Word
  {
    if q.sent == 1 then Decimal(q.gauge.current, 3)
    else if q.sent == 2 then Decimal(q.gauge.temperature, 2)
    else if q.sent == 3 then Decimal(q.gauge.charge, 2)
    else if q.sent == 4 then Integer(q.gauge.statusValue)
    else Dashes
  }

  /** RESP after a POWER frame: the captured bits in order, then dashes. */
  function PowerNext(q: Session): Word
  {
    var p := q.power;
    if q.sent == 1 then Integer(Flag(p.batt))
    else if q.sent == 2 then Integer(Flag(p.driver))
    else if q.sent == 3 then Integer(Flag(p.vbs))
    else if q.sent == 4 then Integer(Flag(p.vbsSerial))
    else if q.sent == 5 then Integer(Flag(p.wcmD))
    else if q.sent == 6 then Integer(Flag(p.wcmP))
    else if q.sent == 7 then Integer(Flag(p.wcmR))
    else Dashes
  }

  /** RESP after a STATUS frame: the captured bits in order, then dashes. */
  function StatusNext(q: Session): Word
  {
    var b := q.status;
    if q.sent == 1 then Integer(Flag(b.gpio1))
    else if q.sent == 2 then Integer(Flag(b.gpio2))
    else if q.sent == 3 then Integer(Flag(b.pg))
    else if q.sent == 4 then Integer(Flag(b.alcc))
    else if q.sent == 5 then Integer(Flag(b.fault))
    else Dashes
  }

  /** The next word for RESP key j; the count rises only when a value is sent. */
  function Continued(st: State, w: Word): State
  {
    if w == Dashes then st.(tx := Dashes)
    else st.(tx := w, session := st.session.(sent := st.session.sent + 1))
  }

  /** RESP: continue the read-out of the last primary frame; last_command is left as it is. */
  function RespFrame(st: State): State
  {
    var q := st.session;
    match FirstMatch(RespKeys, q.last)
    case None => st
    case Some(j) =>
      if j == 0 then st.(tx := Dashes)
      else if j == 1 then Continued(st, LtcNext(q))
      else if j == 2 then Continued(st, if q.sent == 1 then Decimal(q.msTemperature, 2) else Dashes)
      else if j == 3 then Continued(st, PowerNext(q))
      else Continued(st, StatusNext(q))
  }

  /** The SPI setters: the rail each of keywords 9 to 15 drives. */
  function SpiRail(k: nat): Rail
    requires FirstSpiSetter <= k < RelaySpiSetter
  {
    [V3v3va, BattSel, DriverEn, VbsPwr, VbsSerPwr, WcmDiag, WcmPwr][k - FirstSpiSetter]
  }

  /** DRIVER disables the driver (pin high) on 0, the opposite of the console's DRIVER_EN. */
  function SpiLevel(k: nat, i: int): bool
  {
    if k == 11 then i == 0 else i != 0
  }

  /** The relay sequence: power off then relay off, or relay on then power on. */
  function Relayed(st: State, on: bool): State
  {
    if on then Driven(Driven(st, WcmRly, true), WcmPwr, true)
    else Driven(Driven(st, WcmPwr, false), WcmRly, false)
  }

  function SpiSet(st: State, k: nat, frame: string): State
    requires FirstSpiSetter <= k < |SpiKeys|
    requires !(k == RelaySpiSetter && !Pin(st.rails, DriverEn)) ==> HasArgument(frame)
  {
    if k == RelaySpiSetter then
      if Pin(st.rails, DriverEn) then Relayed(st, ArgumentValue(frame) != 0) else st
    else Driven(st, SpiRail(k), SpiLevel(k, ArgumentValue(frame)))
  }

  /**
   * handle_spi_command: the standalone LEAK test, then the chain; a frame
   * the chain does not know is logged, so a LEAK frame is logged as unknown too.
   */
  function SpiCommand(st: State, frame: string, s: Sensors): State
    requires SpiParses(st.rails, frame)
  {
    var st1 := Leaked(st, frame, s);
    match FirstMatch(SpiKeys, frame)
    case None => Logged(st1, [UnknownFrame])
    case Some(k) =>
      if k < Resp then Primary(st1, k, frame, s)
      else if k == Resp then RespFrame(st1)
      else SpiSet(st1, k, frame)
  }

  // ------------------------------------------------------------- pm_init

  /** pm_init's pin writes: 3V3VA on, the driver enabled, everything else off. */
  const InitWrites: seq<PinWrite> := [
    PinWrite(V3v3va, true), PinWrite(DriverEn, false),
    PinWrite(BattSel, false), PinWrite(BattSerPwr, false), PinWrite(LtcI2c, false),
    PinWrite(CtdPwr, false), PinWrite(VbsPwr, false), PinWrite(VbsSerPwr, false),
    PinWrite(WcmDiag, false), PinWrite(WcmPwr, false), PinWrite(WcmRly, false)]

  /** The rail levels after InitWrites: 3V3VA on, everything else off, Main_PWR_EN untouched. */
  function StartRails(rails: map<Rail, bool>): (r: map<Rail, bool>)
    ensures Pin(r, V3v3va) && Pin(r, MainPwr) == Pin(rails, MainPwr)
    ensures !Pin(r, DriverEn) && !Pin(r, BattSel) && !Pin(r, BattSerPwr) && !Pin(r, LtcI2c) && !Pin(r, CtdPwr)
    ensures !Pin(r, VbsPwr) && !Pin(r, VbsSerPwr) && !Pin(r, WcmDiag) && !Pin(r, WcmPwr) && !Pin(r, WcmRly)
  {
    rails[V3v3va := true][DriverEn := false][BattSel := false][BattSerPwr := false][LtcI2c := false]
      [CtdPwr := false][VbsPwr := false][VbsSerPwr := false][WcmDiag := false][WcmPwr := false][WcmRly := false]
  }

  function Initialized(st: State, s: Sensors): State
  {
    Reinitialized(st.(rails := StartRails(st.rails), drives := st.drives + InitWrites), s)
  }

  // ------------------------------------------------------------- pm_run

  /**
   * One pass of pm_run's inner loop: the slave-select level and the status
   * of arming the first transfer; whether a transfer completed, its frame,
   * what the drivers report for it and the status of re-arming; the PC
   * command received, if any, and what the drivers report for it; and
   * whether the timer callback fired.
   */
  datatype Event = Event(
    slaveSelect: bool, arm: Status,
    complete: bool, frame: string, spiSensors: Sensors, rearm: Status,
    line: Option<string>, uartSensors: Sensors,
    timer: bool)

  /** Every setter keyword in s has an argument, whatever the gates say. */
  predicate Complete(keys: seq<string>, first: nat, s: string)
  {
    var k := FirstMatch(keys, s);
    k.Some? && k.value >= first ==> HasArgument(s)
  }

  /** Arming: the transmit buffer gets eight dashes, then the first transfer is started. */
  function Armed(st: State, status: Status): State
  {
    var st1 := st.(tx := Dashes);
    if status == Ok then Logged(st1.(spiInitialized := true), [Text(SpiStarted)])
    else Logged(st1, [Text(ArmFailed)])
  }

  function Rearmed(st: State, status: Status): State
  {
    if status == Ok then st
    else Logged(st.(spiInitialized := false), [Text(RearmFailed)])
  }

  /** The command text, a space, and VALID or INVALID. */
  function Echoed(h: Handled): State
  {
    Logged(h.state, [Text(h.echo), Text(" "), Text(if h.valid then ValidText else InvalidText)])
  }

  /** The first transfer is armed while SPI is not initialised and the slave select is high. */
  function Arming(st: State, ev: Event): State
  {
    if !st.spiInitialized && ev.slaveSelect then Armed(st, ev.arm) else st
  }

  /** A frame served in this pass reaches atoi only with an argument, at the pin levels it finds. */
  predicate SpiAdmits(st: State, ev: Event)
  {
    var st1 := Arming(st, ev);
    st1.spiInitialized && ev.complete ==> SpiParses(st1.rails, ev.frame)
  }

  /** A received command reaches atoi only with an argument, at the pin levels it finds. */
  predicate ConsoleAdmits(st: State, ev: Event)
  {
    |ev.uartSensors.coefficients| == 7
    && (ev.line.Some? ==> UartParses(st.rails, ev.line.value))
  }

  /** The SPI part of a pass: arm while not initialised, then serve a completed transfer. */
  function SpiPass(st: State, ev: Event): State
    requires SpiAdmits(st, ev)
  {
    var st1 := Arming(st, ev);
    if st1.spiInitialized && ev.complete then Rearmed(SpiCommand(st1, ev.frame, ev.spiSensors), ev.rearm) else st1
  }

  /** The console part of a pass: a received command is handled and echoed. */
  function ConsolePass(st: State, ev: Event): State
    requires ConsoleAdmits(st, ev)
  {
    if ev.line.Some? then Echoed(UartCommand(st, ev.line.value, ev.uartSensors))
    else st
  }

  /**
   * No setter the pass serves calls atoi on a missing argument; a gated
   * setter that only reports its pin needs none.
   */
  predicate Admissible(st: State, ev: Event)
  {
    SpiAdmits(st, ev) && ConsoleAdmits(SpiPass(st, ev), ev)
  }

  function Pass(st: State, ev: Event): State
    requires Admissible(st, ev)
  {
    var st1 := ConsolePass(SpiPass(st, ev), ev);
    if ev.timer then st1.(timerElapsed := true) else st1
  }

  /** A command whose setter has an argument can be handled at any pin levels. */
  lemma CompleteParses(keys: seq<string>, first: nat, s: string)
    requires Complete(keys, first, s)
    ensures keys == SpiKeys && first == FirstSpiSetter ==> forall rails :: SpiParses(rails, s)
    ensures keys == UartKeys && first == FirstSetter ==> forall rails :: UartParses(rails, s)
  {
  }

  /** Once the flag is set the inner loop ends: sleep and wake, then the flag is cleared. */
  function Slept(st: State): State
  {
    if st.timerElapsed then
      Logged(st, [Text(EnteringSleep), Text(ExitingSleep)]).(timerElapsed := false)
    else st
  }

  function Started(st: State): State
  {
    var st1 := Broadcast(st, Text(RunStarted));
    st1.(spiInitialized := false, timerElapsed := false)
  }

  /** Every pass of events is admissible in the state the passes before it leave. */
  predicate Admits(st: State, events: seq<Event>)
    decreases |events|, 0
  {
    events == []
    || (Admits(st, events[..|events| - 1]) && Admissible(Ran(st, events[..|events| - 1]), events[|events| - 1]))
  }

  /** The state after the passes of events, in order. */
  function Ran(st: State, events: seq<Event>): State
    requires Admits(st, events)
    decreases |events|, 1
  {
    if events == [] then st
    else Slept(Pass(Ran(st, events[..|events| - 1]), events[|events| - 1]))
  }

  /** Every prefix of admitted events is admitted. */
  lemma {:induction false} AdmitsPrefix(st: State, events: seq<Event>, n: nat)
    requires n <= |events| && Admits(st, events)
    ensures Admits(st, events[..n])
    decreases |events|
  {
    if n < |events| {
      var init := events[..|events| - 1];
      AdmitsPrefix(st, init, n);
      assert init[..n] == events[..n];
    } else {
      assert events[..n] == events;
    }
  }

  /** The passes of the first n + 1 events: those of the first n, then event n. */
  lemma RanNext(st: State, events: seq<Event>, n: nat)
    requires n < |events| && Admits(st, events)
    ensures Admits(st, events[..n]) && Admits(st, events[..n + 1])
    ensures Admissible(Ran(st, events[..n]), events[n])
    ensures Ran(st, events[..n + 1]) == Slept(Pass(Ran(st, events[..n]), events[n]))
  {
    AdmitsPrefix(st, events, n + 1);
    assert events[..n + 1][..n] == events[..n];
  }

  // ------------------------------------------------------------- the board

  /** The PM firmware's variables: output pins, flags, the SPI statics and buffer, and both consoles. */
  class Board {
    var rails: map<Rail, bool>
    var drives: seq<PinWrite>
    var spiInitialized: bool
    var timerElapsed: bool
    var session: Session
    var tx: Word
    var log: seq<Msg>
    var vbs: seq<Msg>

    function Snapshot(): State
      reads this
    {
      State(rails, drives, spiInitialized, timerElapsed, session, tx, log, vbs)
    }

    /** The board as the program is loaded: statics zero, no pin written, nothing sent. */
    constructor()
      ensures Snapshot() == State(map[], [], false, false, FirstSession, Blank, [], [])
    {
      rails, drives := map[], [];
      spiInitialized, timerElapsed := false, false;
      session, tx := FirstSession, Blank;
      log, vbs := [], [];
    }

    /** A pm_gpio_*_on / _off call. */
    method Set(r: Rail, level: bool)
      modifies this
      ensures Snapshot() == Driven(old(Snapshot()), r, level)
    {
      rails := rails[r := level];
      drives := drives + [PinWrite(r, level)];
    }

    /** pm_usart_send_pc_message, once per message. */
    method Put(ms: seq<Msg>)
      modifies this
      ensures Snapshot() == Logged(old(Snapshot()), ms)
    {
      log := log + ms;
    }

    /** pm_usart_send_pc_message followed by pm_usart_send_vbs_command. */
    method PutBoth(m: Msg)
      modifies this
      ensures Snapshot() == Broadcast(old(Snapshot()), m)
    {
      log := log + [m];
      vbs := vbs + [m];
    }

    /** initInternalHW. */
    method InitInternalHw(s: Sensors)
      modifies this
      ensures Snapshot() == Reinitialized(old(Snapshot()), s)
    {
      Set(LtcI2c, true);
      Set(LtcI2c, false);
      PutBoth(InitLine(s.ltcInit, LtcInitDone, LtcInitFailed));
      PutBoth(InitLine(s.msInit, MsInitDone, MsInitFailed));
      PutBoth(InitLine(s.mcInit, McInitDone, McInitFailed));
    }

    /** pm_init: the rails to their start-up levels, then initInternalHW. */
    method Init(s: Sensors)
      modifies this
      ensures Snapshot() == Initialized(old(Snapshot()), s)
    {
      rails := StartRails(rails);
      drives := drives + InitWrites;
      InitInternalHw(s);
    }

    /** The query branches of handle_command. */
    method Query(k: nat, s: Sensors)
      requires k < FirstSetter && |s.coefficients| == 7
      modifies this
      ensures Snapshot() == UartQuery(old(Snapshot()), k, s)
    {
      if k == 0 {
        if s.leak == Ok {
          Put([Field("LEAK", Num(s.volts))]);
        } else {
          Put([Text(LeakFailed)]);
        }
      } else if k == 1 {
        Put([Text(PingReceived)]);
        timerElapsed := true;
      } else if k == 2 {
        Set(LtcI2c, true);
        Set(LtcI2c, false);
        if s.ltc == Ok {
          Put(GaugeLines(s.values));
        } else {
          Put([Text(LtcFailed)]);
        }
      } else if k == 3 {
        Put(CoefficientLines(s.coefficients)
          + (if s.ms == Ok then ReadingLines(s) else [Text(MsFailed)]));
      } else if k == 4 {
        Put(TiltLines(s));
      } else if k == 5 {
        Put(Failure(s.calibrate, CalibrateFailed));
      } else if k == 6 {
        Put(Failure(s.zero, ZeroFailed));
      } else if k == 7 {
        Put(PowerLines(rails));
      } else if k == 8 {
        Put(StatusLines(s.inputs));
      } else {
        InitInternalHw(s);
      }
    }

    /** Main_PWR_EN: acts only while the driver is enabled; switching it off also drops the SPI session. */
    method MainPower(command: string) returns (echo: string)
      requires !Pin(rails, DriverEn) ==> HasArgument(command)
      modifies this
      ensures Handled(Snapshot(), true, echo) == MainSet(old(Snapshot()), command)
    {
      if Pin(rails, DriverEn) {
        Put([Field(MainName, Bit(Pin(rails, MainPwr)))]);
        echo := MainUnchanged;
      } else {
        var i := ArgumentValue(command);
        echo := Rewrite(MainName, i);
        SwitchMain(i);
      }
    }

    method SwitchMain(i: int)
      modifies this
      ensures Snapshot() == MainSwitched(old(Snapshot()), i)
    {
      Set(MainPwr, i != 0);
      if i == 0 {
        spiInitialized := false;
      }
      Put([Text(if i == 0 then MainOff else MainOn)]);
    }

    /** WCM_RLY: acts only while the driver is enabled, sequencing the WCM power and relay. */
    method Relay(command: string) returns (echo: string)
      requires !Pin(rails, DriverEn) ==> HasArgument(command)
      modifies this
      ensures Handled(Snapshot(), true, echo) == RelaySet(old(Snapshot()), command)
    {
      if Pin(rails, DriverEn) {
        Put([Field(RelayName, Bit(Pin(rails, WcmRly)))]);
        echo := RelayUnchanged;
      } else {
        var i := ArgumentValue(command);
        echo := Rewrite(RelayName, i);
        if i == 0 {
          Set(WcmPwr, false);
          Set(WcmRly, false);
        } else {
          Set(WcmRly, true);
          Set(WcmPwr, true);
        }
        Put([Field(WcmPowerName, Bit(Pin(rails, WcmPwr)))]);
      }
    }

    /** The setter branches of handle_command; the result is the rewritten command text. */
    method Setter(k: nat, command: string) returns (echo: string)
      requires FirstSetter <= k < |UartKeys|
      requires !(Gated(k) && Pin(rails, DriverEn)) ==> HasArgument(command)
      modifies this
      ensures Handled(Snapshot(), true, echo) == UartSetter(old(Snapshot()), k, command)
    {
      if k == MainSetter {
        echo := MainPower(command);
      } else if k == RelaySetter {
        echo := Relay(command);
      } else {
        var i := ArgumentValue(command);
        echo := Rewrite(UartKeys[k], i);
        Set(SetterRail(k), SetterLevel(k, i));
      }
    }

    /** handle_command: returns bValid and the command text as it is echoed. */
    method HandleCommand(command: string, s: Sensors) returns (valid: bool, echo: string)
      requires UartParses(rails, command) && |s.coefficients| == 7
      modifies this
      ensures Handled(Snapshot(), valid, echo) == UartCommand(old(Snapshot()), command, s)
    {
      var k := FirstMatch(UartKeys, command);
      if k.None? {
        valid, echo := false, command;
      } else if k.value < FirstSetter {
        Query(k.value, s);
        valid, echo := true, command;
      } else {
        echo := Setter(k.value, command);
        valid := true;
      }
    }

    // -------------------------------------------------------- SPI frames

    /** The standalone LEAK test of handle_spi_command. */
    method Leak(frame: string, s: Sensors)
      modifies this
      ensures Snapshot() == Leaked(old(Snapshot()), frame, s)
    {
      if Contains(frame, "LEAK") {
        session := session.(last := frame);
        if s.leak == Ok {
          tx := Decimal(s.volts, 2);
        } else {
          Put([Text(SpiLeakFailed)]);
        }
      }
    }

    /** A primary read's answer: the first value and a count of 1, or the failure logged. */
    method Answer(status: Status, w: Word, failed: string)
      modifies this
      ensures Snapshot() == Answered(old(Snapshot()), status, w, failed)
    {
      if status == Ok {
        tx := w;
        session := session.(sent := 1);
      } else {
        Put([Text(failed)]);
      }
    }

    /** The LTC2944 frame: the read with its I2C enable on around it; its outputs are the statics. */
    method LtcFrame(s: Sensors)
      modifies this
      ensures Snapshot() == Answered(Driven(Driven(old(Snapshot()), LtcI2c, true), LtcI2c, false).(
        session := old(session).(gauge := Captured(old(session).gauge, s.values, s.reached))),
        s.ltc, Decimal(s.values.voltage, 3), SpiLtcFailed)
    {
      Set(LtcI2c, true);
      session := session.(gauge := Captured(session.gauge, s.values, s.reached));
      Set(LtcI2c, false);
      Answer(s.ltc, Decimal(s.values.voltage, 3), SpiLtcFailed);
    }

    /** The primary branches of the SPI chain. */
    method SpiQuery(k: nat, frame: string, s: Sensors)
      requires k < Resp
      modifies this
      ensures Snapshot() == Primary(old(Snapshot()), k, frame, s)
    {
      session := session.(last := frame);
      if k == 0 {
        Put([Text(SpiPing)]);
        timerElapsed := true;
      } else if k == 1 {
        LtcFrame(s);
      } else if k == 2 {
        if s.ms == Ok {
          session := session.(msTemperature := s.reading.temperature);
        }
        Answer(s.ms, Decimal(s.reading.pressure, 2), SpiMsFailed);
      } else if k == 3 {
        Answer(s.tilt, Decimal(s.angle, 2), TiltFailed);
      } else if k == 4 {
        Put(Failure(s.calibrate, CalibrateFailed));
      } else if k == 5 {
        Put(Failure(s.zero, ZeroFailed));
      } else if k == 6 {
        var r := rails;
        var bits := PowerBits(Pin(r, BattSel), Pin(r, DriverEn), Pin(r, VbsPwr), Pin(r, VbsSerPwr),
                              Pin(r, WcmDiag), Pin(r, WcmPwr), Pin(r, WcmRly));
        session := session.(power := bits, sent := 1);
        tx := Integer(Flag(Pin(r, V3v3va)));
      } else {
        var i := s.inputs;
        session := session.(status := StatusBits(i.gpio1, i.gpio2, i.pg, i.alcc, i.fault), sent := 1);
        tx := Integer(Flag(i.accelInt));
      }
    }

    /** RESP: the next value of the last primary frame, or dashes once they are used up. */
    method RespNext()
      modifies this
      ensures Snapshot() == RespFrame(old(Snapshot()))
    {
      var j := FirstMatch(RespKeys, session.last);
      if j.Some? {
        var w;
        if j.value == 0 {
          w := Dashes;
        } else if j.value == 1 {
          w := LtcNext(session);
        } else if j.value == 2 {
          w := if session.sent == 1 then Decimal(session.msTemperature, 2) else Dashes;
        } else if j.value == 3 {
          w := PowerNext(session);
        } else {
          w := StatusNext(session);
        }
        tx := w;
        if w != Dashes && j.value != 0 {
          session := session.(sent := session.sent + 1);
        }
      }
    }

    /** The SPI setters. */
    method SpiSetter(k: nat, frame: string)
      requires FirstSpiSetter <= k < |SpiKeys|
      requires !(k == RelaySpiSetter && !Pin(rails, DriverEn)) ==> HasArgument(frame)
      modifies this
      ensures Snapshot() == SpiSet(old(Snapshot()), k, frame)
    {
      if k == RelaySpiSetter {
        if Pin(rails, DriverEn) {
          var on := ArgumentValue(frame) != 0;
          if on {
            Set(WcmRly, true);
            Set(WcmPwr, true);
          } else {
            Set(WcmPwr, false);
            Set(WcmRly, false);
          }
        }
      } else {
        Set(SpiRail(k), SpiLevel(k, ArgumentValue(frame)));
      }
    }

    /** handle_spi_command; the answer is left in tx for the next transfer. */
    method HandleSpiCommand(frame: string, s: Sensors)
      requires SpiParses(rails, frame)
      modifies this
      ensures Snapshot() == SpiCommand(old(Snapshot()), frame, s)
    {
      Leak(frame, s);
      var k := FirstMatch(SpiKeys, frame);
      if k.None? {
        Put([UnknownFrame]);
      } else if k.value < Resp {
        SpiQuery(k.value, frame, s);
      } else if k.value == Resp {
        RespNext();
      } else {
        SpiSetter(k.value, frame);
      }
    }

    // ------------------------------------------------------------ pm_run

    method Arm(status: Status)
      modifies this
      ensures Snapshot() == Armed(old(Snapshot()), status)
    {
      tx := Dashes;
      if status == Ok {
        spiInitialized := true;
        Put([Text(SpiStarted)]);
      } else {
        Put([Text(ArmFailed)]);
      }
    }

    method Rearm(status: Status)
      modifies this
      ensures Snapshot() == Rearmed(old(Snapshot()), status)
    {
      if status != Ok {
        spiInitialized := false;
        Put([Text(RearmFailed)]);
      }
    }

    method PollSpi(ev: Event)
      requires SpiAdmits(Snapshot(), ev)
      modifies this
      ensures Snapshot() == SpiPass(old(Snapshot()), ev)
    {
      if !spiInitialized && ev.slaveSelect {
        Arm(ev.arm);
      }
      if spiInitialized && ev.complete {
        HandleSpiCommand(ev.frame, ev.spiSensors);
        Rearm(ev.rearm);
      }
    }

    method PollConsole(ev: Event)
      requires ConsoleAdmits(Snapshot(), ev)
      modifies this
      ensures Snapshot() == ConsolePass(old(Snapshot()), ev)
    {
      if ev.line.Some? {
        var valid, echo := HandleCommand(ev.line.value, ev.uartSensors);
        Put([Text(echo), Text(" "), Text(if valid then ValidText else InvalidText)]);
      }
    }

    /** One pass of pm_run's inner loop. */
    method Poll(ev: Event)
      requires Admissible(Snapshot(), ev)
      modifies this
      ensures Snapshot() == Pass(old(Snapshot()), ev)
    {
      PollSpi(ev);
      PollConsole(ev);
      if ev.timer {
        timerElapsed := true;
      }
    }

    /** pm_run over the given passes: the PM sleeps and wakes whenever a pass ends with the flag set. */
    method Run(events: seq<Event>)
      requires Admits(Started(Snapshot()), events)
      modifies this
      ensures Snapshot() == Ran(Started(old(Snapshot())), events)
    {
      PutBoth(Text(RunStarted));
      spiInitialized, timerElapsed := false, false;
      ghost var st := Snapshot();
      var n: nat := 0;
      while n < |events|
        invariant n <= |events|
        invariant Admits(st, events[..n]) && Snapshot() == Ran(st, events[..n])
      {
        RanNext(st, events, n);
        Cycle(events[n]);
        n := n + 1;
      }
      assert events[..n] == events;
    }

    /** One pass of pm_run's inner loop, then the sleep once the flag is set. */
    method Cycle(ev: Event)
      requires Admissible(Snapshot(), ev)
      modifies this
      ensures Snapshot() == Slept(Pass(old(Snapshot()), ev))
    {
      Poll(ev);
      if timerElapsed {
        Put([Text(EnteringSleep), Text(ExitingSleep)]);
        timerElapsed := false;
      }
    }
  }
}
