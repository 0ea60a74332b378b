/**
 * The wireless communication module (WCM) board's command handling
 * (wcm.c): the keyword dispatcher for PC console commands, the dispatcher
 * for 8-byte SPI frames from the main board with its RESP read-out
 * session, hardware initialisation, and the polling loop.
 *
 * As on the PM, driver results (leak and battery ADCs, MS5637, MC3416, the
 * GPS and satellite-modem ports) are supplied as a Sensors record, output
 * pins are a map from rail to level, and every pin write is recorded in
 * `drives`. Unlike the PM, the SPI setters sit inside the RESP branch, so
 * they only run for a frame that contains RESP as well as a setter name.
 */
module Wcm {
  import opened Common
  import opened Text
  import Ms5637

  // ------------------------------------------------------------ hardware

  /** The WCM's output pins. */
  datatype Rail = V3v3va | GpsPwr | ComSwA | SatPwr | CellPwr | WfPwr | LgtOn

  /** One write of an output pin. */
  datatype PinWrite = PinWrite(rail: Rail, level: bool)

  /** The level an output pin is driven at; a pin never written reads low. */
  predicate Pin(rails: map<Rail, bool>, r: Rail)
  {
    r in rails && rails[r]
  }

  /**
   * A read from the GPS receiver or the satellite modem: the status of the
   * check for data, what the line assembler returned, and the text left in
   * the buffer it filled.
   */
  datatype Exchange = Exchange(ready: Status, received: bool, text: string)

  /** What the drivers and ports report when a command calls them. */
  datatype Sensors = Sensors(
    leak: Status, volts: real,
    batt: Status, battVolts: real,
    coms: Exchange, gps: Exchange,
    ms: Status, d1: u32, d2: u32, reading: Ms5637.Reading,
    tilt: Status, angle: real,
    calibrate: Status, zero: Status,
    msInit: Status, mcInit: Status)

  // --------------------------------------------------------------- state

  /** The output bits a POWER frame captures, in RESP order. */
  datatype PowerBits = PowerBits(gps: bool, cell: bool, lgt: bool, sat: bool, wf: bool, comSwA: bool)

  /** The statics of handle_spi_command: the last primary frame, the read-out count and the captured values. */
  datatype Session = Session(last: string, sent: nat, power: PowerBits, msTemperature: real)

  /** Everything the WCM's command handling reads and changes; `gps` is what is sent to the GPS port. */
  datatype State = State(
    rails: map<Rail, bool>, drives: seq<PinWrite>,
    spiInitialized: bool, timerElapsed: bool,
    session: Session, tx: Word,
    log: seq<Msg>, gps: seq<Msg>)

  /** The statics as the program is loaded: all zero. */
  const FirstSession := Session([], 0, PowerBits(false, false, false, false, false, false), 0.0)

  function Logged(st: State, ms: seq<Msg>): State
  {
    st.(log := st.log + ms)
  }

  /** A message sent to both the PC console and the GPS port. */
  function Broadcast(st: State, m: Msg): State
  {
    st.(log := st.log + [m], gps := st.gps + [m])
  }

  function Driven(st: State, r: Rail, level: bool): State
  {
    st.(rails := st.rails[r := level], drives := st.drives + [PinWrite(r, level)])
  }

  /** One message when a call failed, none when it succeeded. */
  function Failure(status: Status, text: string): seq<Msg>
  {
    if status == Ok then [] else [Text(text)]
  }

  // ------------------------------------------------------------- messages

  const ValidText := "VALID\r\n"
  const InvalidText := "INVALID\r\n"
  const LeakFailed := "handle_command: Could not read leak detector!\r\n"
  const BattFailed := "handle_command: Could not read battery detector!\r\n"
  const PingReceived := "handle_command: Ping Received!\r\n"
  const MsFailed := "handle_command: Could not read MS5637!\r\n"
  const TiltFailed := "handle_command: Could not read MC3416!\r\n"
  const CalibrateFailed := "handle_command: Could not calibrate MC3416!\r\n"
  const ZeroFailed := "handle_command: Could not zero MC3416!\r\n"
  const SpiLeakFailed := "handle_spi_command: Could not read leak detector!\r\n"
  const SpiPing := "handle_command: Ping!\r\n"
  const SpiMsFailed := "handle_spi_command: Could not read MS5637!\r\n"
  const UnknownText := "handle_spi_command: Unknown command!\r\n"
  const MsInitDone := "initInternalHW: wcm_ms5637_init done\r\n"
  const MsInitFailed := "initInternalHW: Could not initialize MS5637!\r\n"
  const McInitDone := "initInternalHW: wcm_mc3416_init done\r\n"
  const McInitFailed := "initInternalHW: Could not initialize MC3416!\r\n"
  const RunStarted := "wcm_run: started\r\n"
  const SpiStarted := "wcm_run: SPI initialized\r\n"
  const ArmFailed := "wcm_run: wcm_spi_start_read failed (1)!\r\n"
  const RearmFailed := "wcm_run: wcm_spi_start_read failed (2)!\r\n"

  const LeakName := "LEAK"
  const BattName := "BATTERY DETECT"
  const TiltName := "TILT ANGLE"

  // ------------------------------------------------------- console lines

  /** read_ms5637: the raw conversions, then pressure and temperature. */
  function ReadingLines(s: Sensors): seq<Msg>
  {
    [Field("D1", Count(s.d1)), Field("D2", Count(s.d2)),
     Field("MS5637 PRESSURE", Num(s.reading.pressure)), Field("MS5637 TEMPERATURE", Num(s.reading.temperature))]
  }

  /**
   * read_mc3416 prints the angle whether or not the read succeeded; after a
   * failed read the angle variable is uninitialised, and the failure is
   * reported on its own line.
   */
  function TiltLines(s: Sensors): seq<Msg>
  {
    [Field(TiltName, if s.tilt == Ok then Num(s.angle) else Indeterminate)]
    + Failure(s.tilt, TiltFailed)
  }

  /** The output pins in the order read_power_bits prints them, with the names it prints. */
  const PowerNames: seq<string> := [
    "+3V3VA_EN", "GPS_PWR_EN", "COM_SW_A", "SAT_PWR_EN", "CELL PWR_EN", "WF_PWR_EN", "LGT_ON"]

  const PowerRails: seq<Rail> := [V3v3va, GpsPwr, ComSwA, SatPwr, CellPwr, WfPwr, LgtOn]

  /** The name read_power_bits prints for the CELL rail, with a space where the setter has '_'. */
  const CellLineName := "CELL PWR_EN"

  /**
   * read_power_bits: one line per SPI setter, in the setters' order, each
   * showing the level of that setter's rail under the setter's name, except
   * that the CELL line is printed as "CELL PWR_EN". Every output pin is
   * reported.
   */
  function PowerLines(rails: map<Rail, bool>): (r: seq<Msg>)
    ensures |r| == |SpiSetterKeys| == 7
    ensures forall j :: 0 <= j < |r| ==> r[j].Field? && r[j].value == Bit(Pin(rails, SpiSetterRails[j]))
    ensures forall j :: 0 <= j < |r| && j != 4 ==> r[j].key == SpiSetterKeys[j]
    ensures r[4].key == CellLineName != SpiSetterKeys[4]
    ensures forall x: Rail :: x in SpiSetterRails
  {
    assert PowerNames[4] == CellLineName && PowerRails == SpiSetterRails;
    RailsCovered();
    seq(|PowerRails|, j requires 0 <= j < |PowerRails| => Field(PowerNames[j], Bit(Pin(rails, PowerRails[j]))))
  }

  /** The SPI setters between them drive every output pin. */
  lemma RailsCovered()
    ensures forall x: Rail :: x in SpiSetterRails
  {
    forall x: Rail
      ensures x in SpiSetterRails
    {
      match x
      case V3v3va => assert SpiSetterRails[0] == x;
      case GpsPwr => assert SpiSetterRails[1] == x;
      case ComSwA => assert SpiSetterRails[2] == x;
      case SatPwr => assert SpiSetterRails[3] == x;
      case CellPwr => assert SpiSetterRails[4] == x;
      case WfPwr => assert SpiSetterRails[5] == x;
      case LgtOn => assert SpiSetterRails[6] == x;
    }
  }

  /** One line of initInternalHW: the call's "done" or "Could not" line. */
  function InitLine(status: Status, done: string, failed: string): Msg
  {
    Text(if status == Ok then done else failed)
  }

  /** initInternalHW: the MS5637 and MC3416 initialisations reported to the PC and the GPS port. */
  function Reinitialized(st: State, s: Sensors): State
  {
    var st1 := Broadcast(st, InitLine(s.msInit, MsInitDone, MsInitFailed));
    Broadcast(st1, InitLine(s.mcInit, McInitDone, McInitFailed))
  }

  // ---------------------------------------------------- console commands

  /** The keywords of handle_command, in the order they are tested; 11 and beyond are setters. */
  const UartKeys: seq<string> := [
    "read_leak", "read_batt", "read_coms", "read_gps", "wcm_ping", "read_ms5637",
    "read_mc3416", "calibrate_mc3416", "zero_mc3416", "read_power_bits", "reinitialize",
    "+3V3VA_EN", "GPS_PWR_EN", "COM_SW_A", "SAT_PWR_EN", "CELL_PWR_EN", "LGT_ON", "WF_PWR_EN"]

  /** The number of console keywords, |UartKeys|. */
  const KeyCount: nat := 18

  const GpsQuery: nat := 3
  const FirstSetter: nat := 11
  const CellSetter: nat := 15

  /** The rail each console setter drives. */
  function SetterRail(k: nat): Rail
    requires FirstSetter <= k < KeyCount
  {
    [V3v3va, GpsPwr, ComSwA, SatPwr, CellPwr, LgtOn, WfPwr][k - FirstSetter]
  }

  /** CELL_PWR_EN turns on only for 1; every other setter turns off only for 0. */
  function SetterLevel(k: nat, i: int): bool
  {
    if k == CellSetter then i == 1 else i != 0
  }

  function ArgumentValue(command: string): int
    requires HasArgument(command)
  {
    Atoi(Argument(command))
  }

  /** The command text a setter writes back: "NAME value". */
  function Rewrite(name: string, i: int): string
  {
    name + " " + IntToString(i)
  }

  /** A setter reads its argument, so the command must have one (strtok must not return NULL). */
  predicate UartParses(command: string)
  {
    var k := FirstMatch(UartKeys, command);
    k.Some? && k.value >= FirstSetter ==> HasArgument(command)
  }

  /** The outcome of handle_command: the new state, whether the command was valid, and the command text afterwards. */
  datatype Handled = Handled(state: State, valid: bool, echo: string)

  /**
   * read_coms: the modem is powered for the exchange; a line it sends is
   * shown with VALID, a failed read prints INVALID, and nothing is printed
   * when the modem has nothing to send.
   */
  function Comms(st: State, x: Exchange): State
  {
    var st1 := Driven(st, SatPwr, true);
    var st2 := if x.ready != Ok then st1
               else Logged(st1, if x.received then [Text(x.text), Text(" "), Text(ValidText)] else [Text(InvalidText)]);
    Driven(st2, SatPwr, false)
  }

  /**
   * read_gps: with the GPS powered and data waiting, the GPS line is read
   * into the command buffer itself, so the echo afterwards is the GPS text;
   * a line received is also printed, followed by a space.
   */
  function GpsRead(st: State, x: Exchange, command: string): Handled
  {
    if Pin(st.rails, GpsPwr) && x.ready == Ok then
      Handled(Logged(st, if x.received then [Text(x.text), Text(" ")] else []), true, x.text)
    else Handled(st, true, command)
  }

  /** The query commands other than read_gps (keywords 0 to 10). */
  function UartQuery(st: State, k: nat, s: Sensors): State
    requires k < FirstSetter
  {
    if k == 0 then
      Logged(st, [if s.leak == Ok then Field(LeakName, Num(s.volts)) else Text(LeakFailed)])
    else if k == 1 then
      Logged(st, [if s.batt == Ok then Field(BattName, Num(s.battVolts)) else Text(BattFailed)])
    else if k == 2 then Comms(st, s.coms)
    else if k == 4 then
      Logged(st, [Text(PingReceived)]).(timerElapsed := true)
    else if k == 5 then Logged(st, if s.ms == Ok then ReadingLines(s) else [Text(MsFailed)])
    else if k == 6 then Logged(st, TiltLines(s))
    else if k == 7 then Logged(st, Failure(s.calibrate, CalibrateFailed))
    else if k == 8 then Logged(st, Failure(s.zero, ZeroFailed))
    else if k == 9 then Logged(st, PowerLines(st.rails))
    else Reinitialized(st, s)
  }

  /** A setter given the value atoi read: drive its rail to the level the value gives and echo "NAME value". */
  function UartSetter(st: State, k: nat, i: int): Handled
    requires FirstSetter <= k < KeyCount
  {
    Handled(Driven(st, SetterRail(k), SetterLevel(k, i)), true, Rewrite(UartKeys[k], i))
  }

  /** The branch of handle_command for keyword k. */
  function Dispatched(st: State, k: nat, command: string, s: Sensors): Handled
    requires k < KeyCount && (FirstSetter <= k ==> HasArgument(command))
  {
    if FirstSetter <= k then UartSetter(st, k, ArgumentValue(command))
    else if k == GpsQuery then GpsRead(st, s.gps, command)
    else Handled(UartQuery(st, k, s), true, command)
  }

  /** handle_command: the first keyword the command contains decides; no keyword makes it invalid. */
  function UartCommand(st: State, command: string, s: Sensors): Handled
    requires UartParses(command)
  {
    match FirstMatch(UartKeys, command)
    case None => Handled(st, false, command)
    case Some(k) => Dispatched(st, k, command, s)
  }

  // ------------------------------------------------------------ SPI frames

  /** The keywords of the SPI chain, in order. */
  const SpiKeys: seq<string> := [
    "LEAK", "read_gps", "wcm_ping", "MS5637", "read_mc3416", "calibrate_mc3416", "zero_mc3416",
    "POWER", "RESP"]

  const Resp: nat := 8

  /** The primary frames RESP continues, in the order it tests the last frame. */
  const RespKeys: seq<string> := ["LEAK", "MS5637", "POWER"]

  /** The setter names tested inside the RESP branch, in order. */
  const SpiSetterKeys: seq<string> := [
    "+3V3VA_EN", "GPS_PWR_EN", "COM_SW_A", "SAT_PWR_EN", "CELL_PWR_EN", "WF_PWR_EN", "LGT_ON"]

  const SpiSetterRails: seq<Rail> := [V3v3va, GpsPwr, ComSwA, SatPwr, CellPwr, WfPwr, LgtOn]

  const UnknownFrame := Text(UnknownText)

  /**
   * A setter the RESP branch reaches reads its argument: RESP after a frame
   * that is neither LEAK, MS5637 nor POWER, with a setter name in the frame.
   */
  predicate SpiParses(last: string, frame: string)
  {
    (FirstMatch(SpiKeys, frame) == Some(Resp) && FirstMatch(RespKeys, last).None?
     && FirstMatch(SpiSetterKeys, frame).Some?) ==> HasArgument(frame)
  }

  // ------------------------------------------- setters nested in RESP

  /** The letters of RESP and of LGT_ON are disjoint. */
  lemma NoSharedLetter(a: nat, b: nat)
    requires a < 4 && b < 6
    ensures "RESP"[a] != "LGT_ON"[b]
  {
  }

  /** RESP and LGT_ON cannot both fit in 8 bytes without overlapping, and they share no letter. */
  lemma LgtOnBesideResp(frame: string, i: nat, j: nat)
    requires |frame| <= 8 && OccursAt(frame, "RESP", i)
    ensures !OccursAt(frame, "LGT_ON", j)
  {
    if j + 6 <= |frame| {
      var p := if i <= j then j else i;
      assert frame[p] == "RESP"[p - i];
      assert frame[j..j + 6][p - j] == frame[p];
      NoSharedLetter(p - i, p - j);
    }
  }

  /** COM_SW_A fills an 8-byte frame, which then has no room for RESP: it has no R. */
  lemma ComSwABesideResp(frame: string, i: nat, j: nat)
    requires |frame| <= 8 && OccursAt(frame, "RESP", i)
    ensures !OccursAt(frame, "COM_SW_A", j)
  {
    if j + 8 <= |frame| {
      assert frame[i] == "RESP"[0];
      assert frame[j..j + 8][i] == frame[i];
      assert "COM_SW_A"[i] != 'R';
    }
  }

  /** No setter name occurs in a frame of at most 8 bytes that contains RESP. */
  lemma SetterBesideResp(frame: string, k: nat)
    requires |frame| <= 8 && Contains(frame, "RESP") && k < |SpiSetterKeys|
    ensures !Contains(frame, SpiSetterKeys[k])
  {
    ContainsIff(frame, "RESP");
    var i: nat :| OccursAt(frame, "RESP", i);
    var w := SpiSetterKeys[k];
    forall j: nat
      ensures !OccursAt(frame, w, j)
    {
      if k == 2 {
        ComSwABesideResp(frame, i, j);
      } else if k == 6 {
        LgtOnBesideResp(frame, i, j);
      } else {
        assert |w| > 8;
      }
    }
    ContainsIff(frame, w);
  }

  /**
   * The SPI setters sit inside the RESP branch, so they need a frame that
   * contains RESP and a setter name; with frames of at most 8 bytes no
   * setter can ever match.
   */
  lemma SpiSettersUnreachable(frame: string)
    requires |frame| <= 8 && FirstMatch(SpiKeys, frame) == Some(Resp)
    ensures FirstMatch(SpiSetterKeys, frame).None?
  {
    forall k | 0 <= k < |SpiSetterKeys|
      ensures !Contains(frame, SpiSetterKeys[k])
    {
      SetterBesideResp(frame, k);
    }
  }

  /** Every frame of at most 8 bytes is one the RESP branch's setters can parse. */
  lemma FramesParse(last: string, frame: string)
    requires |frame| <= 8
    ensures SpiParses(last, frame)
  {
    if FirstMatch(SpiKeys, frame) == Some(Resp) {
      SpiSettersUnreachable(frame);
    }
  }

  /** A primary read that answers with its first value and sets the count to 1, or logs its failure. */
  function Answered(st: State, status: Status, w: Word, failed: string): State
  {
    if status == Ok then st.(tx := w, session := st.session.(sent := 1))
    else Logged(st, [Text(failed)])
  }

  /** The primary frames (keywords 0 to 7): each records itself as the last frame. */
  function Primary(st0: State, k: nat, frame: string, s: Sensors): State
    requires k < Resp
  {
    var st := st0.(session := st0.session.(last := frame));
    if k == 0 then
      if s.leak == Ok then st.(tx := Decimal(s.volts, 2)) else Logged(st, [Text(SpiLeakFailed)])
    else if k == 1 then
      if s.gps.ready == Ok && s.gps.received then st.(session := st.session.(sent := 1)) else st
    else if k == 2 then
      Logged(st, [Text(SpiPing)]).(timerElapsed := true)
    else if k == 3 then
      var st1 := if s.ms == Ok then st.(session := st.session.(msTemperature := s.reading.temperature)) else st;
      Answered(st1, s.ms, Decimal(s.reading.pressure, 2), SpiMsFailed)
    else if k == 4 then Answered(st, s.tilt, Decimal(s.angle, 2), TiltFailed)
    else if k == 5 then Logged(st, Failure(s.calibrate, CalibrateFailed))
    else if k == 6 then Logged(st, Failure(s.zero, ZeroFailed))
    else
      var r := st.rails;
      var bits := PowerBits(Pin(r, GpsPwr), Pin(r, CellPwr), Pin(r, LgtOn), Pin(r, SatPwr), Pin(r, WfPwr), Pin(r, ComSwA));
      st.(session := st.session.(power := bits, sent := 1), tx := Integer(Flag(Pin(r, V3v3va))))
  }

  /** RESP after a POWER frame: the captured bits in order, then dashes. */
  function PowerNext(q: Session): Word
  {
    var p := q.power;
    if q.sent == 1 then Integer(Flag(p.gps))
    else if q.sent == 2 then Integer(Flag(p.cell))
    else if q.sent == 3 then Integer(Flag(p.lgt))
    else if q.sent == 4 then Integer(Flag(p.sat))
    else if q.sent == 5 then Integer(Flag(p.wf))
    else if q.sent == 6 then Integer(Flag(p.comSwA))
    else Dashes
  }

  /** The next word of the read-out; the count rises only when a value is sent. */
  function Continued(st: State, w: Word): State
  {
    if w == Dashes then st.(tx := Dashes)
    else st.(tx := w, session := st.session.(sent := st.session.sent + 1))
  }

  /** The setters nested in the RESP branch: each turns its rail off for 0 and on otherwise. */
  function SpiSet(st: State, frame: string): State
    requires FirstMatch(SpiSetterKeys, frame).Some? ==> HasArgument(frame)
  {
    match FirstMatch(SpiSetterKeys, frame)
    case None => Logged(st, [UnknownFrame])
    case Some(j) => Driven(st, SpiSetterRails[j], ArgumentValue(frame) != 0)
  }

  /**
   * RESP: continue the read-out of a LEAK, MS5637 or POWER frame; after any
   * other frame, try the setters on this frame. last_command is left as it is.
   */
  function RespFrame(st: State, frame: string): State
    requires FirstMatch(RespKeys, st.session.last).None? && FirstMatch(SpiSetterKeys, frame).Some? ==> HasArgument(frame)
  {
    var q := st.session;
    match FirstMatch(RespKeys, q.last)
    case None => SpiSet(st, frame)
    case Some(j) =>
      if j == 0 then st.(tx := Dashes)
      else if j == 1 then Continued(st, if q.sent == 1 then Decimal(q.msTemperature, 2) else Dashes)
      else Continued(st, PowerNext(q))
  }

  /** handle_spi_command: the first keyword decides; a frame with none of them changes nothing. */
  function SpiCommand(st: State, frame: string, s: Sensors): State
    requires SpiParses(st.session.last, frame)
  {
    match FirstMatch(SpiKeys, frame)
    case None => st
    case Some(k) =>
      if k < Resp then Primary(st, k, frame, s)
      else RespFrame(st, frame)
  }

  // ------------------------------------------------------------- wcm_init

  /** wcm_init's pin writes: 3V3VA and GPS power on, everything else off. */
  const InitWrites: seq<PinWrite> := [
    PinWrite(V3v3va, true), PinWrite(GpsPwr, true),
    PinWrite(CellPwr, false), PinWrite(WfPwr, false), PinWrite(ComSwA, false),
    PinWrite(SatPwr, false), PinWrite(LgtOn, false)]

  /** The rail levels after InitWrites. */
  function StartRails(rails: map<Rail, bool>): (r: map<Rail, bool>)
    ensures Pin(r, V3v3va) && Pin(r, GpsPwr)
    ensures !Pin(r, CellPwr) && !Pin(r, WfPwr) && !Pin(r, ComSwA) && !Pin(r, SatPwr) && !Pin(r, LgtOn)
  {
    rails[V3v3va := true][GpsPwr := true][CellPwr := false][WfPwr := false][ComSwA := false]
      [SatPwr := false][LgtOn := false]
  }

  function Initialized(st: State, s: Sensors): State
  {
    Reinitialized(st.(rails := StartRails(st.rails), drives := st.drives + InitWrites), s)
  }

  // ------------------------------------------------------------- wcm_run

  /**
   * One pass of wcm_run's inner loop: the slave-select level and the status
   * of arming the first transfer; whether a transfer completed, its frame,
   * what the drivers report for it and the status of re-arming; the PC
   * command received, if any, and what the drivers report for it; and
   * whether the timer callback fired.
   */
  datatype Event = Event(
    slaveSelect: bool, arm: Status,
    complete: bool, frame: string, spiSensors: Sensors, rearm: Status,
    line: Option<string>, uartSensors: Sensors,
    timer: bool)

  /**
   * The frame is the 8 received bytes up to a terminator, and a setter
   * name in the command comes with an argument.
   */
  predicate WellFormed(ev: Event)
  {
    |ev.frame| <= 8
    && (ev.line.Some? ==> UartParses(ev.line.value))
  }

  /** Arming: the transmit buffer gets eight dashes, then the first transfer is started. */
  function Armed(st: State, status: Status): State
  {
    var st1 := st.(tx := Dashes);
    if status == Ok then Logged(st1.(spiInitialized := true), [Text(SpiStarted)])
    else Logged(st1, [Text(ArmFailed)])
  }

  function Rearmed(st: State, status: Status): State
  {
    if status == Ok then st
    else Logged(st.(spiInitialized := false), [Text(RearmFailed)])
  }

  /** The command text, a space, and VALID or INVALID. */
  function Echoed(h: Handled): State
  {
    Logged(h.state, [Text(h.echo), Text(" "), Text(if h.valid then ValidText else InvalidText)])
  }

  /** The SPI part of a pass: arm while not initialised, then serve a completed transfer. */
  function SpiPass(st: State, ev: Event): State
    requires WellFormed(ev)
  {
    var st1 := if !st.spiInitialized && ev.slaveSelect then Armed(st, ev.arm) else st;
    FramesParse(st1.session.last, ev.frame);
    if st1.spiInitialized && ev.complete then Rearmed(SpiCommand(st1, ev.frame, ev.spiSensors), ev.rearm) else st1
  }

  /** The console part of a pass: a received command is handled and echoed. */
  function ConsolePass(st: State, ev: Event): State
    requires WellFormed(ev)
  {
    if ev.line.Some? then Echoed(UartCommand(st, ev.line.value, ev.uartSensors)) else st
  }

  function Pass(st: State, ev: Event): State
    requires WellFormed(ev)
  {
    var st1 := ConsolePass(SpiPass(st, ev), ev);
    if ev.timer then st1.(timerElapsed := true) else st1
  }

  /** The inner loop ends once the flag is set; with sleep disabled, the outer loop only clears it. */
  function Restarted(st: State): State
  {
    st.(timerElapsed := false)
  }

  function Started(st: State): State
  {
    var st1 := Broadcast(st, Text(RunStarted));
    st1.(spiInitialized := false, timerElapsed := false)
  }

  /** The state after the passes of events, in order. */
  function Ran(st: State, events: seq<Event>): State
    requires forall e :: e in events ==> WellFormed(e)
  {
    if events == [] then st
    else Restarted(Pass(Ran(st, events[..|events| - 1]), events[|events| - 1]))
  }

  /** The passes of the first n + 1 events: those of the first n, then event n. */
  lemma RanNext(st: State, events: seq<Event>, n: nat)
    requires n < |events| && forall e :: e in events ==> WellFormed(e)
    ensures WellFormed(events[n])
    ensures Ran(st, events[..n + 1]) == Restarted(Pass(Ran(st, events[..n]), events[n]))
  {
    assert events[..n + 1][..n] == events[..n];
  }

  // ------------------------------------------------------------- the board

  /** The WCM firmware's variables: output pins, flags, the SPI statics and buffer, and the two ports written. */
  class Board {
    var rails: map<Rail, bool>
    var drives: seq<PinWrite>
    var spiInitialized: bool
    var timerElapsed: bool
    var session: Session
    var tx: Word
    var log: seq<Msg>
    var gps: seq<Msg>

    function Snapshot(): State
      reads this
    {
      State(rails, drives, spiInitialized, timerElapsed, session, tx, log, gps)
    }

    /** The board as the program is loaded: statics zero, no pin written, nothing sent. */
    constructor()
      ensures Snapshot() == State(map[], [], false, false, FirstSession, Blank, [], [])
    {
      rails, drives := map[], [];
      spiInitialized, timerElapsed := false, false;
      session, tx := FirstSession, Blank;
      log, gps := [], [];
    }

    /** A wcm_gpio_*_on / _off call. */
    method Set(r: Rail, level: bool)
      modifies this
      ensures Snapshot() == Driven(old(Snapshot()), r, level)
    {
      rails := rails[r := level];
      drives := drives + [PinWrite(r, level)];
    }

    /** wcm_usart_send_pc_message, once per message. */
    method Put(ms: seq<Msg>)
      modifies this
      ensures Snapshot() == Logged(old(Snapshot()), ms)
    {
      log := log + ms;
    }

    /** wcm_usart_send_pc_message followed by wcm_usart_send_gps_command. */
    method PutBoth(m: Msg)
      modifies this
      ensures Snapshot() == Broadcast(old(Snapshot()), m)
    {
      log := log + [m];
      gps := gps + [m];
    }

    /** initInternalHW. */
    method InitInternalHw(s: Sensors)
      modifies this
      ensures Snapshot() == Reinitialized(old(Snapshot()), s)
    {
      PutBoth(InitLine(s.msInit, MsInitDone, MsInitFailed));
      PutBoth(InitLine(s.mcInit, McInitDone, McInitFailed));
    }

    /** wcm_init: the rails to their start-up levels, then initInternalHW. */
    method Init(s: Sensors)
      modifies this
      ensures Snapshot() == Initialized(old(Snapshot()), s)
    {
      rails := StartRails(rails);
      drives := drives + InitWrites;
      InitInternalHw(s);
    }

    /** read_coms. */
    method ReadComs(x: Exchange)
      modifies this
      ensures Snapshot() == Comms(old(Snapshot()), x)
    {
      Set(SatPwr, true);
      if x.ready == Ok {
        if x.received {
          Put([Text(x.text), Text(" "), Text(ValidText)]);
        } else {
          Put([Text(InvalidText)]);
        }
      }
      Set(SatPwr, false);
    }

    /** read_gps; the result is the command buffer afterwards. */
    method ReadGps(x: Exchange, command: string) returns (echo: string)
      modifies this
      ensures Handled(Snapshot(), true, echo) == GpsRead(old(Snapshot()), x, command)
    {
      echo := command;
      if Pin(rails, GpsPwr) && x.ready == Ok {
        echo := x.text;
        if x.received {
          Put([Text(x.text), Text(" ")]);
        }
      }
    }

    /** The query branches of handle_command other than read_gps. */
    method Query(k: nat, s: Sensors)
      requires k < FirstSetter
      modifies this
      ensures Snapshot() == UartQuery(old(Snapshot()), k, s)
    {
      if k == 0 {
        if s.leak == Ok {
          Put([Field(LeakName, Num(s.volts))]);
        } else {
          Put([Text(LeakFailed)]);
        }
      } else if k == 1 {
        if s.batt == Ok {
          Put([Field(BattName, Num(s.battVolts))]);
        } else {
          Put([Text(BattFailed)]);
        }
      } else if k == 2 {
        ReadComs(s.coms);
      } else if k == 4 {
        Put([Text(PingReceived)]);
        timerElapsed := true;
      } else if k == 5 {
        Put(if s.ms == Ok then ReadingLines(s) else [Text(MsFailed)]);
      } else if k == 6 {
        Put(TiltLines(s));
      } else if k == 7 {
        Put(Failure(s.calibrate, CalibrateFailed));
      } else if k == 8 {
        Put(Failure(s.zero, ZeroFailed));
      } else if k == 9 {
        Put(PowerLines(rails));
      } else {
        InitInternalHw(s);
      }
    }

    /** handle_command: returns bValid and the command text as it is echoed. */
    method HandleCommand(command: string, s: Sensors) returns (valid: bool, echo: string)
      requires UartParses(command)
      modifies this
      ensures Handled(Snapshot(), valid, echo) == UartCommand(old(Snapshot()), command, s)
    {
      var k := FirstMatch(UartKeys, command);
      if k.None? {
        valid, echo := false, command;
      } else if k.value == GpsQuery {
        echo := ReadGps(s.gps, command);
        valid := true;
      } else if k.value < FirstSetter {
        Query(k.value, s);
        valid, echo := true, command;
      } else {
        var i := ArgumentValue(command);
        echo := Rewrite(UartKeys[k.value], i);
        Set(SetterRail(k.value), SetterLevel(k.value, i));
        valid := true;
      }
    }

    // -------------------------------------------------------- SPI frames

    /** A primary read's answer: the first value and a count of 1, or the failure logged. */
    method Answer(status: Status, w: Word, failed: string)
      modifies this
      ensures Snapshot() == Answered(old(Snapshot()), status, w, failed)
    {
      if status == Ok {
        tx := w;
        session := session.(sent := 1);
      } else {
        Put([Text(failed)]);
      }
    }

    /** The primary branches of the SPI chain. */
    method SpiQuery(k: nat, frame: string, s: Sensors)
      requires k < Resp
      modifies this
      ensures Snapshot() == Primary(old(Snapshot()), k, frame, s)
    {
      session := session.(last := frame);
      if k == 0 {
        if s.leak == Ok {
          tx := Decimal(s.volts, 2);
        } else {
          Put([Text(SpiLeakFailed)]);
        }
      } else if k == 1 {
        if s.gps.ready == Ok && s.gps.received {
          session := session.(sent := 1);
        }
      } else if k == 2 {
        Put([Text(SpiPing)]);
        timerElapsed := true;
      } else if k == 3 {
        if s.ms == Ok {
          session := session.(msTemperature := s.reading.temperature);
        }
        Answer(s.ms, Decimal(s.reading.pressure, 2), SpiMsFailed);
      } else if k == 4 {
        Answer(s.tilt, Decimal(s.angle, 2), TiltFailed);
      } else if k == 5 {
        Put(Failure(s.calibrate, CalibrateFailed));
      } else if k == 6 {
        Put(Failure(s.zero, ZeroFailed));
      } else {
        var r := rails;
        session := session.(power := PowerBits(Pin(r, GpsPwr), Pin(r, CellPwr), Pin(r, LgtOn),
                                               Pin(r, SatPwr), Pin(r, WfPwr), Pin(r, ComSwA)), sent := 1);
        tx := Integer(Flag(Pin(r, V3v3va)));
      }
    }

    /** The setters inside the RESP branch, or the unknown-command line. */
    method SpiSetter(frame: string)
      requires FirstMatch(SpiSetterKeys, frame).Some? ==> HasArgument(frame)
      modifies this
      ensures Snapshot() == SpiSet(old(Snapshot()), frame)
    {
      var j := FirstMatch(SpiSetterKeys, frame);
      if j.None? {
        Put([UnknownFrame]);
      } else {
        Set(SpiSetterRails[j.value], ArgumentValue(frame) != 0);
      }
    }

    /** RESP: the next value of a LEAK, MS5637 or POWER read-out, or else the setters. */
    method RespNext(frame: string)
      requires FirstMatch(RespKeys, session.last).None? && FirstMatch(SpiSetterKeys, frame).Some? ==> HasArgument(frame)
      modifies this
      ensures Snapshot() == RespFrame(old(Snapshot()), frame)
    {
      var j := FirstMatch(RespKeys, session.last);
      if j.None? {
        SpiSetter(frame);
      } else {
        var w;
        if j.value == 0 {
          w := Dashes;
        } else if j.value == 1 {
          w := if session.sent == 1 then Decimal(session.msTemperature, 2) else Dashes;
        } else {
          w := PowerNext(session);
        }
        tx := w;
        if w != Dashes && j.value != 0 {
          session := session.(sent := session.sent + 1);
        }
      }
    }

    /** handle_spi_command; the answer is left in tx for the next transfer. */
    method HandleSpiCommand(frame: string, s: Sensors)
      requires SpiParses(session.last, frame)
      modifies this
      ensures Snapshot() == SpiCommand(old(Snapshot()), frame, s)
    {
      var k := FirstMatch(SpiKeys, frame);
      if k.Some? {
        if k.value < Resp {
          SpiQuery(k.value, frame, s);
        } else {
          RespNext(frame);
        }
      }
    }

    // ----------------------------------------------------------- wcm_run

    method Arm(status: Status)
      modifies this
      ensures Snapshot() == Armed(old(Snapshot()), status)
    {
      tx := Dashes;
      if status == Ok {
        spiInitialized := true;
        Put([Text(SpiStarted)]);
      } else {
        Put([Text(ArmFailed)]);
      }
    }

    method Rearm(status: Status)
      modifies this
      ensures Snapshot() == Rearmed(old(Snapshot()), status)
    {
      if status != Ok {
        spiInitialized := false;
        Put([Text(RearmFailed)]);
      }
    }

    method PollSpi(ev: Event)
      requires WellFormed(ev)
      modifies this
      ensures Snapshot() == SpiPass(old(Snapshot()), ev)
    {
      if !spiInitialized && ev.slaveSelect {
        Arm(ev.arm);
      }
      if spiInitialized && ev.complete {
        FramesParse(session.last, ev.frame);
        HandleSpiCommand(ev.frame, ev.spiSensors);
        Rearm(ev.rearm);
      }
    }

    method PollConsole(ev: Event)
      requires WellFormed(ev)
      modifies this
      ensures Snapshot() == ConsolePass(old(Snapshot()), ev)
    {
      if ev.line.Some? {
        var valid, echo := HandleCommand(ev.line.value, ev.uartSensors);
        Put([Text(echo), Text(" "), Text(if valid then ValidText else InvalidText)]);
      }
    }

    /** One pass of wcm_run's inner loop. */
    method Poll(ev: Event)
      requires WellFormed(ev)
      modifies this
      ensures Snapshot() == Pass(old(Snapshot()), ev)
    {
      PollSpi(ev);
      PollConsole(ev);
      if ev.timer {
        timerElapsed := true;
      }
    }

    /** wcm_run over the given passes: a pass that ends with the flag set only makes the outer loop clear it. */
    method Run(events: seq<Event>)
      requires forall e :: e in events ==> WellFormed(e)
      modifies this
      ensures Snapshot() == Ran(Started(old(Snapshot())), events)
    {
      PutBoth(Text(RunStarted));
      spiInitialized, timerElapsed := false, false;
      ghost var st := Snapshot();
      var n: nat := 0;
      while n < |events|
        invariant n <= |events|
        invariant Snapshot() == Ran(st, events[..n])
      {
        RanNext(st, events, n);
        Poll(events[n]);
        timerElapsed := false;
        n := n + 1;
      }
      assert events[..n] == events;
    }
  }
}
