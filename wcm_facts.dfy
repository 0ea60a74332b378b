/**
 * What the WCM's dispatchers promise: invalid commands change nothing, the
 * console setters drive one rail and echo a command that parses back, the
 * CELL_PWR_EN polarity of the two paths, read_gps replacing the echo, the
 * RESP read-out order, that the SPI setters nested in RESP cannot match
 * an 8-byte frame, and the run loop's echo.
 */
module WcmFacts {
  import opened Common
  import opened Text
  import opened Wcm

  // ------------------------------------------------------ console commands

  /** A command is invalid exactly when it contains no keyword, and then nothing but the echo happens. */
  lemma InvalidIffNoKeyword(st: State, command: string, s: Sensors)
    requires UartParses(command)
    ensures var h := UartCommand(st, command, s);
      (!h.valid <==> forall j :: 0 <= j < |UartKeys| ==> !Contains(command, UartKeys[j]))
      && (!h.valid ==> h.state == st && h.echo == command)
  {
  }

  /** The setter keywords are single words, so a rewritten command splits into keyword and value. */
  lemma SetterKeysAreWords(k: nat)
    requires FirstSetter <= k < |UartKeys|
    ensures |UartKeys[k]| > 0 && ' ' !in UartKeys[k]
  {
    var w := UartKeys[k];
    assert w == "+3V3VA_EN" || w == "GPS_PWR_EN" || w == "COM_SW_A" || w == "SAT_PWR_EN"
      || w == "CELL_PWR_EN" || w == "LGT_ON" || w == "WF_PWR_EN";
  }

  /** The rewritten command "NAME value" splits into the keyword and the value, which atoi reads back. */
  lemma SetterEcho(k: nat, i: int)
    requires FirstSetter <= k < |UartKeys|
    ensures var echo := Rewrite(UartKeys[k], i);
      Tokens(echo) == [UartKeys[k], IntToString(i)] && Atoi(Tokens(echo)[1]) == i
  {
    SetterKeysAreWords(k);
    TokensOfCommand(UartKeys[k], IntToString(i));
    AtoiIntToString(i);
  }

  /** The console dispatch hands a setter keyword to its setter, with the value atoi reads from the argument. */
  lemma SetterDispatch(st: State, command: string, s: Sensors, k: nat)
    requires FirstMatch(UartKeys, command) == Some(k) && FirstSetter <= k && HasArgument(command)
    ensures UartParses(command)
    ensures UartCommand(st, command, s) == UartSetter(st, k, ArgumentValue(command))
  {
    SetterBranch(st, command, s, k);
  }

  /** The setter branches of handle_command. */
  lemma SetterBranch(st: State, command: string, s: Sensors, k: nat)
    requires FirstSetter <= k < KeyCount && HasArgument(command)
    ensures Dispatched(st, k, command, s) == UartSetter(st, k, ArgumentValue(command))
  {
  }

  /** Driving a rail sets its level, records the write, and leaves every other rail and field alone. */
  lemma DrivenLevels(st: State, r: Rail, level: bool)
    ensures var st1 := Driven(st, r, level);
      Pin(st1.rails, r) == level
      && (forall r' :: r' != r ==> Pin(st1.rails, r') == Pin(st.rails, r'))
      && st1.drives == st.drives + [PinWrite(r, level)]
      && st1 == st.(rails := st1.rails, drives := st1.drives)
  {
  }

  /** Each console setter drives a different rail, so the seven setters cover the seven rails. */
  lemma SetterRailsDistinct(k: nat, k': nat)
    requires FirstSetter <= k < KeyCount && FirstSetter <= k' < KeyCount
    ensures SetterRail(k) == SetterRail(k') <==> k == k'
  {
  }

  /** The console's CELL_PWR_EN turns the cellular modem on only for the value 1. */
  lemma UartCellLevel(st: State, i: int)
    ensures Pin(UartSetter(st, CellSetter, i).state.rails, CellPwr) == (i == 1)
  {
    assert SetterRail(CellSetter) == CellPwr;
    DrivenLevels(st, CellPwr, i == 1);
  }

  /** The SPI CELL_PWR_EN turns the cellular modem on for any value other than 0. */
  lemma SpiCellLevel(st: State, frame: string)
    requires FirstMatch(SpiSetterKeys, frame) == Some(4) && HasArgument(frame)
    ensures Pin(SpiSet(st, frame).rails, CellPwr) == (ArgumentValue(frame) != 0)
  {
    SpiSetDriven(st, frame, 4);
    assert SpiSetterRails[4] == CellPwr;
    DrivenLevels(st, CellPwr, ArgumentValue(frame) != 0);
  }

  /** An SPI setter frame drives its rail high for any value other than 0. */
  lemma SpiSetDriven(st: State, frame: string, j: nat)
    requires FirstMatch(SpiSetterKeys, frame) == Some(j) && HasArgument(frame)
    ensures SpiSet(st, frame) == Driven(st, SpiSetterRails[j], ArgumentValue(frame) != 0)
  {
  }

  /**
   * CELL_PWR_EN has a different polarity on the two paths: "CELL_PWR_EN 2"
   * leaves the modem off from the console but turns it on from SPI.
   */
  lemma CellPolarity(st: State, i: int, frame: string)
    requires FirstMatch(SpiSetterKeys, frame) == Some(4) && HasArgument(frame)
    ensures Pin(UartSetter(st, CellSetter, i).state.rails, CellPwr) == (i == 1)
      && Pin(SpiSet(st, frame).rails, CellPwr) == (ArgumentValue(frame) != 0)
  {
    UartCellLevel(st, i);
    SpiCellLevel(st, frame);
  }

  /**
   * read_gps with the GPS powered and data waiting reads the GPS line into
   * the command buffer, so the text echoed is the GPS line, not the
   * command; otherwise nothing happens but the echo of the command.
   */
  lemma GpsReplacesEcho(st: State, command: string, s: Sensors)
    requires FirstMatch(UartKeys, command) == Some(GpsQuery)
    ensures UartParses(command)
    ensures var h := UartCommand(st, command, s);
      h.valid && h.state.rails == st.rails && h.state.drives == st.drives
      && (Pin(st.rails, GpsPwr) && s.gps.ready == Ok ==>
            h.echo == s.gps.text
            && h.state.log == st.log + (if s.gps.received then [Text(s.gps.text), Text(" ")] else []))
      && (!(Pin(st.rails, GpsPwr) && s.gps.ready == Ok) ==> h.state == st && h.echo == command)
  {
  }

  /**
   * read_coms powers the satellite modem around the exchange: it is on for
   * the read and off afterwards, whatever the modem answered, and no other
   * rail moves.
   */
  lemma ComsPowerCycle(st: State, x: Exchange)
    ensures var st1 := Comms(st, x);
      !Pin(st1.rails, SatPwr)
      && (forall r :: r != SatPwr ==> Pin(st1.rails, r) == Pin(st.rails, r))
      && st1.drives == st.drives + [PinWrite(SatPwr, true), PinWrite(SatPwr, false)]
      && st1.log == st.log + (if x.ready != Ok then []
                              else if x.received then [Text(x.text), Text(" "), Text(ValidText)]
                              else [Text(InvalidText)])
  {
  }

  /** The queries other than read_coms leave every pin as it was. */
  lemma QueriesKeepPins(st: State, k: nat, s: Sensors)
    requires k < FirstSetter && k != 2
    ensures UartQuery(st, k, s).rails == st.rails && UartQuery(st, k, s).drives == st.drives
  {
  }

  /** read_mc3416 prints the angle line even when the read fails, and then says it failed. */
  lemma TiltAlwaysPrinted(s: Sensors)
    ensures var ls := TiltLines(s);
      |ls| == (if s.tilt == Ok then 1 else 2)
      && ls[0].Field? && ls[0].key == TiltName && (ls[0].value == Indeterminate <==> s.tilt != Ok)
  {
  }

  // ------------------------------------------------------------ SPI frames

  /** A frame with no SPI keyword, a bare setter name among them, changes nothing. */
  lemma NoKeywordFrameIgnored(st: State, frame: string, s: Sensors)
    requires FirstMatch(SpiKeys, frame).None?
    ensures SpiParses(st.session.last, frame)
    ensures SpiCommand(st, frame, s) == st
  {
  }

  /** Every primary frame becomes the last frame. */
  lemma PrimaryLast(st: State, k: nat, frame: string, s: Sensors)
    requires k < Resp
    ensures Primary(st, k, frame, s).session.last == frame
  {
  }

  /** RESP leaves the last frame as it is. */
  lemma RespKeepsLast(st: State, frame: string)
    requires FirstMatch(RespKeys, st.session.last).None? && FirstMatch(SpiSetterKeys, frame).Some? ==> HasArgument(frame)
    ensures RespFrame(st, frame).session.last == st.session.last
  {
  }

  /** The frames RESP continues are primary frames of the chain: LEAK, MS5637 and POWER. */
  lemma RespKeysArePrimary()
    ensures RespKeys == [SpiKeys[0], SpiKeys[3], SpiKeys[7]]
  {
  }

  /** At hand-off to wcm_run no frame has been seen, so a RESP does not continue any read-out. */
  lemma NoSessionAtStart()
    ensures FirstMatch(RespKeys, FirstSession.last).None?
  {
    assert forall j :: 0 <= j < |RespKeys| ==> !Contains(FirstSession.last, RespKeys[j]) by {
      forall j | 0 <= j < |RespKeys|
        ensures !Contains(FirstSession.last, RespKeys[j])
      {
        ContainsIff(FirstSession.last, RespKeys[j]);
      }
    }
  }

  /**
   * So a RESP frame that does not continue a LEAK, MS5637 or POWER read-out
   * (for example the first RESP after start-up) only logs "Unknown
   * command", and the master reads the previous answer again.
   */
  lemma RespWithoutSession(st: State, frame: string, s: Sensors)
    requires |frame| <= 8 && FirstMatch(SpiKeys, frame) == Some(Resp)
    requires FirstMatch(RespKeys, st.session.last).None?
    ensures SpiParses(st.session.last, frame)
    ensures SpiCommand(st, frame, s) == Logged(st, [UnknownFrame])
  {
    SpiSettersUnreachable(frame);
  }

  // ---------------------------------------------------------- RESP read-out

  /** The values RESP sends after the last primary frame, in order (the reference read-out table). */
  function Pending(q: Session): seq<Word>
  {
    match FirstMatch(RespKeys, q.last)
    case None => []
    case Some(j) => PendingFor(j, q)
  }

  /** The values RESP sends after a primary frame with RESP key j. */
  function PendingFor(j: nat, q: Session): seq<Word>
  {
    var p := q.power;
    if j == 0 then []
    else if j == 1 then [Decimal(q.msTemperature, 2)]
    else [Integer(Flag(p.gps)), Integer(Flag(p.cell)), Integer(Flag(p.lgt)),
          Integer(Flag(p.sat)), Integer(Flag(p.wf)), Integer(Flag(p.comSwA))]
  }

  /** The values of p not yet sent after `sent` words (the first went with the primary frame). */
  function Unsent(p: seq<Word>, sent: nat): seq<Word>
  {
    if sent == 0 || sent - 1 >= |p| then [] else p[sent - 1..]
  }

  /** The values still to be sent. */
  function Remaining(q: Session): seq<Word>
  {
    Unsent(Pending(q), q.sent)
  }

  /** The words n successive RESP frames load for the master to read. */
  function Drain(st: State, n: nat): seq<Word>
    requires FirstMatch(RespKeys, st.session.last).Some?
    decreases n
  {
    if n == 0 then []
    else
      var st1 := RespFrame(st, "RESP");
      [st1.tx] + Drain(st1, n - 1)
  }

  /** One RESP: the next remaining value with the count raised, or dashes with nothing else changed. */
  lemma RespStep(st: State, frame: string)
    requires FirstMatch(RespKeys, st.session.last).Some?
    ensures var q := st.session; var st1 := RespFrame(st, frame);
      (Remaining(q) != [] ==> st1 == st.(tx := Remaining(q)[0], session := q.(sent := q.sent + 1))
                              && Remaining(st1.session) == Remaining(q)[1..])
      && (Remaining(q) == [] ==> st1 == st.(tx := Dashes) && Remaining(st1.session) == [])
  {
    var q := st.session;
    var r := Remaining(q);
    RespWord(st, frame);
    if r != [] {
      RemainingAdvance(q);
      assert RespFrame(st, frame) == st.(tx := r[0], session := q.(sent := q.sent + 1));
    } else {
      assert RespFrame(st, frame) == st.(tx := Dashes);
    }
  }

  /** Raising the count drops the first remaining value. */
  lemma RemainingAdvance(q: Session)
    requires Remaining(q) != []
    ensures Remaining(q.(sent := q.sent + 1)) == Remaining(q)[1..]
  {
    PendingSent(q, q.sent + 1);
    UnsentAdvance(Pending(q), q.sent);
  }

  /** The read-out table does not depend on how much of it was sent. */
  lemma PendingSent(q: Session, k: nat)
    ensures Pending(q.(sent := k)) == Pending(q)
  {
    var q1 := q.(sent := k);
    assert q1.last == q.last && q1.power == q.power && q1.msTemperature == q.msTemperature;
  }

  /** Sending one more value drops the first of those not yet sent. */
  lemma UnsentAdvance(p: seq<Word>, sent: nat)
    requires Unsent(p, sent) != []
    ensures Unsent(p, sent + 1) == Unsent(p, sent)[1..]
  {
  }

  /** A RESP frame loads the first remaining value, or dashes when none remains. */
  lemma RespWord(st: State, frame: string)
    requires FirstMatch(RespKeys, st.session.last).Some?
    ensures var r := Remaining(st.session);
      RespFrame(st, frame) == Continued(st, if r != [] then r[0] else Dashes) && (r != [] ==> r[0] != Dashes)
  {
    var q := st.session;
    var j := FirstMatch(RespKeys, q.last).value;
    if j == 0 {
    } else if j == 1 {
      HeadIs(q, j, if q.sent == 1 then Decimal(q.msTemperature, 2) else Dashes);
    } else {
      HeadIs(q, j, PowerNext(q));
    }
  }

  /** The word RESP key j loads is the first unsent value, or dashes when none remains. */
  lemma HeadIs(q: Session, j: nat, w: Word)
    requires 0 < j
    requires w == (if j == 1 then (if q.sent == 1 then Decimal(q.msTemperature, 2) else Dashes) else PowerNext(q))
    ensures var r := Unsent(PendingFor(j, q), q.sent); w == (if r != [] then r[0] else Dashes) && (r != [] ==> r[0] != Dashes)
  {
  }

  /** Successive RESP frames send the remaining values in order, then dashes for ever. */
  lemma {:induction false} ReadOut(st: State, n: nat)
    requires FirstMatch(RespKeys, st.session.last).Some?
    ensures Drain(st, n) == Padded(Remaining(st.session), n)
    decreases n
  {
    if n > 0 {
      var st1 := RespFrame(st, "RESP");
      RespStep(st, "RESP");
      ReadOut(st1, n - 1);
      PaddedStep(Remaining(st.session), n);
      assert Drain(st, n) == [st1.tx] + Drain(st1, n - 1);
    }
  }

  /** A RESP that continues a read-out changes only the answer buffer and the count, whatever else the frame holds. */
  lemma RespOnlyReadsOut(st: State, frame: string, s: Sensors)
    requires FirstMatch(SpiKeys, frame) == Some(Resp) && FirstMatch(RespKeys, st.session.last).Some?
    ensures SpiParses(st.session.last, frame)
    ensures var st1 := SpiCommand(st, frame, s);
      st1 == st.(tx := st1.tx, session := st.session.(sent := st1.session.sent))
  {
    RespStep(st, frame);
  }

  /** The frame just handled continues its own read-out when it is POWER or MS5637 with no earlier keyword. */
  lemma PrimarySession(st: State, frame: string, s: Sensors, k: nat, j: nat)
    requires FirstMatch(SpiKeys, frame) == Some(k) && ((k == 3 && j == 1) || (k == 7 && j == 2))
    ensures SpiParses(st.session.last, frame)
    ensures FirstMatch(RespKeys, SpiCommand(st, frame, s).session.last) == Some(j)
  {
    assert SpiKeys[0] == RespKeys[0] && SpiKeys[3] == RespKeys[1] && SpiKeys[7] == RespKeys[2];
  }

  /**
   * A POWER frame answers with the 3V3VA level, and successive RESP
   * frames then send the GPS, cellular, light, satellite, Wi-Fi and COM_SW_A
   * levels captured by that frame, then dashes.
   */
  lemma PowerReadOut(st: State, frame: string, s: Sensors, n: nat)
    requires FirstMatch(SpiKeys, frame) == Some(7)
    ensures SpiParses(st.session.last, frame)
    ensures var r := st.rails; var st1 := SpiCommand(st, frame, s);
      FirstMatch(RespKeys, st1.session.last).Some?
      && st1.tx == Integer(Flag(Pin(r, V3v3va)))
      && Drain(st1, n) == Padded(
        [Integer(Flag(Pin(r, GpsPwr))), Integer(Flag(Pin(r, CellPwr))), Integer(Flag(Pin(r, LgtOn))),
         Integer(Flag(Pin(r, SatPwr))), Integer(Flag(Pin(r, WfPwr))), Integer(Flag(Pin(r, ComSwA)))], n)
  {
    PrimarySession(st, frame, s, 7, 2);
    var st1 := PowerFrame(st, frame, s);
    PowerDrain(st, st1, n);
  }

  /** A POWER frame records itself and the power levels, and counts its first value as sent. */
  lemma PowerFrame(st: State, frame: string, s: Sensors) returns (st1: State)
    requires FirstMatch(SpiKeys, frame) == Some(7)
    ensures SpiParses(st.session.last, frame)
    ensures st1 == SpiCommand(st, frame, s)
    ensures var r := st.rails;
      st1.session.last == frame && st1.session.sent == 1 && st1.tx == Integer(Flag(Pin(r, V3v3va)))
      && st1.session.power == PowerBits(Pin(r, GpsPwr), Pin(r, CellPwr), Pin(r, LgtOn), Pin(r, SatPwr), Pin(r, WfPwr), Pin(r, ComSwA))
  {
    st1 := SpiCommand(st, frame, s);
  }

  /** After a POWER frame the read-out is the captured levels in order. */
  lemma PowerDrain(st: State, st1: State, n: nat)
    requires var r := st.rails;
      FirstMatch(RespKeys, st1.session.last) == Some(2) && st1.session.sent == 1
      && st1.session.power == PowerBits(Pin(r, GpsPwr), Pin(r, CellPwr), Pin(r, LgtOn), Pin(r, SatPwr), Pin(r, WfPwr), Pin(r, ComSwA))
    ensures var r := st.rails;
      Drain(st1, n) == Padded(
        [Integer(Flag(Pin(r, GpsPwr))), Integer(Flag(Pin(r, CellPwr))), Integer(Flag(Pin(r, LgtOn))),
         Integer(Flag(Pin(r, SatPwr))), Integer(Flag(Pin(r, WfPwr))), Integer(Flag(Pin(r, ComSwA)))], n)
  {
    ReadOut(st1, n);
    var q := st1.session;
    assert Remaining(q) == Unsent(PendingFor(2, q), q.sent);
  }

  /**
   * An MS5637 frame whose read succeeds answers with the pressure; the
   * next RESP sends the temperature, and every later one dashes.
   */
  lemma MsReadOut(st: State, frame: string, s: Sensors, n: nat)
    requires FirstMatch(SpiKeys, frame) == Some(3) && s.ms == Ok
    ensures SpiParses(st.session.last, frame)
    ensures var st1 := SpiCommand(st, frame, s);
      FirstMatch(RespKeys, st1.session.last).Some?
      && st1.tx == Decimal(s.reading.pressure, 2)
      && Drain(st1, n) == Padded([Decimal(s.reading.temperature, 2)], n)
  {
    PrimarySession(st, frame, s, 3, 1);
    var st1 := MsFrame(st, frame, s);
    MsDrain(st1, s, n);
  }

  /** A successful MS5637 frame records itself and the temperature, and answers with the pressure. */
  lemma MsFrame(st: State, frame: string, s: Sensors) returns (st1: State)
    requires FirstMatch(SpiKeys, frame) == Some(3) && s.ms == Ok
    ensures SpiParses(st.session.last, frame)
    ensures st1 == SpiCommand(st, frame, s)
    ensures st1.session.last == frame && st1.session.sent == 1 && st1.tx == Decimal(s.reading.pressure, 2)
      && st1.session.msTemperature == s.reading.temperature
  {
    st1 := SpiCommand(st, frame, s);
  }

  /** After a successful MS5637 frame the read-out is the temperature. */
  lemma MsDrain(st1: State, s: Sensors, n: nat)
    requires FirstMatch(RespKeys, st1.session.last) == Some(1) && st1.session.sent == 1
      && st1.session.msTemperature == s.reading.temperature
    ensures Drain(st1, n) == Padded([Decimal(s.reading.temperature, 2)], n)
  {
    ReadOut(st1, n);
    var q := st1.session;
    assert Remaining(q) == Unsent(PendingFor(1, q), q.sent);
  }

  /**
   * A failed MS5637 read does not reset the count, so when the count was 1
   * (after a POWER frame, say) the next RESP sends the temperature kept
   * from an earlier read.
   */
  lemma FailedMsReadOut(st: State, frame: string, s: Sensors, n: nat)
    requires FirstMatch(SpiKeys, frame) == Some(3) && s.ms != Ok
    ensures SpiParses(st.session.last, frame)
    ensures var st1 := SpiCommand(st, frame, s);
      FirstMatch(RespKeys, st1.session.last).Some?
      && st1.tx == st.tx && st1.log == st.log + [Text(SpiMsFailed)]
      && Drain(st1, n)
         == Padded(if st.session.sent == 1 then [Decimal(st.session.msTemperature, 2)] else [], n)
  {
    PrimarySession(st, frame, s, 3, 1);
    var st1 := MsFailedFrame(st, frame, s);
    FailedMsDrain(st, st1, frame, n);
  }

  /** After a failed MS5637 frame the read-out is the temperature kept, when the count was 1. */
  lemma FailedMsDrain(st: State, st1: State, frame: string, n: nat)
    requires FirstMatch(RespKeys, frame) == Some(1)
    requires st1 == st.(session := st.session.(last := frame), log := st.log + [Text(SpiMsFailed)])
    ensures Drain(st1, n) == Padded(if st.session.sent == 1 then [Decimal(st.session.msTemperature, 2)] else [], n)
  {
    ReadOut(st1, n);
    var q := st1.session;
    assert Remaining(q) == Unsent(PendingFor(1, q), q.sent);
  }

  /** A failed MS5637 frame only records itself as the last frame and logs the failure. */
  lemma MsFailedFrame(st: State, frame: string, s: Sensors) returns (st1: State)
    requires FirstMatch(SpiKeys, frame) == Some(3) && s.ms != Ok
    ensures SpiParses(st.session.last, frame)
    ensures st1 == SpiCommand(st, frame, s)
    ensures st1 == st.(session := st.session.(last := frame), log := st.log + [Text(SpiMsFailed)])
  {
    st1 := SpiCommand(st, frame, s);
  }

  // ---------------------------------------------------------------- wcm_run

  /** wcm_init leaves 3V3VA and the GPS on and every other rail off, and reports both sensor initialisations to both ports. */
  lemma StartUpLevels(st: State, s: Sensors)
    ensures var st1 := Initialized(st, s); var r := st1.rails;
      Pin(r, V3v3va) && Pin(r, GpsPwr)
      && !Pin(r, CellPwr) && !Pin(r, WfPwr) && !Pin(r, ComSwA) && !Pin(r, SatPwr) && !Pin(r, LgtOn)
      && st1.drives == st.drives + InitWrites
    ensures var st1 := Initialized(st, s);
      var ms := Text(if s.msInit == Ok then MsInitDone else MsInitFailed);
      var mc := Text(if s.mcInit == Ok then McInitDone else McInitFailed);
      st1.log == st.log + [ms, mc] && st1.gps == st.gps + [ms, mc]
      && st1.session == st.session && st1.tx == st.tx
      && st1.spiInitialized == st.spiInitialized && st1.timerElapsed == st.timerElapsed
  {
  }

  /**
   * A pass that receives "wcm_ping" on the console, with no SPI activity,
   * logs the ping and echoes the command as valid; the outer loop then only
   * clears the flag the ping set.
   */
  lemma PingOnlyClears(st: State, ev: Event)
    requires WellFormed(ev) && ev.line.Some? && FirstMatch(UartKeys, ev.line.value) == Some(4)
    requires !ev.complete && (st.spiInitialized || !ev.slaveSelect)
    ensures var st1 := Pass(st, ev);
      st1.timerElapsed
      && Restarted(st1) == st.(timerElapsed := false,
                               log := st.log + [Text(PingReceived), Text(ev.line.value), Text(" "), Text(ValidText)])
  {
    assert SpiPass(st, ev) == st;
    PingHandled(st, ev);
  }

  /** The console part of a pass that receives "wcm_ping": the ping logged and echoed as valid, the flag set. */
  lemma PingHandled(st: State, ev: Event)
    requires WellFormed(ev) && ev.line.Some? && FirstMatch(UartKeys, ev.line.value) == Some(4)
    ensures ConsolePass(st, ev) == st.(timerElapsed := true,
      log := st.log + [Text(PingReceived), Text(ev.line.value), Text(" "), Text(ValidText)])
  {
  }

  /** A received command with no keyword is only echoed, followed by INVALID. */
  lemma UnknownCommandEchoed(st: State, ev: Event)
    requires WellFormed(ev) && ev.line.Some? && FirstMatch(UartKeys, ev.line.value) == None
    ensures ConsolePass(st, ev) == st.(log := st.log + [Text(ev.line.value), Text(" "), Text(InvalidText)])
  {
  }
}
