/**
 * The command-line assembler of the firmware's serial ports:
 * pm_usart_get_pc_command on the PM, and its three copies on the WCM
 * (wcm_usart_get_pc_command, wcm_usart_get_gps_data and
 * wcm_usart_get_com_data), which differ only in the port they poll.
 *
 * The assembler polls the port until a line ends. Each byte is stored and
 * a carriage return is replaced by the terminator. A line feed ends the
 * line once a carriage return has been seen, and is dropped before that.
 * A full buffer is terminated in its last slot and ends the call with
 * false. A busy port is polled again. Any other status writes a
 * diagnostic into the buffer and ends the call with false.
 *
 * Collect is the loop as a function of the port's answers. Its Variant
 * selects either the code as written or the corrected code. As written,
 * a carriage return in the last slot skips the full-buffer check. The
 * corrected code makes that check after every stored byte.
 */
module Usart {
  import opened Common
  import opened Hal

  const LineFeed: u16 := 10
  const CarriageReturn: u16 := 13

  /** COMMAND_LENGTH: the size of every command buffer the firmware passes in. */
  const CommandLength := 64

  /** The room the longest diagnostic takes, terminator included. */
  const DiagnosticRoom := 47

  /**
   * How a call ends: a line is complete (the call returns true), the buffer
   * filled up, the port reported an error, the port has nothing more to
   * say (the real call would still be waiting), or a byte was due in the
   * slot just past the buffer.
   */
  datatype Outcome = Line | Full | Failed(status: Status) | Waiting | Overrun

  /**
   * The end of a call: its outcome, the buffer's contents before any
   * diagnostic is written (see Final), and the number of answers consumed.
   */
  datatype Run = Run(outcome: Outcome, buffer: seq<char>, used: nat)

  /** The (char) cast of the received 16-bit word: its low byte. */
  function Char(d: u16): char
  {
    (d % 0x100) as char
  }

  /** The diagnostic sprintf writes into the buffer for a failed read. */
  function Diagnostic(s: Status): (r: string)
    ensures |r| < DiagnosticRoom
  {
    match s
    case ErrBadFormat => "usart_read_wait STATUS_ERR_BAD_FORMAT!\r\n"
    case ErrOverflow => "usart_read_wait STATUS_ERR_OVERFLOW!\r\n"
    case ErrBadData => "usart_read_wait STATUS_ERR_BAD_DATA!\r\n"
    case ErrDenied => "usart_read_wait STATUS_ERR_DENIED!\r\n"
    case ErrProtocol => "usart_read_wait STATUS_ERR_PROTOCOL!\r\n"
    case ErrPacketCollision => "usart_read_wait STATUS_ERR_PACKET_COLLISION!\r\n"
    case _ => "usart_read_wait UNKNOWN!\r\n"
  }

  /** The buffer after sprintf has written a diagnostic and its terminator at its start. */
  function Diagnose(buf: seq<char>, s: Status): (r: seq<char>)
    requires DiagnosticRoom <= |buf|
  {
    Diagnostic(s) + ['\0'] + buf[|Diagnostic(s)| + 1..]
  }

  function Step(r: Run): Run
  {
    Run(r.outcome, r.buffer, r.used + 1)
  }

  function Shift(r: Run, n: nat): Run
  {
    Run(r.outcome, r.buffer, r.used + n)
  }

  /** Where one pass of the loop leaves the assembler: polling on, or ended. */
  datatype Pass =
    | Continue(i: nat, received: bool, buffer: seq<char>)
    | Stop(outcome: Outcome, buffer: seq<char>)

  /** One pass of the loop on one answer of the port, from buffer index i. */
  function Next(v: Variant, a: Answer, i: nat, received: bool, buf: seq<char>): (p: Pass)
    requires i <= |buf|
    ensures |p.buffer| == |buf|
    ensures p.Continue? ==> p.i <= |buf|
  {
    if a.status == Ok then
      if a.data == LineFeed then
        if received then Stop(Line, buf) else Continue(i, received, buf)
      else if i == |buf| then Stop(Overrun, buf)
      else if a.data == CarriageReturn then
        if v == Fixed && i + 1 == |buf| then Stop(Full, buf[i := '\0'])
        else Continue(i + 1, true, buf[i := '\0'])
      else if i + 1 == |buf| then Stop(Full, buf[i := '\0'])
      else Continue(i + 1, received, buf[i := Char(a.data)])
    else if a.status == Busy then Continue(i, received, buf)
    else Stop(Failed(a.status), buf)
  }

  /**
   * The assembler's loop from buffer index i, with received telling whether
   * a carriage return has been stored, on the answers the port still has.
   */
  function Collect(v: Variant, answers: seq<Answer>, i: nat, received: bool, buf: seq<char>): (r: Run)
    requires i <= |buf| && DiagnosticRoom <= |buf|
    ensures |r.buffer| == |buf| && r.used <= |answers|
    decreases |answers|
  {
    if |answers| == 0 then Run(Waiting, buf, 0)
    else
      match Next(v, answers[0], i, received, buf)
      case Stop(outcome, b) => Run(outcome, b, 1)
      case Continue(j, r, b) => Step(Collect(v, answers[1..], j, r, b))
  }

  /** The buffer a call leaves: a failed read has the diagnostic written over it. */
  function Final(outcome: Outcome, buf: seq<char>): seq<char>
    requires DiagnosticRoom <= |buf|
  {
    if outcome.Failed? then Diagnose(buf, outcome.status) else buf
  }

  // ------------------------------------------------------------ the loop

  /** sprintf of a diagnostic into the command buffer. */
  method WriteDiagnostic(command: array<char>, s: Status)
    requires DiagnosticRoom <= command.Length
    modifies command
    ensures command[..] == Diagnose(old(command[..]), s)
  {
    var text := Diagnostic(s) + ['\0'];
    forall k | 0 <= k < |text| {
      command[k] := text[k];
    }
    assert command[..] == text + old(command[..])[|text|..];
  }

  /** One pass of the loop on the answer just read. */
  method Take(v: Variant, command: array<char>, i: nat, received: bool, status: Status, data: u16)
    returns (done: bool, j: nat, received': bool, outcome: Outcome)
    requires i <= command.Length && DiagnosticRoom <= command.Length
    requires Next(v, Answer(status, data), i, received, command[..]) != Stop(Overrun, command[..])
    modifies command
    ensures var p := Next(v, Answer(status, data), i, received, old(command[..]));
      (done <==> p.Stop?) &&
      (p.Continue? ==> j == p.i && received' == p.received && command[..] == p.buffer) &&
      (p.Stop? ==> outcome == p.outcome && received' == (outcome == Line) && command[..] == Final(outcome, p.buffer))
  {
    j, received', outcome := i, received, Waiting;
    if status == Ok {
      if data == LineFeed {
        done := received;
        if done {
          outcome := Line;
        }
        return;
      }
      command[j] := Char(data);
      j := j + 1;
      if data == CarriageReturn {
        command[j - 1] := '\0';
        received' := true;
        done := v == Fixed && j == command.Length;
        if done {
          received' := false;
          outcome := Full;
        }
        return;
      }
      done := j == command.Length;
      if done {
        command[j - 1] := '\0';
        received' := false;
        outcome := Full;
      }
    } else if status == Busy {
      done := false;
    } else {
      WriteDiagnostic(command, status);
      done, received', outcome := true, false, Failed(status);
    }
  }

  /**
   * Polls the port until the assembler's loop ends, filling the command
   * buffer. As written, the caller must rule out a byte due past the
   * buffer's end; the corrected loop never gets there.
   */
  method GetCommand(v: Variant, port: SerialPort, command: array<char>) returns (received: bool, outcome: Outcome)
    requires DiagnosticRoom <= command.Length
    requires v == AsWritten ==> Collect(v, port.answers, 0, false, command[..]).outcome != Overrun
    modifies port, command
    ensures var r := Collect(v, old(port.answers), 0, false, old(command[..]));
      outcome == r.outcome && command[..] == Final(r.outcome, r.buffer) && port.answers == old(port.answers)[r.used..]
    ensures outcome != Overrun
    ensures received <==> outcome == Line
  {
    FixedNeverOverruns(port.answers, 0, false, command[..]);
    ghost var answers0 := port.answers;
    ghost var buf0 := command[..];
    var i: nat := 0;
    received := false;
    while true
      invariant i <= command.Length
      invariant |port.answers| <= |answers0| && port.answers == answers0[|answers0| - |port.answers|..]
      invariant Collect(v, answers0, 0, false, buf0)
        == Shift(Collect(v, port.answers, i, received, command[..]), |answers0| - |port.answers|)
      decreases |port.answers|
    {
      if |port.answers| == 0 {
        received := false;
        outcome := Waiting;
        return;
      }
      ghost var answers := port.answers;
      ghost var buf := command[..];
      var status, data := port.ReadWait();
      assert buf == command[..];
      var done;
      done, i, received, outcome := Take(v, command, i, received, status, data);
      if done {
        return;
      }
    }
  }

  // ------------------------------------------------------------ properties

  /** Answers that deliver the given words, every read succeeding. */
  function Oks(words: seq<u16>): (r: seq<Answer>)
    ensures |r| == |words|
  {
    if |words| == 0 then [] else [Answer(Ok, words[0])] + Oks(words[1..])
  }

  /** The characters the given words are stored as. */
  function Chars(words: seq<u16>): (r: seq<char>)
    ensures |r| == |words|
  {
    if |words| == 0 then [] else [Char(words[0])] + Chars(words[1..])
  }

  /** Words that are neither a line feed nor a carriage return. */
  predicate Plain(words: seq<u16>)
  {
    forall k :: 0 <= k < |words| ==> words[k] != LineFeed && words[k] != CarriageReturn
  }

  /** What the assembler keeps of a line: every byte read before the first carriage return, line feeds dropped. */
  function Payload(answers: seq<Answer>): seq<char>
  {
    if |answers| == 0 then []
    else
      var a := answers[0];
      if a.status == Ok && a.data == CarriageReturn then []
      else if a.status == Ok && a.data != LineFeed then [Char(a.data)] + Payload(answers[1..])
      else Payload(answers[1..])
  }

  /** The answers with every busy one dropped. */
  function WithoutBusy(answers: seq<Answer>): (r: seq<Answer>)
    ensures |r| <= |answers|
  {
    if |answers| == 0 then []
    else if answers[0].status == Busy then WithoutBusy(answers[1..])
    else [answers[0]] + WithoutBusy(answers[1..])
  }

  /** The corrected loop never stores a byte past the buffer. */
  lemma {:induction false} FixedNeverOverruns(answers: seq<Answer>, i: nat, received: bool, buf: seq<char>)
    requires i < |buf| && DiagnosticRoom <= |buf|
    ensures Collect(Fixed, answers, i, received, buf).outcome != Overrun
    decreases |answers|
  {
    if |answers| > 0 {
      var a := answers[0];
      if a.status == Ok {
        if a.data == LineFeed {
          if !received {
            FixedNeverOverruns(answers[1..], i, received, buf);
          }
        } else if i + 1 < |buf| {
          if a.data == CarriageReturn {
            FixedNeverOverruns(answers[1..], i + 1, true, buf[i := '\0']);
          } else {
            FixedNeverOverruns(answers[1..], i + 1, received, buf[i := Char(a.data)]);
          }
        }
      } else if a.status == Busy {
        FixedNeverOverruns(answers[1..], i, received, buf);
      }
    }
  }

  /** Busy answers change nothing but the number of answers consumed. */
  lemma {:induction false} BusyIgnored(v: Variant, answers: seq<Answer>, i: nat, received: bool, buf: seq<char>)
    requires i <= |buf| && DiagnosticRoom <= |buf|
    ensures var r := Collect(v, answers, i, received, buf);
      var s := Collect(v, WithoutBusy(answers), i, received, buf);
      r.outcome == s.outcome && r.buffer == s.buffer
    decreases |answers|
  {
    if |answers| > 0 {
      var a := answers[0];
      var rest := WithoutBusy(answers[1..]);
      if a.status == Busy {
        BusyIgnored(v, answers[1..], i, received, buf);
      } else {
        assert WithoutBusy(answers) == [a] + rest;
        assert ([a] + rest)[1..] == rest;
        if a.status == Ok && a.data == LineFeed && !received {
          BusyIgnored(v, answers[1..], i, received, buf);
        } else if a.status == Ok && a.data != LineFeed && i < |buf| {
          if a.data == CarriageReturn {
            BusyIgnored(v, answers[1..], i + 1, true, buf[i := '\0']);
          } else if i + 1 < |buf| {
            BusyIgnored(v, answers[1..], i + 1, received, buf[i := Char(a.data)]);
          }
        }
      }
    }
  }

  /** Plain words are stored one after another from index i, and nothing else happens while they arrive. */
  lemma {:induction false} StorePlain(v: Variant, words: seq<u16>, tail: seq<Answer>, i: nat, received: bool, buf: seq<char>)
    requires Plain(words) && i + |words| < |buf| && DiagnosticRoom <= |buf|
    ensures Collect(v, Oks(words) + tail, i, received, buf)
      == Shift(Collect(v, tail, i + |words|, received, buf[..i] + Chars(words) + buf[i + |words|..]), |words|)
    decreases |words|
  {
    if |words| == 0 {
      StoreNothing(v, words, tail, i, received, buf);
    } else {
      var n, w1 := |words|, words[1..];
      var buf1 := buf[i := Char(words[0])];
      var after := buf[..i] + Chars(words) + buf[i + n..];
      PlainTail(words);
      PlainStep(v, words, tail, i, received, buf);
      StorePlain(v, w1, tail, i + 1, received, buf1);
      SpliceChars(buf, i, words);
      assert i + 1 + |w1| == i + n;
      var r := Collect(v, tail, i + n, received, after);
      StepShift(r, n - 1);
      calc {
        Collect(v, Oks(words) + tail, i, received, buf);
        Step(Collect(v, Oks(w1) + tail, i + 1, received, buf1));
        Step(Shift(r, n - 1));
        Shift(r, n);
      }
    }
  }

  /** No words: the loop goes on from index i on the buffer as it is. */
  lemma StoreNothing(v: Variant, words: seq<u16>, tail: seq<Answer>, i: nat, received: bool, buf: seq<char>)
    requires |words| == 0 && i < |buf| && DiagnosticRoom <= |buf|
    ensures Collect(v, Oks(words) + tail, i, received, buf)
      == Shift(Collect(v, tail, i + |words|, received, buf[..i] + Chars(words) + buf[i + |words|..]), |words|)
  {
    assert Oks(words) + tail == tail;
    assert buf[..i] + Chars(words) + buf[i..] == buf;
  }

  lemma PlainTail(words: seq<u16>)
    requires Plain(words) && |words| > 0
    ensures words[0] != LineFeed && words[0] != CarriageReturn && Plain(words[1..])
  {
    assert forall k :: 0 <= k < |words| - 1 ==> words[1..][k] == words[k + 1];
  }

  lemma StepShift(r: Run, n: nat)
    ensures Step(Shift(r, n)) == Shift(r, n + 1)
  {
  }

  /** The first of some plain words is stored at index i and polling goes on. */
  lemma PlainStep(v: Variant, words: seq<u16>, tail: seq<Answer>, i: nat, received: bool, buf: seq<char>)
    requires |words| > 0 && words[0] != LineFeed && words[0] != CarriageReturn
    requires i + 1 < |buf| && DiagnosticRoom <= |buf|
    ensures Collect(v, Oks(words) + tail, i, received, buf)
      == Step(Collect(v, Oks(words[1..]) + tail, i + 1, received, buf[i := Char(words[0])]))
  {
    var a := Answer(Ok, words[0]);
    var rest := Oks(words[1..]) + tail;
    assert Oks(words) == [a] + Oks(words[1..]);
    Assoc([a], Oks(words[1..]), tail);
    assert ([a] + rest)[0] == a && ([a] + rest)[1..] == rest;
    assert Next(v, a, i, received, buf) == Continue(i + 1, received, buf[i := Char(words[0])]);
  }

  /** Storing the first word at i, then the rest after it, stores all of them from i. */
  lemma SpliceChars(buf: seq<char>, i: nat, words: seq<u16>)
    requires |words| > 0 && i + |words| <= |buf|
    ensures var buf1 := buf[i := Char(words[0])];
      buf1[..i + 1] + Chars(words[1..]) + buf1[i + |words|..] == buf[..i] + Chars(words) + buf[i + |words|..]
  {
    var c := Char(words[0]);
    var buf1 := buf[i := c];
    var after := buf[i + |words|..];
    assert buf1[..i + 1] == buf[..i] + [c];
    assert buf1[i + |words|..] == after;
    assert Chars(words) == [c] + Chars(words[1..]);
    Assoc(buf[..i], [c], Chars(words[1..]));
  }

  /** Every line the loop completes holds its payload, terminated, after the untouched buffer before index i. */
  lemma {:induction false} LineIsPayload(v: Variant, answers: seq<Answer>, i: nat, buf: seq<char>)
    requires i < |buf| && DiagnosticRoom <= |buf|
    ensures var r := Collect(v, answers, i, false, buf);
      var p := Payload(answers);
      r.outcome == Line ==> i + |p| < |buf| && r.buffer[..i + |p| + 1] == buf[..i] + p + ['\0']
    decreases |answers|, 1
  {
    if |answers| > 0 {
      var a := answers[0];
      if a.status == Ok && a.data == CarriageReturn {
        LineAtReturn(v, answers, i, buf);
      } else if (a.status == Ok && a.data == LineFeed) || a.status == Busy {
        LineIsPayload(v, answers[1..], i, buf);
      } else if a.status == Ok && i + 1 < |buf| {
        LineAtByte(v, answers, i, buf);
      }
    }
  }

  lemma LineAtReturn(v: Variant, answers: seq<Answer>, i: nat, buf: seq<char>)
    requires i < |buf| && DiagnosticRoom <= |buf|
    requires |answers| > 0 && answers[0] == Answer(Ok, CarriageReturn)
    ensures var r := Collect(v, answers, i, false, buf);
      r.outcome == Line ==> r.buffer[..i + 1] == buf[..i] + ['\0']
  {
    LaterKeepsPrefix(v, answers[1..], i + 1, buf[i := '\0']);
    assert buf[i := '\0'][..i + 1] == buf[..i] + ['\0'];
  }

  lemma {:induction false} LineAtByte(v: Variant, answers: seq<Answer>, i: nat, buf: seq<char>)
    requires i + 1 < |buf| && DiagnosticRoom <= |buf|
    requires |answers| > 0 && answers[0].status == Ok
    requires answers[0].data != LineFeed && answers[0].data != CarriageReturn
    ensures var r := Collect(v, answers, i, false, buf);
      var p := Payload(answers);
      r.outcome == Line ==> i + |p| < |buf| && r.buffer[..i + |p| + 1] == buf[..i] + p + ['\0']
    decreases |answers|, 0
  {
    var c := Char(answers[0].data);
    var p := Payload(answers[1..]);
    assert Payload(answers) == [c] + p;
    LineIsPayload(v, answers[1..], i + 1, buf[i := c]);
    var r := Collect(v, answers[1..], i + 1, false, buf[i := c]);
    if r.outcome == Line {
      StoredThenPayload(r.buffer, buf, i, c, p);
    }
  }

  lemma StoredThenPayload(x: seq<char>, buf: seq<char>, i: nat, c: char, p: seq<char>)
    requires i + 1 + |p| < |buf| == |x|
    requires x[..i + 1 + |p| + 1] == buf[i := c][..i + 1] + p + ['\0']
    ensures x[..i + |[c] + p| + 1] == buf[..i] + ([c] + p) + ['\0']
  {
    assert buf[i := c][..i + 1] == buf[..i] + [c];
  }

  /** Once a carriage return is stored, a completed line leaves the buffer before index i untouched. */
  lemma {:induction false} LaterKeepsPrefix(v: Variant, answers: seq<Answer>, i: nat, buf: seq<char>)
    requires i <= |buf| && DiagnosticRoom <= |buf|
    ensures var r := Collect(v, answers, i, true, buf);
      r.outcome == Line ==> r.buffer[..i] == buf[..i]
    decreases |answers|
  {
    if |answers| > 0 {
      var a := answers[0];
      if a.status == Busy {
        LaterKeepsPrefix(v, answers[1..], i, buf);
      } else if a.status == Ok && a.data != LineFeed && i < |buf| {
        if a.data == CarriageReturn {
          LaterKeepsPrefix(v, answers[1..], i + 1, buf[i := '\0']);
        } else if i + 1 < |buf| {
          LaterKeepsPrefix(v, answers[1..], i + 1, buf[i := Char(a.data)]);
        }
      }
    }
  }

  /** A line of plain bytes that fits, ended by a carriage return and a line feed, is completed and held terminated. */
  lemma LineAccepted(v: Variant, words: seq<u16>, tail: seq<Answer>, buf: seq<char>)
    requires Plain(words) && |words| + 1 < |buf| && DiagnosticRoom <= |buf|
    ensures var r := Collect(v, Oks(words) + [Answer(Ok, CarriageReturn), Answer(Ok, LineFeed)] + tail, 0, false, buf);
      r.outcome == Line && r.used == |words| + 2 && r.buffer[..|words|] == Chars(words) && r.buffer[|words|] == '\0'
  {
    var ending := [Answer(Ok, CarriageReturn), Answer(Ok, LineFeed)] + tail;
    Assoc(Oks(words), [Answer(Ok, CarriageReturn), Answer(Ok, LineFeed)], tail);
    StorePlain(v, words, ending, 0, false, buf);
    var n := |words|;
    var buf1 := buf[..0] + Chars(words) + buf[n..];
    assert ending[1..] == [Answer(Ok, LineFeed)] + tail;
    assert Collect(v, ending, n, false, buf1) == Step(Collect(v, ending[1..], n + 1, true, buf1[n := '\0']));
  }

  /** Whenever the buffer fills up, the loop has terminated it in its last slot. */
  lemma {:induction false} FullIsTerminated(v: Variant, answers: seq<Answer>, i: nat, received: bool, buf: seq<char>)
    requires i <= |buf| && DiagnosticRoom <= |buf|
    ensures var r := Collect(v, answers, i, received, buf);
      r.outcome == Full ==> r.buffer[|buf| - 1] == '\0'
    decreases |answers|
  {
    if |answers| > 0 {
      var a := answers[0];
      if a.status == Busy || (a.status == Ok && a.data == LineFeed && !received) {
        FullIsTerminated(v, answers[1..], i, received, buf);
      } else if a.status == Ok && a.data == CarriageReturn && i < |buf| {
        FullIsTerminated(v, answers[1..], i + 1, true, buf[i := '\0']);
      } else if a.status == Ok && a.data != LineFeed && i + 1 < |buf| {
        FullIsTerminated(v, answers[1..], i + 1, received, buf[i := Char(a.data)]);
      }
    }
  }

  /** As many plain bytes as the buffer holds fill it: all but the last are kept and the last slot is terminated. */
  lemma FillsUp(v: Variant, words: seq<u16>, tail: seq<Answer>, received: bool, buf: seq<char>)
    requires Plain(words) && |words| == |buf| && DiagnosticRoom <= |buf|
    ensures var r := Collect(v, Oks(words) + tail, 0, received, buf);
      var n := |buf| - 1;
      r.outcome == Full && r.used == |buf| && r.buffer[..n] == Chars(words[..n]) && r.buffer[n] == '\0'
  {
    var n := |buf| - 1;
    var last := [Answer(Ok, words[n])];
    OksSplit(words, n);
    Assoc(Oks(words[..n]), last, tail);
    assert words[n + 1..] == [];
    assert Oks(words) + tail == Oks(words[..n]) + (last + tail);
    StorePlain(v, words[..n], last + tail, 0, received, buf);
    var buf1 := buf[..0] + Chars(words[..n]) + buf[n..];
    assert words[n] != LineFeed && words[n] != CarriageReturn;
    assert (last + tail)[0] == Answer(Ok, words[n]);
    assert Collect(v, last + tail, n, received, buf1) == Run(Full, buf1[n := '\0'], 1);
    assert buf1[n := '\0'][..n] == Chars(words[..n]);
  }

  lemma {:induction false} OksSplit(words: seq<u16>, n: nat)
    requires n < |words|
    ensures Oks(words) == Oks(words[..n]) + [Answer(Ok, words[n])] + Oks(words[n + 1..])
    decreases n
  {
    if n > 0 {
      OksSplit(words[1..], n - 1);
      assert words[1..][..n - 1] == words[..n][1..];
      assert words[1..][n - 1] == words[n];
      assert words[1..][n..] == words[n + 1..];
    } else {
      assert words[..0] == [];
    }
  }

  /** Only a status other than success and busy ends the loop as a failure. */
  lemma {:induction false} FailedStatus(v: Variant, answers: seq<Answer>, i: nat, received: bool, buf: seq<char>)
    requires i <= |buf| && DiagnosticRoom <= |buf|
    ensures var r := Collect(v, answers, i, received, buf);
      r.outcome.Failed? ==> r.outcome.status != Ok && r.outcome.status != Busy
    decreases |answers|
  {
    if |answers| > 0 {
      var a := answers[0];
      if a.status == Busy || (a.status == Ok && a.data == LineFeed && !received) {
        FailedStatus(v, answers[1..], i, received, buf);
      } else if a.status == Ok && a.data == CarriageReturn && i < |buf| {
        FailedStatus(v, answers[1..], i + 1, true, buf[i := '\0']);
      } else if a.status == Ok && a.data != LineFeed && i + 1 < |buf| {
        FailedStatus(v, answers[1..], i + 1, received, buf[i := Char(a.data)]);
      }
    }
  }

  /** A failed read leaves the diagnostic for its status, terminated, at the start of the buffer. */
  lemma FailureIsDiagnosed(v: Variant, answers: seq<Answer>, buf: seq<char>)
    requires DiagnosticRoom <= |buf|
    ensures var r := Collect(v, answers, 0, false, buf);
      r.outcome.Failed? ==>
        var d := Diagnostic(r.outcome.status);
        r.outcome.status != Ok && r.outcome.status != Busy && Final(r.outcome, r.buffer)[..|d|] == d && Final(r.outcome, r.buffer)[|d|] == '\0'
  {
    FailedStatus(v, answers, 0, false, buf);
    var r := Collect(v, answers, 0, false, buf);
    if r.outcome.Failed? {
      var d := Diagnostic(r.outcome.status);
      assert Final(r.outcome, r.buffer)[..|d|] == d;
    }
  }

  // ------------------------------------------------------------ the overrun

  /** 63 ordinary bytes, a carriage return in the last slot of a 64-byte buffer, and one more byte. */
  const Overrunning: seq<Answer> := Oks(seq(CommandLength - 1, _ => 0x78)) + [Answer(Ok, CarriageReturn), Answer(Ok, 0x79)]

  /**
   * As written, a carriage return that lands in the last slot skips the
   * full-buffer check, and the next byte is due one slot past the buffer;
   * the corrected loop reports a full buffer instead.
   */
  lemma OverrunExample(buf: seq<char>)
    requires |buf| == CommandLength
    ensures Collect(AsWritten, Overrunning, 0, false, buf).outcome == Overrun
    ensures Collect(Fixed, Overrunning, 0, false, buf).outcome == Full
  {
    var words: seq<u16> := seq(CommandLength - 1, _ => 0x78);
    var tail := [Answer(Ok, CarriageReturn), Answer(Ok, 0x79)];
    var n := |words|;
    var buf1 := buf[..0] + Chars(words) + buf[n..];
    StorePlain(AsWritten, words, tail, 0, false, buf);
    StorePlain(Fixed, words, tail, 0, false, buf);
    assert tail[1..] == [Answer(Ok, 0x79)];
    assert Collect(AsWritten, tail, n, false, buf1) == Step(Collect(AsWritten, tail[1..], n + 1, true, buf1[n := '\0']));
  }
}
