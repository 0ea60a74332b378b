/**
 * The firmware's I2C layer (pm_i2c.c; wcm_i2c.c is the same code under
 * another prefix): single-attempt transfers over the vendor master, a
 * console message for every failure, and big-endian packing of the bytes
 * a response read clocks in.
 */
module I2c {
  import opened Common
  import opened Hal

  /** Which copy of the layer is speaking: only the prefix of its messages differs. */
  datatype Unit = PmI2c | WcmI2c

  function Prefix(u: Unit): string
  {
    match u
    case PmI2c => "pm_i2c_"
    case WcmI2c => "wcm_i2c_"
  }

  /** The console line "<prefix><where> status = 0x%x!". */
  function Failure(u: Unit, where: string, s: Status): Msg
  {
    Field(Prefix(u) + where + " status", Code(s))
  }

  function Pow2(n: nat): (r: nat)
    ensures r > 0
  {
    if n == 0 then 1 else 2 * Pow2(n - 1)
  }

  function Pow256(n: nat): (r: nat)
    ensures r > 0
  {
    if n == 0 then 1 else 256 * Pow256(n - 1)
  }

  lemma {:induction false} Pow2Add(a: nat, b: nat)
    ensures Pow2(a + b) == Pow2(a) * Pow2(b)
  {
    if a > 0 {
      Pow2Add(a - 1, b);
    }
  }

  /** Shifting left by 8k bits multiplies by 256^k. */
  lemma {:induction false} Pow2OfBytes(k: nat)
    ensures Pow2(8 * k) == Pow256(k)
  {
    if k > 0 {
      Pow2OfBytes(k - 1);
      Pow2Add(8, 8 * (k - 1));
      assert Pow2(8) == 256;
    }
  }

  /** The number whose big-endian bytes, most significant first, are `bytes`. */
  function BigEndian(bytes: seq<u8>): nat
  {
    if bytes == [] then 0 else BigEndian(bytes[..|bytes| - 1]) * 256 + bytes[|bytes| - 1]
  }

  /** n bytes hold a value below 256^n, so four bytes always fit the uint32_t result. */
  lemma {:induction false} BigEndianBound(bytes: seq<u8>)
    ensures BigEndian(bytes) < Pow256(|bytes|)
  {
    if bytes != [] {
      var pre := bytes[..|bytes| - 1];
      BigEndianBound(pre);
      assert BigEndian(pre) <= Pow256(|pre|) - 1;
      assert BigEndian(pre) * 256 <= Pow256(|pre|) * 256 - 256;
    }
  }

  /** A two-byte big-endian word: the first byte is the high byte. */
  lemma BigEndianWord(hi: u8, lo: u8)
    ensures BigEndian([hi, lo]) == hi * 256 + lo
  {
    var w := [hi, lo];
    assert w[..1] == [hi];
    assert [hi][..0] == [];
    assert BigEndian([hi]) == BigEndian([]) * 256 + hi;
    assert BigEndian(w) == BigEndian(w[..1]) * 256 + lo;
  }

  /**
   * The packing loop of read_response_packet: each byte is shifted left
   * by num_bits, which starts at 8 * (n - 1) and drops by 8 per byte, and
   * or-ed into the result. The shifted byte only covers bits the result
   * has not used yet, so the or is an addition.
   */
  method PackBigEndian(buf: seq<u8>) returns (data: u32)
    requires |buf| <= 4
    ensures data == BigEndian(buf)
  {
    var n := |buf|;
    var acc: nat := 0;
    var numBits: int := 8 * (n - 1);
    var i := 0;
    while i < n
      invariant 0 <= i <= n
      invariant numBits == 8 * (n - 1 - i)
      invariant acc == BigEndian(buf[..i]) * Pow256(n - i)
    {
      Pow2OfBytes(n - 1 - i);
      assert buf[..i + 1][..i] == buf[..i];
      assert BigEndian(buf[..i + 1]) == BigEndian(buf[..i]) * 256 + buf[i];
      ghost var p := Pow256(n - (i + 1));
      assert Pow256(n - i) == 256 * p;
      ShiftIn(BigEndian(buf[..i]), buf[i], p);
      acc := acc + buf[i] * Pow2(numBits);
      numBits := numBits - 8;
      i := i + 1;
    }
    assert buf[..n] == buf;
    BigEndianBound(buf);
    assert Pow256(4) == 0x1_0000_0000;
    PowMonotone(n, 4);
    data := acc;
  }

  /** Or-ing the next byte in below a value shifted up by one more byte. */
  lemma ShiftIn(v: nat, b: nat, p: nat)
    ensures v * (256 * p) + b * p == (v * 256 + b) * p
  {
  }

  lemma {:induction false} PowMonotone(m: nat, n: nat)
    requires m <= n
    ensures Pow256(m) <= Pow256(n)
  {
    if m < n {
      PowMonotone(m, n - 1);
    }
  }

  /**
   * read_response_packet: one read attempt of n bytes into the 4-byte read
   * buffer. On failure the status is logged and *data keeps its value.
   */
  method ReadResponsePacket(u: Unit, bus: Bus, con: Console, address: u8, n: nat, prior: u32)
    returns (status: Status, data: u32)
    requires n <= 4
    requires |bus.replies| >= 1
    modifies bus, con
    ensures bus.replies == old(bus.replies)[1..] && bus.trace == old(bus.trace) + [Read(address, n)]
    ensures status == old(bus.replies)[0].status
    ensures status == Ok ==> data == BigEndian(Fit(old(bus.replies)[0].bytes, n)) && con.log == old(con.log)
    ensures status != Ok ==>
      data == prior && con.log == old(con.log) + [Failure(u, "read_response_packet:", status)]
  {
    var bytes;
    status, bytes := bus.Transfer(Read(address, n));
    if status != Ok {
      con.Send(Failure(u, "read_response_packet:", status));
      data := prior;
      return;
    }
    data := PackBigEndian(bytes);
  }

  /**
   * write_command_packet: one write attempt, ending with a stop condition
   * when repeated_start is 0 and without one otherwise.
   */
  method WriteCommandPacket(u: Unit, bus: Bus, con: Console, address: u8, command: seq<u8>, repeatedStart: u8)
    returns (status: Status)
    requires |bus.replies| >= 1
    modifies bus, con
    ensures bus.replies == old(bus.replies)[1..]
    ensures bus.trace == old(bus.trace) + [Write(address, command, repeatedStart == 0)]
    ensures status == old(bus.replies)[0].status
    ensures con.log == old(con.log) + (if status == Ok then [] else [Failure(u, "write_command_packet:", status)])
  {
    var unused;
    status, unused := bus.Transfer(Write(address, command, repeatedStart == 0));
    if status != Ok {
      con.Send(Failure(u, "write_command_packet:", status));
    }
  }

  /** The status of a command write followed by a response read, the read skipped if the write failed. */
  function PairStatus(w: Reply, r: Reply): Status
  {
    if w.status != Ok then w.status else r.status
  }

  /** How many bus answers such a pair uses. */
  function PairUsed(w: Reply): nat
  {
    if w.status != Ok then 1 else 2
  }

  /** The transfers such a pair puts on the bus. */
  function PairPackets(address: u8, command: seq<u8>, stop: bool, n: nat, w: Reply): seq<Packet>
  {
    if w.status != Ok then [Write(address, command, stop)] else [Write(address, command, stop), Read(address, n)]
  }

  /** The console lines write_command_read_response leaves on failure. */
  function ResponseLog(u: Unit, w: Reply, r: Reply): seq<Msg>
  {
    if w.status != Ok then
      [Failure(u, "write_command_packet:", w.status), Failure(u, "write_command_read_response: (1)", w.status)]
    else if r.status != Ok then
      [Failure(u, "read_response_packet:", r.status), Failure(u, "write_command_read_response: (2)", r.status)]
    else []
  }

  /** The console lines command_read_reg leaves on failure. */
  function RegisterLog(u: Unit, w: Reply, r: Reply): seq<Msg>
  {
    if w.status != Ok then
      [Failure(u, "write_command_packet:", w.status), Failure(u, "command_read_reg_response: (1)", w.status)]
    else if r.status != Ok then
      [Failure(u, "command_read_response: (2)", r.status)]
    else []
  }

  /**
   * write_command_read_response: a command write and then a response read
   * of n bytes; a failed write skips the read, and *data keeps its value
   * unless both succeed.
   */
  method WriteCommandReadResponse(u: Unit, bus: Bus, con: Console, address: u8, command: seq<u8>,
                                  n: nat, repeatedStart: u8, prior: u32)
    returns (status: Status, data: u32)
    requires n <= 4
    requires |bus.replies| >= 2
    modifies bus, con
    ensures var w, r := old(bus.replies)[0], old(bus.replies)[1];
      status == PairStatus(w, r)
      && data == (if status == Ok then BigEndian(Fit(r.bytes, n)) else prior)
      && bus.replies == old(bus.replies)[PairUsed(w)..]
      && bus.trace == old(bus.trace) + PairPackets(address, command, repeatedStart == 0, n, w)
      && con.log == old(con.log) + ResponseLog(u, w, r)
  {
    status := WriteCommandPacket(u, bus, con, address, command, repeatedStart);
    if status != Ok {
      con.Send(Failure(u, "write_command_read_response: (1)", status));
      data := prior;
      return;
    }
    status, data := ReadResponsePacket(u, bus, con, address, n, prior);
    if status != Ok {
      con.Send(Failure(u, "write_command_read_response: (2)", status));
    }
  }

  /**
   * command_read_reg: the register address written without a stop, then n
   * raw bytes read into the caller's buffer; a failed write skips the read
   * and the buffer keeps its contents unless both succeed.
   */
  method CommandReadReg(u: Unit, bus: Bus, con: Console, address: u8, reg: u8, n: nat, prior: seq<u8>)
    returns (status: Status, data: seq<u8>)
    requires |bus.replies| >= 2
    modifies bus, con
    ensures var w, r := old(bus.replies)[0], old(bus.replies)[1];
      status == PairStatus(w, r)
      && data == (if status == Ok then Fit(r.bytes, n) else prior)
      && bus.replies == old(bus.replies)[PairUsed(w)..]
      && bus.trace == old(bus.trace) + PairPackets(address, [reg], false, n, w)
      && con.log == old(con.log) + RegisterLog(u, w, r)
  {
    status := WriteCommandPacket(u, bus, con, address, [reg], 1);
    if status != Ok {
      con.Send(Failure(u, "command_read_reg_response: (1)", status));
      data := prior;
      return;
    }
    var bytes;
    status, bytes := bus.Transfer(Read(address, n));
    if status != Ok {
      con.Send(Failure(u, "command_read_response: (2)", status));
      data := prior;
      return;
    }
    data := bytes;
  }

  /**
   * command_write_reg: the packet [register, value] cut to num_bytes, written
   * with a stop condition in one attempt.
   */
  method CommandWriteReg(u: Unit, bus: Bus, con: Console, address: u8, reg: u8, value: u8, numBytes: nat)
    returns (status: Status)
    requires numBytes <= 2
    requires |bus.replies| >= 1
    modifies bus, con
    ensures bus.replies == old(bus.replies)[1..]
    ensures bus.trace == old(bus.trace) + [Write(address, [reg, value][..numBytes], true)]
    ensures status == old(bus.replies)[0].status
    ensures con.log == old(con.log) + (if status == Ok then [] else [Failure(u, "write_command_reg:", status)])
  {
    var unused;
    status, unused := bus.Transfer(Write(address, [reg, value][..numBytes], true));
    if status != Ok {
      con.Send(Failure(u, "write_command_reg:", status));
    }
  }
}
