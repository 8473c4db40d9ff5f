/**
 * I2C register access. A device is reached through a bus object at a
 * 7-bit address and has an endianness: little-endian devices exchange
 * multi-byte registers least significant byte first (ascending buffer
 * order), big-endian ones most significant byte first (descending
 * order). Typed values pass through an 8-byte buffer that the firmware
 * reinterprets as integers of 1, 2, 4 or 8 bytes; the targets are
 * little-endian, so the first bytes of the buffer hold the value's
 * little-endian two's-complement encoding.
 *
 * The bus library is not part of this model. `Wire` stands for it:
 *  - the transactions it has put on the bus, in order;
 *  - the bytes of the write transaction being assembled;
 *  - the bytes received from the last request and not yet read.
 * What a device answers to a request is a parameter.
 */
module I2C {

  /** Bytes on the bus and in buffers (uint8_t). */
  newtype Byte = b: int | 0 <= b < 256

  /** uint8_t decrement, wrapping from 0 to 255. */
  function Decrement(b: Byte): (r: Byte)
    ensures b > 0 ==> r as int == b as int - 1
    ensures b == 0 ==> r == 255
  {
    ((b as int - 1) % 256) as Byte
  }

  /** The value a read from an exhausted receive buffer yields: -1 truncated to a byte. */
  const NoData: Byte := 255

  datatype Endian = MsbFirst | LsbFirst

  /** One bus transaction. */
  datatype Transaction =
    | WriteTx(addr: Byte, data: seq<Byte>, stop: bool)    // address, bytes written, stop condition
    | RequestTx(addr: Byte, count: Byte, stop: bool)     // request for `count` bytes

  // ----- Byte order -----

  function Reverse(s: seq<Byte>): (r: seq<Byte>)
    ensures |r| == |s| && forall i :: 0 <= i < |s| ==> r[i] == s[|s| - 1 - i]
  {
    seq(|s|, i requires 0 <= i < |s| => s[|s| - 1 - i])
  }

  lemma ReverseInvolution(s: seq<Byte>)
    ensures Reverse(Reverse(s)) == s
  {
  }

  lemma ReversePrepend(x: Byte, s: seq<Byte>)
    ensures Reverse([x] + s) == Reverse(s) + [x]
  {
  }

  lemma ReverseAppend(s: seq<Byte>, x: Byte)
    ensures Reverse(s + [x]) == [x] + Reverse(s)
  {
  }

  /** The order in which a buffer's bytes travel on the bus: ascending for LSB-first, descending for MSB-first. */
  function Order(s: seq<Byte>, e: Endian): (r: seq<Byte>)
    ensures |r| == |s|
    ensures e == LsbFirst ==> r == s
    ensures e == MsbFirst ==> forall i :: 0 <= i < |s| ==> r[i] == s[|s| - 1 - i]
  {
    if e == LsbFirst then s else Reverse(s)
  }

  /** Putting bytes in bus order twice gives them back: reading undoes writing. */
  lemma OrderInvolution(s: seq<Byte>, e: Endian)
    ensures Order(Order(s, e), e) == s
  {
    if e == MsbFirst {
      ReverseInvolution(s);
    }
  }

  // ----- Receive buffer -----

  /** The `k` bytes that `k` reads return from the receive buffer `rx`; reads past its end give NoData. */
  function Received(rx: seq<Byte>, k: nat): (r: seq<Byte>)
    ensures |r| == k
    ensures forall i :: 0 <= i < k ==> r[i] == if i < |rx| then rx[i] else NoData
  {
    seq(k, i requires 0 <= i < k => if i < |rx| then rx[i] else NoData)
  }

  /** What is left in the receive buffer after `k` reads. */
  function Drop(rx: seq<Byte>, k: nat): (r: seq<Byte>)
    ensures k <= |rx| ==> r == rx[k..]
    ensures k >= |rx| ==> r == []
  {
    if k <= |rx| then rx[k..] else []
  }

  lemma ReceivedNext(rx: seq<Byte>, k: nat)
    ensures Received(rx, k + 1) == Received(rx, k) + [if k < |rx| then rx[k] else NoData]
    ensures Drop(Drop(rx, k), 1) == Drop(rx, k + 1)
  {
  }

  /** The byte a read returns after `k` earlier reads is the k-th of any longer run of reads. */
  lemma ReadAt(rx: seq<Byte>, k: nat, m: nat)
    requires k < m
    ensures Received(Drop(rx, k), 1) == [Received(rx, m)[k]]
    ensures Drop(Drop(rx, k), 1) == Drop(rx, k + 1)
  {
  }

  /** Reading back exactly the bytes that were supplied returns them. */
  lemma ReceivedAll(rx: seq<Byte>)
    ensures Received(rx, |rx|) == rx && Drop(rx, |rx|) == []
  {
  }

  /**
   * The byte-level round trip: when a device answers with the bytes a
   * write put on the bus, a read of the same length and byte order
   * rebuilds the written buffer.
   */
  lemma BytesRoundTrip(s: seq<Byte>, e: Endian)
    ensures Order(Received(Order(s, e), |s|), e) == s
  {
    ReceivedAll(Order(s, e));
    OrderInvolution(s, e);
  }

  // ----- Integer encodings -----

  function Pow256(w: nat): (p: nat)
    ensures p >= 1
  {
    if w == 0 then 1 else 256 * Pow256(w - 1)
  }

  /** The `w`-byte little-endian encoding of a natural number, modulo 256^w. */
  function LittleEndian(v: nat, w: nat): (r: seq<Byte>)
    ensures |r| == w
  {
    if w == 0 then [] else [(v % 256) as Byte] + LittleEndian(v / 256, w - 1)
  }

  /** The natural number a little-endian byte sequence encodes. */
  function FromLittleEndian(s: seq<Byte>): (v: nat)
    ensures v < Pow256(|s|)
  {
    if s == [] then 0 else s[0] as nat + 256 * FromLittleEndian(s[1..])
  }

  /** Decoding an encoding gives the number back when it fits in `w` bytes. */
  lemma {:induction false} DecodeEncode(v: nat, w: nat)
    requires v < Pow256(w)
    ensures FromLittleEndian(LittleEndian(v, w)) == v
  {
    if w > 0 {
      var q, r := v / 256, v % 256;
      assert v == 256 * q + r;
      assert q < Pow256(w - 1);
      DecodeEncode(q, w - 1);
      var s := LittleEndian(v, w);
      assert s == [r as Byte] + LittleEndian(q, w - 1);
      assert s[1..] == LittleEndian(q, w - 1);
      assert FromLittleEndian(s) == r + 256 * FromLittleEndian(LittleEndian(q, w - 1));
    }
  }

  lemma DivMod256(r: nat, q: nat)
    requires r < 256
    ensures (r + 256 * q) / 256 == q && (r + 256 * q) % 256 == r
  {
  }

  /** Encoding a decoded sequence gives the same bytes back. */
  lemma {:induction false} EncodeDecode(s: seq<Byte>)
    ensures LittleEndian(FromLittleEndian(s), |s|) == s
  {
    if s != [] {
      var rest := FromLittleEndian(s[1..]);
      var v := s[0] as nat + 256 * rest;
      assert FromLittleEndian(s) == v;
      DivMod256(s[0] as nat, rest);
      EncodeDecode(s[1..]);
      assert LittleEndian(v, |s|) == [(v % 256) as Byte] + LittleEndian(v / 256, |s| - 1);
    }
  }

  /** Whether `v` fits a `w`-byte integer, signed (two's complement) or unsigned. */
  predicate Fits(v: int, w: nat, signed: bool) {
    var half: int := Pow256(w) / 2;
    if signed then -half <= v < half else 0 <= v < Pow256(w)
  }

  /** The bit pattern of a value as an unsigned `w`-byte number (two's complement for negatives). */
  function Pattern(v: int, w: nat, signed: bool): (u: nat)
    requires Fits(v, w, signed)
    ensures u < Pow256(w)
  {
    if v < 0 then v + Pow256(w) else v
  }

  /** The value a `w`-byte bit pattern stands for. */
  function Interpret(u: nat, w: nat, signed: bool): int {
    if signed && u >= Pow256(w) / 2 then u - Pow256(w) else u
  }

  lemma InterpretPattern(v: int, w: nat, signed: bool)
    requires w >= 1 && Fits(v, w, signed)
    ensures Interpret(Pattern(v, w, signed), w, signed) == v
  {
    assert Pow256(w) == 256 * Pow256(w - 1);
  }

  lemma InterpretFits(u: nat, w: nat, signed: bool)
    requires w >= 1 && u < Pow256(w)
    ensures Fits(Interpret(u, w, signed), w, signed)
  {
    assert Pow256(w) == 256 * Pow256(w - 1);
  }

  /** The bytes the buffer holds after storing `v` as a `w`-byte integer. */
  function Encode(v: int, w: nat, signed: bool): (r: seq<Byte>)
    requires Fits(v, w, signed)
    ensures |r| == w
  {
    LittleEndian(Pattern(v, w, signed), w)
  }

  /** The integer the first bytes of the buffer hold, read as a `|s|`-byte integer. */
  function Decode(s: seq<Byte>, signed: bool): (v: int)
    ensures |s| >= 1 ==> Fits(v, |s|, signed)
  {
    var u := FromLittleEndian(s);
    if |s| >= 1 then
      InterpretFits(u, |s|, signed);
      Interpret(u, |s|, signed)
    else
      Interpret(u, |s|, signed)
  }

  /** Any fitting value survives storing and reloading through the buffer. */
  lemma DecodeOfEncode(v: int, w: nat, signed: bool)
    requires w >= 1 && Fits(v, w, signed)
    ensures Decode(Encode(v, w, signed), signed) == v
  {
    DecodeEncode(Pattern(v, w, signed), w);
    InterpretPattern(v, w, signed);
  }

  /** The data bytes a typed write puts on the bus. */
  function WireBytes(v: int, w: nat, signed: bool, e: Endian): (r: seq<Byte>)
    requires Fits(v, w, signed)
    ensures |r| == w
  {
    Order(Encode(v, w, signed), e)
  }

  /** The value a typed read yields from the receive buffer `rx`. */
  function ReadValue(rx: seq<Byte>, w: nat, signed: bool, e: Endian): (v: int)
    ensures w >= 1 ==> Fits(v, w, signed)
  {
    Decode(Order(Received(rx, w), e), signed)
  }

  /**
   * The typed round trip: when a device answers with the data bytes of
   * a typed write (as a register that stores what it is sent does), a
   * typed read of the same width, signedness and byte order returns the
   * value written.
   */
  lemma TypedRoundTrip(v: int, w: nat, signed: bool, e: Endian)
    requires w >= 1 && Fits(v, w, signed)
    ensures ReadValue(WireBytes(v, w, signed, e), w, signed, e) == v
  {
    var bytes := WireBytes(v, w, signed, e);
    ReceivedAll(bytes);
    OrderInvolution(Encode(v, w, signed), e);
    DecodeOfEncode(v, w, signed);
  }

  /** A model of the bus library: the traffic it has produced and its receive buffer. */
  class Wire {
    var txAddr: Byte
    var txData: seq<Byte>
    var sent: seq<Transaction>
    var rx: seq<Byte>

    constructor ()
      ensures txData == [] && sent == [] && rx == []
    {
      txAddr := 0;
      txData := [];
      sent := [];
      rx := [];
    }

    /** Starts assembling a write transaction to `addr`. */
    method BeginTransmission(addr: Byte)
      modifies this`txAddr, this`txData
      ensures txAddr == addr && txData == []
    {
      txAddr := addr;
      txData := [];
    }

    /** Queues one byte of the transaction being assembled. */
    method Write(b: Byte)
      modifies this`txData
      ensures txData == old(txData) + [b]
    {
      txData := txData + [b];
    }

    /** Puts the assembled transaction on the bus. */
    method EndTransmission(stop: bool)
      modifies this`sent
      ensures sent == old(sent) + [WriteTx(txAddr, txData, stop)]
    {
      sent := sent + [WriteTx(txAddr, txData, stop)];
    }

    /**
     * Requests `count` bytes from `addr`; the device answers `reply`, of
     * which at most `count` bytes are kept. The answer replaces the
     * receive buffer.
     */
    method RequestFrom(addr: Byte, count: Byte, stop: bool, reply: seq<Byte>)
      modifies this`sent, this`rx
      ensures sent == old(sent) + [RequestTx(addr, count, stop)]
      ensures rx == if |reply| <= count as int then reply else reply[..count]
    {
      sent := sent + [RequestTx(addr, count, stop)];
      rx := if |reply| <= count as int then reply else reply[..count];
    }

    /** Takes the next received byte; an empty buffer yields NoData. */
    method Read() returns (b: Byte)
      modifies this`rx
      ensures [b] == Received(old(rx), 1) && rx == Drop(old(rx), 1)
    {
      if rx == [] {
        b := NoData;
      } else {
        b := rx[0];
        rx := rx[1..];
      }
    }
  }

  class I2CDevice {
    const wire: Wire
    const addr: Byte
    const endian: Endian
    /** The 8-byte buffer the typed accessors reinterpret. */
    const buffer: array<Byte>

    ghost predicate Valid()
      reads this
    {
      buffer.Length == 8
    }

    constructor (wire: Wire, addr: Byte, endian: Endian)
      ensures Valid() && fresh(buffer)
      ensures this.wire == wire && this.addr == addr && this.endian == endian
    {
      this.wire := wire;
      this.addr := addr;
      this.endian := endian;
      buffer := new Byte[8];
    }

    /** The placeholder device: address 0, little-endian. */
    constructor Default(wire: Wire)
      ensures Valid() && fresh(buffer)
      ensures this.wire == wire && addr == 0 && endian == LsbFirst
    {
      this.wire := wire;
      addr := 0;
      endian := LsbFirst;
      buffer := new Byte[8];
    }

    /**
     * Writes `n` bytes of `buf` to register `reg` in one transaction:
     * the register address, then the bytes in bus order, then a stop.
     */
    method WriteBytes(reg: Byte, buf: array<Byte>, n: Byte)
      requires n as int <= buf.Length
      modifies wire`txAddr, wire`txData, wire`sent
      ensures wire.sent == old(wire.sent) + [WriteTx(addr, [reg] + Order(buf[..n], endian), true)]
    {
      wire.BeginTransmission(addr);
      wire.Write(reg);
      if endian == LsbFirst {
        // ascending order
        var i: Byte := 0;
        while i < n
          invariant i <= n
          invariant wire.txAddr == addr && wire.txData == [reg] + buf[..i]
          invariant wire.sent == old(wire.sent)
        {
          wire.Write(buf[i]);
          assert buf[..i + 1] == buf[..i] + [buf[i]];
          i := i + 1;
        }
      } else {
        // descending order; the counter leaves [0, 254] by wrapping past 0
        var i: Byte := Decrement(n);
        ghost var next: int := n as int;
        while i < 255
          invariant 0 <= next <= n as int
          invariant next == if i == 255 then 0 else i as int + 1
          invariant wire.txAddr == addr && wire.txData == [reg] + Reverse(buf[next..n])
          invariant wire.sent == old(wire.sent)
          decreases next
        {
          wire.Write(buf[i]);
          assert buf[i..n] == [buf[i]] + buf[next..n];
          ReversePrepend(buf[i], buf[next..n]);
          i := Decrement(i);
          next := next - 1;
        }
      }
      wire.EndTransmission(true);
    }

    /**
     * Reads `n` received bytes into `buf` in bus order: ascending for
     * LSB-first, descending for MSB-first. The rest of `buf` is kept.
     */
    method ReadBytes(buf: array<Byte>, n: Byte)
      requires n as int <= buf.Length
      modifies buf, wire`rx
      ensures buf[..n] == Order(Received(old(wire.rx), n as nat), endian)
      ensures buf[n..] == old(buf[n..])
      ensures wire.rx == Drop(old(wire.rx), n as nat)
    {
      if endian == LsbFirst {
        ReadAscending(buf, n);
      } else {
        ReadDescending(buf, n);
      }
    }

    /** Fills buf[0], buf[1], ..., buf[n - 1] with the next `n` received bytes. */
    method ReadAscending(buf: array<Byte>, n: Byte)
      requires n as int <= buf.Length
      modifies buf, wire`rx
      ensures buf[..n] == Received(old(wire.rx), n as nat)
      ensures buf[n..] == old(buf[n..])
      ensures wire.rx == Drop(old(wire.rx), n as nat)
    {
      ghost var rx0 := wire.rx;
      var i: Byte := 0;
      while i < n
        invariant i <= n
        invariant buf[..i] == Received(rx0, i as nat)
        invariant forall k :: i as int <= k < buf.Length ==> buf[k] == old(buf[k])
        invariant wire.rx == Drop(rx0, i as nat)
      {
        var b := wire.Read();
        ReceivedNext(rx0, i as nat);
        buf[i] := b;
        assert buf[..i + 1] == buf[..i] + [b];
        i := i + 1;
      }
    }

    /** Fills buf[n - 1], buf[n - 2], ..., buf[0] with the next `n` received bytes. */
    method ReadDescending(buf: array<Byte>, n: Byte)
      requires n as int <= buf.Length
      modifies buf, wire`rx
      ensures buf[..n] == Reverse(Received(old(wire.rx), n as nat))
      ensures buf[n..] == old(buf[n..])
      ensures wire.rx == Drop(old(wire.rx), n as nat)
    {
      ghost var rx0 := wire.rx;
      ghost var want := Reverse(Received(rx0, n as nat));
      // the counter leaves [0, 254] by wrapping past 0
      var i: Byte := Decrement(n);
      ghost var next: int := n as int;
      while i < 255
        invariant 0 <= next <= n as int
        invariant next == if i == 255 then 0 else i as int + 1
        invariant buf[next..n] == want[next..n]
        invariant buf[..next] == old(buf[..next])
        invariant buf[n..] == old(buf[n..])
        invariant wire.rx == Drop(rx0, n as int - next)
        decreases next
      {
        var b := wire.Read();
        ReadAt(rx0, n as int - next, n as nat);
        buf[i] := b;
        assert buf[i..n] == [b] + buf[next..n];
        assert buf[..i] == old(buf[..next])[..i];
        i := Decrement(i);
        next := next - 1;
      }
      assert buf[..n] == buf[0..n];
    }

    /** Stores `value` in the buffer as a `w`-byte integer. */
    method Store(value: int, w: Byte, signed: bool)
      requires Valid() && 1 <= w <= 8 && Fits(value, w as nat, signed)
      modifies buffer
      ensures buffer[..w] == Encode(value, w as nat, signed)
      ensures buffer[w..] == old(buffer[w..])
    {
      var bytes := Encode(value, w as nat, signed);
      forall k | 0 <= k < w as int {
        buffer[k] := bytes[k];
      }
    }

    /** Writes `value` to register `reg` as a `w`-byte integer. */
    method WriteInteger(reg: Byte, value: int, w: Byte, signed: bool)
      requires Valid() && 1 <= w <= 8 && Fits(value, w as nat, signed)
      modifies buffer, wire`txAddr, wire`txData, wire`sent
      ensures wire.sent == old(wire.sent) + [WriteTx(addr, [reg] + WireBytes(value, w as nat, signed, endian), true)]
    {
      Store(value, w, signed);
      WriteBytes(reg, buffer, w);
    }

    /** Reads a `w`-byte integer from the receive buffer. */
    method ReadInteger(w: Byte, signed: bool) returns (value: int)
      requires Valid() && 1 <= w <= 8
      modifies buffer, wire`rx
      ensures value == ReadValue(old(wire.rx), w as nat, signed, endian)
      ensures Fits(value, w as nat, signed)
      ensures wire.rx == Drop(old(wire.rx), w as nat)
    {
      ReadBytes(buffer, w);
      value := Decode(buffer[..w], signed);
    }

    /**
     * Starts a read of `n` bytes from register `reg`: a write of the
     * register address without a stop, then a request for `n` bytes,
     * which the device answers with `reply`.
     */
    method ReadSeq(reg: Byte, n: Byte, reply: seq<Byte>)
      modifies wire
      ensures wire.sent == old(wire.sent) + [WriteTx(addr, [reg], false), RequestTx(addr, n, true)]
      ensures wire.rx == if |reply| <= n as int then reply else reply[..n]
    {
      wire.BeginTransmission(addr);
      wire.Write(reg);
      assert wire.txAddr == addr && wire.txData == [reg] && wire.sent == old(wire.sent);
      wire.EndTransmission(false);
      assert wire.sent == old(wire.sent) + [WriteTx(addr, [reg], false)];
      wire.RequestFrom(addr, n, true, reply);
      assert wire.sent == old(wire.sent) + [WriteTx(addr, [reg], false)] + [RequestTx(addr, n, true)];
    }

    /** Reads a `w`-byte integer from register `reg`; the device answers `reply`. */
    method ReadRegister(reg: Byte, w: Byte, signed: bool, reply: seq<Byte>) returns (value: int)
      requires Valid() && 1 <= w <= 8
      modifies buffer, wire
      ensures wire.sent == old(wire.sent) + [WriteTx(addr, [reg], false), RequestTx(addr, w, true)]
      ensures value == ReadValue(reply, w as nat, signed, endian)
      ensures Fits(value, w as nat, signed)
    {
      ReadSeq(reg, w, reply);
      value := ReadInteger(w, signed);
      assert Received(if |reply| <= w as int then reply else reply[..w], w as nat) == Received(reply, w as nat);
    }

    method WriteInt8(reg: Byte, value: int)
      requires Valid() && -128 <= value < 128
      modifies buffer, wire`txAddr, wire`txData, wire`sent
      ensures wire.sent == old(wire.sent) + [WriteTx(addr, [reg] + WireBytes(value, 1, true, endian), true)]
    {
      WriteInteger(reg, value, 1, true);
    }

    method WriteInt16(reg: Byte, value: int)
      requires Valid() && -32768 <= value < 32768
      modifies buffer, wire`txAddr, wire`txData, wire`sent
      ensures wire.sent == old(wire.sent) + [WriteTx(addr, [reg] + WireBytes(value, 2, true, endian), true)]
    {
      WriteInteger(reg, value, 2, true);
    }

    method WriteInt32(reg: Byte, value: int)
      requires Valid() && -2147483648 <= value < 2147483648
      modifies buffer, wire`txAddr, wire`txData, wire`sent
      ensures wire.sent == old(wire.sent) + [WriteTx(addr, [reg] + WireBytes(value, 4, true, endian), true)]
    {
      WriteInteger(reg, value, 4, true);
    }

    method WriteInt64(reg: Byte, value: int)
      requires Valid() && -9223372036854775808 <= value < 9223372036854775808
      modifies buffer, wire`txAddr, wire`txData, wire`sent
      ensures wire.sent == old(wire.sent) + [WriteTx(addr, [reg] + WireBytes(value, 8, true, endian), true)]
    {
      WriteInteger(reg, value, 8, true);
    }

    method WriteUint8(reg: Byte, value: int)
      requires Valid() && 0 <= value < 256
      modifies buffer, wire`txAddr, wire`txData, wire`sent
      ensures wire.sent == old(wire.sent) + [WriteTx(addr, [reg] + WireBytes(value, 1, false, endian), true)]
    {
      WriteInteger(reg, value, 1, false);
    }

    method WriteUint16(reg: Byte, value: int)
      requires Valid() && 0 <= value < 65536
      modifies buffer, wire`txAddr, wire`txData, wire`sent
      ensures wire.sent == old(wire.sent) + [WriteTx(addr, [reg] + WireBytes(value, 2, false, endian), true)]
    {
      WriteInteger(reg, value, 2, false);
    }

    method WriteUint32(reg: Byte, value: int)
      requires Valid() && 0 <= value < 4294967296
      modifies buffer, wire`txAddr, wire`txData, wire`sent
      ensures wire.sent == old(wire.sent) + [WriteTx(addr, [reg] + WireBytes(value, 4, false, endian), true)]
    {
      WriteInteger(reg, value, 4, false);
    }

    method WriteUint64(reg: Byte, value: int)
      requires Valid() && 0 <= value < 18446744073709551616
      modifies buffer, wire`txAddr, wire`txData, wire`sent
      ensures wire.sent == old(wire.sent) + [WriteTx(addr, [reg] + WireBytes(value, 8, false, endian), true)]
    {
      WriteInteger(reg, value, 8, false);
    }

    method ReadInt8(reg: Byte, reply: seq<Byte>) returns (value: int)
      requires Valid()
      modifies buffer, wire
      ensures wire.sent == old(wire.sent) + [WriteTx(addr, [reg], false), RequestTx(addr, 1, true)]
      ensures value == ReadValue(reply, 1, true, endian) && -128 <= value < 128
    {
      value := ReadRegister(reg, 1, true, reply);
    }

    method ReadInt16(reg: Byte, reply: seq<Byte>) returns (value: int)
      requires Valid()
      modifies buffer, wire
      ensures wire.sent == old(wire.sent) + [WriteTx(addr, [reg], false), RequestTx(addr, 2, true)]
      ensures value == ReadValue(reply, 2, true, endian) && -32768 <= value < 32768
    {
      value := ReadRegister(reg, 2, true, reply);
    }

    method ReadInt32(reg: Byte, reply: seq<Byte>) returns (value: int)
      requires Valid()
      modifies buffer, wire
      ensures wire.sent == old(wire.sent) + [WriteTx(addr, [reg], false), RequestTx(addr, 4, true)]
      ensures value == ReadValue(reply, 4, true, endian) && -2147483648 <= value < 2147483648
    {
      value := ReadRegister(reg, 4, true, reply);
    }

    method ReadInt64(reg: Byte, reply: seq<Byte>) returns (value: int)
      requires Valid()
      modifies buffer, wire
      ensures wire.sent == old(wire.sent) + [WriteTx(addr, [reg], false), RequestTx(addr, 8, true)]
      ensures value == ReadValue(reply, 8, true, endian) && -9223372036854775808 <= value < 9223372036854775808
    {
      value := ReadRegister(reg, 8, true, reply);
    }

    method ReadUint8(reg: Byte, reply: seq<Byte>) returns (value: int)
      requires Valid()
      modifies buffer, wire
      ensures wire.sent == old(wire.sent) + [WriteTx(addr, [reg], false), RequestTx(addr, 1, true)]
      ensures value == ReadValue(reply, 1, false, endian) && 0 <= value < 256
    {
      value := ReadRegister(reg, 1, false, reply);
    }

    method ReadUint16(reg: Byte, reply: seq<Byte>) returns (value: int)
      requires Valid()
      modifies buffer, wire
      ensures wire.sent == old(wire.sent) + [WriteTx(addr, [reg], false), RequestTx(addr, 2, true)]
      ensures value == ReadValue(reply, 2, false, endian) && 0 <= value < 65536
    {
      value := ReadRegister(reg, 2, false, reply);
    }

    method ReadUint32(reg: Byte, reply: seq<Byte>) returns (value: int)
      requires Valid()
      modifies buffer, wire
      ensures wire.sent == old(wire.sent) + [WriteTx(addr, [reg], false), RequestTx(addr, 4, true)]
      ensures value == ReadValue(reply, 4, false, endian) && 0 <= value < 4294967296
    {
      value := ReadRegister(reg, 4, false, reply);
    }

    method ReadUint64(reg: Byte, reply: seq<Byte>) returns (value: int)
      requires Valid()
      modifies buffer, wire
      ensures wire.sent == old(wire.sent) + [WriteTx(addr, [reg], false), RequestTx(addr, 8, true)]
      ensures value == ReadValue(reply, 8, false, endian) && 0 <= value < 18446744073709551616
    {
      value := ReadRegister(reg, 8, false, reply);
    }

    method NextInt8() returns (value: int)
      requires Valid()
      modifies buffer, wire`rx
      ensures value == ReadValue(old(wire.rx), 1, true, endian) && -128 <= value < 128
      ensures wire.rx == Drop(old(wire.rx), 1)
    {
      value := ReadInteger(1, true);
    }

    method NextInt16() returns (value: int)
      requires Valid()
      modifies buffer, wire`rx
      ensures value == ReadValue(old(wire.rx), 2, true, endian) && -32768 <= value < 32768
      ensures wire.rx == Drop(old(wire.rx), 2)
    {
      value := ReadInteger(2, true);
    }

    method NextInt32() returns (value: int)
      requires Valid()
      modifies buffer, wire`rx
      ensures value == ReadValue(old(wire.rx), 4, true, endian) && -2147483648 <= value < 2147483648
      ensures wire.rx == Drop(old(wire.rx), 4)
    {
      value := ReadInteger(4, true);
    }

    method NextInt64() returns (value: int)
      requires Valid()
      modifies buffer, wire`rx
      ensures value == ReadValue(old(wire.rx), 8, true, endian) && -9223372036854775808 <= value < 9223372036854775808
      ensures wire.rx == Drop(old(wire.rx), 8)
    {
      value := ReadInteger(8, true);
    }

    method NextUint8() returns (value: int)
      requires Valid()
      modifies buffer, wire`rx
      ensures value == ReadValue(old(wire.rx), 1, false, endian) && 0 <= value < 256
      ensures wire.rx == Drop(old(wire.rx), 1)
    {
      value := ReadInteger(1, false);
    }

    method NextUint16() returns (value: int)
      requires Valid()
      modifies buffer, wire`rx
      ensures value == ReadValue(old(wire.rx), 2, false, endian) && 0 <= value < 65536
      ensures wire.rx == Drop(old(wire.rx), 2)
    {
      value := ReadInteger(2, false);
    }

    method NextUint32() returns (value: int)
      requires Valid()
      modifies buffer, wire`rx
      ensures value == ReadValue(old(wire.rx), 4, false, endian) && 0 <= value < 4294967296
      ensures wire.rx == Drop(old(wire.rx), 4)
    {
      value := ReadInteger(4, false);
    }

    method NextUint64() returns (value: int)
      requires Valid()
      modifies buffer, wire`rx
      ensures value == ReadValue(old(wire.rx), 8, false, endian) && 0 <= value < 18446744073709551616
      ensures wire.rx == Drop(old(wire.rx), 8)
    {
      value := ReadInteger(8, false);
    }
  }
}
