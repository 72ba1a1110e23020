/** The sliding byte buffer of a connection (zdq_buffer.h, zdq_buffer.cpp) as a byte FIFO with bounded waste. */
module Buffers {
  type Byte = bv8

  const DEFAULT_SIZE: nat := 1024
  const MOVE_LINE: nat := 1024
  const EXTRA_SIZE: nat := 65536      // the stack buffer of readFd
  const INT_MAX: nat := 0x7fff_ffff   // retrieve and append take their length as an int

  function Max(a: nat, b: nat): nat { if a < b then b else a }

  /** `v_buff_.resize(n)` on growth: new bytes are zero. */
  function Resized(v: seq<Byte>, n: nat): (r: seq<Byte>)
    requires n >= |v|
    ensures |r| == n && r[..|v|] == v
  {
    v + seq(n - |v|, i => 0)
  }

  /** `std::copy` of b over v from position `at`. */
  function CopiedInto(v: seq<Byte>, at: nat, b: seq<Byte>): (r: seq<Byte>)
    requires at + |b| <= |v|
    ensures |r| == |v| && r[..at] == v[..at] && r[at..at + |b|] == b
  {
    v[..at] + b + v[at + |b|..]
  }

  class Buffer {
    var vBuff: seq<Byte>
    var readIndex: nat
    var writeIndex: nat
    ghost const initSize: nat
    ghost var accepted: seq<Byte>   // every byte ever stored
    ghost var taken: seq<Byte>      // every byte ever retrieved
    ghost var peak: nat             // the most that was ever readable at once

    function Contents(): (c: seq<Byte>)
      requires readIndex <= writeIndex <= |vBuff|
      reads this
      ensures |c| == writeIndex - readIndex
    {
      vBuff[readIndex..writeIndex]
    }

    /** What went in is what came out and then what is readable; little is wasted before and after the contents. */
    ghost predicate Valid()
      reads this
    {
      && readIndex <= writeIndex <= |vBuff|
      && readIndex <= MOVE_LINE
      && accepted == taken + Contents()
      && |Contents()| <= peak
      && |vBuff| <= Max(initSize, MOVE_LINE + peak)
    }

    constructor (initSize: nat)
      ensures Valid() && Contents() == [] && this.initSize == initSize && peak == 0 && accepted == []
    {
      vBuff := seq(initSize, i => 0);
      readIndex, writeIndex := 0, 0;
      this.initSize := initSize;
      accepted, taken, peak := [], [], 0;
    }

    function ReadBuffSize(): (n: nat)
      requires Valid()
      reads this
      ensures n == |Contents()|
    {
      writeIndex - readIndex
    }

    function WriteBuffSize(): nat
      requires Valid()
      reads this
    {
      |vBuff| - writeIndex
    }

    /** movetohead: copies the contents down, byte by byte, over itself. */
    method MoveToHead()
      requires readIndex <= writeIndex <= |vBuff|
      modifies this`vBuff, this`readIndex, this`writeIndex
      ensures readIndex == 0 && writeIndex == |old(Contents())| && |vBuff| == |old(vBuff)| && writeIndex <= |vBuff|
      ensures Contents() == old(Contents())
    {
      ghost var contents, from := Contents(), readIndex;
      var i := 0;
      while readIndex < writeIndex
        invariant 0 <= i == readIndex - from && readIndex <= writeIndex == old(writeIndex) && |vBuff| == |old(vBuff)|
        invariant vBuff[..i] == contents[..i]
        invariant vBuff[readIndex..writeIndex] == contents[i..]
      {
        assert vBuff[readIndex] == contents[i];
        ghost var rest := vBuff[readIndex + 1..writeIndex];
        assert rest == vBuff[readIndex..writeIndex][1..] == contents[i + 1..];
        vBuff := vBuff[i := vBuff[readIndex]];
        assert vBuff[readIndex + 1..writeIndex] == rest;
        i, readIndex := i + 1, readIndex + 1;
      }
      readIndex := 0;
      writeIndex := i;
    }

    /** retrieve. */
    method Retrieve(len: nat)
      requires Valid() && len <= ReadBuffSize() && len <= INT_MAX
      modifies this
      ensures Valid() && peak == old(peak) && accepted == old(accepted)
      ensures Contents() == old(Contents())[len..]
      ensures taken == old(taken) + old(Contents())[..len]
    {
      ghost var before := Contents();
      assert before == before[..len] + before[len..];
      taken := taken + before[..len];
      if len < ReadBuffSizeRaw() {
        readIndex := readIndex + len;
        assert Contents() == before[len..];
        if readIndex > MOVE_LINE {
          MoveToHead();
        }
      } else {
        readIndex, writeIndex := 0, 0;
      }
    }

    function ReadBuffSizeRaw(): nat
      requires readIndex <= writeIndex
      reads this
    {
      writeIndex - readIndex
    }

    /** append. */
    method Append(buf: seq<Byte>)
      requires Valid() && |buf| <= INT_MAX
      modifies this
      ensures Valid() && taken == old(taken)
      ensures Contents() == old(Contents()) + buf && accepted == old(accepted) + buf
      ensures peak == Max(old(peak), |Contents()|)
    {
      ghost var before := Contents();
      if |buf| > |vBuff| - writeIndex {
        vBuff := Resized(vBuff, |buf| + writeIndex);
      }
      assert Contents() == before;
      vBuff := CopiedInto(vBuff, writeIndex, buf);
      assert vBuff[readIndex..writeIndex] == vBuff[..writeIndex][readIndex..];
      writeIndex := writeIndex + |buf|;
      assert Contents() == before + buf;
      accepted := accepted + buf;
      peak := Max(peak, |Contents()|);
    }

    /** retrieveAsString. */
    method RetrieveAsString(len: nat) returns (result: seq<Byte>)
      requires Valid() && len <= ReadBuffSize() && len <= INT_MAX
      modifies this
      ensures Valid() && peak == old(peak) && accepted == old(accepted) && taken == old(taken) + result
      ensures old(Contents()) == result + Contents() && |result| == len
    {
      result := vBuff[readIndex..readIndex + len];
      ghost var before := Contents();
      assert result == before[..len];
      Retrieve(len);
      assert before == before[..len] + before[len..];
    }

    /** retrieveAllAsString. */
    method RetrieveAllAsString() returns (result: seq<Byte>)
      requires Valid() && ReadBuffSize() <= INT_MAX
      modifies this
      ensures Valid() && peak == old(peak) && accepted == old(accepted) && taken == old(taken) + result
      ensures result == old(Contents()) && Contents() == []
    {
      result := RetrieveAsString(ReadBuffSize());
    }

    /**
     * readFd: `incoming` is what the kernel delivers (None for an error), at most what the one or two segments hold.
     * The first segment is the free space of the buffer; what does not fit comes by way of the stack buffer.
     */
    method ReadFd(incoming: seq<Byte>, error: bool) returns (n: int)
      requires Valid()
      requires |incoming| <= if WriteBuffSize() < EXTRA_SIZE then WriteBuffSize() + EXTRA_SIZE else WriteBuffSize()
      modifies this
      ensures Valid() && taken == old(taken)
      ensures if error then n == -1 && Contents() == old(Contents()) && accepted == old(accepted) && peak == old(peak)
              else n == |incoming| && Contents() == old(Contents()) + incoming && accepted == old(accepted) + incoming
                   && peak == Max(old(peak), |Contents()|)
    {
      var writable := WriteBuffSize();
      if error {
        n := -1;
      } else if |incoming| <= writable {
        n := |incoming|;
        FillFree(incoming);
      } else {
        n := |incoming|;
        FillFree(incoming[..writable]);
        assert incoming == incoming[..writable] + incoming[writable..];
        ghost var before := accepted;
        Append(incoming[writable..]);
        assert before + incoming[writable..] == old(accepted) + incoming;
      }
    }

    /** readv's first segment: bytes land behind writeIndex_, which then moves over them. */
    method FillFree(b: seq<Byte>)
      requires Valid() && |b| <= WriteBuffSize()
      modifies this
      ensures Valid() && taken == old(taken) && |vBuff| == |old(vBuff)| && writeIndex == old(writeIndex) + |b|
      ensures Contents() == old(Contents()) + b && accepted == old(accepted) + b
      ensures peak == Max(old(peak), |Contents()|)
    {
      ghost var before := Contents();
      vBuff := CopiedInto(vBuff, writeIndex, b);
      assert vBuff[readIndex..writeIndex] == vBuff[..writeIndex][readIndex..];
      writeIndex := writeIndex + |b|;
      assert Contents() == before + b;
      accepted, peak := accepted + b, Max(peak, |Contents()|);
    }
  }

  // ---------------------------------------------------------------- every sequence of operations

  datatype Op =
    | DoAppend(bytes: seq<Byte>) | DoRetrieve(len: nat)
    | DoReadFd(bytes: seq<Byte>)   // readFd, when the kernel delivers these bytes
    | FailReadFd                   // readFd, when the kernel reports an error

  /** The FIFO that the operations act on: what may be asked of it and what it becomes. */
  predicate Possible(q: seq<Byte>, op: Op) {
    op.DoRetrieve? ==> op.len <= |q|
  }

  function FifoStep(q: seq<Byte>, op: Op): seq<Byte>
    requires Possible(q, op)
  {
    match op
    case DoAppend(bytes) => q + bytes
    case DoReadFd(bytes) => q + bytes
    case FailReadFd => q
    case DoRetrieve(len) => q[len..]
  }

  /** What one operation takes out. */
  function Given(q: seq<Byte>, op: Op): seq<Byte>
    requires Possible(q, op)
  {
    if op.DoRetrieve? then q[..op.len] else []
  }

  /** What one operation puts in. */
  function Stored(op: Op): seq<Byte> {
    if op.DoAppend? || op.DoReadFd? then op.bytes else []
  }

  ghost predicate AllPossible(q: seq<Byte>, ops: seq<Op>)
    decreases |ops|
  {
    ops == [] || (Possible(q, ops[0]) && AllPossible(FifoStep(q, ops[0]), ops[1..]))
  }

  /** The bytes that a sequence of operations takes out of the FIFO. */
  ghost function Outputs(q: seq<Byte>, ops: seq<Op>): seq<Byte>
    requires AllPossible(q, ops)
    decreases |ops|
  {
    if ops == [] then []
    else Given(q, ops[0]) + Outputs(FifoStep(q, ops[0]), ops[1..])
  }

  ghost function Inputs(ops: seq<Op>): seq<Byte> {
    if ops == [] then [] else Stored(ops[0]) + Inputs(ops[1..])
  }

  ghost function Final(q: seq<Byte>, ops: seq<Op>): seq<Byte>
    requires AllPossible(q, ops)
    decreases |ops|
  {
    if ops == [] then q else Final(FifoStep(q, ops[0]), ops[1..])
  }

  ghost function MostHeld(q: seq<Byte>, ops: seq<Op>): nat
    requires AllPossible(q, ops)
    decreases |ops|
  {
    if ops == [] then |q| else Max(|q|, MostHeld(FifoStep(q, ops[0]), ops[1..]))
  }

  /** First in, first out: whatever the order of the operations, the bytes in are the bytes out and then those held. */
  lemma {:induction false} FifoKeepsOrder(q: seq<Byte>, ops: seq<Op>)
    requires AllPossible(q, ops)
    ensures q + Inputs(ops) == Outputs(q, ops) + Final(q, ops)
    decreases |ops|
  {
    if ops == [] {
      assert q + Inputs(ops) == q && Outputs(q, ops) + q == q;
    } else {
      var op, rest := ops[0], ops[1..];
      var q' := FifoStep(q, op);
      OneOpKeepsOrder(q, op);
      FifoKeepsOrder(q', rest);
      Regroup(q, Stored(op), Inputs(rest), Given(q, op), q', Outputs(q', rest), Final(q', rest));
    }
  }

  lemma Regroup(q: seq<Byte>, s: seq<Byte>, i: seq<Byte>, g: seq<Byte>, q': seq<Byte>, o: seq<Byte>, f: seq<Byte>)
    requires q + s == g + q' && q' + i == o + f
    ensures q + (s + i) == (g + o) + f
  {
    assert q + (s + i) == (q + s) + i;
    assert (g + q') + i == g + (q' + i);
    assert g + (o + f) == (g + o) + f;
  }

  lemma OneOpKeepsOrder(q: seq<Byte>, op: Op)
    requires Possible(q, op)
    ensures q + Stored(op) == Given(q, op) + FifoStep(q, op)
  {
  }

  lemma {:induction false} OneMoreOp(q: seq<Byte>, ops: seq<Op>, op: Op)
    requires AllPossible(q, ops) && Possible(Final(q, ops), op)
    ensures AllPossible(q, ops + [op])
    ensures Outputs(q, ops + [op]) == Outputs(q, ops) + Given(Final(q, ops), op)
    ensures Final(q, ops + [op]) == FifoStep(Final(q, ops), op)
    ensures MostHeld(q, ops + [op]) == Max(MostHeld(q, ops), |FifoStep(Final(q, ops), op)|)
    decreases |ops|
  {
    var more := ops + [op];
    if ops == [] {
      OnlyOp(q, op);
      assert more == [op];
    } else {
      var q' := FifoStep(q, ops[0]);
      assert more[0] == ops[0] && more[1..] == ops[1..] + [op];
      OneMoreOp(q', ops[1..], op);
      FirstOp(q, more);
      FirstOp(q, ops);
      Associative(Given(q, ops[0]), Outputs(q', ops[1..]), Given(Final(q, ops), op));
    }
  }

  lemma Associative(a: seq<Byte>, b: seq<Byte>, c: seq<Byte>)
    ensures a + b + c == a + (b + c)
  {
  }

  lemma FirstOp(q: seq<Byte>, ops: seq<Op>)
    requires ops != [] && Possible(q, ops[0]) && AllPossible(FifoStep(q, ops[0]), ops[1..])
    ensures var q' := FifoStep(q, ops[0]);
            && AllPossible(q, ops) && Outputs(q, ops) == Given(q, ops[0]) + Outputs(q', ops[1..])
            && Final(q, ops) == Final(q', ops[1..]) && MostHeld(q, ops) == Max(|q|, MostHeld(q', ops[1..]))
  {
  }

  lemma OnlyOp(q: seq<Byte>, op: Op)
    requires Possible(q, op)
    ensures AllPossible(q, [op]) && Outputs(q, [op]) == Given(q, op) && Final(q, [op]) == FifoStep(q, op)
    ensures MostHeld(q, [op]) == Max(|q|, |FifoStep(q, op)|)
  {
    var q' := FifoStep(q, op);
    assert AllPossible(q', []) && [op][1..] == [];
    assert Given(q, op) + [] == Given(q, op);
  }

  /** What may be asked of a buffer: lengths that fit an int, and what one readv of its free space can bring. */
  predicate Allowed(b: Buffer, op: Op)
    requires b.Valid()
    reads b
  {
    match op
    case DoAppend(bytes) => |bytes| <= INT_MAX
    case DoRetrieve(len) => len <= INT_MAX && len <= b.ReadBuffSize()
    case DoReadFd(bytes) =>
      |bytes| <= if b.WriteBuffSize() < EXTRA_SIZE then b.WriteBuffSize() + EXTRA_SIZE else b.WriteBuffSize()
    case FailReadFd => true
  }

  method Perform(b: Buffer, op: Op) returns (out: seq<Byte>)
    requires b.Valid() && Allowed(b, op)
    modifies b
    ensures b.Valid() && Possible(old(b.Contents()), op)
    ensures b.Contents() == FifoStep(old(b.Contents()), op) && out == Given(old(b.Contents()), op)
    ensures b.peak == Max(old(b.peak), |b.Contents()|)
  {
    out := [];
    match op
    case DoAppend(bytes) => b.Append(bytes);
    case DoRetrieve(len) =>
      ghost var q := b.Contents();
      out := b.RetrieveAsString(len);
      assert q[..len] == out && q[len..] == b.Contents();
    case DoReadFd(bytes) => var n := b.ReadFd(bytes, false);
    case FailReadFd => var n := b.ReadFd([], true);
  }

  /**
   * A fresh buffer put through any operations that may be asked of it, `ops` in the end, gives out exactly what the
   * FIFO gives out, and its storage is bounded by the most it ever held.
   */
  method Drive(initSize: nat, steps: nat) returns (b: Buffer, ops: seq<Op>, out: seq<Byte>)
    ensures b.Valid() && b.initSize == initSize
    ensures AllPossible([], ops) && out == Outputs([], ops) && b.Contents() == Final([], ops)
    ensures b.readIndex <= 1024 && |b.vBuff| <= Max(initSize, 1024 + MostHeld([], ops))
  {
    b := new Buffer(initSize);
    ops, out := [], [];
    for i := 0 to steps
      invariant b.Valid() && b.initSize == initSize && fresh(b)
      invariant AllPossible([], ops) && out == Outputs([], ops) && b.Contents() == Final([], ops)
      invariant b.peak == MostHeld([], ops)
    {
      var op: Op := *;
      if Allowed(b, op) {
        OneMoreOp([], ops, op);
        var given := Perform(b, op);
        ops, out := ops + [op], out + given;
      }
    }
  }
}
