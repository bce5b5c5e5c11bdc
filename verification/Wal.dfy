/** The consensus write-ahead log: framing of records, decoding, and repair of a damaged file. */
module Wal {
  import opened Basics

  type uint32 = v: nat | v < 0x1_0000_0000

  const MAX_MSG_SIZE: nat := 1048576 + 24

  /** Message marshalling and the checksum, which are computed elsewhere. */
  datatype Codec<!M> = Codec(
    encodable: M -> bool,              // the message has a wire form
    marshal: M -> seq<byte>,
    unmarshal: seq<byte> -> Option<M>,
    crc: seq<byte> -> uint32)

  /** Unmarshalling undoes marshalling. */
  ghost predicate Inverts<M(!new)>(x: Codec<M>) {
    forall m {:trigger x.marshal(m)} | x.encodable(m) :: x.unmarshal(x.marshal(m)) == Some(m)
  }

  // ---------------------------------------------------------------- frames

  function Put32(v: uint32): (bs: seq<byte>)
    ensures |bs| == 4
  {
    [v / 256 / 256 / 256, v / 256 / 256 % 256, v / 256 % 256, v % 256]
  }

  function Get32(bs: seq<byte>): uint32
    requires |bs| == 4
  {
    var a, b, c, d: int := bs[0], bs[1], bs[2], bs[3];
    ((a * 256 + b) * 256 + c) * 256 + d
  }

  lemma PutGet(v: uint32)
    ensures Get32(Put32(v)) == v
  {}

  predicate Fits<M>(x: Codec<M>, m: M) { x.encodable(m) && |x.marshal(m)| <= MAX_MSG_SIZE }

  /** Checksum, length and data of a message. */
  function Frame<M>(x: Codec<M>, m: M): seq<byte>
    requires Fits(x, m)
  {
    Put32(x.crc(x.marshal(m))) + Put32(|x.marshal(m)|) + x.marshal(m)
  }

  /** On disk: four bytes of checksum and four of length, the most significant first, and the data. */
  lemma FrameLayout<M>(x: Codec<M>, m: M)
    requires Fits(x, m)
    ensures var (f, data) := (Frame(x, m), x.marshal(m));
            && |f| == 8 + |data| && f[8..] == data
            && ((f[0] as int * 256 + f[1]) * 256 + f[2]) * 256 + f[3] == x.crc(data)
            && ((f[4] as int * 256 + f[5]) * 256 + f[6]) * 256 + f[7] == |data|
  {
    var f, data := Frame(x, m), x.marshal(m);
    PutGet(x.crc(data));
    PutGet(|data|);
    assert f[..4] == Put32(x.crc(data)) && f[4..8] == Put32(|data|);
    hide Put32;
  }

  function EncodeAll<M>(x: Codec<M>, ms: seq<M>): seq<byte>
    requires forall m | m in ms :: Fits(x, m)
  {
    if ms == [] then [] else Frame(x, ms[0]) + EncodeAll(x, ms[1..])
  }

  // ---------------------------------------------------------------- decoding

  /** A read into a zeroed buffer of n bytes: a short read leaves the rest zero and is no error. */
  function Buffer(bs: seq<byte>, n: nat): (r: seq<byte>)
    ensures |r| == n
  {
    bs[..Min(n, |bs|)] + Zeros(n - Min(n, |bs|))
  }

  function Rest(bs: seq<byte>, n: nat): seq<byte> { bs[Min(n, |bs|)..] }

  /** Reading at the end of the file fails, unless nothing was asked for. */
  predicate AtEnd(bs: seq<byte>, n: nat) { n > 0 && bs == [] }

  datatype Outcome<+M> = Eof | Corrupt | Message(m: M)

  /** The next record, and what is left to read after it or after the error. */
  function Decode<M>(x: Codec<M>, bs: seq<byte>): (r: (Outcome<M>, seq<byte>))
    ensures r.0.Message? ==> |r.1| < |bs|
  {
    if AtEnd(bs, 4) then (Eof, bs)
    else
      var crc := Get32(Buffer(bs, 4));
      var bs1 := Rest(bs, 4);
      if AtEnd(bs1, 4) then (Corrupt, bs1)
      else
        var length := Get32(Buffer(bs1, 4));
        var bs2 := Rest(bs1, 4);
        if length > MAX_MSG_SIZE then (Corrupt, bs2)
        else if AtEnd(bs2, length) then (Corrupt, bs2)
        else
          var data := Buffer(bs2, length);
          var bs3 := Rest(bs2, length);
          if x.crc(data) != crc then (Corrupt, bs3)
          else
            var m := x.unmarshal(data);
            if m.None? then (Corrupt, bs3) else (Message(m.value), bs3)
  }

  /** All records up to the first that does not decode, and whether that was the end of the file. */
  function DecodeAll<M>(x: Codec<M>, bs: seq<byte>): (seq<M>, bool)
    decreases |bs|
  {
    var (o, rest) := Decode(x, bs);
    if !o.Message? then ([], o.Eof?)
    else
      var (ms, clean) := DecodeAll(x, rest);
      ([o.m] + ms, clean)
  }

  lemma FrameParts<M>(x: Codec<M>, m: M, rest: seq<byte>)
    requires Fits(x, m)
    ensures var bs, data := Frame(x, m) + rest, x.marshal(m);
            && Buffer(bs, 4) == Put32(x.crc(data)) && Rest(bs, 4) == Put32(|data|) + data + rest
            && Buffer(Rest(bs, 4), 4) == Put32(|data|) && Rest(Rest(bs, 4), 4) == data + rest
            && Buffer(data + rest, |data|) == data && Rest(data + rest, |data|) == rest
  {}

  lemma BufferTakes(a: seq<byte>, b: seq<byte>)
    ensures Buffer(a + b, |a|) == a && Rest(a + b, |a|) == b
  {}

  lemma DecodeFrame<M(!new)>(x: Codec<M>, m: M, rest: seq<byte>)
    requires Inverts(x) && Fits(x, m)
    ensures Decode(x, Frame(x, m) + rest) == (Message(m), rest)
  {
    FrameParts(x, m, rest);
    PutGet(x.crc(x.marshal(m)));
    PutGet(|x.marshal(m)|);
    assert x.unmarshal(x.marshal(m)) == Some(m);
    hide Put32, Get32, Buffer, Rest;
  }

  /** Whatever follows them, whole frames decode to their messages first. */
  lemma {:induction false} DecodePrefix<M(!new)>(x: Codec<M>, ms: seq<M>, rest: seq<byte>)
    requires Inverts(x) && forall m | m in ms :: Fits(x, m)
    ensures DecodeAll(x, EncodeAll(x, ms) + rest) == (ms + DecodeAll(x, rest).0, DecodeAll(x, rest).1)
    decreases |ms|
  {
    hide Frame, Decode, Fits;
    if ms == [] {
      assert EncodeAll(x, ms) + rest == rest;
      assert [] + DecodeAll(x, rest).0 == DecodeAll(x, rest).0;
    } else {
      var tail := EncodeAll(x, ms[1..]) + rest;
      assert EncodeAll(x, ms) + rest == Frame(x, ms[0]) + tail;
      DecodeFrame(x, ms[0], tail);
      DecodePrefix(x, ms[1..], rest);
      assert ms + DecodeAll(x, rest).0 == [ms[0]] + (ms[1..] + DecodeAll(x, rest).0);
    }
  }

  /** Decoding a concatenation of frames gives back exactly the messages, then a clean end of file. */
  lemma RoundTrip<M(!new)>(x: Codec<M>, ms: seq<M>)
    requires Inverts(x) && forall m | m in ms :: Fits(x, m)
    ensures DecodeAll(x, EncodeAll(x, ms)) == (ms, true)
  {
    assert DecodeAll(x, []) == ([], true);
    hide Frame, Decode, Fits, EncodeAll, DecodeAll;
    DecodePrefix(x, ms, []);
    assert EncodeAll(x, ms) + [] == EncodeAll(x, ms) && ms + [] == ms;
  }

  // ---------------------------------------------------------------- reader, writer, repair

  class Decoder<!M> {
    const x: Codec<M>
    const file: seq<byte>
    var pos: nat

    ghost predicate Valid()
      reads this
    {
      pos <= |file|
    }

    function Remaining(): seq<byte>
      requires Valid()
      reads this
    {
      file[pos..]
    }

    constructor (x: Codec<M>, file: seq<byte>)
      ensures Valid() && this.x == x && this.file == file && pos == 0
    {
      this.x, this.file, pos := x, file, 0;
    }

    /** Fills a zeroed buffer as far as the file goes. */
    method Read(n: nat) returns (buf: seq<byte>, eof: bool)
      requires Valid()
      modifies this
      ensures Valid() && eof == AtEnd(old(Remaining()), n)
      ensures !eof ==> buf == Buffer(old(Remaining()), n) && Remaining() == Rest(old(Remaining()), n)
      ensures eof ==> Remaining() == old(Remaining())
    {
      if n > 0 && pos == |file| { return Zeros(n), true; }
      var got := Min(n, |file| - pos);
      buf := file[pos..pos + got] + Zeros(n - got);
      assert file[pos..][..got] == file[pos..pos + got];
      pos := pos + got;
      eof := false;
    }

    method DecodeNext() returns (o: Outcome<M>)
      requires Valid()
      modifies this
      ensures Valid() && (o, Remaining()) == Decode(x, old(Remaining()))
    {
      hide Get32, Buffer, Rest;
      var b, eof := Read(4);
      if eof { return Eof; }
      var crc := Get32(b);
      b, eof := Read(4);
      if eof { return Corrupt; }
      var length := Get32(b);
      if length > MAX_MSG_SIZE { return Corrupt; }
      b, eof := Read(length);
      if eof { return Corrupt; }
      if x.crc(b) != crc { return Corrupt; }
      var m := x.unmarshal(b);
      if m.None? { return Corrupt; }
      return Message(m.value);
    }
  }

  class Encoder<!M> {
    const x: Codec<M>
    var out: seq<byte>

    constructor (x: Codec<M>)
      ensures this.x == x && out == []
    {
      this.x, out := x, [];
    }

    method Encode(m: M) returns (ok: bool)
      modifies this
      ensures ok <==> Fits(x, m)
      ensures out == if ok then old(out) + Frame(x, m) else old(out)
    {
      hide Put32;
      if !x.encodable(m) { return false; }
      var data := x.marshal(m);
      if |data| > MAX_MSG_SIZE { return false; }
      var msg := new byte[8 + |data|];
      CopyInto(msg, 0, Put32(x.crc(data)));
      CopyInto(msg, 4, Put32(|data|));
      CopyInto(msg, 8, data);
      Assembled(msg, Put32(x.crc(data)), Put32(|data|), data);
      out := out + msg[..];
      return true;
    }
  }

  method CopyInto(dst: array<byte>, off: nat, src: seq<byte>)
    requires off + |src| <= dst.Length
    modifies dst
    ensures forall i | 0 <= i < dst.Length :: dst[i] == if off <= i < off + |src| then src[i - off] else old(dst[i])
  {
    for i := 0 to |src|
      invariant forall j | 0 <= j < dst.Length :: dst[j] == if off <= j < off + i then src[j - off] else old(dst[j])
    {
      dst[off + i] := src[i];
    }
  }

  lemma Assembled(msg: array<byte>, a: seq<byte>, b: seq<byte>, c: seq<byte>)
    requires msg.Length == |a| + |b| + |c|
    requires forall i | 0 <= i < |a| :: msg[i] == a[i]
    requires forall i | 0 <= i < |b| :: msg[|a| + i] == b[i]
    requires forall i | 0 <= i < |c| :: msg[|a| + |b| + i] == c[i]
    ensures msg[..] == a + b + c
  {
    forall i | 0 <= i < msg.Length ensures msg[i] == (a + b + c)[i] {
      if |a| + |b| <= i {
        assert msg[|a| + |b| + (i - |a| - |b|)] == c[i - |a| - |b|];
      } else if |a| <= i {
        assert msg[|a| + (i - |a|)] == b[i - |a|];
      }
    }
  }

  lemma EncodeAllAppend<M>(x: Codec<M>, ms: seq<M>, m: M)
    requires Fits(x, m) && forall k | k in ms :: Fits(x, k)
    ensures (forall k | k in ms + [m] :: Fits(x, k)) && EncodeAll(x, ms + [m]) == EncodeAll(x, ms) + Frame(x, m)
    decreases |ms|
  {
    hide Frame, Fits;
    if ms == [] {
      assert [m][1..] == [];
      assert EncodeAll(x, [m]) == Frame(x, m) + EncodeAll(x, []);
    } else {
      EncodeAllAppend(x, ms[1..], m);
      assert (ms + [m])[1..] == ms[1..] + [m];
    }
  }

  /** The messages of src are those done and then those of what remains. */
  ghost predicate Progress<M>(x: Codec<M>, src: seq<byte>, done: seq<M>, remaining: seq<byte>) {
    DecodeAll(x, src) == (done + DecodeAll(x, remaining).0, DecodeAll(x, remaining).1)
  }

  lemma ProgressStep<M>(x: Codec<M>, src: seq<byte>, done: seq<M>, bs: seq<byte>)
    requires Progress(x, src, done, bs)
    ensures var (o, rest) := Decode(x, bs);
            && (!o.Message? ==> DecodeAll(x, src).0 == done)
            && (o.Message? ==> Progress(x, src, done + [o.m], rest) && o.m in DecodeAll(x, src).0)
  {
    var (o, rest) := Decode(x, bs);
    hide Decode;
    if o.Message? {
      assert done + ([o.m] + DecodeAll(x, rest).0) == done + [o.m] + DecodeAll(x, rest).0;
      assert DecodeAll(x, src).0[|done|] == o.m;
    }
  }

  /**
   Copies messages until the first that does not decode. It succeeds exactly when each of them can be written again,
   and then the new log holds them and nothing else, and ends cleanly.
   */
  method RepairWalFile<M(!new)>(x: Codec<M>, src: seq<byte>) returns (ok: bool, dst: seq<byte>)
    requires Inverts(x)
    ensures ok <==> forall m | m in DecodeAll(x, src).0 :: Fits(x, m)
    ensures ok ==> DecodeAll(x, dst) == (DecodeAll(x, src).0, true)
  {
    var dec := new Decoder(x, src);
    var enc := new Encoder(x);
    ghost var done: seq<M> := [];
    assert [] + DecodeAll(x, src).0 == DecodeAll(x, src).0;
    assert dec.Remaining() == src && Progress(x, src, done, dec.Remaining());
    hide Fits, Frame, Decode, Progress;
    while true
      invariant dec.Valid() && dec.x == x && enc.x == x
      invariant forall m | m in done :: Fits(x, m)
      invariant enc.out == EncodeAll(x, done)
      invariant Progress(x, src, done, dec.Remaining())
      decreases |dec.Remaining()|
    {
      ghost var before := dec.Remaining();
      var o := dec.DecodeNext();
      ProgressStep(x, src, done, before);
      if !o.Message? { break; }
      var written := enc.Encode(o.m);
      if !written { return false, enc.out; }
      EncodeAllAppend(x, done, o.m);
      done := done + [o.m];
    }
    RoundTrip(x, done);
    return true, enc.out;
  }

  // ---------------------------------------------------------------- records cut short

  /** The checksum tells the data from every zero-filled prefix of it, and from no data. */
  ghost predicate DetectsCuts<M>(x: Codec<M>, data: seq<byte>) {
    && (data != [] ==> x.crc(data) != x.crc([]))
    && forall k | 0 <= k < |data| && x.crc(Buffer(data[..k], |data|)) == x.crc(data) :: Buffer(data[..k], |data|) == data
  }

  /** A frame cut after k bytes lost only zero bytes, and still has a byte of its length and one of its data if there was any. */
  predicate LostOnlyZeros(data: seq<byte>, k: nat) {
    k > 4 && if k <= 8 then data == [] else forall i | k - 8 <= i < |data| :: data[i] == 0
  }

  /**
   A frame cut short is refused, except when only zero bytes were lost: a short read is filled up with zeros, and the
   message decodes as if nothing had happened.
   */
  lemma CutFrame<M(!new)>(x: Codec<M>, m: M, k: nat)
    requires Inverts(x) && Fits(x, m) && k < |Frame(x, m)| && DetectsCuts(x, x.marshal(m))
    ensures Decode(x, Frame(x, m)[..k]).0 ==
            if k == 0 then Eof else if LostOnlyZeros(x.marshal(m), k) then Message(m) else Corrupt
    ensures Decode(x, Frame(x, m)[..k]).0.Message? ==> Decode(x, Frame(x, m)[..k]).1 == []
  {
    hide Decode;
    if k <= 4 { CutInChecksum(x, m, k); }
    else if k < 8 { CutInLength(x, m, k); }
    else { CutInData(x, m, k - 8); }
  }

  /** The parts of a frame that was cut in its data. */
  lemma CutParts<M>(x: Codec<M>, m: M, k: nat)
    requires Fits(x, m) && k < |x.marshal(m)|
    ensures var cut, data := Frame(x, m)[..8 + k], x.marshal(m);
            && cut != [] && Get32(Buffer(cut, 4)) == x.crc(data) && Rest(cut, 4) == Put32(|data|) + data[..k]
            && Get32(Buffer(Rest(cut, 4), 4)) == |data| && Rest(Rest(cut, 4), 4) == data[..k] && Rest(data[..k], |data|) == []
  {
    hide Put32, Get32;
    var data := x.marshal(m);
    assert Frame(x, m)[..8 + k] == Put32(x.crc(data)) + (Put32(|data|) + data[..k]);
    BufferTakes(Put32(x.crc(data)), Put32(|data|) + data[..k]);
    BufferTakes(Put32(|data|), data[..k]);
    PutGet(x.crc(data));
    PutGet(|data|);
    hide Frame, Buffer;
  }

  lemma CutInData<M(!new)>(x: Codec<M>, m: M, k: nat)
    requires Inverts(x) && Fits(x, m) && k < |x.marshal(m)| && DetectsCuts(x, x.marshal(m))
    ensures Decode(x, Frame(x, m)[..8 + k]) == (if LostOnlyZeros(x.marshal(m), 8 + k) then Message(m) else Corrupt, [])
  {
    hide Put32, Get32, Frame, Rest, Buffer;
    CutParts(x, m, k);
    ZeroFill(x.marshal(m), k);
    assert x.unmarshal(x.marshal(m)) == Some(m);
  }

  /**
   A loss that goes unnoticed, whatever the checksum: of a record whose data ends in zeros, any of those can be missing, as
   long as a byte of the data is there.
   */
  lemma CutCanGoUnnoticed<M(!new)>(x: Codec<M>, m: M, k: nat)
    requires Inverts(x) && Fits(x, m) && 0 < k < |x.marshal(m)|
    requires forall i | k <= i < |x.marshal(m)| :: x.marshal(m)[i] == 0
    ensures Decode(x, Frame(x, m)[..8 + k]) == (Message(m), [])
  {
    hide Put32, Get32, Frame, Rest, Buffer;
    CutParts(x, m, k);
    ZeroFill(x.marshal(m), k);
    assert x.unmarshal(x.marshal(m)) == Some(m);
  }

  lemma ZeroFill(data: seq<byte>, k: nat)
    requires k <= |data|
    ensures Buffer(data[..k], |data|) == data <==> forall i | k <= i < |data| :: data[i] == 0
  {}

  lemma CutInChecksum<M>(x: Codec<M>, m: M, k: nat)
    requires Fits(x, m) && k <= 4
    ensures Decode(x, Frame(x, m)[..k]).0 == if k == 0 then Eof else Corrupt
  {}

  lemma CutInLength<M(!new)>(x: Codec<M>, m: M, k: nat)
    requires Inverts(x) && Fits(x, m) && 4 < k < 8 && DetectsCuts(x, x.marshal(m))
    ensures Decode(x, Frame(x, m)[..k]) == (if x.marshal(m) == [] then Message(m) else Corrupt, [])
  {
    var data := x.marshal(m);
    var head := Put32(|data|)[..k - 4];
    assert Frame(x, m)[..k] == Put32(x.crc(data)) + head;
    BufferTakes(Put32(x.crc(data)), head);
    PutGet(x.crc(data));
    assert Rest(head, 4) == [];
    assert x.unmarshal(data) == Some(m);
    if data == [] {
      assert Buffer(head, 4) == [0, 0, 0, 0];
    }
    assert forall n: nat :: Rest([], n) == [];
    assert Buffer([], 0) == [];
    hide Put32, Frame;
  }

  /** A log whose last write was torn: everything before it survives, and the torn message only if it lost nothing but zeros. */
  lemma TornLog<M(!new)>(x: Codec<M>, ms: seq<M>, m: M, k: nat)
    requires Inverts(x) && (forall n | n in ms :: Fits(x, n)) && Fits(x, m)
    requires k < |Frame(x, m)| && DetectsCuts(x, x.marshal(m))
    ensures DecodeAll(x, EncodeAll(x, ms) + Frame(x, m)[..k]) ==
              if k > 0 && LostOnlyZeros(x.marshal(m), k) then (ms + [m], true) else (ms, k == 0)
  {
    var cut := Frame(x, m)[..k];
    DecodePrefix(x, ms, cut);
    CutFrame(x, m, k);
    assert DecodeAll(x, []) == ([], true);
    assert ms + [] == ms && [m] + [] == [m];
    hide Frame, Decode;
  }
}
