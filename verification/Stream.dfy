/** Length-prefixed streams: the frame reader and writer of
    rust-jfs/src/utils.rs (and of goframe with the settings of tcpserver.go),
    and the chunked reader of jfsnotify/ipc.go. */
module Stream {
  import opened Prelude
  import opened Wire

  /** A payload whose length fits the four-byte header. */
  predicate Framed(m: Str) {
    |m| < 0x1_0000_0000
  }

  /** write_length_prefixed_frame */
  function Frame(m: Str): Str
    requires Framed(m)
  {
    U32(|m|) + m
  }

  /** The length comes first, most significant byte first, and does not count itself. */
  lemma FrameBytes(m: Str)
    requires Framed(m)
    ensures |Frame(m)| == 4 + |m| && Number(Frame(m), 0) == |m| && Frame(m)[4..] == m
  {
    BigEndian(|m|);
  }

  function Encode(msgs: seq<Str>): Str
    requires forall m | m in msgs :: Framed(m)
  {
    if msgs == [] then [] else Frame(msgs[0]) + Encode(msgs[1..])
  }

  /** read_length_prefixed_frame until a read comes up short. */
  function Decode(bytes: Str): seq<Str> {
    if |bytes| < 4 || |bytes| < 4 + FromU32(bytes[..4]) then []
    else
      var n := FromU32(bytes[..4]);
      [bytes[4..4 + n]] + Decode(bytes[4 + n..])
  }

  /** A reader that has received only part of a stream has decoded a prefix of
      its messages; one that has received all of it has decoded all of them. */
  lemma {:induction false} DecodeReceived(msgs: seq<Str>, cut: nat)
    requires forall m | m in msgs :: Framed(m)
    requires cut <= |Encode(msgs)|
    ensures Decode(Encode(msgs)[..cut]) <= msgs
    ensures cut == |Encode(msgs)| ==> Decode(Encode(msgs)[..cut]) == msgs
  {
    if msgs != [] {
      var first, rest := msgs[0], Encode(msgs[1..]);
      var got := Encode(msgs)[..cut];
      assert first in msgs;
      if cut >= 4 {
        U32RoundTrip(|first|);
        assert got[..4] == U32(|first|);
      }
      if cut >= 4 + |first| {
        var all := Encode(msgs);
        assert all[4..4 + |first|] == first && all[4 + |first|..] == rest;
        assert got[4..4 + |first|] == all[4..4 + |first|];
        DecodeReceived(msgs[1..], cut - 4 - |first|);
        assert got[4 + |first|..] == all[4 + |first|..][..cut - 4 - |first|];
        assert msgs == [first] + msgs[1..];
      }
    }
  }

  lemma {:induction false} EncodeAppend(a: seq<Str>, b: seq<Str>)
    requires forall m | m in a + b :: Framed(m)
    ensures forall m | m in a :: Framed(m)
    ensures forall m | m in b :: Framed(m)
    ensures Encode(a + b) == Encode(a) + Encode(b)
  {
    forall m | m in a ensures Framed(m) { assert m in a + b; }
    forall m | m in b ensures Framed(m) { assert m in a + b; }
    if a == [] {
      assert a + b == b;
    } else {
      assert (a + b)[0] == a[0] && (a + b)[1..] == a[1..] + b;
      EncodeAppend(a[1..], b);
      assert Frame(a[0]) + (Encode(a[1..]) + Encode(b)) == (Frame(a[0]) + Encode(a[1..])) + Encode(b);
    }
  }

  // ------------------------------------------------------------- ipc.go

  /** What the IPC library hands out: a payload, or a status. */
  datatype IpcMsg = IpcMsg(msgType: int, reconnecting: bool, data: Str) {
    predicate Broken() {
      msgType == -2 || (msgType == -1 && reconnecting)
    }

    /** 4 + len(m.Data) fits the four-byte header. */
    predicate Fits() {
      |data| + 4 < 0x1_0000_0000
    }

    function Packed(): (r: Str)
      ensures Fits() ==> Framed(r)
    {
      PackageMsg(msgType, data)
    }
  }

  predicate AllFit(ms: seq<IpcMsg>) {
    forall m | m in ms :: m.Fits()
  }

  /** The messages that reach the byte stream: those before the first broken pipe. */
  function Delivered(ms: seq<IpcMsg>): (r: seq<Str>)
    ensures AllFit(ms) ==> forall m | m in r :: Framed(m)
  {
    if ms == [] || ms[0].Broken() then [] else [ms[0].Packed()] + Delivered(ms[1..])
  }

  /** They are packed in order, up to the first message that reports a broken pipe:
      type -2, or -1 with the status of a reconnect. */
  lemma {:induction false} DeliveredExactly(ms: seq<IpcMsg>, k: nat)
    requires k <= |ms|
    requires forall i | 0 <= i < k :: ms[i].msgType != -2 && (ms[i].msgType == -1 ==> !ms[i].reconnecting)
    requires k < |ms| ==> ms[k].msgType == -2 || (ms[k].msgType == -1 && ms[k].reconnecting)
    ensures Delivered(ms) == seq(k, i requires 0 <= i < k => PackageMsg(ms[i].msgType, ms[i].data))
    decreases k
  {
    if k > 0 {
      DeliveredExactly(ms[1..], k - 1);
    }
  }

  datatype ReadError = NoMessage | ClosedPipe

  class IpcConn {
    var source: seq<IpcMsg>     // what client.Read() will return, in order
    var msgCache: Option<Str>   // nil or a frame
    var cacheOffset: nat

    ghost predicate Valid()
      reads this
    {
      msgCache.Some? ==> cacheOffset < |msgCache.value|
    }

    /** The part of the cached frame that no read has returned yet. */
    ghost function Left(): Str
      reads this
      requires Valid()
    {
      if msgCache.Some? then msgCache.value[cacheOffset..] else []
    }

    constructor (source: seq<IpcMsg>)
      ensures Valid() && Left() == [] && this.source == source
    {
      this.source, msgCache, cacheOffset := source, None, 0;
    }

    /** With nothing cached, Read fails at the end of the source or on a broken
        pipe; otherwise it takes the next message. Either way it then returns
        the next bytes of the frame at hand, as many as `b` holds. */
    method Read(b: array<byte>) returns (r: Result<nat, ReadError>)
      requires Valid()
      requires source != [] ==> source[0].Fits()
      modifies this, b
      ensures Valid()
      ensures r == Err(NoMessage) <==> old(Left() == [] && source == [])
      ensures r == Err(ClosedPipe) <==>
                old(Left() == [] && source != []
                    && (source[0].msgType == -2 || (source[0].msgType == -1 && source[0].reconnecting)))
      ensures r.Err? ==> b[..] == old(b[..]) && old(Left()) == [] && Delivered(old(source)) == []
      ensures r.Ok? ==> r.value <= b.Length && b[r.value..] == old(b[r.value..])
      ensures r.Ok? && b.Length > 0 ==> r.value > 0
      ensures r.Ok? && old(Left()) != [] ==> source == old(source) && old(Left()) == b[..r.value] + Left()
      ensures r.Ok? && old(Left()) == [] ==>
                source == old(source)[1..] && Frame(old(source)[0].Packed()) == b[..r.value] + Left()
    {
      if msgCache.None? {
        if source == [] {
          return Err(NoMessage);
        }
        var m := source[0];
        source := source[1..];
        if m.Broken() {
          return Err(ClosedPipe);
        }
        var l := U32(4 + |m.data|);
        var t := U32(AsU32(m.msgType));
        msgCache := Some(l + t + m.data);
        cacheOffset := 0;
        assert l + t + m.data == Frame(m.Packed());
      }
      var cache, o := msgCache.value, cacheOffset;
      var size := Min(b.Length, |cache| - o);
      CopyOut(b, cache, o, size);
      assert cache[o..] == cache[o..o + size] + cache[o + size..];
      cacheOffset := cacheOffset + size;
      if cacheOffset >= |cache| {
        msgCache := None;
      }
      return Ok(size);
    }
  }

  /** copy(b, cache[o:o+size]) */
  method CopyOut(b: array<byte>, cache: Str, o: nat, size: nat)
    requires size <= b.Length && o + size <= |cache|
    modifies b
    ensures b[..size] == cache[o..o + size]
    ensures b[size..] == old(b[size..])
  {
    var i := 0;
    while i < size
      invariant 0 <= i <= size
      invariant b[..i] == cache[o..o + i]
      invariant b[size..] == old(b[size..])
    {
      b[i] := cache[o + i];
      i := i + 1;
    }
  }

  /** Any run of reads, whatever the buffer sizes (zero included) and whenever
      the reader stops: the bytes received are a prefix of the encoded messages,
      all of them if a read failed, so decoding them gives a prefix of the
      messages that came before the pipe broke. */
  method ReadRun(source: seq<IpcMsg>, sizes: seq<nat>) returns (got: Str, failed: bool)
    requires AllFit(source)
    ensures got <= Encode(Delivered(source))
    ensures failed ==> got == Encode(Delivered(source))
    ensures Decode(got) <= Delivered(source)
    ensures failed ==> Decode(got) == Delivered(source)
  {
    var c := new IpcConn(source);
    got, failed := [], false;
    ghost var all := Encode(Delivered(source));
    var i := 0;
    while i < |sizes| && !failed
      modifies c
      invariant 0 <= i <= |sizes|
      invariant c.Valid()
      invariant !failed ==> AllFit(c.source)
      invariant !failed ==> all == got + (c.Left() + Encode(Delivered(c.source)))
      invariant failed ==> all == got
    {
      var b := new byte[sizes[i]](_ => 0);
      ghost var left, src := c.Left(), c.source;
      var r := c.Read(b);
      if r.Ok? {
        Advance(got, b[..r.value], c.Left(), left, src);
        got := got + b[..r.value];
      } else {
        NothingLeft(got, src);
        failed := true;
      }
      i := i + 1;
    }
    DecodeReceived(Delivered(source), |got|);
    assert got == all[..|got|];
  }

  lemma NothingLeft(got: Str, src: seq<IpcMsg>)
    requires AllFit(src) && Delivered(src) == []
    ensures got + ([] + Encode(Delivered(src))) == got
  {
  }

  /** One successful read, seen from the whole stream. */
  lemma Advance(got: Str, bytes: Str, left': Str, left: Str, src: seq<IpcMsg>)
    requires AllFit(src)
    requires left != [] ==> left == bytes + left'
    requires left == [] ==> src != [] && !src[0].Broken() && Frame(src[0].Packed()) == bytes + left'
    ensures var src' := if left == [] then src[1..] else src;
            AllFit(src') &&
            got + (left + Encode(Delivered(src))) == (got + bytes) + (left' + Encode(Delivered(src')))
  {
    var src' := if left == [] then src[1..] else src;
    var rest := Encode(Delivered(src'));
    assert left + Encode(Delivered(src)) == (bytes + left') + rest;
    assert got + ((bytes + left') + rest) == (got + bytes) + (left' + rest);
  }
}
