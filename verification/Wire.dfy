/** The message and event codec of jfsnotify/utils.go. */
module Wire {
  import opened Prelude

  const MSG_WATCH: int := 1
  const MSG_UNWATCH: int := 2
  const MSG_CLEAR: int := 3
  const MSG_EVENT: int := 6

  const SLOT: nat := 255
  const FRAME_SIZE: nat := 514

  const OP_WRITE: uint32 := 2

  datatype Event = Event(name: Str, op: uint32, key: Str)

  // ---------------------------------------------------------------- uint32

  /** binary.BigEndian.PutUint32 */
  function U32(x: uint32): (r: Str)
    ensures |r| == 4
  {
    var x1 := x / 0x100;
    var x2 := x1 / 0x100;
    [x2 / 0x100, x2 % 0x100, x1 % 0x100, x % 0x100]
  }

  /** binary.BigEndian.Uint32 */
  function FromU32(b: Str): uint32
    requires |b| == 4
  {
    ((b[0] as int * 0x100 + b[1] as int) * 0x100 + b[2] as int) * 0x100 + b[3] as int
  }

  /** The number that four bytes stand for, the most significant first. */
  function Number(b: Str, at: nat): int
    requires at + 4 <= |b|
  {
    b[at] as int * 0x100_0000 + b[at + 1] as int * 0x1_0000 + b[at + 2] as int * 0x100 + b[at + 3] as int
  }

  lemma BigEndian(x: uint32)
    ensures Number(U32(x), 0) == x
  {
  }

  lemma U32RoundTrip(x: uint32)
    ensures FromU32(U32(x)) == x
  {
  }

  /** uint32(n) of a Go int. */
  function AsU32(n: int): uint32 {
    n % 0x1_0000_0000
  }

  // ----------------------------------------------------------------- slots

  function Zeros(n: nat): (r: Str)
    ensures |r| == n
    ensures forall i | 0 <= i < n :: r[i] == 0
  {
    seq(n, _ => 0)
  }

  /** copy into a zeroed 255-byte buffer: longer strings are cut. */
  function Slot(s: Str): (r: Str)
    ensures |r| == SLOT
  {
    s[..Min(|s|, SLOT)] + Zeros(SLOT - Min(|s|, SLOT))
  }

  function TrimLeft(s: Str): (r: Str)
    ensures |r| <= |s|
    ensures r != [] ==> r[0] != 0
  {
    if s != [] && s[0] == 0 then TrimLeft(s[1..]) else s
  }

  function TrimRight(s: Str): (r: Str)
    ensures r <= s
    ensures r != [] ==> r[|r| - 1] != 0
  {
    if s != [] && s[|s| - 1] == 0 then TrimRight(s[..|s| - 1]) else s
  }

  /** bytes.Trim(s, "\x00") */
  function Trim(s: Str): (r: Str)
    ensures |r| <= |s|
    ensures r != [] ==> r[0] != 0 && r[|r| - 1] != 0
  {
    TrimRight(TrimLeft(s))
  }

  /** What a slot can carry unchanged. */
  predicate SlotValid(s: Str) {
    && |s| <= SLOT
    && (s != [] ==> s[0] != 0 && s[|s| - 1] != 0)
  }

  lemma {:induction false} TrimRightPadding(s: Str, n: nat)
    requires s != [] ==> s[|s| - 1] != 0
    ensures TrimRight(s + Zeros(n)) == s
  {
    if n == 0 {
      assert s + Zeros(0) == s;
    } else {
      TrimRightPadding(s, n - 1);
      assert (s + Zeros(n))[..|s| + n - 1] == s + Zeros(n - 1);
    }
  }

  lemma {:induction false} TrimLeftZeros(n: nat)
    ensures TrimLeft(Zeros(n)) == []
  {
    if n > 0 {
      TrimLeftZeros(n - 1);
      assert Zeros(n)[1..] == Zeros(n - 1);
    }
  }

  /** Reading a slot back gives the string that was put in exactly when the
      string fits and neither starts nor ends with NUL. */
  lemma SlotRoundTrip(s: Str)
    ensures Trim(Slot(s)) == s <==> SlotValid(s)
  {
    if SlotValid(s) {
      assert s[..|s|] == s;
      if s == [] {
        assert Slot(s) == Zeros(SLOT);
        TrimLeftZeros(SLOT);
      } else {
        TrimRightPadding(s, SLOT - |s|);
      }
    }
  }

  /** What comes out of a slot can be put back into one. */
  lemma TrimmedIsSlotValid(slot: Str)
    requires |slot| <= SLOT
    ensures SlotValid(Trim(slot))
  {
  }

  // -------------------------------------------------------------- messages

  function PackageMsg(msgType: int, data: Str): Str {
    U32(AsU32(msgType)) + data
  }

  /** UnpackMsg; the nil data of a bare header is the empty sequence. */
  function UnpackMsg(data: Str): Result<(int, Str), string> {
    if |data| < 4 then Err("invalid message to unpack")
    else Ok((FromU32(data[0..4]), data[4..]))
  }

  /** The four types, as they are on the wire. */
  lemma TypeBytes(data: Str)
    ensures PackageMsg(MSG_WATCH, data) == [0, 0, 0, 1] + data
    ensures PackageMsg(MSG_UNWATCH, data) == [0, 0, 0, 2] + data
    ensures PackageMsg(MSG_CLEAR, data) == [0, 0, 0, 3] + data
    ensures PackageMsg(MSG_EVENT, data) == [0, 0, 0, 6] + data
  {
  }

  /** The message type survives modulo 2^32, the payload always. */
  lemma MessageRoundTrip(msgType: int, data: Str)
    ensures UnpackMsg(PackageMsg(msgType, data)) == Ok((msgType % 0x1_0000_0000, data))
  {
    U32RoundTrip(AsU32(msgType));
    var m := PackageMsg(msgType, data);
    assert m[0..4] == U32(AsU32(msgType));
    assert m[4..] == data;
  }

  // ---------------------------------------------------------------- events

  function Record(e: Event): (r: Str)
    ensures |r| == FRAME_SIZE
  {
    Slot(e.name) + U32(e.op) + Slot(e.key)
  }

  function Records(es: seq<Event>): Str {
    if es == [] then [] else Record(es[0]) + Records(es[1..])
  }

  function DecodeRecord(r: Str): Event
    requires |r| == FRAME_SIZE
  {
    Event(Trim(r[0..255]), FromU32(r[255..259]), Trim(r[259..514]))
  }

  function DecodeRecords(data: Str): (es: seq<Event>)
    ensures |es| == |data| / FRAME_SIZE
  {
    if |data| < FRAME_SIZE then []
    else [DecodeRecord(data[..FRAME_SIZE])] + DecodeRecords(data[FRAME_SIZE..])
  }

  /** Byte by byte: a string at the start of its slot, zeros behind it. */
  lemma SlotBytes(s: Str, i: nat)
    requires i < 255
    ensures Slot(s)[i] == if i < |s| then s[i] else 0
  {
  }

  lemma RecordBytes(e: Event, i: nat)
    requires i < 255
    ensures Record(e)[i] == Slot(e.name)[i] && Number(Record(e), 255) == e.op && Record(e)[259 + i] == Slot(e.key)[i]
  {
    BigEndian(e.op);
  }

  /** And a message with one event: type in 4 bytes, name in 255, Op in 4, Key in
      255, numbers with the most significant byte first. */
  lemma MessageBytes(msgType: int, e: Event, i: nat)
    requires 0 <= msgType < 0x1_0000_0000 && i < 255
    ensures var m := PackageMsg(msgType, Record(e));
            && |m| == 518
            && Number(m, 0) == msgType
            && m[4 + i] == (if i < |e.name| then e.name[i] else 0)
            && Number(m, 259) == e.op
            && m[263 + i] == (if i < |e.key| then e.key[i] else 0)
  {
    BigEndian(msgType);
    RecordBytes(e, i);
    var m, r := PackageMsg(msgType, Record(e)), Record(e);
    assert forall k | 0 <= k < 514 :: m[4 + k] == r[k];
    SlotBytes(e.name, i);
    SlotBytes(e.key, i);
  }

  /** UnpackEvent */
  function UnpackEvents(data: Str): Result<seq<Event>, string> {
    if |data| < FRAME_SIZE then Err("invalid event to unpack") else Ok(DecodeRecords(data))
  }

  predicate EventValid(e: Event) {
    SlotValid(e.name) && SlotValid(e.key)
  }

  predicate AllValid(es: seq<Event>) {
    forall e | e in es :: EventValid(e)
  }

  /** What one trip through a record does to an event. */
  function Settled(e: Event): Event {
    Event(Trim(Slot(e.name)), e.op, Trim(Slot(e.key)))
  }

  lemma RecordDecodes(e: Event)
    ensures DecodeRecord(Record(e)) == Settled(e)
    ensures Settled(e) == e <==> EventValid(e)
  {
    var r := Record(e);
    assert r[0..255] == Slot(e.name);
    assert r[255..259] == U32(e.op);
    assert r[259..514] == Slot(e.key);
    U32RoundTrip(e.op);
    SlotRoundTrip(e.name);
    SlotRoundTrip(e.key);
  }

  lemma {:induction false} RecordsDecode(es: seq<Event>, tail: Str)
    requires |tail| < FRAME_SIZE
    ensures DecodeRecords(Records(es) + tail) == seq(|es|, i requires 0 <= i < |es| => Settled(es[i]))
  {
    var data := Records(es) + tail;
    if es == [] {
      assert data == tail;
    } else {
      assert data == Record(es[0]) + (Records(es[1..]) + tail);
      assert data[..FRAME_SIZE] == Record(es[0]);
      assert data[FRAME_SIZE..] == Records(es[1..]) + tail;
      RecordsDecode(es[1..], tail);
      RecordDecodes(es[0]);
    }
  }

  /** The event codec: a batch comes back, whatever partial record follows it,
      exactly when every event of it is slot-valid. */
  lemma EventRoundTrip(es: seq<Event>, tail: Str)
    requires es != [] && |tail| < FRAME_SIZE
    ensures UnpackEvents(Records(es) + tail) == Ok(es) <==> AllValid(es)
  {
    RecordsDecode(es, tail);
    var back := seq(|es|, i requires 0 <= i < |es| => Settled(es[i]));
    assert |Records(es) + tail| >= FRAME_SIZE;
    forall i | 0 <= i < |es|
      ensures back[i] == es[i] <==> EventValid(es[i])
    {
      RecordDecodes(es[i]);
    }
    if back == es {
      assert forall i | 0 <= i < |es| :: back[i] == es[i];
    }
    if AllValid(es) {
      assert forall i | 0 <= i < |es| :: EventValid(es[i]);
      assert back == es;
    }
  }

  lemma {:induction false} DecodedIsValid(data: Str)
    ensures AllValid(DecodeRecords(data))
  {
    if |data| >= FRAME_SIZE {
      var r := data[..FRAME_SIZE];
      TrimmedIsSlotValid(r[0..255]);
      TrimmedIsSlotValid(r[259..514]);
      DecodedIsValid(data[FRAME_SIZE..]);
    }
  }

  /** Decoding any long enough input, encoding and decoding again changes nothing. */
  lemma DecodeIsStable(data: Str)
    requires |data| >= FRAME_SIZE
    ensures UnpackEvents(Records(DecodeRecords(data))) == UnpackEvents(data)
  {
    var es := DecodeRecords(data);
    DecodedIsValid(data);
    EventRoundTrip(es, []);
    assert Records(es) + [] == Records(es);
  }

  /** The Rust decoder (unpack_events) trims the end of a slot only. On bytes
      that are valid UTF-8 it reads back what Go packed exactly when the string
      fits and does not end with NUL. */
  lemma RustSlotRoundTrip(s: Str)
    ensures TrimRight(Slot(s)) == s <==> |s| <= SLOT && (s != [] ==> s[|s| - 1] != 0)
  {
    if |s| <= SLOT && (s != [] ==> s[|s| - 1] != 0) {
      assert s[..|s|] == s;
      TrimRightPadding(s, SLOT - |s|);
    }
  }

  // ------------------------------------------------- the code's own loops

  /** copy(dst[at:at+255], src) over a part of the buffer that is still zero. */
  method CopyInto(dst: array<byte>, at: nat, src: Str)
    requires at + SLOT <= dst.Length
    requires forall k | at <= k < at + SLOT :: dst[k] == 0
    modifies dst
    ensures dst[at..at + SLOT] == Slot(src)
    ensures dst[..at] == old(dst[..at]) && dst[at + SLOT..] == old(dst[at + SLOT..])
  {
    var n := Min(|src|, SLOT);
    var i := 0;
    while i < n
      invariant 0 <= i <= n
      invariant forall k | 0 <= k < dst.Length :: dst[k] == if at <= k < at + i then src[k - at] else old(dst[k])
    {
      dst[at + i] := src[i];
      i := i + 1;
    }
  }

  /** b := make([]byte, 255); copy(b, []byte(s)) */
  method FillSlot(s: Str) returns (r: Str)
    ensures r == Slot(s)
  {
    var b := new byte[SLOT](_ => 0);
    CopyInto(b, 0, s);
    r := b[..];
    assert r == b[0..SLOT];
  }

  method PackEvent(event: Event) returns (data: Str)
    ensures data == Record(event)
  {
    data := [];
    var b := FillSlot(event.name);
    data := data + b;
    data := data + U32(event.op);
    b := FillSlot(event.key);
    data := data + b;
  }

  method UnpackEvent(eventData: Str) returns (r: Result<seq<Event>, string>)
    ensures r == UnpackEvents(eventData)
  {
    if |eventData| < FRAME_SIZE {
      return Err("invalid event to unpack");
    }
    var count := |eventData| / FRAME_SIZE;
    var events: seq<Event> := [];
    var index := 0;
    while index < count
      invariant 0 <= index <= count
      invariant events + DecodeRecords(eventData[FRAME_SIZE * index..]) == DecodeRecords(eventData)
    {
      var offset := FRAME_SIZE * index;
      if |eventData[offset..]| < FRAME_SIZE {
        return Ok(events);
      }
      var event := Event(
        Trim(eventData[offset..offset + 255]),
        FromU32(eventData[offset + 255..offset + 259]),
        Trim(eventData[offset + 259..offset + 259 + 255]));
      DecodeAt(eventData, offset);
      events := events + [event];
      index := index + 1;
    }
    assert events + DecodeRecords(eventData[FRAME_SIZE * index..]) == events;
    return Ok(events);
  }

  /** The record at an offset is the next one decoded. */
  lemma DecodeAt(data: Str, o: nat)
    requires o + FRAME_SIZE <= |data|
    ensures DecodeRecords(data[o..]) ==
            [Event(Trim(data[o..o + 255]), FromU32(data[o + 255..o + 259]), Trim(data[o + 259..o + 514]))]
            + DecodeRecords(data[o + FRAME_SIZE..])
  {
    var rest := data[o..];
    var r := rest[..FRAME_SIZE];
    assert r[0..255] == data[o..o + 255];
    assert r[255..259] == data[o + 255..o + 259];
    assert r[259..514] == data[o + 259..o + 514];
    assert rest[FRAME_SIZE..] == data[o + FRAME_SIZE..];
  }
}
