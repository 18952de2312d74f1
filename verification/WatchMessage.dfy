/** WATCH, UNWATCH and CLEAR messages: how the clients pack them
    (jfsnotify/backend_jfs.go, rust-jfs/src/watcher.rs) and how the proxy takes
    them apart (k8s/cmd/fsnotify-proxy/app/app.go). */
module WatchMessage {
  import opened Prelude
  import opened Wire

  /** One 255-byte slot per string. */
  function Slots(ss: seq<Str>): (r: Str)
    ensures |r| == SLOT * |ss|
  {
    if ss == [] then [] else Slot(ss[0]) + Slots(ss[1..])
  }

  /** The channel name in the first slot, then one slot per path. */
  function Payload(name: Str, paths: seq<Str>): Str {
    Slots([name] + paths)
  }

  /** The strings the proxy reads out of a payload. The last slot may be short. */
  function SlotStrings(data: Str): seq<Str>
    decreases |data|
  {
    if data == [] then []
    else
      var n := Min(|data|, SLOT);
      [Trim(data[..n])] + SlotStrings(data[n..])
  }

  predicate AllSlotValid(ss: seq<Str>) {
    forall s | s in ss :: SlotValid(s)
  }

  lemma {:induction false} SlotStringsOfSlots(ss: seq<Str>)
    ensures SlotStrings(Slots(ss)) == seq(|ss|, i requires 0 <= i < |ss| => Trim(Slot(ss[i])))
  {
    if ss != [] {
      var data := Slots(ss);
      assert data[..SLOT] == Slot(ss[0]);
      assert data[SLOT..] == Slots(ss[1..]);
      SlotStringsOfSlots(ss[1..]);
    }
  }

  /** Slot by slot: the name is in the first, the path numbered `i` behind it. */
  lemma {:induction false} SlotsAt(ss: seq<Str>, i: nat)
    requires i < |ss|
    ensures 255 * (i + 1) <= |Slots(ss)| && Slots(ss)[255 * i..255 * (i + 1)] == Slot(ss[i])
  {
    if i > 0 {
      SlotsAt(ss[1..], i - 1);
      assert Slots(ss)[255 * i..255 * (i + 1)] == Slots(ss[1..])[255 * (i - 1)..255 * i];
    }
  }

  lemma PayloadAt(name: Str, paths: seq<Str>, i: nat)
    ensures |Payload(name, paths)| == 255 * (|paths| + 1) && Payload(name, paths)[..255] == Slot(name)
    ensures i < |paths| ==> Payload(name, paths)[255 * (i + 1)..255 * (i + 2)] == Slot(paths[i])
  {
    SlotsAt([name] + paths, 0);
    if i < |paths| {
      SlotsAt([name] + paths, i + 1);
    }
  }

  /** What is packed is what is parsed, name and paths in order, exactly when
      every string is slot-valid. */
  lemma PayloadRoundTrip(name: Str, paths: seq<Str>)
    ensures SlotStrings(Payload(name, paths)) == [name] + paths
            <==> SlotValid(name) && AllSlotValid(paths)
  {
    var ss := [name] + paths;
    SlotStringsOfSlots(ss);
    var back := seq(|ss|, i requires 0 <= i < |ss| => Trim(Slot(ss[i])));
    forall i | 0 <= i < |ss|
      ensures back[i] == ss[i] <==> SlotValid(ss[i])
    {
      SlotRoundTrip(ss[i]);
    }
    assert ss[0] == name;
    assert forall i | 0 <= i < |paths| :: ss[i + 1] == paths[i];
    if back == ss {
      assert forall i | 0 <= i < |ss| :: SlotValid(ss[i]);
    }
    if SlotValid(name) && AllSlotValid(paths) {
      assert forall i | 0 <= i < |ss| :: SlotValid(ss[i]);
      assert back == ss;
    }
  }

  // ------------------------------------------------------------ requests

  datatype Request =
    | Watch(channel: Str, keys: seq<Str>)
    | Unwatch(channel: Str, keys: seq<Str>)
    | Clear(channel: Str)

  /** strings.ToLower on ASCII letters. */
  function Lower(s: Str): (r: Str)
    ensures |r| == |s|
  {
    seq(|s|, i requires 0 <= i < |s| => if 65 <= s[i] <= 90 then s[i] + 32 else s[i])
  }

  const CAPITALS: Str := [
    65, 66, 67, 68, 69, 70, 71, 72, 73, 74, 75, 76, 77, 78, 79, 80, 81, 82, 83, 84, 85, 86, 87, 88, 89, 90]

  const SMALLS: Str := [
    97, 98, 99, 100, 101, 102, 103, 104, 105, 106, 107, 108, 109, 110, 111, 112, 113, 114, 115, 116, 117, 118, 119,
    120, 121, 122]

  /** Each capital becomes the small letter in its place of the alphabet; all else
      stays; and lower-casing twice changes no more. */
  lemma LowerExactly(s: Str, i: nat)
    requires i < |s|
    ensures forall k | 0 <= k < 26 && s[i] == CAPITALS[k] :: Lower(s)[i] == SMALLS[k]
    ensures s[i] !in CAPITALS ==> Lower(s)[i] == s[i]
    ensures Lower(Lower(s)) == Lower(s)
  {
    assert s[i] !in CAPITALS ==> !(65 <= s[i] <= 90) by {
      assert 65 <= s[i] <= 90 ==> s[i] == CAPITALS[s[i] - 65];
    }
  }

  /** The name and the keys of a parsed payload. */
  function NameAndKeys(strs: seq<Str>): (Str, seq<Str>) {
    if strs == [] then ([], []) else (strs[0], strs[1..])
  }

  /** The part of processWatcherMessage that reads the message. */
  function ParseRequest(msg: Str): Result<Request, string> {
    match UnpackMsg(msg)
    case Err(e) => Err(e)
    case Ok((t, data)) =>
      var (name, keys) := NameAndKeys(SlotStrings(data));
      if t == MSG_CLEAR then Ok(Clear(Lower(Trim(data))))
      else if t == MSG_UNWATCH then Ok(Unwatch(Lower(name), keys))
      else if t == MSG_WATCH then Ok(Watch(Lower(name), keys))
      else Err("unknown msg")
  }

  /** A client's message reaches the proxy with its paths intact. */
  lemma RequestRoundTrip(msgType: int, name: Str, paths: seq<Str>)
    requires msgType == MSG_WATCH || msgType == MSG_UNWATCH
    requires SlotValid(name) && AllSlotValid(paths)
    ensures ParseRequest(PackageMsg(msgType, Payload(name, paths))) ==
            Ok(if msgType == MSG_WATCH then Watch(Lower(name), paths) else Unwatch(Lower(name), paths))
  {
    MessageRoundTrip(msgType, Payload(name, paths));
    PayloadRoundTrip(name, paths);
    assert ([name] + paths)[1..] == paths;
  }

  lemma ClearRoundTrip(name: Str)
    requires SlotValid(name)
    ensures ParseRequest(PackageMsg(MSG_CLEAR, Slot(name))) == Ok(Clear(Lower(name)))
  {
    MessageRoundTrip(MSG_CLEAR, Slot(name));
    SlotRoundTrip(name);
  }

  // ---------------------------------------------- the code's own loops

  lemma {:induction false} SlotsAppend(a: seq<Str>, s: Str)
    ensures Slots(a + [s]) == Slots(a) + Slot(s)
  {
    if a == [] {
      assert [] + [s] == [s];
      assert Slot(s) + [] == Slot(s);
    } else {
      assert (a + [s])[1..] == a[1..] + [s];
      SlotsAppend(a[1..], s);
    }
  }

  /** One string goes into the next slot of a buffer that is zero from there on. */
  method CopySlot(data: array<byte>, offset: nat, s: Str, ghost done: seq<Str>)
    requires offset + SLOT <= data.Length && data[..offset] == Slots(done)
    requires forall k | offset <= k < data.Length :: data[k] == 0
    modifies data
    ensures data[..offset + SLOT] == Slots(done + [s])
    ensures forall k | offset + SLOT <= k < data.Length :: data[k] == 0
  {
    CopyInto(data, offset, s);
    SlotsAppend(done, s);
    assert data[..offset + SLOT] == data[..offset] + data[offset..offset + SLOT];
    assert forall k | offset + SLOT <= k < data.Length :: data[k] == data[offset + SLOT..][k - offset - SLOT];
  }

  /** Watcher.send and send_watch_message: fill a zeroed buffer by a moving
      offset and put the message type in front. */
  method Send(watchType: int, name: Str, watches: seq<Str>) returns (pack: Str)
    ensures pack == PackageMsg(watchType, Payload(name, watches))
  {
    var data := new byte[(|watches| + 1) * SLOT](_ => 0);
    var offset := 0;
    CopySlot(data, 0, name, []);
    offset := offset + SLOT;
    ghost var all := [name] + watches;
    assert [] + [name] == all[..1];
    var i := 0;
    while i < |watches|
      invariant 0 <= i <= |watches|
      invariant offset == (i + 1) * SLOT
      invariant data[..offset] == Slots(all[..i + 1])
      invariant forall k | offset <= k < data.Length :: data[k] == 0
    {
      CopySlot(data, offset, watches[i], all[..i + 1]);
      assert all[..i + 2] == all[..i + 1] + [watches[i]];
      offset := offset + SLOT;
      i := i + 1;
    }
    assert all[..|watches| + 1] == all;
    assert data[..] == data[..offset];
    pack := PackageMsg(watchType, data[..]);
  }

  lemma NextSlot(data: Str, offset: nat)
    requires offset < |data|
    ensures var strlen := Min(|data| - offset, SLOT);
            SlotStrings(data[offset..]) ==
            [Trim(data[offset..offset + strlen])] + SlotStrings(data[Min(offset + SLOT, |data|)..])
  {
    var strlen, rest := Min(|data| - offset, SLOT), data[offset..];
    assert rest[..strlen] == data[offset..offset + strlen];
    assert rest[strlen..] == data[offset + strlen..];
  }

  /** The parse loop of the proxy; it ends on every input. */
  method ParseMsg(jfsMsg: Str) returns (name: Str, keys: seq<Str>)
    ensures (name, keys) == NameAndKeys(SlotStrings(jfsMsg))
  {
    var paths: seq<Str> := [];
    var offset := 0;
    var n := |jfsMsg|;
    while offset < n
      invariant 0 <= offset
      invariant paths + SlotStrings(jfsMsg[Min(offset, n)..]) == SlotStrings(jfsMsg)
    {
      var strlen := Min(n - offset, SLOT);
      NextSlot(jfsMsg, offset);
      paths := paths + [Trim(jfsMsg[offset..offset + strlen])];
      offset := offset + SLOT;
    }
    assert paths + SlotStrings(jfsMsg[n..]) == paths;
    if |paths| == 0 {
      return [], [];
    }
    if |paths| == 1 {
      return paths[0], [];
    }
    return paths[0], paths[1..];
  }

  /** The head of processWatcherMessage: unpack, then parse by type. */
  method ReadRequest(msg: Str) returns (request: Result<Request, string>)
    ensures request == ParseRequest(msg)
  {
    var unpacked := UnpackMsg(msg);
    if unpacked.Err? {
      return Err(unpacked.error);
    }
    var (jfsMsgType, jfsMsg) := unpacked.value;
    if jfsMsgType == MSG_CLEAR {
      return Ok(Clear(Lower(Trim(jfsMsg))));
    }
    if jfsMsgType == MSG_UNWATCH {
      var channelId, keys := ParseMsg(jfsMsg);
      return Ok(Unwatch(Lower(channelId), keys));
    }
    if jfsMsgType == MSG_WATCH {
      var channelId, keys := ParseMsg(jfsMsg);
      return Ok(Watch(Lower(channelId), keys));
    }
    return Err("unknown msg");
  }
}
