/** End to end: from a watched pod path to the name a client reads. The key of a
    node event is made by k8s/cmd/fsnotify-daemon/app/v2/app.go, the path map and
    the translation by k8s/cmd/fsnotify-proxy/app, the bytes by jfsnotify/utils.go. */
module Naming {
  import opened Prelude
  import opened Text
  import opened Wire
  import opened Mapping
  import L = LastWatch
  import P = ProxyClient
  import Y = ProxySystem
  import T = ProxyTheorems
  import S = ProxyServer
  import Stream

  // ---------------------------------------------------------- the key

  /** The Key of an event: its name without the last token. */
  function KeyOf(name: Str): Str {
    var tokens := Split(name, SLASH);
    Join(tokens[..|tokens| - 1], SLASH)
  }

  lemma {:induction false} SplitSnoc(p: Str, b: Str)
    requires SLASH !in b
    ensures Split(p + [SLASH] + b, SLASH) == Split(p, SLASH) + [b]
  {
    var s := p + [SLASH] + b;
    if p == [] {
      assert s[1..] == b;
      SplitPlain(b, SLASH);
      assert [[]] + [b] == Split([], SLASH) + [b];
    } else {
      assert s[1..] == p[1..] + [SLASH] + b;
      SplitSnoc(p[1..], b);
      var rest := Split(p[1..], SLASH);
      assert (rest + [b])[1..] == rest[1..] + [b];
    }
  }

  /** The Key of an entry of a directory is that directory. */
  lemma KeyOfEntry(p: Str, b: Str)
    requires SLASH !in b
    ensures KeyOf(p + [SLASH] + b) == p
  {
    SplitSnoc(p, b);
    assert (Split(p, SLASH) + [b])[..|Split(p, SLASH)|] == Split(p, SLASH);
    JoinSplit(p, SLASH);
  }

  lemma OneToken(name: Str)
    requires |Split(name, SLASH)| == 1
    ensures SLASH !in name && KeyOf(name) == []
  {
    var tokens := Split(name, SLASH);
    JoinSplit(name, SLASH);
    assert name == tokens[0] && tokens[0] in tokens;
    assert tokens[..0] == [];
  }

  lemma MoreTokens(name: Str) returns (b: Str)
    requires |Split(name, SLASH)| > 1
    ensures SLASH !in b && name == KeyOf(name) + [SLASH] + b
  {
    var tokens := Split(name, SLASH);
    b := tokens[|tokens| - 1];
    JoinSplit(name, SLASH);
    JoinSnoc(tokens[..|tokens| - 1], b, SLASH);
    assert tokens == tokens[..|tokens| - 1] + [b];
  }

  /** Every name with a slash is such an entry; any other has the empty Key. */
  lemma KeyOfName(name: Str) returns (b: Str)
    ensures SLASH !in b
    ensures if SLASH in name then name == KeyOf(name) + [SLASH] + b else KeyOf(name) == [] && name == b
  {
    if |Split(name, SLASH)| == 1 {
      OneToken(name);
      b := name;
    } else {
      b := MoreTokens(name);
      assert name[|KeyOf(name)|] == SLASH;
    }
  }

  /** An event on a watched path itself, as fsnotify reports for a watched file,
      has the path's parent for a Key: the proxy passes it on only to a client
      that watches the parent too. */
  lemma WatchedFileNeedsParent(m: PathMap, d: Str, f: Str)
    requires SLASH !in f && d + [SLASH] + f in m
    ensures KeyOf(d + [SLASH] + f) in m <==> d in m
    ensures KeyOf(d + [SLASH] + f) != d + [SLASH] + f
  {
    KeyOfEntry(d, f);
    assert |d| < |d + [SLASH] + f|;
  }

  // ------------------------------------------------------ the whole way

  /** What a client makes of one message. */
  function EventsIn(frame: Str): seq<Event> {
    match UnpackMsg(frame)
    case Err(_) => []
    case Ok((t, data)) =>
      if t != MSG_EVENT then []
      else
        match UnpackEvents(data)
        case Err(_) => []
        case Ok(es) => es
  }

  /** And of all the messages it has read. */
  function Received(frames: seq<Str>): seq<Event> {
    if frames == [] then [] else Received(frames[..|frames| - 1]) + EventsIn(frames[|frames| - 1])
  }

  function Frames(es: seq<Event>): (r: seq<Str>)
    ensures forall f | f in r :: Stream.Framed(f)
  {
    seq(|es|, i requires 0 <= i < |es| => S.FrameOf(es[i]))
  }

  /** A name or key that does not fit its slot arrives as the slot keeps it. */
  lemma FrameDecodes(e: Event)
    ensures EventsIn(S.FrameOf(e)) == [Settled(e)]
  {
    MessageRoundTrip(MSG_EVENT, Record(e));
    RecordDecodes(e);
    assert Record(e)[..FRAME_SIZE] == Record(e) && Record(e)[FRAME_SIZE..] == [];
  }

  lemma ReceivedSnoc(frames: seq<Str>, frame: Str)
    ensures Received(frames + [frame]) == Received(frames) + EventsIn(frame)
  {
    assert (frames + [frame])[..|frames|] == frames;
  }

  lemma FramesSnoc(es: seq<Event>, e: Event)
    ensures Frames(es + [e]) == Frames(es) + [S.FrameOf(e)]
  {
  }

  /** The events as their records keep them: themselves, if slot-valid. */
  function AllSettled(es: seq<Event>): seq<Event> {
    seq(|es|, i requires 0 <= i < |es| => Settled(es[i]))
  }

  lemma SettledIntact(es: seq<Event>)
    ensures AllSettled(es) == es <==> AllValid(es)
  {
    forall i | 0 <= i < |es| ensures AllSettled(es)[i] == es[i] <==> EventValid(es[i]) {
      RecordDecodes(es[i]);
    }
    if AllSettled(es) == es {
      forall e | e in es ensures EventValid(e) {
        var i :| 0 <= i < |es| && es[i] == e;
        assert AllSettled(es)[i] == es[i];
      }
    }
  }

  lemma {:induction false} FramesDecode(es: seq<Event>)
    ensures Received(Frames(es)) == AllSettled(es)
  {
    if es == [] {
      assert Frames(es) == [];
    } else {
      var front, e := es[..|es| - 1], es[|es| - 1];
      assert es == front + [e];
      FramesDecode(front);
      FrameDecodes(e);
      FramesSnoc(front, e);
      ReceivedSnoc(Frames(front), S.FrameOf(e));
      SettledSnoc(front, e);
    }
  }

  lemma SettledSnoc(es: seq<Event>, e: Event)
    ensures AllSettled(es + [e]) == AllSettled(es) + [Settled(e)]
  {
  }

  /** If `k` is the watched path last mapped to node path `p`, an event on an
      entry `b` of `p` gets Key `p`, is translated to the entry `b` of `k`, and is
      decoded by the client with exactly that name. */
  lemma EndToEnd(binds: seq<Bind>, edits: seq<Edit>, n: nat, i: nat, j: nat, p: Str, b: Str, op: uint32)
    requires HostsGiven(binds) && L.LastWatched(binds, edits, n, i, j, p)
    requires !LosesSlash(binds[i], edits[n].keys[j])
    requires SLASH !in b && SlotValid(p) && SlotValid(edits[n].keys[j] + [SLASH] + b)
    ensures var m, k := MapAfter(binds, edits), edits[n].keys[j];
            var name := p + [SLASH] + b;
            var event := Event(name, op, KeyOf(name));
            && event.key in m
            && Received([S.FrameOf(P.Translate(event, m))]) == [Event(k + [SLASH] + b, op, p)]
  {
    var m, k := MapAfter(binds, edits), edits[n].keys[j];
    L.LastWatchWins(binds, edits, n, i, j, p);
    StoredPathIsWatchedPath(binds[i], k);
    KeyOfEntry(p, b);
    TranslatesEntry(m, k, p, b, op);
    ReadsOne(Event(k + [SLASH] + b, op, p));
  }

  lemma TranslatesEntry(m: PathMap, k: Str, p: Str, b: Str, op: uint32)
    requires p in m && m[p] == k
    ensures P.Translate(Event(p + [SLASH] + b, op, p), m) == Event(k + [SLASH] + b, op, p)
  {
    assert p + [SLASH] + b == p + ([SLASH] + b);
    ReplaceOpening(p, [SLASH] + b, k);
    assert k + [SLASH] + b == k + ([SLASH] + b);
  }

  lemma ReadsOne(e: Event)
    requires EventValid(e)
    ensures Received([S.FrameOf(e)]) == [e]
  {
    FramesDecode([e]);
    SettledIntact([e]);
    assert Frames([e]) == [S.FrameOf(e)];
  }

  lemma {:induction false} NonWriteSettled(es: seq<Event>)
    ensures P.NonWrite(AllSettled(es)) == AllSettled(P.NonWrite(es))
  {
    if es != [] {
      var front := es[..|es| - 1];
      NonWriteSettled(front);
      assert AllSettled(es)[..|es| - 1] == AllSettled(front);
    }
  }

  /** What a client has decoded, however much of the byte stream has reached it,
      is a prefix of what the proxy wrote, each event as its record keeps it;
      leaving WRITEs aside, a prefix of the translations of what was delivered, in
      order. */
  lemma ClientReads(steps: seq<Y.Step>, c: Y.Cid, cut: nat)
    requires Y.Exec(steps).Some? && c in Y.Exec(steps).value.clients
    requires cut <= |Stream.Encode(Frames(Y.Exec(steps).value.clients[c].queue.written))|
    ensures var cl := Y.Exec(steps).value.clients[c];
            var bytes := Stream.Encode(Frames(cl.queue.written));
            var got := Received(Stream.Decode(bytes[..cut]));
            && got <= AllSettled(cl.queue.written)
            && (cut == |bytes| ==> got == AllSettled(cl.queue.written))
            && P.NonWrite(got) <= AllSettled(P.Expected(cl.order.offered))
  {
    var cl := Y.Exec(steps).value.clients[c];
    var es := cl.queue.written;
    Stream.DecodeReceived(Frames(es), cut);
    var frames := Stream.Decode(Stream.Encode(Frames(es))[..cut]);
    var front := es[..|frames|];
    assert frames == Frames(front);
    FramesDecode(front);
    T.OrderedDelivery(steps, c);
    P.NonWritePrefix(front, es);
    NonWriteSettled(front);
    SettledPrefix(front, es);
    SettledPrefix(P.NonWrite(front), P.Expected(cl.order.offered));
  }

  lemma SettledPrefix(a: seq<Event>, b: seq<Event>)
    requires a <= b
    ensures AllSettled(a) <= AllSettled(b)
  {
  }
}
