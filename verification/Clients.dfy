/** The two client libraries as objects: the local watch list and the queue of
    packed messages (rust-jfs/src/watcher.rs, jfsnotify/backend_jfs.go). */
module Clients {
  import opened Prelude
  import opened Wire
  import opened Mapping
  import Text
  import W = WatchMessage
  import R = Reconnect

  /** What a packed message does to the watch set at the proxy. A message it
      refuses does nothing, as CLEAR does. */
  function Effect(packed: Str): R.Msg {
    match W.ParseRequest(packed)
    case Ok(Watch(_, keys)) => R.Keys(Edit(true, keys))
    case Ok(Unwatch(_, keys)) => R.Keys(Edit(false, keys))
    case _ => R.Clear
  }

  function Effects(queue: seq<Str>): seq<R.Msg> {
    seq(|queue|, i requires 0 <= i < |queue| => Effect(queue[i]))
  }

  /** The path as the proxy reads it out of its slot. */
  function Carried(path: Str): Str {
    Trim(Slot(path))
  }

  function AllCarried(paths: seq<Str>): seq<Str> {
    seq(|paths|, i requires 0 <= i < |paths| => Carried(paths[i]))
  }

  /** What a caller asks for, as it fits the slots: the proxy's request for the
      channel, lower-cased, and for each path. */
  function Asked(watch: bool, channel: Str, paths: seq<Str>): W.Request {
    if watch then W.Watch(W.Lower(Carried(channel)), AllCarried(paths))
    else W.Unwatch(W.Lower(Carried(channel)), AllCarried(paths))
  }

  /** The packed message is read at the proxy as just that, with any channel and
      any paths. */
  lemma PackedIsAsked(watch: bool, channel: Str, paths: seq<Str>)
    ensures W.ParseRequest(PackageMsg(if watch then MSG_WATCH else MSG_UNWATCH, W.Payload(channel, paths))) ==
            Ok(Asked(watch, channel, paths))
  {
    MessageRoundTrip(if watch then MSG_WATCH else MSG_UNWATCH, W.Payload(channel, paths));
    var all, read := [channel] + paths, W.SlotStrings(W.Payload(channel, paths));
    W.SlotStringsOfSlots(all);
    assert read[0] == Carried(channel) && read[1..] == AllCarried(paths);
  }

  lemma ClearIsAsked(channel: Str)
    ensures W.ParseRequest(PackageMsg(MSG_CLEAR, Slot(channel))) == Ok(W.Clear(W.Lower(Carried(channel))))
  {
    MessageRoundTrip(MSG_CLEAR, Slot(channel));
  }

  /** So it does at the proxy what the caller asked, path by path, to the paths as
      they fit their slots. */
  lemma PackedEffect(watch: bool, channel: Str, paths: seq<Str>)
    ensures Effect(PackageMsg(if watch then MSG_WATCH else MSG_UNWATCH, W.Payload(channel, paths))) ==
            R.Keys(Edit(watch, AllCarried(paths)))
  {
    PackedIsAsked(watch, channel, paths);
  }

  /** Slot-valid paths, and only they, arrive as they are. */
  lemma CarriedIntact(paths: seq<Str>)
    ensures AllCarried(paths) == paths <==> W.AllSlotValid(paths)
  {
    forall i | 0 <= i < |paths| ensures Carried(paths[i]) == paths[i] <==> SlotValid(paths[i]) {
      SlotRoundTrip(paths[i]);
    }
    if AllCarried(paths) == paths {
      forall p | p in paths ensures SlotValid(p) {
        var i :| 0 <= i < |paths| && paths[i] == p;
        assert AllCarried(paths)[i] == paths[i];
      }
    }
  }

  lemma EffectsSnoc(queue: seq<Str>, packed: Str)
    ensures Effects(queue + [packed]) == Effects(queue) + [Effect(packed)]
  {
  }

  // ------------------------------------------------------------- channels

  /** POD_NAMESPACE and the watcher's full name. */
  function ChannelOf(podNamespace: Str, name: Str): Str {
    podNamespace + [SLASH] + name
  }

  /** pod/container/name */
  function FullName(pod: Str, container: Str, name: Str): Str {
    pod + [SLASH] + container + [SLASH] + name
  }

  /** The proxy takes the four parts of a channel that fits its slot for what the
      client put in, each lower-cased. */
  lemma ChannelArrives(ns: Str, pod: Str, container: Str, name: Str)
    requires forall p | p in [ns, pod, container, name] :: SLASH !in p
    requires SlotValid(ChannelOf(ns, FullName(pod, container, name)))
    ensures Text.Split(W.Lower(Carried(ChannelOf(ns, FullName(pod, container, name)))), SLASH) ==
            [W.Lower(ns), W.Lower(pod), W.Lower(container), W.Lower(name)]
  {
    var channel := ChannelOf(ns, FullName(pod, container, name));
    SlotRoundTrip(channel);
    var a, b, c, d := W.Lower(ns), W.Lower(pod), W.Lower(container), W.Lower(name);
    assert forall p | p in [ns, pod, container, name] :: SLASH !in p;
    LowerSlash(ns); LowerSlash(pod); LowerSlash(container); LowerSlash(name);
    assert W.Lower(channel) == a + ([SLASH] + (b + ([SLASH] + (c + ([SLASH] + d)))));
    Text.SplitPlain(d, SLASH);
    Text.SplitHead(c, d, SLASH);
    Text.SplitHead(b, c + ([SLASH] + d), SLASH);
    Text.SplitHead(a, b + ([SLASH] + (c + ([SLASH] + d))), SLASH);
  }

  lemma LowerSlash(s: Str)
    ensures SLASH in W.Lower(s) <==> SLASH in s
  {
    forall i | 0 <= i < |s| ensures W.Lower(s)[i] == SLASH <==> s[i] == SLASH {}
    if SLASH in s {
      var i :| 0 <= i < |s| && s[i] == SLASH;
      assert W.Lower(s)[i] == SLASH;
    }
  }

  // ---------------------------------------------------------- Rust client

  /** `queue` has one message more, read at the proxy as `request`. */
  predicate Queued(queue: seq<Str>, was: seq<Str>, request: W.Request) {
    |queue| == |was| + 1 && queue[..|was|] == was && W.ParseRequest(queue[|was|]) == Ok(request)
  }

  /** JFSWatcher. A send blocks while the queue is full; here it returns false and
      leaves the queue alone. */
  class JFSWatcher {
    const podNamespace: Str
    const name: Str
    var watches: set<Str>
    var queue: seq<Str>

    ghost function Channel(): Str {
      ChannelOf(podNamespace, name)
    }

    /** with_config, for a name without a slash: the clear signal is queued before
        anything else. */
    constructor (ns: Str, pod: Str, container: Str, name: Str)
      ensures Channel() == ChannelOf(ns, FullName(pod, container, name))
      ensures watches == R.INIT.local && Effects(queue) == R.INIT.queue
      ensures Queued(queue, [], W.Clear(W.Lower(Carried(Channel()))))
    {
      this.podNamespace, this.name := ns, FullName(pod, container, name);
      watches := {};
      queue := [PackageMsg(MSG_CLEAR, Slot(ns + [SLASH] + FullName(pod, container, name)))];
      ClearIsAsked(ChannelOf(ns, FullName(pod, container, name)));
    }

    static method WithConfig(ns: Str, pod: Str, container: Str, name: Str) returns (r: Option<JFSWatcher>)
      ensures r.None? <==> SLASH in name
      ensures r.Some? ==>
                var w := r.value;
                && fresh(w) && w.Channel() == ChannelOf(ns, FullName(pod, container, name)) && w.watches == {}
                && Queued(w.queue, [], W.Clear(W.Lower(Carried(w.Channel()))))
    {
      if SLASH in name {
        return None;
      }
      var w := new JFSWatcher(ns, pod, container, name);
      return Some(w);
    }

    /** send_watch_message: the message asks for these paths on this watcher's own
        channel. */
    method SendWatchMessage(paths: seq<Str>, watch: bool) returns (sent: bool)
      modifies this`queue
      ensures sent <==> |old(queue)| < R.CAPACITY
      ensures if sent then Queued(queue, old(queue), Asked(watch, Channel(), paths)) else queue == old(queue)
      ensures Effects(queue) == Effects(old(queue)) + (if sent then [R.Keys(Edit(watch, AllCarried(paths)))] else [])
    {
      var msg := W.Send(if watch then MSG_WATCH else MSG_UNWATCH, podNamespace + [SLASH] + name, paths);
      sent := |queue| < R.CAPACITY;
      if sent {
        PackedIsAsked(watch, Channel(), paths);
        EffectsSnoc(queue, msg);
        queue := queue + [msg];
      } else {
        assert Effects(queue) == Effects(queue) + [];
      }
    }

    /** add_with */
    method AddWith(path: Str) returns (sent: bool)
      modifies this
      ensures watches == old(watches) + {path}
      ensures sent <==> |old(queue)| < R.CAPACITY
      ensures if sent then Queued(queue, old(queue), Asked(true, Channel(), [path])) else queue == old(queue)
      ensures Effects(queue) == Effects(old(queue)) + (if sent then [R.MsgOf(R.Call(true, Carried(path)))] else [])
    {
      watches := watches + {path};
      sent := SendWatchMessage([path], true);
      assert AllCarried([path]) == [Carried(path)];
    }

    /** remove */
    method Remove(path: Str) returns (sent: bool)
      modifies this
      ensures watches == old(watches) - {path}
      ensures sent <==> |old(queue)| < R.CAPACITY
      ensures if sent then Queued(queue, old(queue), Asked(false, Channel(), [path])) else queue == old(queue)
      ensures Effects(queue) == Effects(old(queue)) + (if sent then [R.MsgOf(R.Call(false, Carried(path)))] else [])
    {
      watches := watches - {path};
      sent := SendWatchMessage([path], false);
      assert AllCarried([path]) == [Carried(path)];
    }

    /** resend_watches: the whole set in one message, in any order; nothing at
        all for an empty set. */
    method ResendWatches() returns (sent: bool, ghost order: seq<Str>)
      modifies this`queue
      ensures Elems(order) == watches
      ensures watches == {} ==> sent && queue == old(queue)
      ensures watches != {} ==>
                && (sent <==> |old(queue)| < R.CAPACITY)
                && (if sent then Queued(queue, old(queue), Asked(true, Channel(), order)) else queue == old(queue))
                && Effects(queue) ==
                   Effects(old(queue)) + (if sent then [R.Keys(Edit(true, AllCarried(order)))] else [])
    {
      order := [];
      if watches == {} {
        return true, [];
      }
      var list: seq<Str>, rest := [], watches;
      while rest != {}
        invariant Elems(list) + rest == watches
        decreases |rest|
      {
        var p :| p in rest;
        assert Elems(list + [p]) == Elems(list) + {p};
        list, rest := list + [p], rest - {p};
      }
      sent := SendWatchMessage(list, true);
      order := list;
    }
  }

  // ------------------------------------------------------------ Go client

  /** `ss` without the copies of `name`, in order. */
  function Without(ss: seq<Str>, name: Str): seq<Str> {
    if ss == [] then []
    else Without(ss[..|ss| - 1], name) + (if ss[|ss| - 1] == name then [] else [ss[|ss| - 1]])
  }

  lemma {:induction false} WithoutElems(ss: seq<Str>, name: Str)
    ensures Elems(Without(ss, name)) == Elems(ss) - {name}
  {
    if ss != [] {
      var front, last := ss[..|ss| - 1], ss[|ss| - 1];
      WithoutElems(front, name);
      assert ss == front + [last];
      assert Elems(ss) == Elems(front) + {last};
      assert last != name ==> Elems(Without(front, name) + [last]) == Elems(Without(front, name)) + {last};
    }
  }

  /** Watcher. As history: `sent`, all messages ever put into sendQ, and `plain`,
      whether every name given so far was slot-valid. */
  class Watcher {
    const podNamespace: Str
    const name: Str
    var watches: seq<Str>
    ghost var sent: seq<R.Msg>
    ghost var plain: bool

    /** With one caller, what has been sent leads to what is listed. */
    ghost predicate Valid()
      reads this
    {
      plain ==> R.ApplyAll({}, sent) == Elems(watches)
    }

    ghost function Channel(): Str {
      ChannelOf(podNamespace, name)
    }

    constructor (ns: Str, pod: Str, container: Str, name: Str)
      ensures Valid() && Channel() == ChannelOf(ns, FullName(pod, container, name))
      ensures watches == [] && sent == [] && plain
    {
      this.podNamespace, this.name := ns, FullName(pod, container, name);
      watches := [];
      sent := [];
      plain := true;
    }

    /** internelAddWith: sends first, then appends, even what is there already. */
    method AddWith(path: Str) returns (pack: Str)
      requires Valid()
      modifies this
      ensures Valid() && plain == (old(plain) && SlotValid(path))
      ensures watches == old(watches) + [path]
      ensures sent == old(sent) + [Effect(pack)] && Effect(pack) == R.MsgOf(R.Call(true, Carried(path)))
      ensures W.ParseRequest(pack) == Ok(Asked(true, Channel(), [path]))
    {
      pack := W.Send(MSG_WATCH, podNamespace + [SLASH] + name, [path]);
      PackedIsAsked(true, Channel(), [path]);
      assert AllCarried([path]) == [Carried(path)];
      sent := sent + [Effect(pack)];
      plain := plain && SlotValid(path);
      watches := watches + [path];
      R.ApplyAllSnoc({}, old(sent), Effect(pack));
      SlotRoundTrip(path);
      assert Elems([path]) == {path};
      assert Elems(old(watches) + [path]) == Elems(old(watches)) + {path};
    }

    /** internelRemove: every copy of the name goes; a name that is not there is
        no error. */
    method Remove(path: Str) returns (pack: Str)
      requires Valid()
      modifies this
      ensures Valid() && plain == (old(plain) && SlotValid(path))
      ensures watches == Without(old(watches), path) && Elems(watches) == Elems(old(watches)) - {path}
      ensures sent == old(sent) + [Effect(pack)] && Effect(pack) == R.MsgOf(R.Call(false, Carried(path)))
      ensures W.ParseRequest(pack) == Ok(Asked(false, Channel(), [path]))
    {
      pack := W.Send(MSG_UNWATCH, podNamespace + [SLASH] + name, [path]);
      PackedIsAsked(false, Channel(), [path]);
      assert AllCarried([path]) == [Carried(path)];
      var newWatches: seq<Str> := [];
      for i := 0 to |watches|
        invariant newWatches == Without(watches[..i], path)
      {
        assert watches[..i + 1][..i] == watches[..i];
        if watches[i] != path {
          newWatches := newWatches + [watches[i]];
        }
      }
      assert watches[..|watches|] == watches;
      watches := newWatches;
      WithoutElems(old(watches), path);
      sent := sent + [Effect(pack)];
      plain := plain && SlotValid(path);
      R.ApplyAllSnoc({}, old(sent), Effect(pack));
      SlotRoundTrip(path);
      assert Elems([path]) == {path};
    }
  }
}
