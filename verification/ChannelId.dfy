/** The daemon's way back from an FSWatcher's name to the channel it was made
    for (getChanId in k8s/cmd/fsnotify-daemon/app/app.go, against getWatcher in
    k8s/cmd/fsnotify-proxy/app/app.go). */
module ChannelId {
  import opened Prelude
  import opened Text
  import Registry

  /** ns/pod/container/name */
  function Channel(ns: Str, pod: Str, container: Str, name: Str): Str {
    Join([ns, pod, container, name], SLASH)
  }

  /** getChanId: the first "pod-" of the object's name becomes "pod/", then the
      first "container-" of the whole becomes "container/". */
  function GetChanId(ns: Str, crName: Str, pod: Str, container: Str): Str {
    var id := ns + [SLASH] + ReplaceFirst(crName, pod + [HYPHEN], pod + [SLASH]);
    ReplaceFirst(id, container + [HYPHEN], container + [SLASH])
  }

  predicate SlashFree(parts: seq<Str>) {
    forall p | p in parts :: SLASH !in p
  }

  lemma {:induction false} JoinFour(a: Str, b: Str, c: Str, d: Str, sep: byte)
    ensures Join([a, b, c, d], sep) == a + [sep] + b + [sep] + c + [sep] + d
    ensures Join([b, c, d], sep) == b + [sep] + c + [sep] + d
  {
    assert [a, b, c, d][1..] == [b, c, d] && [b, c, d][1..] == [c, d] && [c, d][1..] == [d];
    assert Join([c, d], sep) == c + [sep] + d;
    assert Join([b, c, d], sep) == b + [sep] + (c + [sep] + d);
    assert Join([a, b, c, d], sep) == a + [sep] + (b + [sep] + (c + [sep] + d));
  }

  /** The object's name for such a channel. */
  lemma NameOfChannel(ns: Str, pod: Str, container: Str, name: Str)
    requires SlashFree([ns, pod, container, name])
    ensures Registry.CrId(Channel(ns, pod, container, name)) ==
            (ns, pod + [HYPHEN] + container + [HYPHEN] + name)
  {
    var parts := [ns, pod, container, name];
    SplitJoin(parts, SLASH);
    assert parts[1..] == [pod, container, name];
    JoinFour(ns, pod, container, name, HYPHEN);
  }

  lemma OccursPoint(s: Str, sub: Str, i: nat, k: nat)
    requires k < |sub| && i + k < |s|
    ensures OccursAt(s, sub, i) ==> s[i + k] == sub[k]
  {
    assert OccursAt(s, sub, i) ==> s[i..i + |sub|][k] == sub[k];
  }

  /** In front of the container stand ns and pod, each closed by a slash that the
      pattern cannot span. */
  lemma EarlierOccurrence(ns: Str, pod: Str, pattern: Str, rest: Str, i: nat)
    requires SLASH !in pattern && pattern != []
    requires i < |ns| + 1 + |pod| + 1
    ensures OccursAt(ns + [SLASH] + pod + [SLASH] + rest, pattern, i) <==>
            OccursAt(ns, pattern, i) || (i >= |ns| + 1 && OccursAt(pod, pattern, i - |ns| - 1))
  {
    var s := ns + [SLASH] + pod + [SLASH] + rest;
    var n := |pattern|;
    if i + n <= |ns| {
      assert s[i..i + n] == ns[i..i + n];
    } else if i <= |ns| {
      OccursPoint(s, pattern, i, |ns| - i);
    } else if i + n <= |ns| + 1 + |pod| {
      var j := i - |ns| - 1;
      assert s[i..i + n] == pod[j..j + n];
    } else {
      var at := |ns| + 1 + |pod|;
      OccursPoint(s, pattern, i, at - i);
    }
  }

  /** Replacing x- by x/ turns the x- at `at` into x/ exactly when it is the first. */
  lemma ReplacesHere(s: Str, x: Str, at: nat)
    requires OccursAt(s, x + [HYPHEN], at)
    ensures ReplaceFirst(s, x + [HYPHEN], x + [SLASH]) == s[..at] + x + [SLASH] + s[at + |x| + 1..] <==>
            forall i: nat | i < at :: !OccursAt(s, x + [HYPHEN], i)
  {
    var pattern, to := x + [HYPHEN], x + [SLASH];
    var found := Index(s, pattern);
    assert found.Some? && found.value <= at;
    var i := found.value;
    var got, wanted := s[..i] + to + s[i + |pattern|..], s[..at] + x + [SLASH] + s[at + |x| + 1..];
    assert s[at + |x|] == s[at..at + |pattern|][|x|] == HYPHEN;
    assert wanted[at + |x|] == SLASH;
    if i < at {
      assert got[at + |x|] == s[at + |x|];
    } else {
      assert s[..at] + x + [SLASH] == s[..at] + to;
    }
  }

  /** The channel comes back exactly when "container-" occurs neither in the
      namespace nor in the pod name. */
  lemma ChannelIdRoundTrip(ns: Str, pod: Str, container: Str, name: Str)
    requires SlashFree([ns, pod, container, name])
    ensures var (crNs, crName) := Registry.CrId(Channel(ns, pod, container, name));
            GetChanId(crNs, crName, pod, container) == Channel(ns, pod, container, name) <==>
            !Occurs(ns, container + [HYPHEN]) && !Occurs(pod, container + [HYPHEN])
  {
    NameOfChannel(ns, pod, container, name);
    AfterPod(ns, pod, container, name);
    assert container in [ns, pod, container, name];
    ReplacesContainer(ns, pod, container, name);
    NoneBefore(ns, pod, container + [HYPHEN], container + [HYPHEN] + name);
  }

  lemma ReplacesContainer(ns: Str, pod: Str, container: Str, name: Str)
    ensures var id := ns + [SLASH] + pod + [SLASH] + (container + [HYPHEN] + name);
            ReplaceFirst(id, container + [HYPHEN], container + [SLASH]) == Channel(ns, pod, container, name) <==>
            forall i: nat | i < |ns| + 1 + |pod| + 1 :: !OccursAt(id, container + [HYPHEN], i)
  {
    ChannelFrom(ns, pod, container, name);
    ReplacesHere(ns + [SLASH] + pod + [SLASH] + (container + [HYPHEN] + name), container, |ns| + 1 + |pod| + 1);
  }

  lemma ChannelFrom(ns: Str, pod: Str, container: Str, name: Str)
    ensures var id := ns + [SLASH] + pod + [SLASH] + (container + [HYPHEN] + name);
            var at := |ns| + 1 + |pod| + 1;
            && OccursAt(id, container + [HYPHEN], at)
            && id[..at] + container + [SLASH] + id[at + |container| + 1..] == Channel(ns, pod, container, name)
  {
    JoinFour(ns, pod, container, name, SLASH);
    var at := |ns| + 1 + |pod| + 1;
    var id := ns + [SLASH] + pod + [SLASH] + (container + [HYPHEN] + name);
    assert id[at..at + |container| + 1] == container + [HYPHEN];
    assert id[..at] == ns + [SLASH] + pod + [SLASH];
    assert id[at + |container| + 1..] == name;
  }

  lemma NoneBefore(ns: Str, pod: Str, pattern: Str, rest: Str)
    requires SLASH !in pattern && pattern != []
    ensures (forall i: nat | i < |ns| + 1 + |pod| + 1 ::
               !OccursAt(ns + [SLASH] + pod + [SLASH] + rest, pattern, i)) <==>
            !Occurs(ns, pattern) && !Occurs(pod, pattern)
  {
    var id, at := ns + [SLASH] + pod + [SLASH] + rest, |ns| + 1 + |pod| + 1;
    forall i: nat | i < at
      ensures OccursAt(id, pattern, i) <==>
              OccursAt(ns, pattern, i) || (i >= |ns| + 1 && OccursAt(pod, pattern, i - |ns| - 1))
    {
      EarlierOccurrence(ns, pod, pattern, rest, i);
    }
    if i: nat :| OccursAt(ns, pattern, i) {
      assert OccursAt(id, pattern, i);
    }
    if i: nat :| OccursAt(pod, pattern, i) {
      assert OccursAt(id, pattern, i + |ns| + 1);
    }
  }

  /** It does not for the pods of a StatefulSet whose container has its name:
      pod "web-0", container "web". */
  lemma StatefulSetFails(ns: Str, container: Str, ordinal: Str, name: Str)
    requires SlashFree([ns, container, ordinal, name])
    ensures var pod := container + [HYPHEN] + ordinal;
            var (crNs, crName) := Registry.CrId(Channel(ns, pod, container, name));
            GetChanId(crNs, crName, pod, container) != Channel(ns, pod, container, name)
  {
    var pod := container + [HYPHEN] + ordinal;
    assert SlashFree([ns, pod, container, name]) by {
      assert ns in [ns, container, ordinal, name] && container in [ns, container, ordinal, name];
      assert ordinal in [ns, container, ordinal, name] && name in [ns, container, ordinal, name];
    }
    assert OccursAt(pod, container + [HYPHEN], 0);
    ChannelIdRoundTrip(ns, pod, container, name);
  }

  lemma AfterPod(ns: Str, pod: Str, container: Str, name: Str)
    ensures GetChanId(ns, pod + [HYPHEN] + container + [HYPHEN] + name, pod, container) ==
            ReplaceFirst(ns + [SLASH] + pod + [SLASH] + (container + [HYPHEN] + name),
                         container + [HYPHEN], container + [SLASH])
  {
    var tail := container + [HYPHEN] + name;
    assert pod + [HYPHEN] + container + [HYPHEN] + name == (pod + [HYPHEN]) + tail;
    ReplaceOpening(pod + [HYPHEN], tail, pod + [SLASH]);
    assert ns + [SLASH] + ((pod + [SLASH]) + tail) == ns + [SLASH] + pod + [SLASH] + tail;
  }
}
