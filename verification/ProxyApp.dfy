/** The message handler of the proxy as it runs for one connection
    (k8s/cmd/fsnotify-proxy/app/app.go). */
module ProxyApp {
  import opened Prelude
  import opened Mapping
  import Text
  import W = WatchMessage
  import Registry
  import S = ProxyServer

  datatype HandlerError = BadMessage | BadChannel | NoPod | NoPaths | ApiError

  /** Which calls to the API server fail, apart from objects that are missing. */
  datatype Faults = Faults(pod: bool, get: bool, write: bool)

  /** The API server refuses a pod with an empty host path. */
  predicate PodValid(pod: Pod) {
    forall v | v in pod.volumes && v.hostPath.Some? :: v.hostPath.value.path != []
  }

  lemma {:induction false} VolumesGiven(volumes: seq<Volume>)
    requires forall v | v in volumes && v.hostPath.Some? :: v.hostPath.value.path != []
    ensures forall n | n in VolumeMap(volumes) :: VolumeMap(volumes)[n] != []
  {
    if volumes != [] {
      assert volumes[|volumes| - 1] in volumes;
      assert forall v | v in volumes[..|volumes| - 1] :: v in volumes;
      VolumesGiven(volumes[..|volumes| - 1]);
    }
  }

  lemma {:induction false} MountsGiven(mounts: seq<Mount>, vols: map<Str, Str>)
    requires forall n | n in vols :: vols[n] != []
    ensures HostsGiven(MountBinds(mounts, vols))
  {
    if mounts != [] {
      MountsGiven(mounts[..|mounts| - 1], vols);
    }
  }

  lemma {:induction false} ContainersGiven(cs: seq<Container>, name: Str, vols: map<Str, Str>)
    requires forall n | n in vols :: vols[n] != []
    ensures HostsGiven(ContainerBinds(cs, name, vols))
  {
    if cs != [] {
      ContainersGiven(cs[..|cs| - 1], name, vols);
      MountsGiven(cs[|cs| - 1].mounts, vols);
    }
  }

  lemma BindsGiven(pod: Pod, container: Str)
    requires PodValid(pod)
    ensures HostsGiven(Binds(pod, container))
  {
    VolumesGiven(pod.volumes);
    ContainersGiven(pod.containers, container, VolumeMap(pod.volumes));
  }

  /** What the handler knows of a channel named ns/pod/container/... */
  function TargetOf(channel: Str, was: S.Target): S.Target
    requires Registry.HasPod(channel)
  {
    var tokens := Text.Split(channel, SLASH);
    was.(channelID := channel, podNS := tokens[0], podName := tokens[1], container := tokens[2])
  }

  /** The first three parts of a channel are namespace, pod and container. */
  lemma TargetOfChannel(ns: Str, pod: Str, container: Str, rest: Str, was: S.Target)
    requires SLASH !in ns && SLASH !in pod && SLASH !in container && (rest == [] || rest[0] == SLASH)
    ensures var channel := ns + [SLASH] + pod + [SLASH] + container + rest;
            && Registry.HasPod(channel)
            && TargetOf(channel, was) ==
               S.Target(channel, ns, pod, container, was.crNamespace, was.crName)
  {
    var channel := ns + [SLASH] + pod + [SLASH] + container + rest;
    assert channel == ns + ([SLASH] + (pod + ([SLASH] + (container + rest))));
    if rest == [] {
      assert container + rest == container;
      Text.SplitPlain(container, SLASH);
    } else {
      assert container + rest == container + ([SLASH] + rest[1..]);
      Text.SplitHead(container, rest[1..], SLASH);
    }
    Text.SplitHead(pod, container + rest, SLASH);
    Text.SplitHead(ns, pod + ([SLASH] + (container + rest)), SLASH);
  }

  /** Nothing else is stored than before, and `id` is stored with these paths. */
  predicate Lists(store: map<Registry.Id, Registry.FSWatcher>, was: map<Registry.Id, Registry.FSWatcher>,
      id: Registry.Id, t: S.Target, keys: set<Str>) {
    && id in store && store == was[id := store[id]]
    && Elems(store[id].paths) == keys
    && store[id].pod == (if id in was then was[id].pod else t.podName)
    && store[id].container == (if id in was then was[id].container else t.container)
  }

  /** The handler's nil outcome for one connection is the three steps of the
      registry machine: what it promises, and what becomes of it among other
      connections, are about the same states. */
  lemma HandlerIsSteps(s: Registry.State, c: nat, channel: Str, binds: seq<Bind>, e: Edit, t: S.Target, m: PathMap,
      store: map<Registry.Id, Registry.FSWatcher>)
    requires c in s.conns && s.conns[c].live && s.conns[c].phase.Ready?
    requires Registry.HasPod(channel) && HostsGiven(binds)
    requires m == PutMounts(s.conns[c].podPathMap, binds, e) && m != map[]
    requires Lists(store, s.store, Registry.CrId(channel), t, m.Keys)
    ensures var id := Registry.CrId(channel);
            Registry.Handled(s, c, channel, binds, e, store[id]) ==
            Some(s.(conns := s.conns[c := Registry.Conn(m, true, Some(id), Registry.Ready, true)], store := store))
  {
    var id := Registry.CrId(channel);
    var s' := Registry.Handled(s, c, channel, binds, e, store[id]).value;
    assert s'.conns == s.conns[c := s'.conns[c]];
  }

  class App {
    var store: map<Registry.Id, Registry.FSWatcher>
    const pods: map<(Str, Str), Pod>

    ghost predicate Valid() {
      forall p | p in pods :: PodValid(pods[p])
    }

    constructor (pods: map<(Str, Str), Pod>)
      requires forall p | p in pods :: PodValid(pods[p])
      ensures Valid() && this.pods == pods && store == map[]
    {
      this.pods := pods;
      store := map[];
    }

    /** The loop over the keys of the message, for one mount. */
    method TranslateKeys(w: S.Watcher, b: Bind, e: Edit)
      requires b.host != []
      modifies w`podPathMap
      ensures w.podPathMap == PutKeys(old(w.podPathMap), b, e.keys, e.watch)
    {
      for i := 0 to |e.keys|
        invariant w.podPathMap == PutKeys(old(w.podPathMap), b, e.keys[..i], e.watch)
      {
        assert e.keys[..i + 1][..i] == e.keys[..i];
        var k := e.keys[i];
        if b.mount <= k {
          var watchPath, podWatchPath := b.host, b.mount;
          if |k| > |b.mount| {
            var sub := k[|b.mount|..];
            if watchPath[|watchPath| - 1] != SLASH && sub[0] != SLASH {
              watchPath := watchPath + [SLASH];
            }
            if watchPath[|watchPath| - 1] == SLASH && sub[0] == SLASH {
              sub := sub[1..];
            }
            watchPath, podWatchPath := watchPath + sub, podWatchPath + sub;
          }
          assert Image(b, k) == Some((watchPath, podWatchPath));
          if e.watch {
            w.podPathMap := w.podPathMap[watchPath := podWatchPath];
          } else {
            w.podPathMap := w.podPathMap - {watchPath};
          }
        }
      }
      assert e.keys[..|e.keys|] == e.keys;
    }

    /** The loop over the mounts of a container. */
    method TranslateMounts(w: S.Watcher, mounts: seq<Mount>, vols: map<Str, Str>, e: Edit)
      requires forall n | n in vols :: vols[n] != []
      requires HostsGiven(MountBinds(mounts, vols))
      modifies w`podPathMap
      ensures w.podPathMap == PutMounts(old(w.podPathMap), MountBinds(mounts, vols), e)
    {
      MountsGiven(mounts[..0], vols);
      for i := 0 to |mounts|
        invariant HostsGiven(MountBinds(mounts[..i], vols))
        invariant w.podPathMap == PutMounts(old(w.podPathMap), MountBinds(mounts[..i], vols), e)
      {
        MountsGiven(mounts[..i + 1], vols);
        assert mounts[..i + 1][..i] == mounts[..i];
        ghost var done, all := MountBinds(mounts[..i], vols), MountBinds(mounts[..i + 1], vols);
        if mounts[i].name in vols {
          assert all[..|all| - 1] == done;
          TranslateKeys(w, Bind(vols[mounts[i].name], mounts[i].path), e);
        } else {
          assert all == done;
        }
      }
      assert mounts[..|mounts|] == mounts;
    }

    /** The loop over the containers of the pod. */
    method TranslateContainers(w: S.Watcher, pod: Pod, name: Str, e: Edit)
      requires PodValid(pod) && HostsGiven(Binds(pod, name))
      modifies w`podPathMap
      ensures w.podPathMap == PutMounts(old(w.podPathMap), Binds(pod, name), e)
    {
      var vols := BuildVolumeMap(pod.volumes);
      VolumesGiven(pod.volumes);
      var cs := pod.containers;
      ContainersGiven(cs[..0], name, vols);
      for i := 0 to |cs|
        invariant HostsGiven(ContainerBinds(cs[..i], name, vols))
        invariant w.podPathMap == PutMounts(old(w.podPathMap), ContainerBinds(cs[..i], name, vols), e)
      {
        ContainersGiven(cs[..i + 1], name, vols);
        assert cs[..i + 1][..i] == cs[..i];
        ghost var done := ContainerBinds(cs[..i], name, vols);
        if cs[i].name == name {
          MountsGiven(cs[i].mounts, vols);
          PutMountsAppend(old(w.podPathMap), done, MountBinds(cs[i].mounts, vols), e);
          TranslateMounts(w, cs[i].mounts, vols, e);
        } else {
          assert done + [] == done;
        }
      }
      assert cs[..|cs|] == cs;
    }

    /** currentPath: the keys of the map, in any order. */
    method CurrentPath(m: PathMap) returns (paths: seq<Str>)
      ensures Elems(paths) == m.Keys && |paths| == |m|
    {
      paths := [];
      var rest := m.Keys;
      while rest != {}
        invariant rest <= m.Keys && Elems(paths) == m.Keys - rest && |paths| + |rest| == |m.Keys|
        decreases rest
      {
        var k :| k in rest;
        assert Elems(paths + [k]) == Elems(paths) + {k};
        paths, rest := paths + [k], rest - {k};
      }
    }

    /** The case of CLEAR. */
    method ProcessClear(channel: Str, f: Faults) returns (err: Option<HandlerError>)
      modifies this`store
      ensures store == if err.None? then old(store) - {Registry.CrId(channel)} else old(store)
      ensures err.None? <==>
              |Text.Split(channel, SLASH)| >= 2 && !f.get && (Registry.CrId(channel) in old(store) ==> !f.write)
    {
      if |Text.Split(channel, SLASH)| < 2 {
        return Some(BadChannel);
      }
      var id := Registry.CrId(channel);
      if f.get {
        return Some(ApiError);
      }
      if id !in store {
        assert store == store - {id};
        return None;
      }
      if f.write {
        return Some(ApiError);
      }
      store := store - {id};
      return None;
    }

    /** The object for the current map: updated if it is there, created if not. */
    method StorePaths(w: S.Watcher, channel: Str, f: Faults) returns (err: Option<HandlerError>)
      requires Registry.HasPod(channel)
      modifies this`store, w`target
      ensures err.None? <==> w.podPathMap != map[] && !f.get && !f.write
      ensures err.Some? ==> store == old(store)
      ensures err.None? ==>
                && (w.target.crNamespace, w.target.crName) == Registry.CrId(channel)
                && Lists(store, old(store), Registry.CrId(channel), w.target, w.podPathMap.Keys)
      ensures w.target == old(w.target).(crNamespace := w.target.crNamespace, crName := w.target.crName)
    {
      var currentPath := CurrentPath(w.podPathMap);
      if |currentPath| == 0 {
        return Some(NoPaths);
      }
      var id := Registry.CrId(channel);
      w.target := w.target.(crNamespace := id.0, crName := id.1);
      if f.get || f.write {
        return Some(ApiError);
      }
      if id !in store {
        store := store[id := Registry.FSWatcher(w.target.podName, w.target.container, currentPath)];
      } else {
        store := store[id := store[id].(paths := currentPath)];
      }
      return None;
    }

    /** The cases of WATCH and UNWATCH. */
    method ProcessEdit(w: S.Watcher, channel: Str, e: Edit, f: Faults) returns (err: Option<HandlerError>)
      requires Valid()
      modifies this`store, w`podPathMap, w`target
      ensures Edited(channel, f) ==>
                var t := Text.Split(channel, SLASH);
                && (t[0], t[1]) in pods && HostsGiven(Binds(pods[(t[0], t[1])], t[2]))
                && w.podPathMap == PutMounts(old(w.podPathMap), Binds(pods[(t[0], t[1])], t[2]), e)
      ensures !Edited(channel, f) ==> w.podPathMap == old(w.podPathMap)
      ensures err.None? <==> Edited(channel, f) && w.podPathMap != map[] && !f.get && !f.write
      ensures err.None? ==>
                && (w.target.crNamespace, w.target.crName) == Registry.CrId(channel)
                && Lists(store, old(store), Registry.CrId(channel), w.target, w.podPathMap.Keys)
      ensures err.Some? ==> store == old(store)
      ensures !Registry.HasPod(channel) ==> w.target == old(w.target)
      ensures Registry.HasPod(channel) ==>
                w.target == TargetOf(channel, old(w.target))
                            .(crNamespace := w.target.crNamespace, crName := w.target.crName)
    {
      var tokens := Text.Split(channel, SLASH);
      if |tokens| < 3 {
        return Some(BadChannel);
      }
      w.target := TargetOf(channel, w.target);
      if f.pod || (tokens[0], tokens[1]) !in pods {
        return Some(NoPod);
      }
      var pod := pods[(tokens[0], tokens[1])];
      BindsGiven(pod, tokens[2]);
      TranslateContainers(w, pod, tokens[2], e);
      err := StorePaths(w, channel, f);
    }

    /** The handler gets as far as the mapping. */
    predicate Edited(channel: Str, f: Faults) {
      var tokens := Text.Split(channel, SLASH);
      |tokens| >= 3 && !f.pod && (tokens[0], tokens[1]) in pods
    }

    /** processWatcherMessage. Whenever a WATCH or UNWATCH returns nil, the stored
        FSWatcher named by CRNamespace and CRName lists exactly the keys of
        podPathMap, and no other object has changed; on any error none has. */
    method ProcessWatcherMessage(w: S.Watcher, msg: Str, f: Faults) returns (err: Option<HandlerError>)
      requires Valid()
      modifies this`store, w`podPathMap, w`target
      ensures match W.ParseRequest(msg)
              case Err(_) => err == Some(BadMessage) && w.podPathMap == old(w.podPathMap) && w.target == old(w.target)
              case Ok(Clear(channel)) =>
                && w.podPathMap == old(w.podPathMap) && w.target == old(w.target)
                && store == if err.None? then old(store) - {Registry.CrId(channel)} else old(store)
              case Ok(request) =>
                && (Edited(request.channel, f) ==>
                      var t := Text.Split(request.channel, SLASH);
                      && (t[0], t[1]) in pods && HostsGiven(Binds(pods[(t[0], t[1])], t[2]))
                      && w.podPathMap == PutMounts(old(w.podPathMap), Binds(pods[(t[0], t[1])], t[2]),
                                                   Edit(request.Watch?, request.keys)))
                && (!Edited(request.channel, f) ==> w.podPathMap == old(w.podPathMap))
                && (err.None? <==> Edited(request.channel, f) && w.podPathMap != map[] && !f.get && !f.write)
                && (err.None? ==>
                      Lists(store, old(store), (w.target.crNamespace, w.target.crName), w.target, w.podPathMap.Keys))
      ensures err.Some? ==> store == old(store)
    {
      var request := W.ReadRequest(msg);
      match request
      case Err(_) => err := Some(BadMessage);
      case Ok(Clear(channel)) => err := ProcessClear(channel, f);
      case Ok(Unwatch(channel, keys)) => err := ProcessEdit(w, channel, Edit(false, keys), f);
      case Ok(Watch(channel, keys)) => err := ProcessEdit(w, channel, Edit(true, keys), f);
    }
  }
}
