/** From pod paths to node paths: the mount mapping inside
    processWatcherMessage (k8s/cmd/fsnotify-proxy/app/app.go). */
module Mapping {
  import opened Prelude

  datatype HostPathKind = Directory | DirectoryOrCreate | OtherKind

  datatype HostPath = HostPath(kind: HostPathKind, path: Str)

  datatype Volume = Volume(name: Str, hostPath: Option<HostPath>)

  datatype Mount = Mount(name: Str, path: Str)

  datatype Container = Container(name: Str, mounts: seq<Mount>)

  datatype Pod = Pod(volumes: seq<Volume>, containers: seq<Container>)

  /** node path -> pod path */
  type PathMap = map<Str, Str>

  /** A mount of the watched container with the host directory behind it. */
  datatype Bind = Bind(host: Str, mount: Str)

  /** A host path is never empty; the code indexes its last byte. */
  predicate HostsGiven(binds: seq<Bind>) {
    forall b | b in binds :: b.host != []
  }

  predicate EndsWithSlash(s: Str) {
    s != [] && s[|s| - 1] == SLASH
  }

  // ------------------------------------------------------- one watched path

  /** The node path for `k` under one mount, and the pod path stored for it. */
  function Image(b: Bind, k: Str): Option<(Str, Str)>
    requires b.host != []
  {
    if !(b.mount <= k) then None
    else if |k| == |b.mount| then Some((b.host, b.mount))
    else
      var sub := k[|b.mount|..];
      var host := if !EndsWithSlash(b.host) && sub[0] != SLASH then b.host + [SLASH] else b.host;
      var sub' := if EndsWithSlash(host) && sub[0] == SLASH then sub[1..] else sub;
      Some((host + sub', b.mount + sub'))
  }

  /** `k` goes on with a slash right after a mount whose host path ends in one. */
  predicate LosesSlash(b: Bind, k: Str) {
    EndsWithSlash(b.host) && b.mount <= k && |k| > |b.mount| && k[|b.mount|] == SLASH
  }

  /** The pod path stored is the watched path itself, unless the slash between
      mount and remainder is dropped because the host path brings its own. */
  lemma StoredPathIsWatchedPath(b: Bind, k: Str)
    requires b.host != [] && Image(b, k).Some?
    ensures Image(b, k).value.1 == k <==> !LosesSlash(b, k)
  {
    assert k == b.mount + k[|b.mount|..];
  }

  /** Below a plain host path, on a `/` boundary, the image is host + remainder. */
  lemma ImageOfSubdirectory(b: Bind, rest: Str)
    requires b.host != [] && !EndsWithSlash(b.host)
    requires rest == [] || rest[0] == SLASH
    ensures Image(b, b.mount + rest) == Some((b.host + rest, b.mount + rest))
  {
    var k := b.mount + rest;
    assert k[|b.mount|..] == rest;
    assert b.host + [] == b.host && b.mount + [] == b.mount;
  }

  /** The prefix test does not look for a `/`: a path that merely starts with
      the letters of the mount is mapped as the path that lies inside it is. */
  lemma ImageIgnoresBoundary(b: Bind, rest: Str)
    requires b.host != [] && !EndsWithSlash(b.mount)
    requires rest != [] && rest[0] != SLASH
    ensures Image(b, b.mount + rest).Some? && Image(b, b.mount + [SLASH] + rest).Some?
    ensures Image(b, b.mount + rest).value.0 == Image(b, b.mount + [SLASH] + rest).value.0
  {
    assert (b.mount + rest)[|b.mount|..] == rest;
    assert (b.mount + [SLASH] + rest)[|b.mount|..] == [SLASH] + rest;
    assert ([SLASH] + rest)[1..] == rest;
    assert b.host + ([SLASH] + rest) == b.host + [SLASH] + rest;
  }

  /** `k2` is `k1` with a slash more after the mount, where `k1` has none. */
  predicate SlashTwins(b: Bind, k1: Str, k2: Str) {
    && b.mount <= k1 && b.mount <= k2
    && var rest := k1[|b.mount|..];
       && k2[|b.mount|..] == [SLASH] + rest
       && (if rest == [] then EndsWithSlash(b.host) else rest[0] != SLASH)
  }

  /** What is appended to the host path. */
  function Appended(b: Bind, k: Str): Str
    requires b.host != [] && b.mount <= k
  {
    var sub := k[|b.mount|..];
    if sub == [] then []
    else if EndsWithSlash(b.host) then (if sub[0] == SLASH then sub[1..] else sub)
    else if sub[0] == SLASH then sub
    else [SLASH] + sub
  }

  lemma ImageAppends(b: Bind, k: Str)
    requires b.host != [] && b.mount <= k
    ensures Image(b, k).Some? && Image(b, k).value.0 == b.host + Appended(b, k)
  {
    if k[|b.mount|..] != [] && !EndsWithSlash(b.host) && k[|b.mount|] != SLASH {
      assert b.host + [SLASH] + k[|b.mount|..] == b.host + ([SLASH] + k[|b.mount|..]);
    }
  }

  /** Two different paths share a node path under a mount exactly when they
      differ in just that slash. */
  lemma SameNodePathExactly(b: Bind, k1: Str, k2: Str)
    requires b.host != [] && k1 != k2 && Image(b, k1).Some? && Image(b, k2).Some?
    ensures Image(b, k1).value.0 == Image(b, k2).value.0 <==> SlashTwins(b, k1, k2) || SlashTwins(b, k2, k1)
  {
    ImageAppends(b, k1);
    ImageAppends(b, k2);
    var s1, s2 := k1[|b.mount|..], k2[|b.mount|..];
    assert k1 == b.mount + s1 && k2 == b.mount + s2;
    assert (b.host + Appended(b, k1))[|b.host|..] == Appended(b, k1);
    assert (b.host + Appended(b, k2))[|b.host|..] == Appended(b, k2);
    AppendedTwins(b, k1, k2);
  }

  lemma AppendedTwins(b: Bind, k1: Str, k2: Str)
    requires b.host != [] && b.mount <= k1 && b.mount <= k2 && k1[|b.mount|..] != k2[|b.mount|..]
    ensures Appended(b, k1) == Appended(b, k2) <==> SlashTwins(b, k1, k2) || SlashTwins(b, k2, k1)
  {
    var s1, s2 := k1[|b.mount|..], k2[|b.mount|..];
    assert s1 != [] ==> s1 == [s1[0]] + s1[1..];
    assert s2 != [] ==> s2 == [s2[0]] + s2[1..];
    assert forall x: Str :: ([SLASH] + x)[1..] == x;
  }

  function Images(binds: seq<Bind>, k: Str): set<Str>
    requires HostsGiven(binds)
  {
    set b | b in binds && Image(b, k).Some? :: Image(b, k).value.0
  }

  function AllImages(binds: seq<Bind>, ks: set<Str>): set<Str>
    requires HostsGiven(binds)
  {
    set k, p | k in ks && p in Images(binds, k) :: p
  }

  // -------------------------------------------------------------- updates

  datatype Edit = Edit(watch: bool, keys: seq<Str>)

  function Put(m: PathMap, b: Bind, k: Str, watch: bool): PathMap
    requires b.host != []
  {
    match Image(b, k)
    case None => m
    case Some((p, v)) => if watch then m[p := v] else m - {p}
  }

  /** The loop over the message's keys, for one mount. */
  function PutKeys(m: PathMap, b: Bind, keys: seq<Str>, watch: bool): PathMap
    requires b.host != []
  {
    if keys == [] then m
    else Put(PutKeys(m, b, keys[..|keys| - 1], watch), b, keys[|keys| - 1], watch)
  }

  /** The loop over the mounts. */
  function PutMounts(m: PathMap, binds: seq<Bind>, e: Edit): PathMap
    requires HostsGiven(binds)
  {
    if binds == [] then m
    else PutKeys(PutMounts(m, binds[..|binds| - 1], e), binds[|binds| - 1], e.keys, e.watch)
  }

  /** The map of a connection after a history of messages. */
  function MapAfter(binds: seq<Bind>, edits: seq<Edit>): PathMap
    requires HostsGiven(binds)
  {
    if edits == [] then map[]
    else PutMounts(MapAfter(binds, edits[..|edits| - 1]), binds, edits[|edits| - 1])
  }

  function ApplyEdit(ks: set<Str>, e: Edit): set<Str> {
    if e.watch then ks + Elems(e.keys) else ks - Elems(e.keys)
  }

  /** The paths watched and not unwatched since. */
  function Watched(edits: seq<Edit>): set<Str> {
    if edits == [] then {}
    else ApplyEdit(Watched(edits[..|edits| - 1]), edits[|edits| - 1])
  }

  // ------------------------------------------------------------ key set

  lemma {:induction false} PutKeysKeys(m: PathMap, b: Bind, keys: seq<Str>, watch: bool)
    requires b.host != []
    ensures PutKeys(m, b, keys, watch).Keys ==
            if watch then m.Keys + AllImages([b], Elems(keys)) else m.Keys - AllImages([b], Elems(keys))
  {
    if keys == [] {
      assert AllImages([b], Elems(keys)) == {};
    } else {
      var front, k := keys[..|keys| - 1], keys[|keys| - 1];
      PutKeysKeys(m, b, front, watch);
      assert keys == front + [k];
      assert Elems(keys) == Elems(front) + {k};
      assert AllImages([b], Elems(keys)) == AllImages([b], Elems(front)) + Images([b], k);
      assert Images([b], k) == if Image(b, k).Some? then {Image(b, k).value.0} else {} by {
        assert b in [b];
      }
    }
  }

  lemma {:induction false} PutMountsKeys(m: PathMap, binds: seq<Bind>, e: Edit)
    requires HostsGiven(binds)
    ensures PutMounts(m, binds, e).Keys ==
            if e.watch then m.Keys + AllImages(binds, Elems(e.keys)) else m.Keys - AllImages(binds, Elems(e.keys))
  {
    var ks := Elems(e.keys);
    if binds == [] {
      assert AllImages(binds, ks) == {};
    } else {
      var front, b := binds[..|binds| - 1], binds[|binds| - 1];
      PutMountsKeys(m, front, e);
      PutKeysKeys(PutMounts(m, front, e), b, e.keys, e.watch);
      assert binds == front + [b];
      ImagesSplit(front, b, ks);
    }
  }

  lemma ImagesSplit(front: seq<Bind>, b: Bind, ks: set<Str>)
    requires HostsGiven(front + [b])
    ensures HostsGiven(front) && HostsGiven([b])
    ensures AllImages(front + [b], ks) == AllImages(front, ks) + AllImages([b], ks)
  {
    forall x | x in front ensures x.host != [] { assert x in front + [b]; }
    assert b in front + [b];
    forall k | k in ks
      ensures Images(front + [b], k) == Images(front, k) + Images([b], k)
    {
    }
  }

  predicate Over(edits: seq<Edit>, universe: set<Str>) {
    forall e | e in edits :: Elems(e.keys) <= universe
  }

  /** No two of the paths share a node path. */
  predicate NoCollision(binds: seq<Bind>, universe: set<Str>)
    requires HostsGiven(binds)
  {
    forall k1, k2 | k1 in universe && k2 in universe && k1 != k2 :: Images(binds, k1) !! Images(binds, k2)
  }

  /** For one mount, a caller can read the condition off the paths. */
  lemma NoCollisionExactly(b: Bind, universe: set<Str>)
    requires b.host != []
    ensures NoCollision([b], universe) <==>
            forall k1, k2 | k1 in universe && k2 in universe && k1 != k2 :: !SlashTwins(b, k1, k2)
  {
    forall k1, k2 | k1 in universe && k2 in universe && k1 != k2
      ensures Images([b], k1) !! Images([b], k2) <==> !SlashTwins(b, k1, k2) && !SlashTwins(b, k2, k1)
    {
      OneImage(b, k1);
      OneImage(b, k2);
      if Image(b, k1).Some? && Image(b, k2).Some? {
        SameNodePathExactly(b, k1, k2);
      }
    }
  }

  lemma OneImage(b: Bind, k: Str)
    requires b.host != []
    ensures Images([b], k) == if Image(b, k).Some? then {Image(b, k).value.0} else {}
  {
    assert b in [b];
  }

  predicate KeysExact(binds: seq<Bind>, edits: seq<Edit>)
    requires HostsGiven(binds)
  {
    MapAfter(binds, edits).Keys == AllImages(binds, Watched(edits))
  }

  lemma {:induction false} WatchedWithin(edits: seq<Edit>, universe: set<Str>)
    requires Over(edits, universe)
    ensures Watched(edits) <= universe
  {
    if edits != [] {
      assert edits[|edits| - 1] in edits;
      assert forall e | e in edits[..|edits| - 1] :: e in edits;
      WatchedWithin(edits[..|edits| - 1], universe);
    }
  }

  lemma {:induction false} KeysOfWatched(binds: seq<Bind>, edits: seq<Edit>, universe: set<Str>)
    requires HostsGiven(binds) && NoCollision(binds, universe) && Over(edits, universe)
    ensures KeysExact(binds, edits)
  {
    if edits == [] {
      assert AllImages(binds, {}) == {};
    } else {
      var front, e := edits[..|edits| - 1], edits[|edits| - 1];
      assert e in edits && forall x | x in front :: x in edits;
      KeysOfWatched(binds, front, universe);
      PutMountsKeys(MapAfter(binds, front), binds, e);
      WatchedWithin(front, universe);
      var was, ks := Watched(front), Elems(e.keys);
      if e.watch {
        assert AllImages(binds, was + ks) == AllImages(binds, was) + AllImages(binds, ks);
      } else {
        assert AllImages(binds, was - ks) == AllImages(binds, was) - AllImages(binds, ks);
      }
    }
  }

  /** Two colliding paths: watching both and unwatching the second loses the
      node path the first still needs. */
  lemma CollisionLosesPath(binds: seq<Bind>, k1: Str, k2: Str)
    requires HostsGiven(binds) && k1 != k2 && !(Images(binds, k1) !! Images(binds, k2))
    ensures !KeysExact(binds, [Edit(true, [k1]), Edit(true, [k2]), Edit(false, [k2])])
  {
    var e1, e2, e3 := Edit(true, [k1]), Edit(true, [k2]), Edit(false, [k2]);
    var edits := [e1, e2, e3];
    assert edits[..2] == [e1, e2] && [e1, e2][..1] == [e1] && [e1][..0] == [];
    PutMountsKeys(MapAfter(binds, [e1, e2]), binds, e3);
    assert Elems([k1]) == {k1} && Elems([k2]) == {k2};
    assert Watched([]) == {} && Watched([e1]) == {k1} && Watched([e1, e2]) == {k1, k2};
    assert Watched(edits) == ApplyEdit({k1, k2}, e3) == {k1};
    var p :| p in Images(binds, k1) && p in Images(binds, k2);
    assert k2 in Elems(e3.keys);
    assert p in AllImages(binds, Elems(e3.keys));
    assert p in AllImages(binds, {k1});
  }

  /** The keys of the map are the images of the watched paths, after every
      history over a set of paths, exactly when no two of them collide. */
  lemma MappingExact(binds: seq<Bind>, universe: set<Str>)
    requires HostsGiven(binds)
    ensures NoCollision(binds, universe) <==> forall edits | Over(edits, universe) :: KeysExact(binds, edits)
  {
    if NoCollision(binds, universe) {
      forall edits | Over(edits, universe) ensures KeysExact(binds, edits) {
        KeysOfWatched(binds, edits, universe);
      }
    } else {
      var k1, k2 :| k1 in universe && k2 in universe && k1 != k2 && !(Images(binds, k1) !! Images(binds, k2));
      CollisionLosesPath(binds, k1, k2);
      assert Over([Edit(true, [k1]), Edit(true, [k2]), Edit(false, [k2])], universe);
    }
  }

  // -------------------------------------------------------------- entries

  /** `p` is stored with the pod path that some path of `ks` has under some mount. */
  predicate Explained(binds: seq<Bind>, ks: set<Str>, p: Str, v: Str)
    requires HostsGiven(binds)
  {
    exists k, b | k in ks && b in binds :: Image(b, k) == Some((p, v))
  }

  lemma {:induction false} PutKeysEntry(m: PathMap, b: Bind, keys: seq<Str>, watch: bool, p: Str)
    requires b.host != [] && p in PutKeys(m, b, keys, watch)
    ensures var v := PutKeys(m, b, keys, watch)[p];
            (p in m && m[p] == v) || (watch && exists k | k in keys :: Image(b, k) == Some((p, v)))
  {
    if keys != [] {
      var front, k := keys[..|keys| - 1], keys[|keys| - 1];
      var m1 := PutKeys(m, b, front, watch);
      if Image(b, k).None? || Image(b, k).value.0 != p {
        PutKeysEntry(m, b, front, watch, p);
        var v := m1[p];
        if !(p in m && m[p] == v) {
          var k' :| k' in front && Image(b, k') == Some((p, v));
          assert k' in keys;
        }
      }
    }
  }

  lemma {:induction false} PutMountsEntry(m: PathMap, binds: seq<Bind>, e: Edit, p: Str)
    requires HostsGiven(binds) && p in PutMounts(m, binds, e)
    ensures var v := PutMounts(m, binds, e)[p];
            (p in m && m[p] == v) || (e.watch && Explained(binds, Elems(e.keys), p, v))
  {
    if binds != [] {
      var front, b := binds[..|binds| - 1], binds[|binds| - 1];
      var m1 := PutMounts(m, front, e);
      PutKeysEntry(m1, b, e.keys, e.watch, p);
      var v := PutMounts(m, binds, e)[p];
      if p in m1 && m1[p] == v {
        PutMountsEntry(m, front, e, p);
        if !(p in m && m[p] == v) {
          var k, b' :| k in Elems(e.keys) && b' in front && Image(b', k) == Some((p, v));
          assert b' in binds;
        }
      } else {
        var k :| k in e.keys && Image(b, k) == Some((p, v));
        assert b in binds && k in Elems(e.keys);
      }
    }
  }

  /** Every entry is owed to a path that is watched now, whatever collides. */
  lemma {:induction false} EntriesExplained(binds: seq<Bind>, edits: seq<Edit>, p: Str)
    requires HostsGiven(binds) && p in MapAfter(binds, edits)
    ensures Explained(binds, Watched(edits), p, MapAfter(binds, edits)[p])
  {
    var front, e := edits[..|edits| - 1], edits[|edits| - 1];
    var m, ks, v := MapAfter(binds, front), Elems(e.keys), MapAfter(binds, edits)[p];
    PutMountsEntry(m, binds, e, p);
    if e.watch && Explained(binds, ks, p, v) {
      var k, b :| k in ks && b in binds && Image(b, k) == Some((p, v));
      assert k in Watched(edits);
    } else {
      EntriesExplained(binds, front, p);
      var k, b :| k in Watched(front) && b in binds && Image(b, k) == Some((p, v));
      assert p in Images(binds, k);
      PutMountsKeys(m, binds, e);
      assert !e.watch ==> p !in AllImages(binds, ks);
      assert k in Watched(edits);
    }
  }

  /** With host paths that do not end in a slash, each entry leads back to a
      watched path itself. */
  lemma EntriesAreWatchedPaths(binds: seq<Bind>, edits: seq<Edit>, p: Str)
    requires HostsGiven(binds) && p in MapAfter(binds, edits)
    requires forall b | b in binds :: !EndsWithSlash(b.host)
    ensures MapAfter(binds, edits)[p] in Watched(edits)
    ensures p in Images(binds, MapAfter(binds, edits)[p])
  {
    EntriesExplained(binds, edits, p);
    var v := MapAfter(binds, edits)[p];
    var k, b :| k in Watched(edits) && b in binds && Image(b, k) == Some((p, v));
    StoredPathIsWatchedPath(b, k);
  }

  // ---------------------------------------------------- the code's own loops

  /** The last host path of a Directory or DirectoryOrCreate volume wins. */
  function VolumeMap(volumes: seq<Volume>): map<Str, Str> {
    if volumes == [] then map[]
    else
      var v := volumes[|volumes| - 1];
      var m := VolumeMap(volumes[..|volumes| - 1]);
      if v.hostPath.Some? && !v.hostPath.value.kind.OtherKind? then m[v.name := v.hostPath.value.path] else m
  }

  function MountBinds(mounts: seq<Mount>, vols: map<Str, Str>): seq<Bind> {
    if mounts == [] then []
    else
      var vm := mounts[|mounts| - 1];
      MountBinds(mounts[..|mounts| - 1], vols) + (if vm.name in vols then [Bind(vols[vm.name], vm.path)] else [])
  }

  function ContainerBinds(cs: seq<Container>, name: Str, vols: map<Str, Str>): seq<Bind> {
    if cs == [] then []
    else
      var c := cs[|cs| - 1];
      ContainerBinds(cs[..|cs| - 1], name, vols) + (if c.name == name then MountBinds(c.mounts, vols) else [])
  }

  /** The mounts the code visits for a container, in order. */
  function Binds(pod: Pod, container: Str): seq<Bind> {
    ContainerBinds(pod.containers, container, VolumeMap(pod.volumes))
  }

  // -------------------------------------------------------- which mounts

  /** The host path is a directory, made on demand or not. */
  predicate IsDirectory(v: Volume) {
    v.hostPath.Some? && v.hostPath.value.kind in {Directory, DirectoryOrCreate}
  }

  /** Of the volumes of this name that are directories, the last has this host path. */
  predicate HostOf(volumes: seq<Volume>, name: Str, host: Str) {
    exists k: nat | k < |volumes| ::
      && volumes[k].name == name && IsDirectory(volumes[k]) && volumes[k].hostPath.value.path == host
      && forall k' | k < k' < |volumes| && volumes[k'].name == name :: !IsDirectory(volumes[k'])
  }

  /** Mount `j` of container `i`, which has the given name, shows the node's
      directory `b.host` at `b.mount`. */
  predicate Mounted(pod: Pod, container: Str, i: nat, j: nat, b: Bind) {
    && i < |pod.containers| && pod.containers[i].name == container
    && j < |pod.containers[i].mounts| && pod.containers[i].mounts[j].path == b.mount
    && HostOf(pod.volumes, pod.containers[i].mounts[j].name, b.host)
  }

  predicate Before(p: (nat, nat), q: (nat, nat)) {
    p.0 < q.0 || (p.0 == q.0 && p.1 < q.1)
  }

  predicate Ascending(at: seq<(nat, nat)>) {
    forall n, n' | 0 <= n < n' < |at| :: Before(at[n], at[n'])
  }

  /** The host path of a volume is that of the last directory with its name. */
  lemma {:induction false} VolumeMapExactly(volumes: seq<Volume>, name: Str, host: Str)
    ensures name in VolumeMap(volumes) && VolumeMap(volumes)[name] == host <==> HostOf(volumes, name, host)
  {
    if volumes != [] {
      var front, v := volumes[..|volumes| - 1], volumes[|volumes| - 1];
      VolumeMapExactly(front, name, host);
      if v.name == name && IsDirectory(v) {
        assert v.hostPath.value.path == host ==> HostOf(volumes, name, host);
      } else {
        HostStays(front, v, name, host);
      }
    }
  }

  lemma HostStays(front: seq<Volume>, v: Volume, name: Str, host: Str)
    requires v.name != name || !IsDirectory(v)
    ensures HostOf(front + [v], name, host) <==> HostOf(front, name, host)
  {
    var all := front + [v];
    assert forall k | 0 <= k < |front| :: all[k] == front[k];
    if HostOf(front, name, host) {
      var k: nat :| k < |front| && front[k].name == name && IsDirectory(front[k])
                    && front[k].hostPath.value.path == host
                    && forall k' | k < k' < |front| && front[k'].name == name :: !IsDirectory(front[k']);
      assert all[k].name == name;
    }
  }

  /** The same, with the host paths looked up. */
  predicate Shown(cs: seq<Container>, name: Str, vols: map<Str, Str>, i: nat, j: nat, b: Bind) {
    && i < |cs| && cs[i].name == name && j < |cs[i].mounts| && cs[i].mounts[j].name in vols
    && b == Bind(vols[cs[i].mounts[j].name], cs[i].mounts[j].path)
  }

  /** Where the binds of one container are. */
  function MountPlaces(mounts: seq<Mount>, vols: map<Str, Str>, i: nat): seq<(nat, nat)> {
    if mounts == [] then []
    else
      var j := |mounts| - 1;
      MountPlaces(mounts[..j], vols, i) + (if mounts[j].name in vols then [(i, j)] else [])
  }

  function ContainerPlaces(cs: seq<Container>, name: Str, vols: map<Str, Str>): seq<(nat, nat)> {
    if cs == [] then []
    else
      var i := |cs| - 1;
      ContainerPlaces(cs[..i], name, vols) + (if cs[i].name == name then MountPlaces(cs[i].mounts, vols, i) else [])
  }

  lemma {:induction false} MountsInOrder(mounts: seq<Mount>, vols: map<Str, Str>, i: nat)
    ensures var binds, at := MountBinds(mounts, vols), MountPlaces(mounts, vols, i);
            && |at| == |binds| && Ascending(at)
            && (forall n | 0 <= n < |at| ::
                  && at[n].0 == i && at[n].1 < |mounts| && mounts[at[n].1].name in vols
                  && binds[n] == Bind(vols[mounts[at[n].1].name], mounts[at[n].1].path))
            && (forall j: nat | j < |mounts| && mounts[j].name in vols :: (i, j) in at)
  {
    if mounts != [] {
      MountsInOrder(mounts[..|mounts| - 1], vols, i);
    }
  }

  lemma {:induction false} ContainersInOrder(cs: seq<Container>, name: Str, vols: map<Str, Str>)
    ensures var binds, at := ContainerBinds(cs, name, vols), ContainerPlaces(cs, name, vols);
            && |at| == |binds| && Ascending(at)
            && (forall n | 0 <= n < |at| :: Shown(cs, name, vols, at[n].0, at[n].1, binds[n]))
            && (forall i: nat, j: nat
                  | i < |cs| && j < |cs[i].mounts| && cs[i].name == name && cs[i].mounts[j].name in vols ::
                  (i, j) in at)
  {
    if cs != [] {
      var i := |cs| - 1;
      ContainersInOrder(cs[..i], name, vols);
      MountsInOrder(cs[i].mounts, vols, i);
    }
  }

  /** The binds of a container, from the pod alone: they are its mounts of
      directories of the node, each with the host path of the last directory
      volume of its name, all of them, in the order of containers and mounts. */
  lemma BindsExactly(pod: Pod, container: Str) returns (at: seq<(nat, nat)>)
    ensures |at| == |Binds(pod, container)| && Ascending(at)
    ensures forall n | 0 <= n < |at| :: Mounted(pod, container, at[n].0, at[n].1, Binds(pod, container)[n])
    ensures forall i: nat, j: nat, b | Mounted(pod, container, i, j, b) :: (i, j) in at && b in Binds(pod, container)
  {
    var cs, vols, binds := pod.containers, VolumeMap(pod.volumes), Binds(pod, container);
    at := ContainerPlaces(cs, container, vols);
    ContainersInOrder(cs, container, vols);
    forall i: nat, j: nat, b ensures Shown(cs, container, vols, i, j, b) <==> Mounted(pod, container, i, j, b) {
      ShownIsMounted(pod, container, i, j, b);
    }
    forall i: nat, j: nat, b | Mounted(pod, container, i, j, b) ensures (i, j) in at && b in binds {
      assert Shown(cs, container, vols, i, j, b);
      var n :| 0 <= n < |at| && at[n] == (i, j);
      assert Shown(cs, container, vols, i, j, binds[n]);
    }
  }

  lemma ShownIsMounted(pod: Pod, container: Str, i: nat, j: nat, b: Bind)
    ensures Shown(pod.containers, container, VolumeMap(pod.volumes), i, j, b) <==> Mounted(pod, container, i, j, b)
  {
    if i < |pod.containers| && j < |pod.containers[i].mounts| {
      VolumeMapExactly(pod.volumes, pod.containers[i].mounts[j].name, b.host);
    }
  }

  lemma {:induction false} PutMountsAppend(m: PathMap, xs: seq<Bind>, ys: seq<Bind>, e: Edit)
    requires HostsGiven(xs + ys)
    ensures HostsGiven(xs) && HostsGiven(ys)
    ensures PutMounts(m, xs + ys, e) == PutMounts(PutMounts(m, xs, e), ys, e)
  {
    forall b | b in xs ensures b.host != [] { assert b in xs + ys; }
    forall b | b in ys ensures b.host != [] { assert b in xs + ys; }
    if ys == [] {
      assert xs + ys == xs;
    } else {
      var front := ys[..|ys| - 1];
      assert (xs + ys)[..|xs + ys| - 1] == xs + front;
      PutMountsAppend(m, xs, front, e);
    }
  }

  method BuildVolumeMap(volumes: seq<Volume>) returns (vols: map<Str, Str>)
    ensures vols == VolumeMap(volumes)
  {
    vols := map[];
    for i := 0 to |volumes|
      invariant vols == VolumeMap(volumes[..i])
    {
      var v := volumes[i];
      assert volumes[..i + 1][..i] == volumes[..i];
      if v.hostPath.Some? && (v.hostPath.value.kind.Directory? || v.hostPath.value.kind.DirectoryOrCreate?) {
        vols := vols[v.name := v.hostPath.value.path];
      }
    }
    assert volumes[..|volumes|] == volumes;
  }
}
