/** Which watched path a node path is known by, when several are mapped to it:
    the mount and key loops of processWatcherMessage
    (k8s/cmd/fsnotify-proxy/app/app.go) over messages with any number of paths. */
module LastWatch {
  import opened Prelude
  import opened Mapping

  predicate Hits(b: Bind, k: Str, p: Str)
    requires b.host != []
  {
    Image(b, k).Some? && Image(b, k).value.0 == p
  }

  /** Of all mounts and keys of a message, in the order of the loops, mount `i`
      and key `j` are the last that map to `p`. */
  predicate LastHit(binds: seq<Bind>, keys: seq<Str>, i: nat, j: nat, p: Str)
    requires HostsGiven(binds)
  {
    && i < |binds| && j < |keys| && Hits(binds[i], keys[j], p)
    && (forall j' | j < j' < |keys| :: !Hits(binds[i], keys[j'], p))
    && (forall i', k | i < i' < |binds| && k in keys :: !Hits(binds[i'], k, p))
  }

  /** Message `n` is the last about `p`, and a WATCH. */
  predicate LastWatched(binds: seq<Bind>, edits: seq<Edit>, n: nat, i: nat, j: nat, p: Str)
    requires HostsGiven(binds)
  {
    && n < |edits| && edits[n].watch && LastHit(binds, edits[n].keys, i, j, p)
    && forall n' | n < n' < |edits| :: p !in AllImages(binds, Elems(edits[n'].keys))
  }

  // ----------------------------------------------------------- one message

  lemma {:induction false} KeysMiss(m: PathMap, b: Bind, keys: seq<Str>, p: Str)
    requires b.host != [] && forall k | k in keys :: !Hits(b, k, p)
    ensures var m' := PutKeys(m, b, keys, true); (p in m' <==> p in m) && (p in m ==> m'[p] == m[p])
  {
    if keys != [] {
      assert keys[|keys| - 1] in keys && forall k | k in keys[..|keys| - 1] :: k in keys;
      KeysMiss(m, b, keys[..|keys| - 1], p);
    }
  }

  lemma {:induction false} KeysHit(m: PathMap, b: Bind, keys: seq<Str>, j: nat, p: Str)
    requires b.host != [] && j < |keys| && Hits(b, keys[j], p)
    requires forall j' | j < j' < |keys| :: !Hits(b, keys[j'], p)
    ensures var m' := PutKeys(m, b, keys, true); p in m' && m'[p] == Image(b, keys[j]).value.1
  {
    if j < |keys| - 1 {
      assert keys[..|keys| - 1][j] == keys[j];
      KeysHit(m, b, keys[..|keys| - 1], j, p);
    }
  }

  lemma {:induction false} MountsHit(m: PathMap, binds: seq<Bind>, keys: seq<Str>, i: nat, j: nat, p: Str)
    requires HostsGiven(binds) && LastHit(binds, keys, i, j, p)
    ensures var m' := PutMounts(m, binds, Edit(true, keys)); p in m' && m'[p] == Image(binds[i], keys[j]).value.1
  {
    var front, b := binds[..|binds| - 1], binds[|binds| - 1];
    var m1 := PutMounts(m, front, Edit(true, keys));
    if i == |binds| - 1 {
      KeysHit(m1, b, keys, j, p);
    } else {
      assert front[i] == binds[i];
      MountsHit(m, front, keys, i, j, p);
      KeysMiss(m1, b, keys, p);
    }
  }

  lemma {:induction false} LastKey(b: Bind, keys: seq<Str>, p: Str) returns (j: nat)
    requires b.host != [] && exists k | k in keys :: Hits(b, k, p)
    ensures j < |keys| && Hits(b, keys[j], p) && forall j' | j < j' < |keys| :: !Hits(b, keys[j'], p)
  {
    j := |keys| - 1;
    if !Hits(b, keys[j], p) {
      var k :| k in keys && Hits(b, k, p);
      assert k in keys[..j];
      j := LastKey(b, keys[..j], p);
    }
  }

  /** A message about `p` has a last mount and key that map to it. */
  lemma {:induction false} SomeHit(binds: seq<Bind>, keys: seq<Str>, p: Str) returns (i: nat, j: nat)
    requires HostsGiven(binds) && p in AllImages(binds, Elems(keys))
    ensures LastHit(binds, keys, i, j, p)
  {
    var front, b := binds[..|binds| - 1], binds[|binds| - 1];
    if exists k | k in keys :: Hits(b, k, p) {
      i := |binds| - 1;
      j := LastKey(b, keys, p);
    } else {
      assert binds == front + [b];
      ImagesSplit(front, b, Elems(keys));
      NotHit(b, keys, p);
      i, j := SomeHit(front, keys, p);
    }
  }

  lemma NotHit(b: Bind, keys: seq<Str>, p: Str)
    requires b.host != [] && forall k | k in keys :: !Hits(b, k, p)
    ensures p !in AllImages([b], Elems(keys))
  {
  }

  // ----------------------------------------------------- a whole history

  lemma NotExplained(binds: seq<Bind>, ks: set<Str>, p: Str, v: Str)
    requires HostsGiven(binds) && p !in AllImages(binds, ks)
    ensures !Explained(binds, ks, p, v)
  {
    forall k, b | k in ks && b in binds ensures Image(b, k) != Some((p, v)) {
      assert Image(b, k) == Some((p, v)) ==> p in Images(binds, k);
    }
  }

  /** A message about other node paths leaves an entry alone. */
  lemma EntryStays(m: PathMap, binds: seq<Bind>, e: Edit, p: Str)
    requires HostsGiven(binds) && p !in AllImages(binds, Elems(e.keys))
    ensures var m' := PutMounts(m, binds, e); (p in m' <==> p in m) && (p in m ==> m'[p] == m[p])
  {
    PutMountsKeys(m, binds, e);
    if p in PutMounts(m, binds, e) {
      PutMountsEntry(m, binds, e, p);
      NotExplained(binds, Elems(e.keys), p, PutMounts(m, binds, e)[p]);
    }
  }

  /** The path watched last, in the order of messages, mounts and keys, is the
      one a node path is stored with. */
  lemma {:induction false} LastWatchWins(binds: seq<Bind>, edits: seq<Edit>, n: nat, i: nat, j: nat, p: Str)
    requires HostsGiven(binds) && LastWatched(binds, edits, n, i, j, p)
    ensures p in MapAfter(binds, edits)
    ensures Some((p, MapAfter(binds, edits)[p])) == Image(binds[i], edits[n].keys[j])
  {
    var front, e := edits[..|edits| - 1], edits[|edits| - 1];
    var m := MapAfter(binds, front);
    if n == |edits| - 1 {
      MountsHit(m, binds, e.keys, i, j, p);
      assert e == Edit(true, e.keys);
    } else {
      assert front[n] == edits[n];
      assert forall n' | n < n' < |front| :: front[n'] == edits[n'];
      LastWatchWins(binds, front, n, i, j, p);
      EntryStays(m, binds, e, p);
    }
  }

  /** And every node path that is stored has one. */
  lemma {:induction false} StoredWasWatched(binds: seq<Bind>, edits: seq<Edit>, p: Str) returns (n: nat, i: nat, j: nat)
    requires HostsGiven(binds) && p in MapAfter(binds, edits)
    ensures LastWatched(binds, edits, n, i, j, p)
  {
    var front, e := edits[..|edits| - 1], edits[|edits| - 1];
    if p in AllImages(binds, Elems(e.keys)) {
      PutMountsKeys(MapAfter(binds, front), binds, e);
      n := |edits| - 1;
      i, j := SomeHit(binds, e.keys, p);
    } else {
      EntryStays(MapAfter(binds, front), binds, e, p);
      n, i, j := StoredWasWatched(binds, front, p);
      assert front[n] == edits[n];
    }
  }

  /** A node path is mapped exactly when the last message about it is a WATCH. */
  lemma MappedExactly(binds: seq<Bind>, edits: seq<Edit>, p: Str)
    requires HostsGiven(binds)
    ensures p in MapAfter(binds, edits) <==> exists n, i, j :: LastWatched(binds, edits, n, i, j, p)
  {
    if p in MapAfter(binds, edits) {
      var n, i, j := StoredWasWatched(binds, edits, p);
    }
    if n, i, j :| LastWatched(binds, edits, n, i, j, p) {
      LastWatchWins(binds, edits, n, i, j, p);
    }
  }
}
