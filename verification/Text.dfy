/** The four functions of Go's `strings` package that the repository builds
    its path handling on, over byte strings. */
module Text {
  import opened Prelude

  /** `sub` occurs in `s` at offset `i`. */
  predicate OccursAt(s: Str, sub: Str, i: nat) {
    i + |sub| <= |s| && s[i..i + |sub|] == sub
  }

  ghost predicate Occurs(s: Str, sub: Str) {
    exists i: nat :: OccursAt(s, sub, i)
  }

  /** strings.Index: the offset of the first occurrence. */
  function Index(s: Str, sub: Str): (r: Option<nat>)
    ensures r.Some? ==> OccursAt(s, sub, r.value)
    ensures r.Some? ==> forall i: nat | i < r.value :: !OccursAt(s, sub, i)
    ensures r.None? ==> forall i: nat :: !OccursAt(s, sub, i)
  {
    IndexFrom(s, sub, 0)
  }

  function IndexFrom(s: Str, sub: Str, from: nat): (r: Option<nat>)
    requires from <= |s| + 1
    requires forall i: nat | i < from :: !OccursAt(s, sub, i)
    ensures r.Some? ==> OccursAt(s, sub, r.value)
    ensures r.Some? ==> forall i: nat | i < r.value :: !OccursAt(s, sub, i)
    ensures r.None? ==> forall i: nat :: !OccursAt(s, sub, i)
    decreases |s| + 1 - from
  {
    if from + |sub| > |s| then None
    else if OccursAt(s, sub, from) then Some(from)
    else IndexFrom(s, sub, from + 1)
  }

  /** strings.Replace(s, from, to, 1). An empty `from` matches at offset 0. */
  function ReplaceFirst(s: Str, from: Str, to: Str): Str {
    match Index(s, from)
    case None => s
    case Some(i) => s[..i] + to + s[i + |from|..]
  }

  /** The first occurrence is replaced, and what is around it stays; a text that
      does not have the pattern stays as it is. */
  lemma ReplacesFirst(a: Str, from: Str, b: Str, to: Str)
    ensures (forall i: nat | i < |a| :: !OccursAt(a + from + b, from, i)) ==>
              ReplaceFirst(a + from + b, from, to) == a + to + b
    ensures !Occurs(a, from) ==> ReplaceFirst(a, from, to) == a
  {
    var s := a + from + b;
    assert s[|a|..|a| + |from|] == from;
    assert OccursAt(s, from, |a|);
    assert s[..|a|] == a && s[|a| + |from|..] == b;
  }

  /** A pattern that opens the text is the one replaced. */
  lemma ReplaceOpening(from: Str, tail: Str, to: Str)
    ensures ReplaceFirst(from + tail, from, to) == to + tail
  {
    assert OccursAt(from + tail, from, 0);
    assert Index(from + tail, from) == Some(0);
  }

  /** strings.Split for a one-byte separator. */
  function Split(s: Str, sep: byte): (parts: seq<Str>)
    ensures |parts| >= 1
    ensures forall p | p in parts :: sep !in p
  {
    if s == [] then [[]]
    else
      var rest := Split(s[1..], sep);
      if s[0] == sep then [[]] + rest
      else [[s[0]] + rest[0]] + rest[1..]
  }

  /** strings.Join for a one-byte separator. */
  function Join(parts: seq<Str>, sep: byte): Str {
    if parts == [] then []
    else if |parts| == 1 then parts[0]
    else parts[0] + [sep] + Join(parts[1..], sep)
  }

  /** Splitting a joined list of separator-free parts gives the list back. */
  lemma {:induction false} SplitJoin(parts: seq<Str>, sep: byte)
    requires parts != []
    requires forall p | p in parts :: sep !in p
    ensures Split(Join(parts, sep), sep) == parts
  {
    if |parts| == 1 {
      SplitPlain(parts[0], sep);
    } else {
      SplitJoin(parts[1..], sep);
      SplitHead(parts[0], Join(parts[1..], sep), sep);
      assert parts[0] + [sep] + Join(parts[1..], sep) == parts[0] + ([sep] + Join(parts[1..], sep));
      assert parts == [parts[0]] + parts[1..];
    }
  }

  lemma {:induction false} SplitPlain(p: Str, sep: byte)
    requires sep !in p
    ensures Split(p, sep) == [p]
  {
    if p != [] {
      SplitPlain(p[1..], sep);
      assert p == [p[0]] + p[1..];
    }
  }

  lemma {:induction false} SplitHead(p: Str, rest: Str, sep: byte)
    requires sep !in p
    ensures Split(p + ([sep] + rest), sep) == [p] + Split(rest, sep)
  {
    var s := p + ([sep] + rest);
    if p == [] {
      assert s[1..] == rest;
    } else {
      SplitHead(p[1..], rest, sep);
      assert s[1..] == p[1..] + ([sep] + rest);
      assert p == [p[0]] + p[1..];
    }
  }

  /** Joining what was split gives the text back. */
  lemma {:induction false} JoinSplit(s: Str, sep: byte)
    ensures Join(Split(s, sep), sep) == s
  {
    if s != [] {
      JoinSplit(s[1..], sep);
      var rest := Split(s[1..], sep);
      if s[0] == sep {
        assert ([[]] + rest)[1..] == rest;
        assert s == [] + [sep] + s[1..];
      } else {
        var parts := [[s[0]] + rest[0]] + rest[1..];
        assert parts[1..] == rest[1..];
        assert s == [s[0]] + s[1..];
        if |rest| > 1 {
          assert [s[0]] + rest[0] + [sep] + Join(rest[1..], sep) == [s[0]] + (rest[0] + [sep] + Join(rest[1..], sep));
        }
      }
    }
  }

  /** Joining with one more part appends a separator and that part. */
  lemma {:induction false} JoinSnoc(parts: seq<Str>, last: Str, sep: byte)
    requires parts != []
    ensures Join(parts + [last], sep) == Join(parts, sep) + [sep] + last
  {
    if |parts| == 1 {
      assert (parts + [last])[1..] == [last];
    } else {
      JoinSnoc(parts[1..], last, sep);
      assert (parts + [last])[1..] == parts[1..] + [last];
    }
  }
}
