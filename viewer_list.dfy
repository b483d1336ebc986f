/** The host's `connections` list: the ids of the viewers whose data connection
    opened, in arrival order. It is a plain list: the same id may appear more
    than once, and a close removes every copy of the closing id. */
module ViewerList {
  import opened Common

  /** Number of occurrences of `x` in `s`. */
  function Count(s: seq<PeerId>, x: PeerId): (n: nat)
    ensures n <= |s|
    ensures n == 0 <==> x !in s
  {
    if s == [] then 0
    else (if s[0] == x then 1 else 0) + Count(s[1..], x)
  }

  /** The list after a connection from `p` opens: `[...prev, p]`. */
  function Joined(s: seq<PeerId>, p: PeerId): (r: seq<PeerId>)
    ensures |r| == |s| + 1 && r[|s|] == p
    ensures r[..|s|] == s
  {
    assert (s + [p])[..|s|] == s;
    s + [p]
  }

  /** A connection adds one copy of its own id and no copy of any other. */
  lemma JoinedCount(s: seq<PeerId>, p: PeerId, x: PeerId)
    ensures Count(Joined(s, p), x) == Count(s, x) + (if x == p then 1 else 0)
  {
    CountConcat(s, [p], x);
    assert Count([p], x) == (if x == p then 1 else 0) + Count([], x);
  }

  /** The list after the connection from `p` closes:
      `prev.filter(peerId => peerId !== p)`. */
  function Without(s: seq<PeerId>, p: PeerId): (r: seq<PeerId>)
    ensures p !in r
    ensures forall x :: x in r <==> x in s && x != p
    ensures |r| == |s| - Count(s, p)
  {
    if s == [] then []
    else if s[0] == p then Without(s[1..], p)
    else [s[0]] + Without(s[1..], p)
  }

  lemma {:induction false} CountConcat(a: seq<PeerId>, b: seq<PeerId>, x: PeerId)
    ensures Count(a + b, x) == Count(a, x) + Count(b, x)
    decreases |a|
  {
    if a == [] {
      assert a + b == b;
    } else {
      assert (a + b)[0] == a[0];
      assert (a + b)[1..] == a[1..] + b;
      CountConcat(a[1..], b, x);
    }
  }

  /** Filtering distributes over concatenation: entries are neither reordered
      nor moved across each other. */
  lemma {:induction false} WithoutConcat(a: seq<PeerId>, b: seq<PeerId>, p: PeerId)
    ensures Without(a + b, p) == Without(a, p) + Without(b, p)
    decreases |a|
  {
    if a == [] {
      assert a + b == b;
    } else {
      assert (a + b)[0] == a[0];
      assert (a + b)[1..] == a[1..] + b;
      WithoutConcat(a[1..], b, p);
    }
  }

  /** A close removes every copy of `p` and keeps every other id exactly as
      often as before. */
  lemma {:induction false} WithoutCount(s: seq<PeerId>, p: PeerId, x: PeerId)
    ensures Count(Without(s, p), x) == if x == p then 0 else Count(s, x)
    decreases |s|
  {
    if s != [] {
      WithoutCount(s[1..], p, x);
      if s[0] != p {
        assert ([s[0]] + Without(s[1..], p))[0] == s[0];
        assert ([s[0]] + Without(s[1..], p))[1..] == Without(s[1..], p);
      }
    }
  }

  /** Closing an id that is not listed leaves the list as it is. */
  lemma {:induction false} WithoutAbsent(s: seq<PeerId>, p: PeerId)
    requires p !in s
    ensures Without(s, p) == s
    decreases |s|
  {
    if s != [] {
      assert s[0] != p;
      WithoutAbsent(s[1..], p);
      assert s == [s[0]] + s[1..];
    }
  }

  /** A second close for the same id changes nothing. */
  lemma WithoutIdempotent(s: seq<PeerId>, p: PeerId)
    ensures Without(Without(s, p), p) == Without(s, p)
  {
    WithoutAbsent(Without(s, p), p);
  }

  /** A connection from `p` followed by its close leaves the list as the
      close alone would have left it: every earlier copy of `p` goes too. */
  lemma ConnectThenClose(s: seq<PeerId>, p: PeerId)
    ensures Without(Joined(s, p), p) == Without(s, p)
  {
    WithoutConcat(s, [p], p);
    assert Without([p], p) == [];
    assert Without(s, p) + [] == Without(s, p);
  }

  /** Closes of two different ids can be handled in either order. */
  lemma {:induction false} WithoutCommutes(s: seq<PeerId>, p: PeerId, q: PeerId)
    ensures Without(Without(s, p), q) == Without(Without(s, q), p)
    decreases |s|
  {
    if s != [] {
      WithoutCommutes(s[1..], p, q);
      if s[0] != p && s[0] != q {
        assert ([s[0]] + Without(s[1..], p))[0] == s[0];
        assert ([s[0]] + Without(s[1..], p))[1..] == Without(s[1..], p);
        assert ([s[0]] + Without(s[1..], q))[0] == s[0];
        assert ([s[0]] + Without(s[1..], q))[1..] == Without(s[1..], q);
      } else if s[0] == p && s[0] != q {
        assert ([s[0]] + Without(s[1..], q))[0] == s[0];
        assert ([s[0]] + Without(s[1..], q))[1..] == Without(s[1..], q);
      } else if s[0] != p && s[0] == q {
        assert ([s[0]] + Without(s[1..], p))[0] == s[0];
        assert ([s[0]] + Without(s[1..], p))[1..] == Without(s[1..], p);
      }
    }
  }
}
