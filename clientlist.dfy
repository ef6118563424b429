/** The server's list of connected clients and what one broadcast pass over
    it does when a client whose send fails is removed during the pass. */
module ClientList {

  /** A connection, known only by its identity. */
  type Socket = nat

  /** The outcome of one pass: the list left afterwards and the clients a
      send was attempted to, in order. */
  datatype Pass = Pass(remaining: seq<Socket>, attempted: seq<Socket>)

  predicate NoDup(s: seq<Socket>) {
    forall i, j :: 0 <= i < j < |s| ==> s[i] != s[j]
  }

  /** `a` keeps some of the elements of `b`, in the same order. */
  predicate Subseq(a: seq<Socket>, b: seq<Socket>)
    decreases |b|
  {
    a == [] || (b != [] && ((a[0] == b[0] && Subseq(a[1..], b[1..])) || Subseq(a, b[1..])))
  }

  /** The position of the first occurrence of `x`. */
  function IndexOf(s: seq<Socket>, x: Socket): (k: nat)
    requires x in s
    ensures k < |s| && s[k] == x && x !in s[..k]
  {
    if s[0] == x then 0 else 1 + IndexOf(s[1..], x)
  }

  /** Python's `list.remove(x)` when `x` is in the list: drops its first
      occurrence. */
  function Remove(s: seq<Socket>, x: Socket): (r: seq<Socket>)
    requires x in s
    ensures |r| == |s| - 1
  {
    var k := IndexOf(s, x);
    s[..k] + s[k + 1..]
  }

  /** Python's `for client in s:` from position `i` on, where the body sends
      to `client` and calls `s.remove(client)` when that send fails. The
      list iterator keeps a position: after a removal the next element moves
      into the current position, so the iterator passes over it. */
  function Iterate(s: seq<Socket>, i: nat, failing: set<Socket>): (p: Pass)
    ensures |p.remaining| <= |s|
    ensures i <= |s| ==> |p.attempted| <= |s| - i
    decreases |s| - i
  {
    if i >= |s| then Pass(s, [])
    else
      var rest := if s[i] in failing then Iterate(Remove(s, s[i]), i + 1, failing)
                  else Iterate(s, i + 1, failing);
      Pass(rest.remaining, [s[i]] + rest.attempted)
  }

  /** The same pass described element by element: a client whose send
      fails is dropped together with the send to its successor, which stays
      in the list untouched. */
  function Walk(s: seq<Socket>, failing: set<Socket>): (p: Pass)
    ensures |p.remaining| <= |s| && |p.attempted| <= |s|
    ensures s != [] ==> p.attempted != [] && p.attempted[0] == s[0]
    decreases |s|
  {
    if s == [] then Pass([], [])
    else if s[0] !in failing then
      var w := Walk(s[1..], failing);
      Pass([s[0]] + w.remaining, [s[0]] + w.attempted)
    else if |s| == 1 then Pass([], s)
    else
      var w := Walk(s[2..], failing);
      Pass([s[1]] + w.remaining, [s[0]] + w.attempted)
  }

  // ---- subsequences ----

  lemma {:induction false} SubseqRefl(s: seq<Socket>)
    ensures Subseq(s, s)
    decreases |s|
  {
    if s != [] {
      SubseqRefl(s[1..]);
    }
  }

  lemma {:induction false} SubseqTrans(a: seq<Socket>, b: seq<Socket>, c: seq<Socket>)
    requires Subseq(a, b) && Subseq(b, c)
    ensures Subseq(a, c)
    decreases |c|
  {
    if a != [] {
      if Subseq(b, c[1..]) {
        SubseqTrans(a, b, c[1..]);
      } else if a[0] == b[0] && Subseq(a[1..], b[1..]) {
        SubseqTrans(a[1..], b[1..], c[1..]);
      } else {
        SubseqTrans(a, b[1..], c[1..]);
      }
    }
  }

  lemma {:induction false} SubseqMembers(a: seq<Socket>, b: seq<Socket>, x: Socket)
    requires Subseq(a, b) && x in a
    ensures x in b
    decreases |b|
  {
    if a[0] == b[0] && Subseq(a[1..], b[1..]) {
      if x != a[0] {
        SubseqMembers(a[1..], b[1..], x);
      }
    } else {
      SubseqMembers(a, b[1..], x);
    }
  }

  lemma NoDupCons(x: Socket, s: seq<Socket>)
    requires x !in s && NoDup(s)
    ensures NoDup([x] + s)
  {
    var t := [x] + s;
    forall i, j | 0 <= i < j < |t|
      ensures t[i] != t[j]
    {
      if i == 0 {
        assert t[j] == s[j - 1];
      } else {
        assert t[i] == s[i - 1] && t[j] == s[j - 1];
      }
    }
  }

  lemma {:induction false} SubseqNoDup(a: seq<Socket>, b: seq<Socket>)
    requires Subseq(a, b) && NoDup(b)
    ensures NoDup(a)
    decreases |b|
  {
    if a != [] {
      assert NoDup(b[1..]) by {
        forall i, j | 0 <= i < j < |b| - 1
          ensures b[1..][i] != b[1..][j]
        {
          assert b[1..][i] == b[i + 1] && b[1..][j] == b[j + 1];
        }
      }
      if a[0] == b[0] && Subseq(a[1..], b[1..]) {
        SubseqNoDup(a[1..], b[1..]);
        if a[0] in a[1..] {
          SubseqMembers(a[1..], b[1..], a[0]);
        }
        assert a == [a[0]] + a[1..];
        NoDupCons(a[0], a[1..]);
      } else {
        SubseqNoDup(a, b[1..]);
      }
    }
  }

  /** Removing one position keeps the order of the rest. */
  lemma {:induction false} DropAtSubseq(s: seq<Socket>, k: nat)
    requires k < |s|
    ensures Subseq(s[..k] + s[k + 1..], s)
    decreases k
  {
    var a := s[..k] + s[k + 1..];
    if k == 0 {
      assert a == s[1..];
      SubseqRefl(s[1..]);
    } else {
      DropAtSubseq(s[1..], k - 1);
      assert a[0] == s[0];
      assert a[1..] == s[1..][..k - 1] + s[1..][k..];
    }
  }

  lemma RemoveSubseq(s: seq<Socket>, x: Socket)
    requires x in s
    ensures Subseq(Remove(s, x), s)
  {
    DropAtSubseq(s, IndexOf(s, x));
  }

  /** In a list without duplicates, `remove(x)` deletes `x` and nothing else. */
  lemma RemoveMembers(s: seq<Socket>, x: Socket, y: Socket)
    requires x in s && NoDup(s)
    ensures y in Remove(s, x) <==> y in s && y != x
  {
    var k := IndexOf(s, x);
    var r := Remove(s, x);
    assert r == s[..k] + s[k + 1..];
    if y in s && y != x {
      var j :| 0 <= j < |s| && s[j] == y;
      if j < k {
        assert r[j] == y;
      } else {
        assert j > k && r[j - 1] == y;
      }
    }
    RemoveSubseq(s, x);
    if y in r {
      SubseqMembers(r, s, y);
    }
  }

  // ---- Walk ----

  lemma {:induction false} WalkSubseq(s: seq<Socket>, failing: set<Socket>)
    ensures Subseq(Walk(s, failing).remaining, s)
    ensures Subseq(Walk(s, failing).attempted, s)
    decreases |s|
  {
    var p := Walk(s, failing);
    if s == [] {
    } else if s[0] !in failing {
      WalkSubseq(s[1..], failing);
    } else if |s| == 1 {
      SubseqRefl(s);
    } else {
      var w := Walk(s[2..], failing);
      WalkSubseq(s[2..], failing);
      assert s[2..] == s[1..][1..];
      assert Subseq(p.remaining, s[1..]);
      assert p.attempted[1..] == w.attempted;
      SubseqTrans(w.attempted, s[2..], s[1..]) by {
        assert Subseq(s[2..], s[1..]) by { SubseqRefl(s[2..]); }
      }
    }
  }

  lemma NoDupTail(s: seq<Socket>, d: nat)
    requires NoDup(s) && d <= |s|
    ensures NoDup(s[d..]) && forall i :: 0 <= i < d ==> s[i] !in s[d..]
  {
    forall i | 0 <= i < d
      ensures s[i] !in s[d..]
    {
    }
  }

  lemma {:induction false} WalkRemovedIff(s: seq<Socket>, failing: set<Socket>, x: Socket)
    requires NoDup(s) && x in s
    ensures x !in Walk(s, failing).remaining <==> x in failing && x in Walk(s, failing).attempted
    decreases |s|
  {
    var p := Walk(s, failing);
    if s[0] !in failing {
      var w := Walk(s[1..], failing);
      NoDupTail(s, 1);
      if x != s[0] {
        WalkRemovedIff(s[1..], failing, x);
      } else {
        WalkSubseq(s[1..], failing);
        if x in w.attempted {
          SubseqMembers(w.attempted, s[1..], x);
        }
      }
    } else if |s| > 1 {
      var w := Walk(s[2..], failing);
      NoDupTail(s, 2);
      WalkSubseq(s[2..], failing);
      if x == s[0] || x == s[1] {
        if x in w.remaining {
          SubseqMembers(w.remaining, s[2..], x);
        }
        if x in w.attempted {
          SubseqMembers(w.attempted, s[2..], x);
        }
        assert x == s[1] ==> x !in w.attempted && s[0] != s[1];
      } else {
        assert x in s[2..] by {
          var j :| 0 <= j < |s| && s[j] == x;
          assert s[2..][j - 2] == x;
        }
        WalkRemovedIff(s[2..], failing, x);
      }
    }
  }

  lemma {:induction false} WalkAttemptedAt(s: seq<Socket>, failing: set<Socket>, k: nat)
    requires NoDup(s) && k < |s|
    ensures s[k] in Walk(s, failing).attempted
        <==> k == 0 || !(s[k - 1] in failing && s[k - 1] in Walk(s, failing).attempted)
    decreases |s|, 1
  {
    if k > 0 {
      if s[0] !in failing {
        WalkAttemptedAtKeeps(s, failing, k);
      } else {
        WalkAttemptedAtDrops(s, failing, k);
      }
    }
  }

  lemma {:induction false} WalkAttemptedAtKeeps(s: seq<Socket>, failing: set<Socket>, k: nat)
    requires NoDup(s) && 0 < k < |s| && s[0] !in failing
    ensures s[k] in Walk(s, failing).attempted
        <==> !(s[k - 1] in failing && s[k - 1] in Walk(s, failing).attempted)
    decreases |s|, 0
  {
    var w := Walk(s[1..], failing);
    assert Walk(s, failing).attempted == [s[0]] + w.attempted;
    NoDupTail(s, 1);
    WalkSubseq(s[1..], failing);
    if k == 1 {
      assert s[1] == s[1..][0];
      WalkAttemptedAt(s[1..], failing, 0);
    } else {
      WalkAttemptedAt(s[1..], failing, k - 1);
      assert s[1..][k - 1] == s[k] && s[1..][k - 2] == s[k - 1];
    }
  }

  lemma {:induction false} WalkAttemptedAtDrops(s: seq<Socket>, failing: set<Socket>, k: nat)
    requires NoDup(s) && 0 < k < |s| && s[0] in failing
    ensures s[k] in Walk(s, failing).attempted
        <==> !(s[k - 1] in failing && s[k - 1] in Walk(s, failing).attempted)
    decreases |s|, 0
  {
    var w := Walk(s[2..], failing);
    assert Walk(s, failing).attempted == [s[0]] + w.attempted;
    NoDupTail(s, 2);
    WalkSubseq(s[2..], failing);
    if s[1] in w.attempted {
      SubseqMembers(w.attempted, s[2..], s[1]);
    }
    assert s[0] != s[1];
    if k == 2 {
      assert s[2..][0] == s[2];
      WalkAttemptedAt(s[2..], failing, 0);
    } else if k > 2 {
      WalkAttemptedAt(s[2..], failing, k - 2);
      assert s[2..][k - 2] == s[k] && s[2..][k - 3] == s[k - 1];
    }
  }

  // ---- Iterate agrees with Walk ----

  /** In a list without duplicates, removing the element at position i
      leaves the list without that position. */
  lemma RemoveAt(before: seq<Socket>, s: seq<Socket>)
    requires NoDup(before + s) && s != []
    ensures Remove(before + s, s[0]) == before + s[1..]
    ensures NoDup(before + s[1..])
  {
    var t := before + s;
    assert t[|before|] == s[0];
    var k := IndexOf(t, s[0]);
    assert k == |before|;
    assert t[..k] == before && t[k + 1..] == s[1..];
    RemoveSubseq(t, s[0]);
    SubseqNoDup(Remove(t, s[0]), t);
  }

  lemma IterateKeeps(t: seq<Socket>, i: nat, failing: set<Socket>)
    requires i < |t| && t[i] !in failing
    ensures Iterate(t, i, failing)
         == Pass(Iterate(t, i + 1, failing).remaining, [t[i]] + Iterate(t, i + 1, failing).attempted)
  {
  }

  lemma IterateDrops(t: seq<Socket>, i: nat, failing: set<Socket>)
    requires i < |t| && t[i] in failing
    ensures Iterate(t, i, failing)
         == Pass(Iterate(Remove(t, t[i]), i + 1, failing).remaining,
                 [t[i]] + Iterate(Remove(t, t[i]), i + 1, failing).attempted)
  {
  }

  /** The loop of a pass carried across the client at position `i`, with
      `done` the clients sent to before it. */
  lemma IterateStep(t: seq<Socket>, i: nat, failing: set<Socket>, done: seq<Socket>, whole: Pass)
    requires i < |t|
    requires Iterate(t, i, failing).remaining == whole.remaining
    requires done + Iterate(t, i, failing).attempted == whole.attempted
    ensures
      var next := if t[i] in failing then Remove(t, t[i]) else t;
      && Iterate(next, i + 1, failing).remaining == whole.remaining
      && (done + [t[i]]) + Iterate(next, i + 1, failing).attempted == whole.attempted
  {
    var next := if t[i] in failing then Remove(t, t[i]) else t;
    if t[i] in failing {
      IterateDrops(t, i, failing);
    } else {
      IterateKeeps(t, i, failing);
    }
    var rest := Iterate(next, i + 1, failing).attempted;
    assert done + ([t[i]] + rest) == whole.attempted;
    assert (done + [t[i]]) + rest == done + ([t[i]] + rest);
  }

  lemma {:induction false} IterateIsWalk(before: seq<Socket>, s: seq<Socket>, failing: set<Socket>)
    requires NoDup(before + s)
    ensures Iterate(before + s, |before|, failing)
         == Pass(before + Walk(s, failing).remaining, Walk(s, failing).attempted)
    decreases |s|
  {
    var t := before + s;
    if s == [] {
      assert t == before;
    } else if s[0] !in failing {
      IterateIsWalkKeeps(before, s, failing);
    } else if |s| == 1 {
      assert t[|before|] == s[0];
      IterateDrops(t, |before|, failing);
      RemoveAt(before, s);
      assert before + s[1..] == before;
    } else {
      IterateIsWalkDrops(before, s, failing);
    }
  }

  lemma {:induction false} IterateIsWalkKeeps(before: seq<Socket>, s: seq<Socket>, failing: set<Socket>)
    requires NoDup(before + s) && s != [] && s[0] !in failing
    ensures Iterate(before + s, |before|, failing)
         == Pass(before + Walk(s, failing).remaining, Walk(s, failing).attempted)
    decreases |s|, 0
  {
    var t := before + s;
    var before' := before + [s[0]];
    assert t[|before|] == s[0];
    assert t == before' + s[1..];
    IterateKeeps(t, |before|, failing);
    IterateIsWalk(before', s[1..], failing);
    var w := Walk(s[1..], failing);
    assert Walk(s, failing) == Pass([s[0]] + w.remaining, [s[0]] + w.attempted);
    assert before' + w.remaining == before + ([s[0]] + w.remaining);
  }

  lemma {:induction false} IterateIsWalkDrops(before: seq<Socket>, s: seq<Socket>, failing: set<Socket>)
    requires NoDup(before + s) && |s| > 1 && s[0] in failing
    ensures Iterate(before + s, |before|, failing)
         == Pass(before + Walk(s, failing).remaining, Walk(s, failing).attempted)
    decreases |s|, 0
  {
    var before' := before + [s[1]];
    IterateDropStep(before, s, failing);
    IterateIsWalk(before', s[2..], failing);
    var w := Walk(s[2..], failing);
    assert Walk(s, failing) == Pass([s[1]] + w.remaining, [s[0]] + w.attempted);
    assert before' + w.remaining == before + ([s[1]] + w.remaining);
  }

  /** A failing client at position `|before|` is removed, and the pass goes
      on after the client that moved into its place. */
  lemma IterateDropStep(before: seq<Socket>, s: seq<Socket>, failing: set<Socket>)
    requires NoDup(before + s) && |s| > 1 && s[0] in failing
    ensures NoDup((before + [s[1]]) + s[2..])
    ensures
      var r := Iterate((before + [s[1]]) + s[2..], |before| + 1, failing);
      Iterate(before + s, |before|, failing) == Pass(r.remaining, [s[0]] + r.attempted)
  {
    var t := before + s;
    assert t[|before|] == s[0];
    IterateDrops(t, |before|, failing);
    RemoveAt(before, s);
    assert before + s[1..] == (before + [s[1]]) + s[2..];
  }

  lemma PassIsWalk(s: seq<Socket>, failing: set<Socket>)
    requires NoDup(s)
    ensures Iterate(s, 0, failing) == Walk(s, failing)
  {
    assert [] + s == s;
    IterateIsWalk([], s, failing);
  }

  // ---- the properties of one broadcast pass ----

  /** The list left by a pass keeps some of the old clients in their old
      order, without duplicates, and the sends go out in list order. */
  lemma BroadcastKeepsOrder(s: seq<Socket>, failing: set<Socket>)
    requires NoDup(s)
    ensures Subseq(Iterate(s, 0, failing).remaining, s)
    ensures Subseq(Iterate(s, 0, failing).attempted, s)
    ensures NoDup(Iterate(s, 0, failing).remaining)
  {
    PassIsWalk(s, failing);
    WalkSubseq(s, failing);
    SubseqNoDup(Walk(s, failing).remaining, s);
  }

  /** A pass adds nothing, and a client leaves the list exactly when a send
      to it was attempted and failed; a client whose send succeeded stays. */
  lemma BroadcastRemovesOnlyFailed(s: seq<Socket>, failing: set<Socket>, x: Socket)
    requires NoDup(s)
    ensures x in Iterate(s, 0, failing).remaining ==> x in s
    ensures x in s ==> (x !in Iterate(s, 0, failing).remaining
                        <==> x in failing && x in Iterate(s, 0, failing).attempted)
  {
    PassIsWalk(s, failing);
    WalkSubseq(s, failing);
    if x in Walk(s, failing).remaining {
      SubseqMembers(Walk(s, failing).remaining, s, x);
    }
    if x in s {
      WalkRemovedIff(s, failing, x);
    }
  }

  /** The client at position k gets a send attempt exactly when it is first,
      or its predecessor was not removed in this pass: the client right after
      a removed one is passed over. */
  lemma BroadcastSkipsSuccessor(s: seq<Socket>, failing: set<Socket>, k: nat)
    requires NoDup(s) && k < |s|
    ensures s[k] in Iterate(s, 0, failing).attempted
        <==> k == 0 || !(s[k - 1] in failing && s[k - 1] in Iterate(s, 0, failing).attempted)
  {
    PassIsWalk(s, failing);
    WalkAttemptedAt(s, failing, k);
  }

  /** When no send fails, every client gets the message and none is removed. */
  lemma {:induction false} BroadcastWithoutFailures(s: seq<Socket>, i: nat, failing: set<Socket>)
    requires forall j :: i <= j < |s| ==> s[j] !in failing
    ensures Iterate(s, i, failing) == Pass(s, if i < |s| then s[i..] else [])
    decreases |s| - i
  {
    if i < |s| {
      BroadcastWithoutFailures(s, i + 1, failing);
      if i + 1 < |s| {
        assert s[i..] == [s[i]] + s[i + 1..];
      } else {
        assert s[i..] == [s[i]];
      }
    }
  }
}
