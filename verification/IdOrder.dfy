/** The order in which the source traverses a map keyed by socket identity. */
module IdOrder {
  import opened Entities

  predicate CookieLess(a: Option<nat>, b: Option<nat>) {
    match (a, b)
    case (None, Some(_)) => true
    case (Some(x), Some(y)) => x < y
    case _ => false
  }

  predicate IdLess(a: SocketId, b: SocketId) {
    if a.netns.device != b.netns.device then a.netns.device < b.netns.device
    else if a.netns.inode != b.netns.inode then a.netns.inode < b.netns.inode
    else if a.cookie != b.cookie then CookieLess(a.cookie, b.cookie)
    else a.generation < b.generation
  }

  predicate IsLeast(x: SocketId, s: set<SocketId>) {
    x in s && forall y :: y in s && y != x ==> IdLess(x, y)
  }

  lemma LeastExists(s: set<SocketId>)
    requires s != {}
    ensures exists x :: IsLeast(x, s)
  {
    var a :| a in s;
    if s == {a} {
      assert IsLeast(a, s);
    } else {
      LeastExists(s - {a});
      var b :| IsLeast(b, s - {a});
      var m := if IdLess(a, b) then a else b;
      forall y | y in s && y != m
        ensures IdLess(m, y)
      {
        if y != a { assert y in s - {a}; }
      }
      assert IsLeast(m, s);
    }
  }

  ghost function Least(s: set<SocketId>): (x: SocketId)
    requires s != {}
    ensures IsLeast(x, s)
  {
    LeastExists(s);
    var x :| IsLeast(x, s);
    x
  }

  predicate IsLast(x: SocketId, s: set<SocketId>) {
    x in s && forall y :: y in s && y != x ==> IdLess(y, x)
  }

  lemma LastExists(s: set<SocketId>)
    requires s != {}
    ensures exists x :: IsLast(x, s)
  {
    var a :| a in s;
    if s == {a} {
      assert IsLast(a, s);
    } else {
      LastExists(s - {a});
      var b :| IsLast(b, s - {a});
      var m := if IdLess(a, b) then b else a;
      forall y | y in s && y != m
        ensures IdLess(y, m)
      {
        if y != a { assert y in s - {a}; }
      }
      assert IsLast(m, s);
    }
  }

  ghost function Last(s: set<SocketId>): (x: SocketId)
    ensures s != {} ==> IsLast(x, s)
  {
    if s == {} then SocketId(NetnsId(0, 0), None, 0)
    else
      LastExists(s);
      var x :| IsLast(x, s);
      x
  }

  ghost function InOrder(s: set<SocketId>): (q: seq<SocketId>)
    ensures forall x :: x in q <==> x in s
  {
    if s == {} then [] else [Least(s)] + InOrder(s - {Least(s)})
  }

  predicate NoRepeats<T(==)>(q: seq<T>) {
    forall i, j :: 0 <= i < j < |q| ==> q[i] != q[j]
  }

  lemma InOrderDistinct(s: set<SocketId>)
    ensures NoRepeats(InOrder(s))
  {
    if s != {} {
      InOrderDistinct(s - {Least(s)});
    }
  }

  lemma LeastUnique(s: set<SocketId>, a: SocketId, b: SocketId)
    requires IsLeast(a, s) && IsLeast(b, s)
    ensures a == b
  {
  }

  /** What a traversal that still has `rest` ahead of it will collect of `all`. */
  ghost function Remaining(all: set<SocketId>, rest: set<SocketId>): seq<SocketId> {
    InOrder(all * rest)
  }

  lemma RemainingEnds(all: set<SocketId>, keys: set<SocketId>)
    requires all <= keys
    ensures Remaining(all, keys) == InOrder(all) && Remaining(all, {}) == []
  {
    assert all * keys == all && all * {} == {};
  }

  lemma TakeFirst(all: set<SocketId>, rest: set<SocketId>, id: SocketId)
    requires IsLeast(id, rest)
    ensures id in all ==> Remaining(all, rest) == [id] + Remaining(all, rest - {id})
    ensures id !in all ==> Remaining(all, rest) == Remaining(all, rest - {id})
  {
    if id in all {
      assert id in all * rest;
      LeastUnique(all * rest, id, Least(all * rest));
      assert all * rest - {id} == all * (rest - {id});
    } else {
      assert all * rest == all * (rest - {id});
    }
  }

  lemma Regroup<T>(a: seq<T>, x: T, b: seq<T>)
    ensures a + ([x] + b) == a + [x] + b
  {
  }
}
