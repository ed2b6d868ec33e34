/** Bounded lists: histories that keep the latest items, and evidence that also keeps the first one. */
module BoundedList {

  function KeepLast<T>(s: seq<T>, n: nat): seq<T> {
    if |s| <= n then s else s[|s| - n..]
  }

  /** The oldest item but the first makes room for a new one. */
  function MakeRoom<T>(list: seq<T>, x: T, bound: nat): seq<T> {
    if |list| < bound then list + [x]
    else if bound == 1 || |list| < 2 then [x]
    else [list[0]] + list[2..] + [x]
  }

  function FirstAndLatest<T>(s: seq<T>, bound: nat): seq<T>
    requires bound > 0
  {
    if |s| <= bound then s
    else if bound == 1 then [s[|s| - 1]]
    else [s[0]] + s[|s| - (bound - 1)..]
  }

  lemma MakeRoomKeeps<T>(s: seq<T>, x: T, bound: nat)
    requires bound > 0
    ensures MakeRoom(FirstAndLatest(s, bound), x, bound) == FirstAndLatest(s + [x], bound)
  {
    if |s| >= bound > 1 {
      var n := |s| - (bound - 1);
      assert FirstAndLatest(s, bound)[2..] == s[n + 1..];
      assert (s + [x])[n + 1..] == s[n + 1..] + [x];
    }
  }

  lemma KeptWasOffered<T>(s: seq<T>, bound: nat)
    requires bound > 0
    ensures forall x :: x in FirstAndLatest(s, bound) ==> x in s
    ensures s != [] ==> FirstAndLatest(s, bound) != [] && FirstAndLatest(s, bound)[|FirstAndLatest(s, bound)| - 1] == s[|s| - 1]
  {
  }
}
