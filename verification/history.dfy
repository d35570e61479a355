/**
 * The list of recent crash points shown under the game, newest first.
 *
 * Every resolved round runs `prev => [crash, ...prev].slice(0, 5)`: the
 * round's crash point goes in front and everything past the fifth entry is
 * dropped. The list a session starts from is whatever was saved before, so
 * nothing is assumed about its length.
 */
module History {

  /** How many crash points the list keeps. */
  const Cap: nat := 5

  function Min(a: int, b: int): int {
    if a <= b then a else b
  }

  /** The list after a round that crashed (or would have crashed) at `crash`. */
  function PushHistory(prev: seq<real>, crash: real): (next: seq<real>)
    ensures |next| == Min(Cap, |prev| + 1)
    ensures next[0] == crash
    ensures next[1..] == prev[..|next| - 1]
  {
    ([crash] + prev)[..Min(Cap, |prev| + 1)]
  }

  /** The list after rounds whose crash points were `crashes`, oldest first. */
  function Replay(start: seq<real>, crashes: seq<real>): seq<real>
  {
    if crashes == [] then start
    else PushHistory(Replay(start, crashes[..|crashes| - 1]), crashes[|crashes| - 1])
  }

  /**
   * After at least one round the list holds the newest crash points first,
   * then the saved ones, up to five in all.
   */
  lemma {:induction false} ReplayNewestFirst(start: seq<real>, crashes: seq<real>)
    requires crashes != []
    ensures |Replay(start, crashes)| == Min(Cap, |start| + |crashes|)
    ensures forall i :: 0 <= i < |Replay(start, crashes)| ==>
      Replay(start, crashes)[i] ==
        if i < |crashes| then crashes[|crashes| - 1 - i] else start[i - |crashes|]
  {
    var earlier := crashes[..|crashes| - 1];
    var last := crashes[|crashes| - 1];
    var h := Replay(start, crashes);
    if earlier == [] {
      assert Replay(start, earlier) == start;
    } else {
      ReplayNewestFirst(start, earlier);
      var prev := Replay(start, earlier);
      forall i | 1 <= i < |h|
        ensures h[i] == if i < |crashes| then crashes[|crashes| - 1 - i] else start[i - |crashes|]
      {
        assert h[i] == h[1..][i - 1] == prev[i - 1];
        if i < |crashes| {
          assert earlier[|earlier| - 1 - (i - 1)] == crashes[|crashes| - 1 - i];
        }
      }
    }
  }

  /**
   * After six rounds the list is full: exactly five entries, the five latest
   * crash points, most recent first, whatever was saved before.
   */
  lemma SixRoundsFillHistory(start: seq<real>, crashes: seq<real>)
    requires |crashes| == 6
    ensures |Replay(start, crashes)| == Cap
    ensures forall i :: 0 <= i < Cap ==> Replay(start, crashes)[i] == crashes[5 - i]
  {
    ReplayNewestFirst(start, crashes);
  }
}
