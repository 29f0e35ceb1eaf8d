/** The bounded frame queue that both programs use between their audio
    callback and their network loop: `queue.Queue(maxsize=2)` written to with
    `put_nowait`, and on `queue.Full` made room for by discarding the oldest
    entry (`get_nowait`) before writing again. */
module Jitter {
  const Capacity: nat := 2

  /** The last `n` elements of `s`, in order (all of `s` when it is shorter). */
  function Newest<T>(s: seq<T>, n: nat): (r: seq<T>)
    ensures |r| == if |s| < n then |s| else n
    ensures forall k :: 0 <= k < |r| ==> r[k] == s[|s| - |r| + k]
  {
    if |s| <= n then s else s[|s| - n..]
  }

  /** Drop-oldest write: the new queue, and whether the oldest entry was
      evicted to make room. */
  function Offer<T>(q: seq<T>, x: T): (r: (seq<T>, bool))
    requires |q| <= Capacity
    ensures r.0 == Newest(q + [x], Capacity)
    ensures r.1 <==> |q| == Capacity
    ensures |r.0| <= Capacity && r.0[|r.0| - 1] == x
  {
    if |q| < Capacity then (q + [x], false) else (q[1..] + [x], true)
  }

  /** Keeping the newest `n` after every append keeps the same elements as
      appending everything and keeping the newest `n` at the end. */
  lemma NewestAppend<T>(s: seq<T>, t: seq<T>, n: nat)
    ensures Newest(Newest(s, n) + t, n) == Newest(s + t, n)
  {
    if |s| > n {
      var a, b := Newest(Newest(s, n) + t, n), Newest(s + t, n);
      forall k | 0 <= k < n ensures a[k] == b[k] {
        NewestAppendAt(s, t, n, k);
      }
    }
  }

  /** Keeping the newest `n` after appending `head` and again after
      appending `rest` keeps the newest `n` of everything. */
  lemma NewestConcat<T>(q: seq<T>, head: seq<T>, rest: seq<T>, n: nat)
    ensures Newest(Newest(q + head, n) + rest, n) == Newest(q + (head + rest), n)
  {
    NewestAppend(q + head, rest, n);
    assert q + head + rest == q + (head + rest);
  }

  /** `NewestAppend` at position `k`, when `s` is longer than `n`. */
  lemma NewestAppendAt<T>(s: seq<T>, t: seq<T>, n: nat, k: nat)
    requires |s| > n && k < n
    ensures Newest(Newest(s, n) + t, n)[k] == Newest(s + t, n)[k]
  {
    var w := Newest(s, n);
    assert |w| == n;
    assert Newest(w + t, n)[k] == (w + t)[|t| + k];
    assert Newest(s + t, n)[k] == (s + t)[|s| + |t| - n + k];
    if |t| + k < n {
      assert (w + t)[|t| + k] == w[|t| + k] == s[|s| - n + |t| + k];
    } else {
      assert (w + t)[|t| + k] == t[|t| + k - n];
    }
  }
}
