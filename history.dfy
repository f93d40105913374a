/** The channel's message buffer on values: retention on push, the
    serialised suffix and lookup by id. */
module History {
  import opened Options
  import opened Messages

  /** The buffer kept after trimming with bound `max`: a negative bound
      keeps everything, otherwise only the newest `max` messages survive. */
  function Retained(s: seq<Message>, max: int): (r: seq<Message>)
    ensures max < 0 ==> r == s
    ensures max >= 0 ==> |r| <= max
    ensures |r| == if max >= 0 && |s| > max then max else |s|
    ensures r == s[|s| - |r|..]
  {
    if max >= 0 && |s| > max then s[|s| - max..] else s
  }

  /** The oldest messages that trimming with bound `max` removes. */
  function Evicted(s: seq<Message>, max: int): (r: seq<Message>)
    ensures r + Retained(s, max) == s
    ensures max < 0 || |s| <= max ==> r == []
  {
    if max >= 0 && |s| > max then s[..|s| - max] else []
  }

  /** Trimming an already trimmed buffer after appending `b` is the same as
      trimming once after appending `b`. */
  lemma RetainedAbsorbs(a: seq<Message>, b: seq<Message>, max: int)
    ensures Retained(Retained(a, max) + b, max) == Retained(a + b, max)
  {
    if max >= 0 && |a| > max {
      var j := |a| - max;
      assert Retained(a, max) + b == (a + b)[j..];
      RetainedOfSuffix(a + b, j, max);
    }
  }

  /** Trimming a suffix that is at least as long as the bound is trimming
      the whole sequence. */
  lemma RetainedOfSuffix(x: seq<Message>, j: nat, max: int)
    requires 0 <= max && j <= |x| - max
    ensures Retained(x[j..], max) == Retained(x, max)
  {
    if |x| - j > max {
      assert x[j..][|x| - j - max..] == x[|x| - max..];
    }
  }

  /** The buffer after a series of non-public pushes of `ms`, each an append
      followed by a trim. */
  function PushAll(s: seq<Message>, ms: seq<Message>, max: int): seq<Message>
    decreases |ms|
  {
    if |ms| == 0 then s else PushAll(Retained(s + [ms[0]], max), ms[1..], max)
  }

  /** Any series of pushes from a buffer within the bound leaves exactly the
      newest `max` messages of everything seen, so the bound holds after
      every push. */
  lemma {:induction false} PushAllRetains(s: seq<Message>, ms: seq<Message>, max: int)
    requires max < 0 || |s| <= max
    ensures PushAll(s, ms, max) == Retained(s + ms, max)
    ensures max >= 0 ==> |PushAll(s, ms, max)| <= max
    decreases |ms|
  {
    if |ms| > 0 {
      var s' := Retained(s + [ms[0]], max);
      PushAllRetains(s', ms[1..], max);
      RetainedAbsorbs(s + [ms[0]], ms[1..], max);
      AppendSplit(s, ms);
    }
  }

  lemma AppendSplit(s: seq<Message>, ms: seq<Message>)
    requires |ms| > 0
    ensures s + [ms[0]] + ms[1..] == s + ms
  {
  }

  /** A negative-start slice of length `n`: the newest `n` messages, or all
      of them. (A slice from `-0` would keep everything, so `n` is positive.) */
  function Newest(s: seq<Message>, n: nat): (r: seq<Message>)
    requires n > 0
    ensures |r| <= n && |r| <= |s|
    ensures |r| < n ==> r == s
    ensures s == s[..|s| - |r|] + r
  {
    if |s| > n then s[|s| - n..] else s
  }

  /** The index of the first message with id `msgId`, as `Array.find`
      returns the first match. */
  function FirstWithId(s: seq<Message>, msgId: nat): (r: Option<nat>)
    ensures r.Some? ==> r.value < |s| && s[r.value].id == msgId
    ensures r.Some? ==> forall j :: 0 <= j < r.value ==> s[j].id != msgId
    ensures r.None? ==> forall j :: 0 <= j < |s| ==> s[j].id != msgId
  {
    if |s| == 0 then None
    else if s[0].id == msgId then Some(0)
    else match FirstWithId(s[1..], msgId)
      case None => None
      case Some(k) => Some(k + 1)
  }
}
