/**
 The de-duplicating FIFO queue: what its operations do to the sequence of queued tasks, and
 the class that performs them on a slice, with the channel that wakes up a waiting consumer.
 */
module TaskQueues {
  import opened Options
  import opened Seqs
  import opened Tasks

  /** Accepts the tasks that `t` replaces. */
  function EquivalentTo(t: Task): Task -> bool {
    x => Is(t, x)
  }

  /** The queue after removing every task equivalent to `t`. */
  function Without(q: seq<Task>, t: Task): seq<Task> {
    Keep(q, Not(EquivalentTo(t)))
  }

  predicate Holds(q: seq<Task>, t: Task) {
    exists x :: x in q && Is(x, t)
  }

  function Pushed(q: seq<Task>, t: Task): seq<Task> {
    Without(q, t) + [t]
  }

  function PushedIfNew(q: seq<Task>, t: Task): seq<Task> {
    if Holds(q, t) then q else q + [t]
  }

  /** The channel's buffer: sends beyond this many unread tokens are dropped. */
  const WAIT_BUFFER: nat := 4

  /** Tokens after a non-blocking send. */
  function Notified(tokens: nat): nat {
    if tokens < WAIT_BUFFER then tokens + 1 else tokens
  }

  class WaitChannel {
    var tokens: nat
    var closed: bool

    constructor ()
      ensures tokens == 0 && !closed
    {
      tokens, closed := 0, false;
    }
  }

  /**
   A half-processed slice: `now` is a permutation of `was` of which the first `n` entries have been
   looked at, the accepted ones standing in order before `m` and the rejected ones after it.
   */
  ghost predicate HalfProcessed<T(!new)>(was: seq<T>, now: seq<T>, n: nat, m: nat, keep: T -> bool) {
    && m <= n <= |was| == |now|
    && now[..m] == Keep(was[..n], keep)
    && now[n..] == was[n..]
    && multiset(now) == multiset(was)
  }

  lemma AcceptOrReject<T(!new)>(was: seq<T>, now: seq<T>, n: nat, m: nat, keep: T -> bool)
    requires HalfProcessed(was, now, n, m, keep) && n < |was|
    ensures !keep(now[n]) ==> HalfProcessed(was, now, n + 1, m, keep)
    ensures keep(now[n]) ==> HalfProcessed(was, now[n := now[m]][m := now[n]], n + 1, m + 1, keep)
  {
    assert now[n] == now[n..][0] == was[n];
    assert was[..n + 1] == was[..n] + [was[n]];
    KeepConcat(was[..n], [was[n]], keep);
    var swapped := now[n := now[m]][m := now[n]];
    assert swapped[..m + 1] == now[..m] + [was[n]];
    assert swapped[n + 1..] == now[n..][1..] == was[n + 1..];
    assert now[n + 1..] == was[n + 1..];
  }

  // One round of RemoveIf's loop: entry i is rejected, kept where it is, or swapped into place.
  method RemoveIfStep<T(!new)>(a: array<T>, lo: nat, hi: nat, reject: T -> bool, i: nat, j: nat, ghost was: seq<T>)
    returns (j': nat)
    requires lo <= lo + i < hi <= a.Length && HalfProcessed(was, a[lo..hi], i, j, Not(reject))
    modifies a
    ensures HalfProcessed(was, a[lo..hi], i + 1, j', Not(reject))
    ensures forall k :: 0 <= k < lo || hi <= k < a.Length ==> a[k] == old(a[k])
  {
    ghost var s := a[lo..hi];
    AcceptOrReject(was, s, i, j, Not(reject));
    if reject(a[lo + i]) {
      return j;
    }
    if i == j {
      assert s[i := s[j]][j := s[i]] == s;
      return j + 1;
    }
    a[lo + i], a[lo + j] := a[lo + j], a[lo + i];
    assert a[lo..hi] == s[i := s[j]][j := s[i]];
    return j + 1;
  }

  /**
   Removes in place, from the slice `a[lo..hi]`, the elements that `reject` accepts. The result is
   the length of what was kept: the first `j` entries of the slice, in their old order. What was
   removed follows them, so the slice as a whole is a permutation of what it was.
   */
  method RemoveIf<T(!new)>(a: array<T>, lo: nat, hi: nat, reject: T -> bool) returns (j: nat)
    requires lo <= hi <= a.Length
    modifies a
    ensures j <= hi - lo
    ensures a[lo..lo + j] == Keep(old(a[lo..hi]), Not(reject))
    ensures multiset(a[lo..hi]) == multiset(old(a[lo..hi]))
    ensures forall k :: 0 <= k < lo || hi <= k < a.Length ==> a[k] == old(a[k])
  {
    j := 0;
    ghost var was := a[lo..hi];
    for i := 0 to hi - lo
      invariant HalfProcessed(was, a[lo..hi], i, j, Not(reject))
      invariant forall k :: 0 <= k < lo || hi <= k < a.Length ==> a[k] == old(a[k])
    {
      j := RemoveIfStep(a, lo, hi, reject, i, j, was);
    }
    assert was[..hi - lo] == was && a[lo..lo + j] == a[lo..hi][..j];
  }

  class TaskQueue {
    // The slice buf[lo..hi] over its backing array.
    var buf: array<Task>
    var lo: nat
    var hi: nat
    var wait: WaitChannel

    ghost predicate Valid()
      reads this, wait
    {
      lo <= hi <= buf.Length && !wait.closed && wait.tokens <= WAIT_BUFFER
    }

    ghost function Contents(): (s: seq<Task>)
      requires lo <= hi <= buf.Length
      reads this, buf
    {
      buf[lo..hi]
    }

    constructor ()
      ensures Valid() && fresh(buf) && fresh(wait)
      ensures Contents() == [] && wait.tokens == 0
    {
      buf, lo, hi := new Task[0], 0, 0;
      wait := new WaitChannel();
    }

    // Closing a channel wakes up whoever is waiting on it.
    method ReplaceWait()
      requires Valid()
      modifies this`wait, wait
      ensures old(wait).closed && fresh(wait) && !wait.closed && wait.tokens == 0
    {
      wait.closed := true;
      wait := new WaitChannel();
    }

    method Notify()
      requires Valid()
      modifies wait
      ensures !wait.closed && wait.tokens == Notified(old(wait.tokens))
    {
      if wait.tokens < WAIT_BUFFER {
        wait.tokens := wait.tokens + 1;
      }
    }

    // append: in place while there is room behind the slice, into a larger array otherwise.
    method Append(t: Task)
      requires Valid()
      modifies this`buf, this`lo, this`hi, buf
      ensures Valid() && (buf == old(buf) || fresh(buf))
      ensures Contents() == old(Contents()) + [t]
    {
      ghost var was := Contents();
      if hi == buf.Length {
        var larger := new Task[2 * (hi - lo) + 1];
        forall k | 0 <= k < hi - lo {
          larger[k] := buf[lo + k];
        }
        assert larger[..hi - lo] == was;
        buf, lo, hi := larger, 0, hi - lo;
      }
      buf[hi] := t;
      hi := hi + 1;
      assert buf[lo..hi] == buf[lo..hi - 1] + [t];
    }

    method Load(newData: array<Task>)
      requires Valid()
      modifies this, wait
      ensures Valid() && Contents() == newData[..]
      ensures buf == newData && old(wait).closed && fresh(wait) && wait.tokens == 0
    {
      ReplaceWait();
      buf, lo, hi := newData, 0, newData.Length;
    }

    method AppendAll(a: array<Task>, from: nat, to: nat)
      requires Valid() && a != buf && from <= to <= a.Length
      modifies this`buf, this`lo, this`hi, buf
      ensures Valid() && (buf == old(buf) || fresh(buf))
      ensures Contents() == old(Contents()) + a[from..to]
    {
      ghost var mine := Contents();
      for i := from to to
        invariant Valid() && buf != a && (buf == old(buf) || fresh(buf))
        invariant Contents() == mine + a[from..i]
      {
        Append(a[i]);
        assert a[from..i + 1] == a[from..i] + [a[i]];
      }
    }

    method Absorb(other: TaskQueue)
      requires other != this && other.buf != buf && other.wait != wait
      requires Valid() && other.Valid()
      modifies this, other, buf, wait, other.wait
      ensures Valid() && other.Valid()
      ensures Contents() == old(Contents()) + old(other.Contents()) && other.Contents() == []
      ensures old(wait).closed && old(other.wait).closed
      ensures fresh(wait) && fresh(other.wait) && other.wait != wait && wait.tokens == other.wait.tokens == 0
      ensures fresh(other.buf) && (buf == old(buf) || fresh(buf)) && other.buf != buf
    {
      var transferred, from, to := other.buf, other.lo, other.hi;
      other.ReplaceWait();
      other.buf, other.lo, other.hi := new Task[0], 0, 0;
      ReplaceWait();
      AppendAll(transferred, from, to);
    }

    method Data() returns (copy: seq<Task>)
      requires Valid()
      ensures copy == Contents()
    {
      copy := buf[lo..hi];
    }

    method Remove(t: Task)
      requires Valid()
      modifies this`hi, buf
      ensures Valid() && Contents() == Without(old(Contents()), t)
    {
      var kept := RemoveIf(buf, lo, hi, EquivalentTo(t));
      hi := lo + kept;
    }

    method Push(t: Task)
      requires Valid()
      modifies this`buf, this`lo, this`hi, buf, wait
      ensures Valid() && (buf == old(buf) || fresh(buf))
      ensures Contents() == Pushed(old(Contents()), t)
      ensures wait.tokens == Notified(old(wait.tokens))
    {
      Remove(t);
      Append(t);
      Notify();
    }

    method Contains(t: Task) returns (found: bool)
      requires Valid()
      ensures found <==> Holds(Contents(), t)
    {
      for i := lo to hi
        invariant forall k :: lo <= k < i ==> !Is(buf[k], t)
      {
        if Is(buf[i], t) {
          assert Contents()[i - lo] == buf[i];
          return true;
        }
      }
      return false;
    }

    method PushIfNew(t: Task)
      requires Valid()
      modifies this`buf, this`lo, this`hi, buf, wait
      ensures Valid() && (buf == old(buf) || fresh(buf))
      ensures Contents() == PushedIfNew(old(Contents()), t)
      ensures wait.tokens == if old(Holds(Contents(), t)) then old(wait.tokens) else Notified(old(wait.tokens))
    {
      var found := Contains(t);
      if found {
        return;
      }
      Append(t);
      Notify();
    }

    method TryPopFront() returns (front: Option<Task>)
      requires Valid()
      modifies this`lo
      ensures Valid()
      ensures old(Contents()) == [] ==> front == None && Contents() == []
      ensures old(Contents()) != [] ==> front == Some(old(Contents())[0]) && Contents() == old(Contents())[1..]
    {
      if lo == hi {
        return None;
      }
      front := Some(buf[lo]);
      lo := lo + 1;
    }
  }
}
