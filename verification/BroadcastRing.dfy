/** The bounded broadcast channel that the chat broker fans messages out with: a ring
    of slots, one write position, and a read position for each receiver. */
module BroadcastRing {

  /** What a receiver gets: nothing new, the next message, or how many it missed. */
  datatype Received<T> = Nothing | Got(message: T) | Lagged(skipped: nat)

  /** The channel as a log of everything sent, of which the last `capacity` messages
      can still be read. Gives the receiver's next read position too. */
  function ReceiveFrom<T>(log: seq<T>, capacity: nat, next: nat): (Received<T>, nat)
    requires next <= |log|
  {
    if next == |log| then (Nothing, next)
    else if |log| - next > capacity then (Lagged(|log| - capacity - next), |log| - capacity)
    else (Got(log[next]), next + 1)
  }

  class Ring<T(0)> {
    const slots: array<T>
    var tail: nat
    var receivers: nat
    ghost var log: seq<T>

    ghost predicate Valid()
      reads this, slots
    {
      && slots.Length > 0
      && tail == |log|
      && forall p :: 0 <= p < |log| && |log| - slots.Length <= p ==> slots[p % slots.Length] == log[p]
    }

    constructor (capacity: nat)
      requires capacity > 0
      ensures Valid() && fresh(slots) && slots.Length == capacity && log == [] && receivers == 0
    {
      slots := new T[capacity];
      tail, receivers, log := 0, 0, [];
    }

    /** A message sent while nobody listens is not stored. */
    method Send(message: T) returns (ok: bool)
      requires Valid()
      modifies this, slots
      ensures Valid() && receivers == old(receivers)
      ensures ok == (receivers > 0)
      ensures log == if ok then old(log) + [message] else old(log)
    {
      if receivers == 0 {
        return false;
      }
      ghost var before := slots[..];
      slots[tail % slots.Length] := message;
      forall p | 0 <= p < tail && tail + 1 - slots.Length <= p
        ensures slots[p % slots.Length] == log[p]
      {
        SlotsDiffer(p, tail, slots.Length);
        assert slots[p % slots.Length] == before[p % slots.Length];
      }
      log := log + [message];
      tail := tail + 1;
      ok := true;
    }

    method Subscribe() returns (next: nat)
      requires Valid()
      modifies this`receivers
      ensures Valid() && receivers == old(receivers) + 1 && next == |log|
    {
      receivers := receivers + 1;
      next := tail;
    }

    method Unsubscribe()
      requires Valid() && receivers > 0
      modifies this`receivers
      ensures Valid() && receivers == old(receivers) - 1
    {
      receivers := receivers - 1;
    }

    /** The ring gives every receiver exactly what the log would: the message at its
        position as long as that is among the last `slots.Length`, and otherwise the number
        of messages it cannot have any more, from where on it can read again. */
    method Receive(next: nat) returns (r: Received<T>, next': nat)
      requires Valid() && next <= |log|
      ensures (r, next') == ReceiveFrom(log, slots.Length, next)
      ensures next == |log| ==> r == Nothing && next' == next
      ensures 0 < |log| - next <= slots.Length ==> r == Got(log[next]) && next' == next + 1
      ensures |log| - next > slots.Length ==>
                r == Lagged(|log| - slots.Length - next) && next' == |log| - slots.Length
    {
      if next == tail {
        r, next' := Nothing, next;
      } else if tail - next > slots.Length {
        r, next' := Lagged(tail - slots.Length - next), tail - slots.Length;
      } else {
        r, next' := Got(slots[next % slots.Length]), next + 1;
      }
    }
  }

  lemma Multiples(n: nat, d: int)
    ensures d >= 1 ==> n * d >= n
    ensures d <= 0 ==> n * d <= 0
  {
  }

  /** Two positions less than a ring apart use different slots. */
  lemma SlotsDiffer(p: nat, q: nat, n: nat)
    requires n > 0 && p < q < p + n
    ensures p % n != q % n
  {
    var d := q / n - p / n;
    Multiples(n, d);
    assert q - p == n * d + (q % n - p % n) by {
      assert n * d == n * (q / n) - n * (p / n);
    }
  }

  // ---------- One receiver over time ----------

  /** A step of a receiver: what it got, and where it stood before. */
  datatype Receipt<T> = Message(pos: nat, message: T) | Gap(pos: nat, skipped: nat)

  function After<T>(r: Receipt<T>): nat {
    match r
    case Message(pos, _) => pos + 1
    case Gap(pos, skipped) => pos + skipped
  }

  /** The receipts lead from `start` to `next` without a hole: each begins where the one
      before it ended, messages are those of the log, and gaps are real. */
  ghost predicate Follows<T>(log: seq<T>, start: nat, receipts: seq<Receipt<T>>, next: nat) {
    && start <= next <= |log|
    && (receipts == [] ==> next == start)
    && (receipts != [] ==> receipts[0].pos == start && After(receipts[|receipts| - 1]) == next)
    && (forall i :: 0 <= i < |receipts| - 1 ==> receipts[i + 1].pos == After(receipts[i]))
    && (forall i :: 0 <= i < |receipts| ==>
          match receipts[i]
          case Message(pos, m) => pos < |log| && log[pos] == m
          case Gap(pos, skipped) => skipped > 0 && pos + skipped <= |log|)
  }

  function Delivered<T>(receipts: seq<Receipt<T>>): nat {
    if receipts == [] then 0
    else Delivered(receipts[..|receipts| - 1]) + if receipts[|receipts| - 1].Message? then 1 else 0
  }

  function Skipped<T>(receipts: seq<Receipt<T>>): nat {
    if receipts == [] then 0
    else
      Skipped(receipts[..|receipts| - 1]) +
      match receipts[|receipts| - 1] case Gap(_, n) => n case Message(_, _) => 0
  }

  lemma ReceiptExtends<T>(log: seq<T>, capacity: nat, start: nat, receipts: seq<Receipt<T>>, next: nat, r: Receipt<T>)
    requires capacity > 0 && Follows(log, start, receipts, next)
    requires var (got, next') := ReceiveFrom(log, capacity, next);
             match got
             case Got(m) => r == Message(next, m)
             case Lagged(n) => r == Gap(next, n)
             case Nothing => false
    ensures Follows(log, start, receipts + [r], ReceiveFrom(log, capacity, next).1)
  {
  }

  lemma LogGrows<T>(log: seq<T>, more: seq<T>, start: nat, receipts: seq<Receipt<T>>, next: nat)
    requires Follows(log, start, receipts, next)
    ensures Follows(log + more, start, receipts, next)
  {
  }

  /** Messages delivered and messages reported as skipped add up to the distance the
      receiver has moved. */
  lemma {:induction false} NothingUnaccounted<T>(log: seq<T>, start: nat, receipts: seq<Receipt<T>>, next: nat)
    requires Follows(log, start, receipts, next)
    ensures Delivered(receipts) + Skipped(receipts) == next - start
  {
    if receipts != [] {
      var init := receipts[..|receipts| - 1];
      var last := receipts[|receipts| - 1];
      PositionsAscend(log, start, receipts, next, 0, |receipts| - 1);
      if init != [] {
        assert receipts[|init| - 1 + 1].pos == After(receipts[|init| - 1]);
      }
      assert Follows(log, start, init, last.pos);
      NothingUnaccounted(log, start, init, last.pos);
    }
  }

  lemma {:induction false} PositionsAscend<T>(log: seq<T>, start: nat, receipts: seq<Receipt<T>>, next: nat, i: nat,
                                              j: nat)
    requires Follows(log, start, receipts, next) && i <= j < |receipts|
    ensures start <= receipts[i].pos <= receipts[j].pos
    ensures i < j ==> After(receipts[i]) <= receipts[j].pos
    decreases j
  {
    if j > 0 {
      assert receipts[j - 1 + 1].pos == After(receipts[j - 1]);
      if i < j {
        PositionsAscend(log, start, receipts, next, i, j - 1);
      } else {
        PositionsAscend(log, start, receipts, next, j - 1, j - 1);
      }
    }
  }

  /** Two receivers that both got two messages got them in the same order. */
  lemma ReceiversAgreeOnOrder<T>(log: seq<T>, start: nat, a: seq<Receipt<T>>, next: nat,
                                 start': nat, b: seq<Receipt<T>>, next': nat,
                                 i: nat, j: nat, k: nat, l: nat)
    requires Follows(log, start, a, next) && Follows(log, start', b, next')
    requires i < j < |a| && k < |b| && l < |b| && a[i].Message? && a[j].Message?
    requires b[k] == a[i] && b[l] == a[j]
    ensures k < l
  {
    PositionsAscend(log, start, a, next, i, j);
    if l <= k {
      PositionsAscend(log, start', b, next', l, k);
    }
  }

  /** Every message between a receiver's start and its position is either one it got, at
      that very place in the order, or inside a gap it was told about. */
  lemma {:induction false} EveryPositionIsCovered<T>(log: seq<T>, start: nat, receipts: seq<Receipt<T>>, next: nat,
                                                     p: nat)
    returns (i: nat)
    requires Follows(log, start, receipts, next) && start <= p < next
    ensures i < |receipts| && receipts[i].pos <= p < After(receipts[i])
    ensures receipts[i].Message? ==> receipts[i] == Message(p, log[p])
  {
    var last := receipts[|receipts| - 1];
    if last.pos <= p {
      i := |receipts| - 1;
    } else {
      var init := receipts[..|receipts| - 1];
      PositionsAscend(log, start, receipts, next, 0, |receipts| - 1);
      if init != [] {
        assert receipts[|init| - 1 + 1].pos == After(receipts[|init| - 1]);
      }
      i := EveryPositionIsCovered(log, start, init, last.pos, p);
    }
  }
}
