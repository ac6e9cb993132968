/**
 * The message record shared by both console variants, and the bounded log
 * they both keep: append one message at the end, then drop the single oldest
 * one when the count goes over the cap.
 */
module MessageLog {

  /** The three message kinds; the renderer maps each to a colour. */
  datatype MessageType = Info | Debug | Trace

  /** The creation time of a message (`Date()`); only ever copied, never inspected. */
  type Timestamp = int

  /**
   * One logged line. The source's `UUID().uuidString` is modelled by a natural
   * number drawn from a counter that never repeats.
   */
  datatype Message = Message(id: nat, text: string, created: Timestamp, messageType: MessageType)

  /** The newest `n` elements of `s`, or all of `s` when it has fewer than `n`. */
  function Newest<T>(n: nat, s: seq<T>): seq<T>
  {
    s[|s| - (if |s| < n then |s| else n)..]
  }

  /**
   * One `log` step on the array: append `x`, then, if the count now exceeds
   * `capacity`, drop the first (oldest) element.
   */
  function AppendCapped<T>(capacity: nat, log: seq<T>, x: T): seq<T>
  {
    var grown := log + [x];
    if |grown| > capacity then grown[1..] else grown
  }

  /**
   * One step keeps the log within its cap: below the cap the message is simply
   * appended; at the cap exactly the first (oldest) element goes and the rest
   * keep their order; either way the new message ends the log.
   */
  lemma AppendCappedShape<T>(capacity: nat, log: seq<T>, x: T)
    ensures |log| <= capacity ==> |AppendCapped(capacity, log, x)| <= capacity
    ensures |log| < capacity ==> AppendCapped(capacity, log, x) == log + [x]
    ensures |log| == capacity > 0 ==> AppendCapped(capacity, log, x) == log[1..] + [x]
    ensures capacity > 0 ==>
              |AppendCapped(capacity, log, x)| > 0 && AppendCapped(capacity, log, x)[|AppendCapped(capacity, log, x)| - 1] == x
  {
  }

  /** A sequence of `log` steps, oldest message first. */
  function AppendAllCapped<T>(capacity: nat, log: seq<T>, xs: seq<T>): seq<T>
    decreases |xs|
  {
    if xs == [] then log else AppendAllCapped(capacity, AppendCapped(capacity, log, xs[0]), xs[1..])
  }

  /**
   * Appending to the capped window of a history gives the capped window of the
   * longer history: eviction always removes the oldest surviving element.
   */
  lemma {:induction false} AppendCappedKeepsNewest<T>(capacity: nat, history: seq<T>, x: T)
    ensures AppendCapped(capacity, Newest(capacity, history), x) == Newest(capacity, history + [x])
  {
    var h := history + [x];
    if |history| < capacity {
      assert Newest(capacity, history) == history;
      assert Newest(capacity, h) == h;
    } else {
      var w := Newest(capacity, history);
      assert |w| == capacity;
      if capacity == 0 {
        assert Newest(capacity, h) == [];
      } else {
        assert (w + [x])[1..] == history[|history| - capacity + 1..] + [x];
        assert h[|h| - capacity..] == history[|history| - capacity + 1..] + [x];
      }
    }
  }

  /**
   * The capacity invariant of the log: whatever messages are logged, the
   * survivors are exactly the most recent `min(capacity, total)` of everything
   * ever appended, in insertion order.
   */
  lemma {:induction false} AppendAllKeepsNewest<T>(capacity: nat, history: seq<T>, xs: seq<T>)
    ensures AppendAllCapped(capacity, Newest(capacity, history), xs) == Newest(capacity, history + xs)
    ensures |AppendAllCapped(capacity, Newest(capacity, history), xs)| <= capacity
    decreases |xs|
  {
    if xs == [] {
      assert history + xs == history;
    } else {
      var longer := history + [xs[0]];
      AppendCappedKeepsNewest(capacity, history, xs[0]);
      assert AppendAllCapped(capacity, Newest(capacity, history), xs)
          == AppendAllCapped(capacity, Newest(capacity, longer), xs[1..]);
      AppendAllKeepsNewest(capacity, longer, xs[1..]);
      assert longer + xs[1..] == history + xs;
    }
  }

  /** Logging one more message after a batch is one more capped step. */
  lemma {:induction false} AppendAllSnoc<T>(capacity: nat, log: seq<T>, xs: seq<T>, x: T)
    ensures AppendAllCapped(capacity, log, xs + [x]) == AppendCapped(capacity, AppendAllCapped(capacity, log, xs), x)
    decreases |xs|
  {
    if xs == [] {
      assert xs + [x] == [x];
      assert [x][1..] == [];
    } else {
      assert (xs + [x])[0] == xs[0];
      assert (xs + [x])[1..] == xs[1..] + [x];
      AppendAllSnoc(capacity, AppendCapped(capacity, log, xs[0]), xs[1..], x);
    }
  }

  /**
   * Identifiers come from a counter advanced once per message, so a log whose
   * newest message took the identifier `next - 1` holds the last `|s|`
   * identifiers drawn, oldest first.
   */
  ghost predicate Consecutive(s: seq<Message>, next: nat)
  {
    && |s| <= next
    && forall i :: 0 <= i < |s| ==> s[i].id + |s| == next + i
  }

  /**
   * A capped step that appends a message carrying the next identifier keeps
   * the log's identifiers consecutive.
   */
  lemma AppendCappedConsecutive(capacity: nat, log: seq<Message>, next: nat, m: Message)
    requires Consecutive(log, next) && m.id == next
    ensures Consecutive(AppendCapped(capacity, log, m), next + 1)
  {
    var grown := log + [m];
    assert Consecutive(grown, next + 1);
  }

  /** Messages appear in the order their identifiers were drawn. */
  ghost predicate IdsIncreasing(s: seq<Message>)
  {
    forall i, j :: 0 <= i < j < |s| ==> s[i].id < s[j].id
  }

  /**
   * Consecutive identifiers are increasing, hence pairwise distinct, and all
   * drawn before the counter's current value.
   */
  lemma ConsecutiveIdsIncreasing(s: seq<Message>, next: nat)
    requires Consecutive(s, next)
    ensures IdsIncreasing(s)
    ensures forall m :: m in s ==> m.id < next
  {
  }
}
