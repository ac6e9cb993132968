/**
 * The PreviewLog variant of the message store: no blank padding, a smaller
 * cap, empty texts dropped, and the identifier of the newest message
 * published so that the list can scroll to it.
 */
module ConsoleView {
  import opened Basics
  import opened MessageLog

  /** `ConsoleConstants.maximumMessages`. */
  const MaximumMessages: nat := 200

  /** The value `Log` hands back to view-composition code. */
  datatype EmptyView = EmptyView

  class ConsoleVM {
    /** The cap on the number of messages kept. */
    const capacity: nat
    /** The published message array, oldest first. */
    var messages: seq<Message>
    /** The scroll trigger: the identifier of the message most recently logged. */
    var newMessageId: Option<nat>
    /** The source of fresh message identifiers. */
    var nextId: nat

    /**
     * The log is within its cap and holds the most recently drawn identifiers,
     * in order; the scroll trigger, once set, names the last identifier drawn.
     */
    ghost predicate Valid()
      reads this
    {
      && |messages| <= capacity
      && Consecutive(messages, nextId)
      && (newMessageId.Some? ==> newMessageId.value + 1 == nextId)
    }

    /** The global `Logger`: an empty log with the constant cap. */
    constructor ()
      ensures Valid()
      ensures capacity == MaximumMessages
      ensures messages == []
      ensures newMessageId == None
    {
      capacity := MaximumMessages;
      messages := [];
      newMessageId := None;
      nextId := 0;
    }

    /**
     * `log(expression, messageType)`: an empty text is dropped without any
     * change; otherwise one message is appended, the oldest dropped if over the
     * cap, and its identifier published.
     */
    method Log(text: string, messageType: MessageType, now: Timestamp)
      requires Valid()
      modifies this
      ensures Valid()
      ensures |text| == 0 ==>
                messages == old(messages) && newMessageId == old(newMessageId) && nextId == old(nextId)
      ensures |text| > 0 ==>
                && nextId == old(nextId) + 1
                && messages == AppendCapped(capacity, old(messages), Message(old(nextId), text, now, messageType))
                && newMessageId == Some(old(nextId))
      ensures |text| > 0 && capacity > 0 ==>
                |messages| > 0 && newMessageId == Some(messages[|messages| - 1].id)
    {
      if !(|text| > 0) {
        return;
      }
      var message := Message(nextId, text, now, messageType);
      ghost var before := messages;
      AppendCappedShape(capacity, messages, message);
      AppendCappedConsecutive(capacity, messages, nextId, message);
      messages := messages + [message];
      if |messages| > capacity {
        messages := messages[1..];
      }
      assert messages == AppendCapped(capacity, before, message);
      nextId := nextId + 1;
      newMessageId := Some(message.id);
    }

    /** `Log(expression)`: a debug `log` usable inside a view body. */
    method LogInView(text: string, now: Timestamp) returns (v: EmptyView)
      requires Valid()
      modifies this
      ensures Valid()
      ensures |text| == 0 ==>
                messages == old(messages) && newMessageId == old(newMessageId) && nextId == old(nextId)
      ensures |text| > 0 ==>
                && nextId == old(nextId) + 1
                && messages == AppendCapped(capacity, old(messages), Message(old(nextId), text, now, Debug))
                && newMessageId == Some(old(nextId))
      ensures v == EmptyView
    {
      Log(text, Debug, now);
      v := EmptyView;
    }
  }

  /**
   * The published identifier names exactly one message in the log: the newest
   * message is never the one evicted, and identifiers are distinct.
   */
  lemma PublishedIdNamesNewest(capacity: nat, log: seq<Message>, next: nat, m: Message)
    requires capacity > 0
    requires Consecutive(log, next) && m.id == next
    ensures m in AppendCapped(capacity, log, m)
    ensures forall x :: x in AppendCapped(capacity, log, m) && x.id == m.id ==> x == m
  {
    AppendCappedShape(capacity, log, m);
    AppendCappedConsecutive(capacity, log, next, m);
    ConsecutiveIdsIncreasing(AppendCapped(capacity, log, m), next + 1);
  }
}
