/**
 * The PreviewConsole variant of the message store: a view model whose log is
 * pre-seeded with blank lines and capped at a large count, plus the
 * scroll-target choice of the console list and the `print` fan-out.
 */
module Console {
  import opened Basics
  import opened MessageLog

  /** Blank lines placed in the log at construction. */
  const NumberOfBlankLines: nat := 42
  /** The cap on the number of messages kept. */
  const MaximumMessageCount: nat := 4200

  /** `Message()` with its defaults: empty text, debug kind. */
  function BlankMessage(id: nat, created: Timestamp): Message
  {
    Message(id, "", created, Debug)
  }

  /**
   * `Int.words` of a count: on the 64-bit platforms the preview runs on, an
   * `Int` is always represented by exactly one machine word.
   */
  function IntWords(n: int): (w: seq<int>)
  {
    [n]
  }

  /**
   * The early-return guard of `log` tests whether the words of the text's
   * length are empty; they never are, so `log` never returns early and empty
   * texts are recorded like any other.
   */
  lemma LogGuardNeverFires(text: string)
    ensures |IntWords(|text|)| == 1
    ensures IntWords(|text|) != []
  {
  }

  /** The messages that `texts` become when logged one by one, identifiers drawn from `firstId` on. */
  function Stamped(firstId: nat, texts: seq<string>, messageType: MessageType, now: Timestamp): seq<Message>
  {
    seq(|texts|, i requires 0 <= i < |texts| => Message(firstId + i, texts[i], now, messageType))
  }

  /** Stamping one more argument adds one message with the next identifier. */
  lemma StampedSnoc(firstId: nat, items: seq<string>, k: nat, now: Timestamp)
    requires k < |items|
    ensures Stamped(firstId, items[..k + 1], Debug, now)
         == Stamped(firstId, items[..k], Debug, now) + [Message(firstId + k, items[k], now, Debug)]
  {
  }

  /**
   * Where `scrollToBottom` scrolls: nowhere while there is at most one message,
   * otherwise to the identifier of the last-but-one message, so that the last
   * line shows below the bottom anchor.
   */
  function ScrollTarget(messages: seq<Message>): (r: Option<nat>)
    ensures r.Some? <==> |messages| > 1
    ensures r.Some? ==> exists k :: 0 <= k < |messages| - 1 && messages[k].id == r.value
  {
    if |messages| <= 1 then None
    else
      var count := |messages| - 1;
      Some(messages[count - 1].id)
  }

  /**
   * With identifiers increasing along the log, exactly one message (the last)
   * is newer than the scroll target.
   */
  lemma ScrollTargetIsLastButOne(messages: seq<Message>)
    requires IdsIncreasing(messages)
    requires |messages| > 1
    ensures ScrollTarget(messages).Some?
    ensures forall i :: 0 <= i < |messages| ==>
              (messages[i].id > ScrollTarget(messages).value <==> i == |messages| - 1)
  {
  }

  class ConsoleVM {
    /** The cap; `Defaults.maximumMessageCount` in the shared instance. */
    const capacity: nat
    /** The published message array, oldest first. */
    var messages: seq<Message>
    /** The source of fresh message identifiers. */
    var nextId: nat

    /** The log is within its cap and holds the most recently drawn identifiers, in order. */
    ghost predicate Valid()
      reads this
    {
      && |messages| <= capacity
      && Consecutive(messages, nextId)
    }

    /**
     * `init`: the guard is a fatal error, so a caller must keep the blank
     * lines below the cap; the log starts as that many blank lines.
     */
    constructor (numberOfBlankLines: nat, maximumMessageCount: nat, now: Timestamp)
      requires numberOfBlankLines < maximumMessageCount
      ensures Valid()
      ensures capacity == maximumMessageCount
      ensures nextId == |messages| == numberOfBlankLines
      ensures forall i :: 0 <= i < |messages| ==> messages[i] == BlankMessage(i, now)
    {
      capacity := maximumMessageCount;
      messages := [];
      nextId := 0;
      new;
      var k := 0;
      while k < numberOfBlankLines
        invariant k <= numberOfBlankLines && nextId == k && |messages| == k
        invariant forall i :: 0 <= i < k ==> messages[i] == BlankMessage(i, now)
      {
        messages := messages + [BlankMessage(nextId, now)];
        nextId := nextId + 1;
        k := k + 1;
      }
    }

    /**
     * `log(text, messageType)`: append one message with a fresh identifier,
     * then drop the oldest if over the cap. The early return on an empty
     * word sequence is kept, but it never fires (`LogGuardNeverFires`), so
     * empty texts are logged too.
     */
    method Log(text: string, messageType: MessageType, now: Timestamp)
      requires Valid()
      modifies this
      ensures Valid()
      ensures nextId == old(nextId) + 1
      ensures messages == AppendCapped(capacity, old(messages), Message(old(nextId), text, now, messageType))
    {
      if IntWords(|text|) == [] {
        return;
      }
      var message := Message(nextId, text, now, messageType);
      ghost var before := messages;
      AppendCappedShape(capacity, messages, message);
      AppendCappedConsecutive(capacity, messages, nextId, message);
      messages := messages + [message];
      if |messages| > capacity {
        messages := messages[1..];
      }
      assert messages == AppendCapped(capacity, before, message);
      nextId := nextId + 1;
    }

    /** `print(_: Any...)`: one debug `log` per argument, in argument order. */
    method Print(items: seq<string>, now: Timestamp)
      requires Valid()
      modifies this
      ensures Valid()
      ensures nextId == old(nextId) + |items|
      ensures messages == AppendAllCapped(capacity, old(messages), Stamped(old(nextId), items, Debug, now))
    {
      for k := 0 to |items|
        invariant Valid()
        invariant nextId == old(nextId) + k
        invariant messages == AppendAllCapped(capacity, old(messages), Stamped(old(nextId), items[..k], Debug, now))
      {
        StampedSnoc(old(nextId), items, k, now);
        AppendAllSnoc(capacity, old(messages), Stamped(old(nextId), items[..k], Debug, now), Message(nextId, items[k], now, Debug));
        Log(items[k], Debug, now);
      }
      assert items[..|items|] == items;
    }
  }

  /**
   * `ConsoleVM.shared`: the process-wide store built from the defaults; the
   * fatal guard passes because 42 < 4200.
   */
  method Shared(now: Timestamp) returns (vm: ConsoleVM)
    ensures fresh(vm) && vm.Valid()
    ensures vm.capacity == MaximumMessageCount
    ensures |vm.messages| == NumberOfBlankLines
    ensures forall i :: 0 <= i < |vm.messages| ==> vm.messages[i].text == "" && vm.messages[i].messageType == Debug
  {
    vm := new ConsoleVM(NumberOfBlankLines, MaximumMessageCount, now);
  }

  /**
   * The survivors after the shared store has logged a batch of messages are
   * the newest 4200 of the 42 blank lines followed by that batch, in order.
   */
  lemma SharedLogKeepsNewest(blanks: seq<Message>, logged: seq<Message>)
    requires |blanks| == NumberOfBlankLines
    ensures AppendAllCapped(MaximumMessageCount, blanks, logged) == Newest(MaximumMessageCount, blanks + logged)
    ensures |AppendAllCapped(MaximumMessageCount, blanks, logged)| ==
              if |logged| + NumberOfBlankLines < MaximumMessageCount then |logged| + NumberOfBlankLines
              else MaximumMessageCount
  {
    assert Newest(MaximumMessageCount, blanks) == blanks;
    AppendAllKeepsNewest(MaximumMessageCount, blanks, logged);
  }
}
