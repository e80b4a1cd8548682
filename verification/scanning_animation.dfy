/**
 * The scanning animation (src/components/ScanningAnimation.tsx): while a scan
 * runs, one timer steps through ten progress messages in a cycle and another
 * raises a progress bar by a random amount, never past 92%.
 *
 * The random increment `Math.random() * 8 + 2` is a parameter in [2, 10);
 * progress is an exact real.
 */
module ScanningAnimation {
  import opened Strings
  import Translations
  import DiagnosisTypes

  /** The translation keys of the progress messages, in display order. */
  const MessageKeys: seq<string> := [
    "scanning.msg1", "scanning.msg2", "scanning.msg3", "scanning.msg4", "scanning.msg5",
    "scanning.msg6", "scanning.msg7", "scanning.msg8", "scanning.msg9", "scanning.msg10"
  ]

  /** Progress the bar never passes while waiting. */
  const ProgressCap: real := 92.0

  /** Key `i` is "scanning.msg" followed by `i + 1`. */
  lemma {:induction false} MessageKeysNumbered(i: nat)
    requires i < |MessageKeys|
    ensures MessageKeys[i] == "scanning.msg" + DecimalString(i + 1)
  {
    if i == 9 {
      assert DecimalString(10) == "10" by {
        assert DecimalString(1) == "1";
      }
    }
  }

  /** The English text of key `i` is message `i` of the constant message list. */
  lemma {:induction false} MessageKeysAreEnglish(i: nat)
    requires i < |MessageKeys|
    ensures MessageKeys[i] in Translations.En
    ensures Translations.En[MessageKeys[i]] == DiagnosisTypes.ScanningMessages[i]
  {
    MessageKeysNumbered(i);
    DiagnosisTypes.ScanningMessagesAreEnglish(i);
  }

  /** The message timer's step: the next index, wrapping after the last message. */
  function NextMessageIndex(i: nat): (r: nat)
    ensures r < |MessageKeys|
    ensures i < |MessageKeys| - 1 ==> r == i + 1
    ensures i == |MessageKeys| - 1 ==> r == 0
  {
    (i + 1) % |MessageKeys|
  }

  /** The index after `n` ticks from `i`. */
  function AfterTicks(i: nat, n: nat): nat
    decreases n
  {
    if n == 0 then i else AfterTicks(NextMessageIndex(i), n - 1)
  }

  /** From any valid index, `n` ticks advance it by `n` modulo ten. */
  lemma {:induction false} TicksAdvanceModulo(i: nat, n: nat)
    requires i < |MessageKeys|
    ensures AfterTicks(i, n) == (i + n) % |MessageKeys|
    decreases n
  {
    if n > 0 {
      TicksAdvanceModulo(NextMessageIndex(i), n - 1);
    }
  }

  /** Ten ticks bring the index back to where it started. */
  lemma {:induction false} TenTicksCycle(i: nat)
    requires i < |MessageKeys|
    ensures AfterTicks(i, 10) == i
  {
    TicksAdvanceModulo(i, 10);
  }

  /**
   * The progress timer's step, `Math.min(p + delta, 92)`: never above the cap,
   * never below `p` (from a value within the cap), and at least 2 higher while
   * `p` is at most 90.
   */
  function ProgressStep(p: real, delta: real): (r: real)
    requires 2.0 <= delta < 10.0
    ensures r <= ProgressCap
    ensures r == ProgressCap || r == p + delta
    ensures p + delta <= ProgressCap ==> r == p + delta
    ensures p <= ProgressCap ==> p <= r
    ensures p <= ProgressCap - 2.0 ==> r >= p + 2.0
  {
    if p + delta < ProgressCap then p + delta else ProgressCap
  }

  class ScanningAnimation {
    var messageIndex: nat
    var progress: real

    /** The message index names a message and the bar is within [0, 92]. */
    predicate Valid()
      reads this
    {
      messageIndex < |MessageKeys| && 0.0 <= progress <= ProgressCap
    }

    constructor ()
      ensures messageIndex == 0 && progress == 0.0
      ensures Valid()
    {
      messageIndex := 0;
      progress := 0.0;
    }

    /** The message key on screen. */
    function CurrentKey(): (r: string)
      requires Valid()
      reads this
      ensures r in Translations.En && Translations.En[r] == DiagnosisTypes.ScanningMessages[messageIndex]
    {
      MessageKeysAreEnglish(messageIndex);
      MessageKeys[messageIndex]
    }

    /** One tick of the message timer. */
    method TickMessage()
      requires Valid()
      modifies this
      ensures messageIndex == NextMessageIndex(old(messageIndex)) && progress == old(progress)
      ensures Valid()
    {
      messageIndex := (messageIndex + 1) % |MessageKeys|;
    }

    /** One tick of the progress timer, `delta` being the random increment. */
    method TickProgress(delta: real)
      requires Valid() && 2.0 <= delta < 10.0
      modifies this
      ensures progress == ProgressStep(old(progress), delta) && messageIndex == old(messageIndex)
      ensures old(progress) <= progress <= ProgressCap
      ensures old(progress) <= ProgressCap - 2.0 ==> progress >= old(progress) + 2.0
      ensures Valid()
    {
      progress := if progress + delta < ProgressCap then progress + delta else ProgressCap;
    }
  }
}
