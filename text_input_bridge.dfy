/**
 * The browser side of the text-input bridge (js/text_input.js): a one-slot
 * mailbox. `present_singleline_text_input` runs the browser's `prompt()` and
 * stores its answer in `ongoing_text_input_value`, overwriting whatever was
 * there; `try_recv_text_input` hands that value out once and otherwise
 * returns the sentinel -1.
 *
 * `prompt()` is the environment's: it becomes the parameter `answer`, where
 * `None` is the `null` a cancelled prompt returns.
 */
module TextInputBridge {

  import opened Wrappers

  const PLUGIN_NAME: string := "rollgui2"
  const PLUGIN_VERSION: string := "0.1.0"
  const PRESENT_ENTRY: string := "present_singleline_text_input"
  const RECV_ENTRY: string := "try_recv_text_input"

  /** The two functions the bridge can bind into the wasm import table. */
  datatype EntryPoint = PresentSinglelineTextInput | TryRecvTextInput

  /** What `miniquad_add_plugin` receives. */
  datatype PluginDescriptor = PluginDescriptor(name: string, version: string)

  function Descriptor(): PluginDescriptor
  {
    PluginDescriptor(PLUGIN_NAME, PLUGIN_VERSION)
  }

  /** `register_plugin`: binds both entry points into `importObject.env`, keeping the rest of it. */
  function RegisterPlugin(env: map<string, EntryPoint>): (r: map<string, EntryPoint>)
  {
    env[PRESENT_ENTRY := PresentSinglelineTextInput][RECV_ENTRY := TryRecvTextInput]
  }

  /** The plugin adds exactly its two names, each bound to its own function, and nothing else changes. */
  lemma RegisterPluginBindsBoth(env: map<string, EntryPoint>)
    ensures RegisterPlugin(env).Keys == env.Keys + {PRESENT_ENTRY, RECV_ENTRY}
    ensures RegisterPlugin(env)[PRESENT_ENTRY] == PresentSinglelineTextInput
    ensures RegisterPlugin(env)[RECV_ENTRY] == TryRecvTextInput
    ensures forall k | k in env && k != PRESENT_ENTRY && k != RECV_ENTRY :: RegisterPlugin(env)[k] == env[k]
    ensures Descriptor().name == "rollgui2" && Descriptor().version == "0.1.0"
  {
    assert PRESENT_ENTRY != RECV_ENTRY by { assert PRESENT_ENTRY[0] != RECV_ENTRY[0]; }
  }

  /** What `try_recv_text_input` returns: the sentinel -1, or a handle on the stored string. */
  datatype PollResult = NoValue | Value(text: string)

  /** One call into the bridge: a present whose prompt answered `answer`, or a poll. */
  datatype Op = Present(answer: Option<string>) | Poll

  /** The slot after `present_singleline_text_input`: the prompt's answer, whatever was there. */
  function SlotAfterPresent(slot: Option<string>, answer: Option<string>): Option<string>
  {
    answer
  }

  /** `try_recv_text_input` on a slot: what it returns and the slot it leaves. */
  function PollSlot(slot: Option<string>): (r: (PollResult, Option<string>))
  {
    match slot
    case Some(v) => (Value(v), None)
    case None => (NoValue, None)
  }

  /** The results of the polls in `ops`, one per poll, starting from `slot`. */
  function PollResults(slot: Option<string>, ops: seq<Op>): seq<PollResult>
    decreases |ops|
  {
    if ops == [] then []
    else match ops[0]
      case Present(a) => PollResults(SlotAfterPresent(slot, a), ops[1..])
      case Poll => [PollSlot(slot).0] + PollResults(PollSlot(slot).1, ops[1..])
  }

  /** The slot after running `ops` from `slot`. */
  function FinalSlot(slot: Option<string>, ops: seq<Op>): Option<string>
    decreases |ops|
  {
    if ops == [] then slot
    else match ops[0]
      case Present(a) => FinalSlot(SlotAfterPresent(slot, a), ops[1..])
      case Poll => FinalSlot(PollSlot(slot).1, ops[1..])
  }

  /** The slot holds a value exactly when the last call was a present whose prompt was answered. */
  lemma {:induction false} FinalSlotIsLastAnswer(slot: Option<string>, ops: seq<Op>)
    requires ops != []
    ensures FinalSlot(slot, ops) == (match ops[|ops| - 1] case Present(a) => a case Poll => None)
    decreases |ops|
  {
    if |ops| > 1 {
      match ops[0]
      case Present(a) => FinalSlotIsLastAnswer(a, ops[1..]);
      case Poll => FinalSlotIsLastAnswer(None, ops[1..]);
    }
  }

  /** A poll on an empty slot returns -1 and changes nothing; on a full slot it returns the value and empties it. */
  lemma PollDrains(slot: Option<string>)
    ensures PollSlot(slot).1 == None
    ensures slot == None <==> PollSlot(slot).0 == NoValue
    ensures forall v :: slot == Some(v) <==> PollSlot(slot).0 == Value(v)
  {
  }

  /** Counts the polls in `ops`. */
  function CountPolls(ops: seq<Op>): nat
  {
    if ops == [] then 0 else (if ops[0].Poll? then 1 else 0) + CountPolls(ops[1..])
  }

  /**
   * Running calls from any slot: the k-th poll returns a value exactly
   * when the call just before it was a present whose prompt was answered
   * (or, for a poll that comes first, when the slot held a value), and then
   * it returns that value. So only the last of several
   * presents is ever seen, a value is seen once, and a cancelled prompt
   * reads as -1 just like "no answer yet"; the empty string is a real value.
   */
  lemma {:induction false} PollSeesOnlyImmediateAnswer(slot: Option<string>, ops: seq<Op>, i: nat)
    requires i < |ops| && ops[i].Poll?
    ensures |PollResults(slot, ops)| == CountPolls(ops)
    ensures CountPolls(ops[..i]) < |PollResults(slot, ops)|
    ensures PollResults(slot, ops)[CountPolls(ops[..i])] ==
      (var before := if i == 0 then slot else (match ops[i - 1] case Present(a) => a case Poll => None);
       if before.Some? then Value(before.value) else NoValue)
    decreases |ops|
  {
    PollResultsLength(slot, ops);
    if i == 0 {
      assert ops[..0] == [];
    } else {
      var next := match ops[0] case Present(a) => SlotAfterPresent(slot, a) case Poll => PollSlot(slot).1;
      assert ops[1..][..i - 1] == ops[1..i];
      assert ops[..i] == [ops[0]] + ops[1..i];
      assert CountPolls(ops[..i]) == (if ops[0].Poll? then 1 else 0) + CountPolls(ops[1..i]);
      PollSeesOnlyImmediateAnswer(next, ops[1..], i - 1);
      if i - 1 == 0 {
        assert ops[i - 1] == ops[0];
      } else {
        assert ops[1..][i - 2] == ops[i - 1];
      }
    }
  }

  lemma {:induction false} PollResultsLength(slot: Option<string>, ops: seq<Op>)
    ensures |PollResults(slot, ops)| == CountPolls(ops)
    decreases |ops|
  {
    if ops != [] {
      match ops[0]
      case Present(a) => PollResultsLength(SlotAfterPresent(slot, a), ops[1..]);
      case Poll => PollResultsLength(PollSlot(slot).1, ops[1..]);
    }
  }

  /** After a cancelled prompt the bridge answers every later call exactly as a fresh one would. */
  lemma {:induction false} CancelLooksLikeNoAnswer(slot: Option<string>, ops: seq<Op>)
    ensures PollResults(slot, [Present(None)] + ops) == PollResults(None, ops)
    ensures FinalSlot(slot, [Present(None)] + ops) == FinalSlot(None, ops)
  {
    assert ([Present(None)] + ops)[1..] == ops;
  }

  /** The JS module itself: the one mutable slot, and the prompts shown so far. */
  class Bridge {
    /** `ongoing_text_input_value`; `None` is JavaScript's `null`. */
    var slot: Option<string>
    /** The (title, initial value) pairs passed to `prompt()`, oldest first. */
    var prompts: seq<(string, string)>

    /** Module load: the slot starts as `null`. */
    constructor ()
      ensures slot == None && prompts == []
    {
      slot := None;
      prompts := [];
    }

    /** `present_singleline_text_input(title, value)`, where `prompt()` answered `answer`. */
    method Present(title: string, value: string, answer: Option<string>)
      modifies this
      ensures slot == SlotAfterPresent(old(slot), answer)
      ensures prompts == old(prompts) + [(title, value)]
    {
      prompts := prompts + [(title, value)];
      slot := answer;
    }

    /** `try_recv_text_input()`. */
    method TryRecv() returns (r: PollResult)
      modifies this
      ensures (r, slot) == PollSlot(old(slot))
      ensures prompts == old(prompts)
    {
      if slot.Some? {
        var valueToReturn := slot.value;
        slot := None;
        return Value(valueToReturn);
      }
      return NoValue;
    }
  }
}
