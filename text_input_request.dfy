/**
 * The Rust side of the text-input bridge (src/ui/text_input.rs). A
 * `TextInputRequest` remembers the name of the field it asks for and the
 * initial value. On wasm, creating one presents the browser prompt through
 * the bridge and `try_recv` polls the bridge; natively there is no prompt
 * and `try_recv` answers the initial value at once, every time.
 */
module TextInputRequest {

  import opened Wrappers
  import TextInputBridge

  /**
   * `JsObject::is_nil` on what `try_recv_text_input` returned: the sentinel
   * -1 is the nil handle, anything else is a string handle.
   */
  function FromHandle(p: TextInputBridge.PollResult): (r: Option<string>)
  {
    match p
    case NoValue => None
    case Value(s) => Some(s)
  }

  /** wasm `try_recv` is `None` exactly on the sentinel, otherwise the string it carries. */
  lemma FromHandleIsNilCheck(p: TextInputBridge.PollResult)
    ensures FromHandle(p).None? <==> p.NoValue?
    ensures p.Value? ==> FromHandle(p) == Some(p.text)
  {
  }

  /**
   * A request polled right after it was created (on wasm) gets back exactly
   * what the prompt answered: the text, or `None` when the prompt was
   * cancelled, which is what it also gets when nothing was answered.
   */
  lemma WasmRoundTrip(slot: Option<string>, answer: Option<string>)
    ensures FromHandle(TextInputBridge.PollSlot(TextInputBridge.SlotAfterPresent(slot, answer)).0) == answer
  {
  }

  class Request {
    var name: string
    var value: string

    /** wasm `new`: present the prompt with the title and the initial value, then keep name and value. */
    constructor NewWasm(bridge: TextInputBridge.Bridge, title: string, name: string, value: string,
                        answer: Option<string>)
      modifies bridge
      ensures this.name == name && this.value == value
      ensures bridge.prompts == old(bridge.prompts) + [(title, value)]
      ensures bridge.slot == TextInputBridge.SlotAfterPresent(old(bridge.slot), answer)
    {
      bridge.Present(title, value, answer);
      this.name := name;
      this.value := value;
    }

    /** native `new`: no prompt; the title is dropped. */
    constructor NewNative(title: string, name: string, value: string)
      ensures this.name == name && this.value == value
    {
      this.name := name;
      this.value := value;
    }

    /** wasm `try_recv`: poll the bridge once. The request itself is left as it was. */
    method TryRecvWasm(bridge: TextInputBridge.Bridge) returns (r: Option<string>)
      modifies bridge
      ensures r == FromHandle(TextInputBridge.PollSlot(old(bridge.slot)).0)
      ensures bridge.slot == None && bridge.prompts == old(bridge.prompts)
    {
      var handle := bridge.TryRecv();
      if handle.Value? {
        return Some(handle.text);
      }
      return None;
    }

    /** native `try_recv`: always the initial value, and it never drains. */
    method TryRecvNative() returns (r: Option<string>)
      ensures r == Some(value)
      ensures r.Some?
    {
      return Some(value);
    }

    function Name(): (r: string)
      reads this
      ensures r == name
    {
      name
    }
  }
}
