/**
 * The state of the chat window (src/engine/zone/gui/chat/state.rs): the
 * messages received, whether the window is shown, and what its input line
 * holds. `is_mobile()` is a foreign call and is a parameter.
 */
module ChatState {

  import ChatModel

  /** What the drawing of the window reports back for one frame. */
  datatype DisplayState = DisplayState(
    inputFocused: bool,
    inputGainedFocus: bool,
    inputValidated: bool,
    inputValue: string,
    mouseHover: bool)

  class State {
    var messages: seq<ChatModel.Message>
    var unread: bool
    var display: bool
    var justOpened: bool
    var inputFocused: bool
    var requestFocus: bool
    var surrenderFocus: bool
    var inputValue: string
    var mouseHover: bool

    /** Unread messages are only ever flagged while the window is closed. */
    ghost predicate Valid()
      reads this
    {
      unread ==> !display
    }

    /** `State::new`: no message, every flag down, an empty input. */
    constructor ()
      ensures Valid()
      ensures messages == [] && inputValue == ""
      ensures !unread && !display && !justOpened && !inputFocused && !requestFocus && !surrenderFocus && !mouseHover
    {
      messages := [];
      unread := false;
      display := false;
      justOpened := false;
      inputFocused := false;
      requestFocus := false;
      surrenderFocus := false;
      inputValue := "";
      mouseHover := false;
    }

    /**
     * `set_display`: opening the window clears the unread flag and asks for
     * the input's focus except on mobile; closing it drops the focus only.
     */
    method SetDisplay(display: bool, isMobile: bool)
      requires Valid()
      modifies this
      ensures Valid()
      ensures this.display == display
      ensures display ==> !unread && requestFocus == !isMobile && inputFocused == old(inputFocused)
      ensures !display ==> unread == old(unread) && requestFocus == old(requestFocus) && !inputFocused
      ensures messages == old(messages) && inputValue == old(inputValue) && mouseHover == old(mouseHover)
      ensures justOpened == old(justOpened) && surrenderFocus == old(surrenderFocus)
    {
      this.display := display;
      if this.display {
        unread := false;
        requestFocus := !isMobile;
      } else {
        inputFocused := false;
      }
    }

    /**
     * `add_message`: the message goes at the end; unless it is silent, the
     * unread flag then says whether the window is closed.
     */
    method AddMessage(message: ChatModel.Message, silent: bool)
      requires Valid()
      modifies this
      ensures Valid()
      ensures messages == old(messages) + [message]
      ensures !silent ==> unread == !display
      ensures silent ==> unread == old(unread)
      ensures display == old(display) && inputFocused == old(inputFocused) && requestFocus == old(requestFocus)
      ensures inputValue == old(inputValue) && mouseHover == old(mouseHover)
      ensures justOpened == old(justOpened) && surrenderFocus == old(surrenderFocus)
    {
      messages := messages + [message];
      if !silent {
        unread := !display;
      }
    }

    /** `set_input_value`: the input holds exactly `value`; nothing else changes. */
    method SetInputValue(value: string)
      requires Valid()
      modifies this
      ensures Valid()
      ensures inputValue == value
      ensures messages == old(messages) && unread == old(unread) && display == old(display)
      ensures inputFocused == old(inputFocused) && requestFocus == old(requestFocus) && mouseHover == old(mouseHover)
      ensures justOpened == old(justOpened) && surrenderFocus == old(surrenderFocus)
    {
      inputValue := value;
    }

    /** `reset_input_value`: the input is emptied; nothing else changes. */
    method ResetInputValue()
      requires Valid()
      modifies this
      ensures Valid()
      ensures inputValue == ""
      ensures messages == old(messages) && unread == old(unread) && display == old(display)
      ensures inputFocused == old(inputFocused) && requestFocus == old(requestFocus) && mouseHover == old(mouseHover)
      ensures justOpened == old(justOpened) && surrenderFocus == old(surrenderFocus)
    {
      inputValue := "";
    }

    /** `set_request_focus`. */
    method SetRequestFocus()
      requires Valid()
      modifies this
      ensures Valid()
      ensures requestFocus
      ensures messages == old(messages) && unread == old(unread) && display == old(display)
      ensures inputFocused == old(inputFocused) && inputValue == old(inputValue) && mouseHover == old(mouseHover)
      ensures justOpened == old(justOpened) && surrenderFocus == old(surrenderFocus)
    {
      requestFocus := true;
    }

    /** `set_surrender_focus`. */
    method SetSurrenderFocus()
      requires Valid()
      modifies this
      ensures Valid()
      ensures surrenderFocus
      ensures messages == old(messages) && unread == old(unread) && display == old(display)
      ensures inputFocused == old(inputFocused) && inputValue == old(inputValue) && mouseHover == old(mouseHover)
      ensures justOpened == old(justOpened) && requestFocus == old(requestFocus)
    {
      surrenderFocus := true;
    }

    /** `set_just_opened`. */
    method SetJustOpened()
      requires Valid()
      modifies this
      ensures Valid()
      ensures justOpened
      ensures messages == old(messages) && unread == old(unread) && display == old(display)
      ensures inputFocused == old(inputFocused) && inputValue == old(inputValue) && mouseHover == old(mouseHover)
      ensures surrenderFocus == old(surrenderFocus) && requestFocus == old(requestFocus)
    {
      justOpened := true;
    }

    /**
     * `update_from_display`: the input's text, focus and hover come from the
     * drawing; a focused input no longer needs to ask for focus.
     */
    method UpdateFromDisplay(displayState: DisplayState)
      requires Valid()
      modifies this
      ensures Valid()
      ensures inputValue == displayState.inputValue && inputFocused == displayState.inputFocused
      ensures mouseHover == displayState.mouseHover
      ensures requestFocus == (old(requestFocus) && !displayState.inputFocused)
      ensures messages == old(messages) && unread == old(unread) && display == old(display)
      ensures justOpened == old(justOpened) && surrenderFocus == old(surrenderFocus)
    {
      inputValue := displayState.inputValue;
      inputFocused := displayState.inputFocused;
      mouseHover := displayState.mouseHover;
      if displayState.inputFocused {
        requestFocus := false;
      }
    }

    /**
     * A frame in which the drawing reports back exactly what it was given
     * (`DisplayState::from_state`) keeps the input's text and focus, drops
     * the hover, and drops a pending focus request when the input already
     * had the focus; nothing else changes.
     */
    method UpdateFromOwnDisplay()
      requires Valid()
      modifies this
      ensures Valid()
      ensures inputValue == old(inputValue) && inputFocused == old(inputFocused) && !mouseHover
      ensures requestFocus == (old(requestFocus) && !old(inputFocused))
      ensures messages == old(messages) && unread == old(unread) && display == old(display)
      ensures justOpened == old(justOpened) && surrenderFocus == old(surrenderFocus)
    {
      var displayState := FromState(this);
      UpdateFromDisplay(displayState);
    }
  }

  /** `DisplayState::from_state`: the input's focus and text, with the other three flags down. */
  function FromState(state: State): (r: DisplayState)
    reads state
    ensures r.inputFocused == state.inputFocused && r.inputValue == state.inputValue
    ensures !r.inputGainedFocus && !r.inputValidated && !r.mouseHover
  {
    DisplayState(state.inputFocused, false, false, state.inputValue, false)
  }
}
