/**
 * A chat message (src/engine/zone/gui/chat/model.rs): written by a
 * character, or by the system, and shown as one line of text.
 */
module ChatModel {

  import opened Wrappers
  import Strings

  datatype Message = Message(authorName: Option<string>, message: string, system: bool)

  /** `Message::character`: a message with its author, not from the system. */
  function Character(authorName: string, message: string): (r: Message)
    ensures r.authorName == Some(authorName) && r.message == message && !r.system
  {
    Message(Some(authorName), message, false)
  }

  /** `Message::system`: a message with no author, from the system. */
  function System(message: string): (r: Message)
    ensures r.authorName.None? && r.message == message && r.system
  {
    Message(None, message, true)
  }

  /**
   * `Message::message`: the line shown. It always ends with the message;
   * with an author it starts with the author's name and ": ", and without
   * one it is the message alone.
   */
  function Text(m: Message): (r: string)
    ensures Strings.EndsWith(r, m.message)
    ensures m.authorName.Some? ==> Strings.StartsWith(r, m.authorName.value + ": ") && |r| == |m.authorName.value| + 2 + |m.message|
    ensures m.authorName.None? ==> r == m.message
  {
    if m.authorName.Some? then
      var r := m.authorName.value + ": " + m.message;
      assert r[|r| - |m.message|..] == m.message;
      assert r[..|m.authorName.value + ": "|] == m.authorName.value + ": ";
      r
    else m.message
  }

  /** The line of a character's message gives the message back once the author is known. */
  lemma CharacterTextDeterminesMessage(authorName: string, m1: string, m2: string)
    requires Text(Character(authorName, m1)) == Text(Character(authorName, m2))
    ensures m1 == m2
  {
    var t := Text(Character(authorName, m1));
    var n := |authorName| + 2;
    assert t[n..] == m1;
    assert Text(Character(authorName, m2))[n..] == m2;
  }

  /** A system message can show the very line of a character's message: the line alone does not say who wrote it. */
  lemma SystemLineCanLookLikeCharacterLine()
    ensures Text(System("Bob: hi")) == Text(Character("Bob", "hi"))
    ensures System("Bob: hi") != Character("Bob", "hi")
  {
    assert "Bob" + ": " + "hi" == "Bob: hi";
  }
}
