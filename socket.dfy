/**
 * The zone's event web socket (src/engine/zone/socket.rs): its URL is the
 * server address with the HTTP scheme turned into the web-socket one, then
 * the zone and the character. Connecting is network I/O and is a
 * parameter; the player's world coordinates and id are parameters too.
 */
module Socket {

  import opened Wrappers
  import Strings

  /** The address the client is built with when none is given (src/main.rs). */
  const DEFAULT_SERVER_ADDRESS: string := "http://127.0.0.1:5000"

  /** The path of a zone's events for a character, after the server address. */
  function EventsPath(worldRowI: int, worldColI: int, characterId: string): string
  {
    "/ws/zones/" + Strings.IntToString(worldRowI) + "/" + Strings.IntToString(worldColI)
      + "/events?character_id=" + characterId
  }

  /** `get_url`: "http://" becomes "ws://", then "https://" becomes "wss://", everywhere in the address. */
  function GetUrl(serverAddress: string, worldRowI: int, worldColI: int, characterId: string): (r: string)
    ensures Strings.EndsWith(r, EventsPath(worldRowI, worldColI, characterId))
  {
    var address := Strings.ReplaceAll(Strings.ReplaceAll(serverAddress, "http://", "ws://"), "https://", "wss://");
    var r := address + EventsPath(worldRowI, worldColI, characterId);
    assert r[|r| - |EventsPath(worldRowI, worldColI, characterId)|..] == EventsPath(worldRowI, worldColI, characterId);
    r
  }

  /** An occurrence of a pattern after a prefix is an occurrence in what follows the prefix. */
  lemma OccursAfterPrefix(p: string, rest: string, pat: string, j: nat)
    requires j >= |p|
    ensures Strings.OccursAt(p + rest, pat, j) == Strings.OccursAt(rest, pat, j - |p|)
  {
    if j + |pat| <= |p + rest| {
      assert (p + rest)[j..j + |pat|] == rest[j - |p|..j - |p| + |pat|];
    }
  }

  /** No occurrence of a pattern anywhere in `s`. */
  predicate Absent(s: string, pat: string)
  {
    forall j | 0 <= j <= |s| :: !Strings.OccursAt(s, pat, j)
  }

  /** A pattern starting with 'h' does not start inside a prefix without 'h', nor in a rest without it. */
  lemma AbsentAfterPrefix(p: string, rest: string, pat: string)
    requires |pat| > 0 && pat[0] == 'h' && 'h' !in p
    requires Absent(rest, pat)
    ensures Absent(p + rest, pat)
  {
    forall j | 0 <= j <= |p + rest|
      ensures !Strings.OccursAt(p + rest, pat, j)
    {
      if j < |p| {
        assert (p + rest)[j] == p[j];
        if j + |pat| <= |p + rest| {
          assert (p + rest)[j..j + |pat|][0] == p[j];
        }
      } else {
        OccursAfterPrefix(p, rest, pat, j);
      }
    }
  }

  /** A pattern starting with 'h' is absent from a string without 'h'. */
  lemma AbsentWithoutH(s: string, pat: string)
    requires |pat| > 0 && pat[0] == 'h' && 'h' !in s
    ensures Absent(s, pat)
  {
    forall j | 0 <= j <= |s|
      ensures !Strings.OccursAt(s, pat, j)
    {
      if j + |pat| <= |s| {
        assert s[j..j + |pat|][0] == s[j];
      }
    }
  }

  /** Replacing a pattern at the very start: the replacement, then the rest with its own occurrences replaced. */
  lemma ReplaceAtStart(pat: string, rep: string, rest: string)
    requires |pat| > 0
    requires Absent(rest, pat)
    ensures Strings.ReplaceAll(pat + rest, pat, rep) == rep + rest
  {
    var s := pat + rest;
    assert s[..|pat|] == pat && s[|pat|..] == rest;
    Strings.ReplaceAllAbsent(rest, pat, rep);
  }

  /** An "http://" address is reached over "ws://". */
  lemma HttpBecomesWs(rest: string, worldRowI: int, worldColI: int, characterId: string)
    requires Absent(rest, "http://") && Absent(rest, "https://")
    ensures GetUrl("http://" + rest, worldRowI, worldColI, characterId)
      == "ws://" + rest + EventsPath(worldRowI, worldColI, characterId)
  {
    ReplaceAtStart("http://", "ws://", rest);
    AbsentAfterPrefix("ws://", rest, "https://");
    Strings.ReplaceAllAbsent("ws://" + rest, "https://", "wss://");
  }

  /** An "https://" address is reached over "wss://": the first replacement does not touch it, so it never gives "ws://". */
  lemma HttpsBecomesWss(rest: string, worldRowI: int, worldColI: int, characterId: string)
    requires Absent(rest, "http://") && Absent(rest, "https://")
    ensures GetUrl("https://" + rest, worldRowI, worldColI, characterId)
      == "wss://" + rest + EventsPath(worldRowI, worldColI, characterId)
  {
    var s := "https://" + rest;
    forall j | 0 <= j <= |s|
      ensures !Strings.OccursAt(s, "http://", j)
    {
      if j == 0 {
        if 7 <= |s| {
          assert s[0..7][4] == 's';
        }
      } else if j < 8 {
        assert s[j] == "https://"[j];
        if j + 7 <= |s| {
          assert s[j..j + 7][0] == s[j];
        }
      } else {
        OccursAfterPrefix("https://", rest, "http://", j);
      }
    }
    Strings.ReplaceAllAbsent(s, "http://", "ws://");
    ReplaceAtStart("https://", "wss://", rest);
  }

  /**
   * With the default address, the client connects to the same host over
   * "ws://": `host` is what follows the default address's "http://".
   */
  lemma DefaultAddressUrl(host: string, worldRowI: int, worldColI: int, characterId: string)
    requires DEFAULT_SERVER_ADDRESS == "http://" + host
    ensures GetUrl(DEFAULT_SERVER_ADDRESS, worldRowI, worldColI, characterId)
      == "ws://" + host + EventsPath(worldRowI, worldColI, characterId)
  {
    assert host == DEFAULT_SERVER_ADDRESS[7..];
    assert 'h' !in host;
    AbsentWithoutH(host, "http://");
    AbsentWithoutH(host, "https://");
    HttpBecomesWs(host, worldRowI, worldColI, characterId);
  }

  /** What connecting gives: the socket, or the error's debug text. */
  datatype Connection<S> = Connected(socket: S) | Failed(debugText: string)

  /**
   * `get_socket`: connect to the URL of `get_url`; a failure becomes an
   * error message in French that carries the connection error.
   */
  function GetSocket<S>(serverAddress: string, worldRowI: int, worldColI: int, characterId: string,
                        connect: string -> Connection<S>): (r: Result<S>)
    ensures var c := connect(GetUrl(serverAddress, worldRowI, worldColI, characterId));
      && (r.Ok? <==> c.Connected?)
      && (r.Ok? ==> r.value == c.socket)
      && (r.Err? ==> r.error == "Erreur de connexion web socket : " + c.debugText)
  {
    match connect(GetUrl(serverAddress, worldRowI, worldColI, characterId))
    case Connected(socket) => Ok(socket)
    case Failed(debugText) => Err("Erreur de connexion web socket : " + debugText)
  }
}
