/**
 * The messages shown to the player in the zone's log box
 * (src/engine/zone/log.rs): each has a level, and the box lists them newest
 * first, errors in red. The box's geometry is not modelled.
 */
module Log {

  datatype UserLogLevel = Info | Error

  datatype UserLog = UserLog(level: UserLogLevel, message: string)

  datatype Color = Black | Red

  /** `UserLog::info`. */
  function InfoLog(message: string): (r: UserLog)
    ensures r.level == Info && r.message == message
  {
    UserLog(Info, message)
  }

  /** `UserLog::error`. */
  function ErrorLog(message: string): (r: UserLog)
    ensures r.level == Error && r.message == message
  {
    UserLog(Error, message)
  }

  /** `UserLog::new`: the message and the level as given. */
  function New(message: string, level: UserLogLevel): (r: UserLog)
    ensures r.level == level && r.message == message
    ensures level == Info ==> r == InfoLog(message)
    ensures level == Error ==> r == ErrorLog(message)
  {
    UserLog(level, message)
  }

  /** `Display for UserLogLevel`. */
  function LevelText(level: UserLogLevel): (r: string)
    ensures r == "INFO" <==> level == Info
    ensures r == "ERROR" <==> level == Error
  {
    match level
    case Info => "INFO"
    case Error => "ERROR"
  }

  /** The colour a log line is drawn in. */
  function LevelColor(level: UserLogLevel): (r: Color)
    ensures r == Red <==> level == Error
  {
    match level
    case Info => Black
    case Error => Red
  }

  /**
   * The lines `draw_user_logs` draws, top to bottom: the logs from the
   * newest to the oldest, each in its level's colour.
   */
  function DrawnLines(logs: seq<UserLog>): (r: seq<(string, Color)>)
    ensures |r| == |logs|
    ensures forall i | 0 <= i < |r| ::
      r[i] == (logs[|logs| - 1 - i].message, LevelColor(logs[|logs| - 1 - i].level))
    decreases |logs|
  {
    if logs == [] then []
    else
      var newest := logs[|logs| - 1];
      [(newest.message, LevelColor(newest.level))] + DrawnLines(logs[..|logs| - 1])
  }

  /** A new log goes on the top line and pushes the others one line down. */
  lemma NewestOnTop(logs: seq<UserLog>, log: UserLog)
    ensures DrawnLines(logs + [log]) == [(log.message, LevelColor(log.level))] + DrawnLines(logs)
  {
    assert (logs + [log])[..|logs|] == logs;
  }
}
