/**
 * The session registry (`recordings.db`, table `sessions`), seen only as the
 * ordered rows it holds. Row ids, SQL and connections are not modelled.
 */
module Database {

  datatype SessionRow = SessionRow(subjectId: string, sessionId: string, timestamp: string, frameCount: int, fileBase: string)

  class Registry {
    var rows: seq<SessionRow>

    constructor ()
      ensures rows == []
    {
      rows := [];
    }

    /** `insert_session_metadata`: appends one row and keeps every earlier one. */
    method InsertSessionMetadata(subjectId: string, sessionId: string, timestamp: string, frameCount: int, fileBase: string)
      modifies this
      ensures rows == old(rows) + [SessionRow(subjectId, sessionId, timestamp, frameCount, fileBase)]
    {
      rows := rows + [SessionRow(subjectId, sessionId, timestamp, frameCount, fileBase)];
    }
  }
}
