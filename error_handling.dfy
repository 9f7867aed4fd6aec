/** The error sink: an append-only log of (message, code) entries and a
    sticky "active error" flag. */
module ErrorHandling {

  datatype LogEntry = LogEntry(message: string, code: int)

  datatype ErrorLog = ErrorLog(logs: seq<LogEntry>, activeError: bool)

  const EmptyLog := ErrorLog([], false)

  function Logged(e: ErrorLog, message: string, code: int): ErrorLog {
    ErrorLog(e.logs + [LogEntry(message, code)], true)
  }

  function Cleared(e: ErrorLog): ErrorLog {
    e.(activeError := false)
  }

  /** Logging appends exactly one entry at the end, keeps every earlier one
      and raises the flag; clearing lowers the flag and keeps the log. */
  lemma LogOperations(e: ErrorLog, message: string, code: int)
    ensures |Logged(e, message, code).logs| == |e.logs| + 1
    ensures Logged(e, message, code).logs[..|e.logs|] == e.logs
    ensures Logged(e, message, code).logs[|e.logs|] == LogEntry(message, code)
    ensures Logged(e, message, code).activeError
    ensures !Cleared(e).activeError && Cleared(e).logs == e.logs
  {
  }

  class ErrorHandler {
    var logs: seq<LogEntry>
    var activeError: bool

    function State(): ErrorLog
      reads this
    {
      ErrorLog(logs, activeError)
    }

    constructor ()
      ensures State() == EmptyLog
    {
      logs := [];
      activeError := false;
    }

    method LogError(message: string, code: int := 0)
      modifies this
      ensures State() == Logged(old(State()), message, code)
    {
      logs := logs + [LogEntry(message, code)];
      activeError := true;
    }

    method ClearError()
      modifies this
      ensures State() == Cleared(old(State()))
    {
      activeError := false;
    }

    /** Raised by `LogError`, lowered only by `ClearError`. */
    function HasActiveError(): (r: bool)
      reads this
      ensures r <==> State().activeError
      ensures !r ==> State() == Cleared(State())
    {
      activeError
    }

    /** Every entry logged so far, oldest first. */
    function GetLogs(): (r: seq<LogEntry>)
      reads this
      ensures r == State().logs && Cleared(State()).logs == r
    {
      logs
    }
  }
}
