/**
 * The error log (`src/errorHandler.js`): a bounded log of error records,
 * oldest dropped first, a handler that turns a thrown value into a record,
 * and the copy and clear operations.
 *
 * The clock is a parameter: the caller hands in the timestamp string.
 */
module ErrorHandling {
  import opened Wrappers

  const MaxLogSize := 100

  /** One log record. `kind` is the record's `type` field. */
  datatype ErrorInfo = ErrorInfo(kind: string, context: string, message: string,
                                 stack: Option<string>, timestamp: string)

  /** A thrown value as `handleError` sees it: its `message` and `stack` properties and `String(error)`. */
  datatype Thrown = Thrown(message: Option<string>, stack: Option<string>, asString: string)

  /** The last `n` elements of `s` (all of them when there are fewer). */
  function Recent<T>(s: seq<T>, n: nat): (r: seq<T>)
    ensures |r| == if |s| < n then |s| else n
    ensures r == s[|s| - |r|..]
  {
    if |s| <= n then s else s[|s| - n..]
  }

  /**
   * Appending one element and then dropping the front when the bound is
   * exceeded keeps exactly the most recent `n` elements.
   */
  lemma RecentSnoc<T>(s: seq<T>, x: T, n: nat)
    requires n > 0
    ensures var pushed := Recent(s, n) + [x];
            Recent(s + [x], n) == if |pushed| > n then pushed[1..] else pushed
  {
    var pushed := Recent(s, n) + [x];
    if |pushed| > n {
      assert |Recent(s, n)| == n;
      assert pushed[1..] == (s + [x])[|s| + 1 - n..];
    } else {
      assert Recent(s, n) == s;
    }
  }

  /** `error.message || String(error)`: an absent or empty message falls back to the string form. */
  function MessageOf(error: Thrown): (m: string)
    ensures error.message.Some? && error.message.value != [] ==> m == error.message.value
    ensures error.message.None? || error.message.value == [] ==> m == error.asString
  {
    match error.message
    case Some(text) => if text != [] then text else error.asString
    case None => error.asString
  }

  /** The record `handleError` logs; a missing context defaults to the empty string. */
  function HandledRecord(error: Thrown, context: Option<string>, timestamp: string): (r: ErrorInfo)
    ensures r.kind == "Handled Error" && r.message == MessageOf(error) && r.stack == error.stack
    ensures r.context == (if context.Some? then context.value else "")
    ensures r.timestamp == timestamp
  {
    ErrorInfo("Handled Error", if context.Some? then context.value else "", MessageOf(error), error.stack, timestamp)
  }

  class ErrorHandler {
    var errorLog: seq<ErrorInfo>
    /** Every record logged since the log was last cleared. */
    ghost var history: seq<ErrorInfo>

    /** The log is the most recent at most 100 records, in arrival order. */
    ghost predicate Valid()
      reads this
    {
      |errorLog| <= MaxLogSize && errorLog == Recent(history, MaxLogSize)
    }

    constructor()
      ensures Valid() && errorLog == [] && history == []
    {
      errorLog := [];
      history := [];
    }

    /** `logError`: appends, then drops the oldest record when the log has grown past its bound. */
    method LogError(info: ErrorInfo)
      requires Valid()
      modifies this
      ensures Valid()
      ensures history == old(history) + [info]
      ensures errorLog == if |old(errorLog)| + 1 > MaxLogSize then (old(errorLog) + [info])[1..]
                          else old(errorLog) + [info]
      ensures errorLog != [] && errorLog[|errorLog| - 1] == info
    {
      RecentSnoc(history, info, MaxLogSize);
      errorLog := errorLog + [info];
      if |errorLog| > MaxLogSize {
        errorLog := errorLog[1..];
      }
      history := history + [info];
    }

    /** `handleError`: logs one handled-error record and reports failure. */
    method HandleError(error: Thrown, context: Option<string>, timestamp: string) returns (ok: bool)
      requires Valid()
      modifies this
      ensures Valid() && !ok
      ensures history == old(history) + [HandledRecord(error, context, timestamp)]
      ensures errorLog[|errorLog| - 1] == HandledRecord(error, context, timestamp)
    {
      var info := ErrorInfo("Handled Error", if context.Some? then context.value else "",
                            MessageOf(error), error.stack, timestamp);
      LogError(info);
      return false;
    }

    /** `getErrorLog`: a copy of the log; the log is a value, so the copy shares nothing with it. */
    method GetErrorLog() returns (log: seq<ErrorInfo>)
      ensures log == errorLog
    {
      log := errorLog;
    }

    /** `clearErrorLog`: an empty log, and logging starts over from nothing. */
    method ClearErrorLog()
      modifies this
      ensures Valid() && errorLog == [] && history == []
    {
      errorLog := [];
      history := [];
    }
  }
}
