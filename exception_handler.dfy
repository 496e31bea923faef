/**
 * The application-wide handler for uncaught exceptions: a first-match-wins
 * classifier over an exception descriptor, and the two interpreter hooks
 * (`sys.excepthook`, `threading.excepthook`) that `enable`/`disable` set.
 */
module ExceptionHandling {
  import opened Optional

  const EXCEPTION_ERROR_MESSAGE: string :=
    "We're sorry, an unexpected error occurred." + "Please try later."
  const PROTON_API_NOT_REACHABLE_MESSAGE: string :=
    "Our servers are not reachable. " + "Please check your internet connection."

  /**
   * The exception class, seen through the `issubclass` tests the handler makes.
   * The flags are independent: nothing is assumed about which class derives from which.
   */
  datatype ExcType = ExcType(
    isAuthenticationNeeded: bool, // issubclass(exc_type, ProtonAPIAuthenticationNeeded)
    isApiNotReachable: bool,      // issubclass(exc_type, ProtonAPINotReachable)
    isAssertionError: bool,       // issubclass(exc_type, AssertionError)
    isException: bool)            // issubclass(exc_type, Exception)

  /** The exception instance: `isinstance(exc_value, ProtonAPIError)` and its `error` attribute. */
  datatype ExcValue = ExcValue(isProtonApiError: bool, error: Option<string>)

  /** Tracebacks are opaque to the handler; they are only passed on to the log. */
  type Traceback = nat

  datatype ExcInfo = ExcInfo(excType: ExcType, excValue: Option<ExcValue>, excTraceback: Traceback)

  /** The argument object `threading.excepthook` receives. */
  datatype ExceptHookArgs = ExceptHookArgs(
    excType: ExcType, excValue: Option<ExcValue>, excTraceback: Traceback, thread: nat)

  /** Calls made on the main widget. */
  datatype Display = SessionExpired | ErrorMessage(text: string, blocking: bool)

  datatype Level = Warning | Error | Critical

  /** One structured log call: level, message, category, event and the attached exc_info. */
  datatype LogRecord = LogRecord(level: Level, message: string, category: string, event: string, excInfo: ExcInfo)

  /** What a `raise` statement in the handler raises. */
  datatype Raised =
    | RaisedValue(value: ExcValue)  // raise exc_value
    | RaisedType(excType: ExcType)  // raise exc_type
    | RaisedTypeError               // raise None: "exceptions must derive from BaseException"

  /** Everything one call of the handler does, in order of kind. */
  datatype Outcome = Outcome(displays: seq<Display>, logs: seq<LogRecord>, raised: Option<Raised>)

  /** The six branches of the handler. */
  datatype FailureKind =
    | SessionExpiredKind
    | ApiNotReachable
    | ApiErrorWithMessage
    | AssertionFailure
    | OtherException
    | OutsideException

  /** `isinstance(exc_value, ProtonAPIError) and exc_value.error`: a non-empty server message. */
  predicate HasServerMessage(v: Option<ExcValue>)
    // No instance, or one that is not a ProtonAPIError, has none; on a
    // ProtonAPIError, None and "" are falsy and any other text is truthy.
    ensures v.None? || !v.value.isProtonApiError ==> !HasServerMessage(v)
    ensures v.Some? && v.value.isProtonApiError ==>
      (HasServerMessage(v) <==> v.value.error.Some? && |v.value.error.value| > 0)
  {
    v.Some? && v.value.isProtonApiError && v.value.error.Some? && v.value.error.value != ""
  }

  /** The branch `handle_exception` takes: the first test that succeeds wins. */
  function Classify(t: ExcType, v: Option<ExcValue>): (k: FailureKind)
    ensures k == SessionExpiredKind <==> t.isAuthenticationNeeded
    ensures k == ApiNotReachable <==> !t.isAuthenticationNeeded && t.isApiNotReachable
    // Once the two type tests fail, a server message wins over the
    // assertion test, which wins over the Exception test.
    ensures k == ApiErrorWithMessage <==>
      !t.isAuthenticationNeeded && !t.isApiNotReachable && HasServerMessage(v)
    ensures k == AssertionFailure <==>
      !t.isAuthenticationNeeded && !t.isApiNotReachable && !HasServerMessage(v) && t.isAssertionError
    ensures k == OtherException <==>
      !t.isAuthenticationNeeded && !t.isApiNotReachable && !HasServerMessage(v) && !t.isAssertionError && t.isException
    ensures k == OutsideException <==>
      !t.isAuthenticationNeeded && !t.isApiNotReachable && !HasServerMessage(v) && !t.isAssertionError && !t.isException
  {
    if t.isAuthenticationNeeded then SessionExpiredKind
    else if t.isApiNotReachable then ApiNotReachable
    else if HasServerMessage(v) then ApiErrorWithMessage
    else if t.isAssertionError then AssertionFailure
    else if t.isException then OtherException
    else OutsideException
  }

  /** `_on_proton_api_not_reachable`: one non-blocking fixed message and one WARNING log. */
  function OnProtonApiNotReachable(info: ExcInfo): (r: Outcome)
    ensures r.displays == [ErrorMessage(PROTON_API_NOT_REACHABLE_MESSAGE, false)]
    ensures |r.logs| == 1 && r.logs[0].level == Warning && r.logs[0].excInfo == info
    ensures r.logs[0].category == "API" && r.logs[0].event == "ERROR"
    ensures r.logs[0].message == "API not reachable."
    ensures r.raised == None
  {
    Outcome([ErrorMessage(PROTON_API_NOT_REACHABLE_MESSAGE, false)],
            [LogRecord(Warning, "API not reachable.", "API", "ERROR", info)],
            None)
  }

  /** `_on_proton_api_error`: the server's message shown non-blocking and logged at ERROR. */
  function OnProtonApiError(info: ExcInfo): (r: Outcome)
    requires HasServerMessage(info.excValue)
    ensures r.displays == [ErrorMessage(info.excValue.value.error.value, false)]
    ensures r.logs == [LogRecord(Error, info.excValue.value.error.value, "APP", "ERROR", info)]
    ensures r.raised == None
  {
    var message := info.excValue.value.error.value;
    Outcome([ErrorMessage(message, false)], [LogRecord(Error, message, "APP", "ERROR", info)], None)
  }

  /** `_on_exception`: the generic message as a blocking dialog and a CRITICAL crash log. */
  function OnException(info: ExcInfo): (r: Outcome)
    ensures r.displays == [ErrorMessage(EXCEPTION_ERROR_MESSAGE, true)]
    ensures |r.logs| == 1 && r.logs[0].level == Critical && r.logs[0].excInfo == info
    ensures r.logs[0].category == "APP" && r.logs[0].event == "CRASH"
    ensures r.logs[0].message == "Unexpected error."
    ensures r.raised == None
  {
    Outcome([ErrorMessage(EXCEPTION_ERROR_MESSAGE, true)],
            [LogRecord(Critical, "Unexpected error.", "APP", "CRASH", info)],
            None)
  }

  /** Whether an outcome shows a dialog the user must acknowledge. */
  predicate ShowsBlocking(r: Outcome) {
    exists i :: 0 <= i < |r.displays| && IsBlocking(r.displays[i])
  }

  predicate IsBlocking(d: Display) {
    d.ErrorMessage? && d.blocking
  }

  /** `handle_exception(exc_type, exc_value, exc_traceback)`. */
  function HandleException(t: ExcType, v: Option<ExcValue>, tb: Traceback): (r: Outcome)
    // Session expiry beats every other branch and neither shows a message nor logs.
    ensures t.isAuthenticationNeeded ==> r == Outcome([SessionExpired], [], None)
    // A raise happens exactly on the assertion and the non-Exception branches,
    // and then nothing is shown and nothing is logged.
    ensures r.raised.Some? <==> Classify(t, v) in {AssertionFailure, OutsideException}
    ensures r.raised.Some? ==> r.displays == [] && r.logs == []
    // Every other branch makes exactly one call on the widget; all but session
    // expiry also log exactly once, with the full exception context.
    ensures r.raised.None? ==> |r.displays| == 1
    ensures r.raised.None? && !t.isAuthenticationNeeded ==>
      |r.logs| == 1 && r.logs[0].excInfo == ExcInfo(t, v, tb)
    // The only blocking dialog is the generic one for any other Exception.
    ensures ShowsBlocking(r) <==> Classify(t, v) == OtherException
    // The three logging branches are exactly their helpers, with the full
    // exception context: message, level, category and event of the log.
    ensures Classify(t, v) == OtherException ==>
      r == OnException(ExcInfo(t, v, tb)) && r.displays == [ErrorMessage(EXCEPTION_ERROR_MESSAGE, true)] &&
      r.logs == [LogRecord(Critical, "Unexpected error.", "APP", "CRASH", ExcInfo(t, v, tb))]
    ensures Classify(t, v) == ApiNotReachable ==>
      r == OnProtonApiNotReachable(ExcInfo(t, v, tb)) &&
      r.displays == [ErrorMessage(PROTON_API_NOT_REACHABLE_MESSAGE, false)] &&
      r.logs == [LogRecord(Warning, "API not reachable.", "API", "ERROR", ExcInfo(t, v, tb))]
    ensures Classify(t, v) == ApiErrorWithMessage ==>
      r == OnProtonApiError(ExcInfo(t, v, tb)) && r.displays == [ErrorMessage(v.value.error.value, false)] &&
      r.logs == [LogRecord(Error, v.value.error.value, "APP", "ERROR", ExcInfo(t, v, tb))]
    // An assertion is re-raised as the very instance (raise None fails with TypeError).
    ensures Classify(t, v) == AssertionFailure ==>
      r.raised == Some(if v.Some? then RaisedValue(v.value) else RaisedTypeError)
    // Outside Exception: the instance if there is one, else the class.
    ensures Classify(t, v) == OutsideException ==>
      r.raised == Some(if v.Some? then RaisedValue(v.value) else RaisedType(t))
  {
    var info := ExcInfo(t, v, tb);
    match Classify(t, v)
    case SessionExpiredKind => Outcome([SessionExpired], [], None)
    case ApiNotReachable => OnProtonApiNotReachable(info)
    case ApiErrorWithMessage => OnProtonApiError(info)
    case AssertionFailure =>
      Outcome([], [], Some(if v.Some? then RaisedValue(v.value) else RaisedTypeError))
    case OtherException =>
      var r := OnException(info);
      assert IsBlocking(r.displays[0]);
      r
    case OutsideException =>
      Outcome([], [], Some(if v.Some? then RaisedValue(v.value) else RaisedType(t)))
  }

  /** `handle_thread_exception(args)`: the same handling as for the main thread. */
  function HandleThreadException(args: ExceptHookArgs): (r: Outcome)
    ensures r == HandleException(args.excType, args.excValue, args.excTraceback)
  {
    HandleException(args.excType, args.excValue, args.excTraceback)
  }

  /**
   * A ProtonAPIError whose `error` is None or "" is handled exactly as if it
   * were not a ProtonAPIError at all: it falls through to the later branches.
   */
  lemma EmptyServerMessageFallsThrough(t: ExcType, e: Option<string>, tb: Traceback)
    requires e == None || e == Some("")
    ensures Classify(t, Some(ExcValue(true, e))) == Classify(t, Some(ExcValue(false, e)))
    ensures !t.isAuthenticationNeeded && !t.isApiNotReachable && !t.isAssertionError && t.isException ==>
      HandleException(t, Some(ExcValue(true, e)), tb).displays == [ErrorMessage(EXCEPTION_ERROR_MESSAGE, true)]
  {
  }

  // ---------------------------------------------------------------------------
  // The interpreter hooks and enable/disable

  /** A value `sys.excepthook` or `threading.excepthook` can hold. */
  datatype Hook =
    | DefaultExcepthook                               // sys.__excepthook__
    | DefaultThreadingExcepthook                      // threading.__excepthook__
    | HandleExceptionOf(handler: ExceptionHandler)    // handler.handle_exception
    | HandleThreadExceptionOf(handler: ExceptionHandler) // handler.handle_thread_exception
    | ForeignHook(id: nat)                            // any other installed hook

  /** The interpreter-wide hook slots of the `sys` and `threading` modules. */
  class Interpreter {
    var excepthook: Hook
    var threadingExcepthook: Hook

    constructor (excepthook: Hook, threadingExcepthook: Hook)
      ensures this.excepthook == excepthook && this.threadingExcepthook == threadingExcepthook
    {
      this.excepthook := excepthook;
      this.threadingExcepthook := threadingExcepthook;
    }
  }

  class ExceptionHandler {
    const interpreter: Interpreter
    /** `_previous_threading_excepthook`: the one saved slot. */
    var previousThreadingExcepthook: Hook

    /** `__init__`: captures the thread hook installed at construction time. */
    constructor (interpreter: Interpreter)
      ensures this.interpreter == interpreter
      ensures previousThreadingExcepthook == interpreter.threadingExcepthook
    {
      this.interpreter := interpreter;
      previousThreadingExcepthook := interpreter.threadingExcepthook;
    }

    /**
     * `enable`: installs the handler in both slots. The main hook is not
     * saved; the thread hook is saved anew on every call.
     */
    method Enable()
      modifies this, interpreter
      ensures interpreter.excepthook == HandleExceptionOf(this)
      ensures interpreter.threadingExcepthook == HandleThreadExceptionOf(this)
      ensures previousThreadingExcepthook == old(interpreter.threadingExcepthook)
    {
      interpreter.excepthook := HandleExceptionOf(this);
      previousThreadingExcepthook := interpreter.threadingExcepthook;
      interpreter.threadingExcepthook := HandleThreadExceptionOf(this);
    }

    /**
     * `disable`: the main hook goes back to the platform default whatever was
     * there before; the thread hook goes back to the last value saved.
     */
    method Disable()
      modifies interpreter
      ensures interpreter.excepthook == DefaultExcepthook
      ensures interpreter.threadingExcepthook == previousThreadingExcepthook
    {
      interpreter.excepthook := DefaultExcepthook;
      interpreter.threadingExcepthook := previousThreadingExcepthook;
    }
  }

  /** `enable(); disable()` restores the thread hook, but not a custom main hook. */
  method EnableThenDisable(h: ExceptionHandler)
    modifies h, h.interpreter
    ensures h.interpreter.threadingExcepthook == old(h.interpreter.threadingExcepthook)
    ensures h.interpreter.excepthook == DefaultExcepthook
  {
    h.Enable();
    h.Disable();
  }

  /** `enable(); enable(); disable()` leaves the handler's own thread hook installed. */
  method EnableTwiceThenDisable(h: ExceptionHandler)
    modifies h, h.interpreter
    ensures h.interpreter.threadingExcepthook == HandleThreadExceptionOf(h)
    ensures h.interpreter.excepthook == DefaultExcepthook
  {
    h.Enable();
    h.Enable();
    h.Disable();
  }

  /** `disable()` without `enable()` puts back the thread hook seen at construction. */
  method DisableWithoutEnable(interpreter: Interpreter) returns (h: ExceptionHandler)
    modifies interpreter
    ensures h.interpreter == interpreter
    ensures interpreter.threadingExcepthook == old(interpreter.threadingExcepthook)
    ensures interpreter.excepthook == DefaultExcepthook
  {
    h := new ExceptionHandler(interpreter);
    h.Disable();
  }
}
