/**
 * Client-side error log (utils/error-handler.ts): errors are kept in local
 * storage under `app_errors`, newest first and at most fifty of them;
 * critical ones are also handed to the server logger.
 */
module ErrorHandler {
  import opened Common
  import opened Json
  import opened LocalStorage

  datatype ErrorType = AUTHENTICATION | AUTHORIZATION | VALIDATION | API | NETWORK | STORAGE | UNKNOWN

  datatype ErrorSeverity = LOW | MEDIUM | HIGH | CRITICAL

  function TypeValue(t: ErrorType): string
  {
    match t
    case AUTHENTICATION => "authentication"
    case AUTHORIZATION => "authorization"
    case VALIDATION => "validation"
    case API => "api"
    case NETWORK => "network"
    case STORAGE => "storage"
    case UNKNOWN => "unknown"
  }

  function SeverityValue(s: ErrorSeverity): string
  {
    match s
    case LOW => "low"
    case MEDIUM => "medium"
    case HIGH => "high"
    case CRITICAL => "critical"
  }

  /**
   * A logged error. `context` and `originalError` are `None` when undefined;
   * `originalError` is held as the value `JSON.stringify` makes of it.
   */
  datatype AppError = AppError(
    errorType: ErrorType,
    message: string,
    severity: ErrorSeverity,
    timestamp: string,
    context: Option<Json>,
    originalError: Option<Json>)

  const ERROR_STORAGE_KEY := "app_errors"
  const MAX_STORED_ERRORS := 50

  /** `JSON.parse(JSON.stringify(error))`: undefined properties are dropped. */
  function Stored(e: AppError): (j: Json)
    ensures Field(j, "message") == Some(JStr(e.message))
    ensures Field(j, "severity") == Some(JStr(SeverityValue(e.severity)))
    ensures Field(j, "context") == e.context
  {
    JObj(map["type" := JStr(TypeValue(e.errorType)), "message" := JStr(e.message),
             "severity" := JStr(SeverityValue(e.severity)), "timestamp" := JStr(e.timestamp)]
         + (if e.context.Some? then map["context" := e.context.value] else map[])
         + (if e.originalError.Some? then map["originalError" := e.originalError.value] else map[]))
  }

  /** `list.slice(0, MAX_STORED_ERRORS)` */
  function Cap(list: seq<Json>): seq<Json>
  {
    if |list| > MAX_STORED_ERRORS then list[..MAX_STORED_ERRORS] else list
  }

  /**
   * The list `logError` writes back, given what the key holds: `None` when
   * reading it throws (the text does not parse, or parses to something other
   * than an array, which has no `unshift`).
   */
  function Logged(held: Option<Text>, e: AppError): (r: Option<seq<Json>>)
    ensures r.Some? <==> ParseOr(held, JArr([])).Some? && ParseOr(held, JArr([])).value.JArr?
  {
    match ParseOr(held, JArr([]))
    case Some(JArr(list)) => Some(Cap([Stored(e)] + list))
    case _ => None
  }

  /** The new error comes first, and the list never holds more than fifty. */
  lemma NewestFirst(held: Option<Text>, e: AppError)
    requires Logged(held, e).Some?
    ensures 1 <= |Logged(held, e).value| <= MAX_STORED_ERRORS
    ensures Logged(held, e).value[0] == Stored(e)
  {
  }

  /** The fifty most recent survive: the previous list follows the new error, cut at forty-nine. */
  lemma KeepsMostRecent(list: seq<Json>, e: AppError)
    ensures Logged(Some(Holds(JArr(list))), e).value[1..] == list[..Min(|list|, MAX_STORED_ERRORS - 1)]
  {
    var r := Logged(Some(Holds(JArr(list))), e).value;
    if |list| >= MAX_STORED_ERRORS {
      assert r == ([Stored(e)] + list)[..MAX_STORED_ERRORS];
    }
  }

  const AUTHENTICATION_MESSAGE := "Authentication error. Please sign in again."
  const AUTHORIZATION_MESSAGE := "You do not have permission to perform this action."
  const VALIDATION_MESSAGE := "Please check your input and try again."
  const API_MESSAGE := "We encountered an issue connecting to our services."
  const NETWORK_MESSAGE := "Network error. Please check your internet connection."
  const STORAGE_MESSAGE := "Storage error. We couldn't save your data."
  /** `getUserFriendlyErrorMessage`'s fall-through text. */
  const GENERIC_MESSAGE := "An unexpected error occurred. Please try again later."

  function GetUserFriendlyErrorMessage(error: AppError): (r: string)
    ensures error.errorType == UNKNOWN <==> r == GENERIC_MESSAGE
  {
    match error.errorType
    case AUTHENTICATION => AUTHENTICATION_MESSAGE
    case AUTHORIZATION => AUTHORIZATION_MESSAGE
    case VALIDATION => VALIDATION_MESSAGE
    case API => API_MESSAGE
    case NETWORK => NETWORK_MESSAGE
    case STORAGE => STORAGE_MESSAGE
    case UNKNOWN => GENERIC_MESSAGE
  }

  /** Which kind of error a friendly message was written for; anything unrecognised is UNKNOWN. */
  function KindOfMessage(m: string): ErrorType
  {
    if m == AUTHENTICATION_MESSAGE then AUTHENTICATION
    else if m == AUTHORIZATION_MESSAGE then AUTHORIZATION
    else if m == VALIDATION_MESSAGE then VALIDATION
    else if m == API_MESSAGE then API
    else if m == NETWORK_MESSAGE then NETWORK
    else if m == STORAGE_MESSAGE then STORAGE
    else UNKNOWN
  }

  /** Each kind of error has a message of its own: the message tells the kind back. */
  lemma FriendlyMessageNamesKind(e: AppError)
    ensures KindOfMessage(GetUserFriendlyErrorMessage(e)) == e.errorType
  {
  }

  /**
   * `logError`: builds the error, prepends it to the stored list and writes
   * the list back capped at fifty. `sent` is whether it went to
   * `sendErrorToServer`, which happens only for a critical error that was
   * stored. Whatever goes wrong with storage, the error is returned.
   */
  method LogError(
    storage: Storage, nowIso: string, errorType: ErrorType, message: string,
    severity: ErrorSeverity := MEDIUM, context: Option<Json> := None, originalError: Option<Json> := None)
    returns (error: AppError, sent: bool)
    requires storage.Valid()
    modifies storage`items
    ensures storage.Valid()
    ensures error == AppError(errorType, message, severity, nowIso, context, originalError)
    ensures
      var next := Logged(old(storage.GetItem(ERROR_STORAGE_KEY)), error);
      && storage.items ==
        (if next.Some? && !storage.full then Put(old(storage.items), ERROR_STORAGE_KEY, Holds(JArr(next.value)))
         else old(storage.items))
      && (sent <==> next.Some? && !storage.full && severity == CRITICAL)
  {
    error := AppError(errorType, message, severity, nowIso, context, originalError);
    var parsed := ParseOr(storage.GetItem(ERROR_STORAGE_KEY), JArr([]));
    if parsed.None? || !parsed.value.JArr? {
      return error, false;
    }
    var storedErrors := [Stored(error)] + parsed.value.items;
    var ok;
    if |storedErrors| > MAX_STORED_ERRORS {
      var slicedErrors := storedErrors[..MAX_STORED_ERRORS];
      ok := storage.SetItem(ERROR_STORAGE_KEY, Holds(JArr(slicedErrors)));
    } else {
      ok := storage.SetItem(ERROR_STORAGE_KEY, Holds(JArr(storedErrors)));
    }
    sent := ok && severity == CRITICAL;
  }

  /** `getStoredErrors`: the parsed list, or `[]` when the key is missing or does not parse. */
  function GetStoredErrors(held: Option<Text>): (r: Json)
    ensures held.None? || held == Some(Garbage) ==> r == JArr([])
    ensures held.Some? && held.value.Holds? ==> r == held.value.value
  {
    match ParseOr(held, JArr([]))
    case None => JArr([])
    case Some(v) => v
  }

  /** Once an error is logged and written, reading the log gives the list `logError` wrote. */
  lemma ReadBackAfterLog(items: seq<Item>, e: AppError)
    requires Logged(Lookup(items, ERROR_STORAGE_KEY), e).Some?
    ensures
      var next := Logged(Lookup(items, ERROR_STORAGE_KEY), e).value;
      var after := Put(items, ERROR_STORAGE_KEY, Holds(JArr(next)));
      && GetStoredErrors(Lookup(after, ERROR_STORAGE_KEY)) == JArr(next)
      && next[0] == Stored(e)
  {
    var next := Logged(Lookup(items, ERROR_STORAGE_KEY), e).value;
    LookupPut(items, ERROR_STORAGE_KEY, Holds(JArr(next)), ERROR_STORAGE_KEY);
  }

  /** `clearStoredErrors`: the log reads as empty afterwards and no other key changes. */
  method ClearStoredErrors(storage: Storage)
    requires storage.Valid()
    modifies storage`items
    ensures storage.Valid()
    ensures storage.items == Remove(old(storage.items), ERROR_STORAGE_KEY)
    ensures GetStoredErrors(storage.GetItem(ERROR_STORAGE_KEY)) == JArr([])
    ensures forall k :: k != ERROR_STORAGE_KEY ==> storage.GetItem(k) == old(storage.GetItem(k))
  {
    storage.RemoveItem(ERROR_STORAGE_KEY);
  }

  /** Logging `errors` one after another, starting from `list`. */
  function LogAll(list: seq<Json>, errors: seq<AppError>): seq<Json>
    decreases |errors|
  {
    if |errors| == 0 then list else LogAll(Cap([Stored(errors[0])] + list), errors[1..])
  }

  /** The errors in reverse order of logging, as stored. */
  function NewestToOldest(errors: seq<AppError>): (r: seq<Json>)
    ensures |r| == |errors|
    decreases |errors|
  {
    if |errors| == 0 then [] else NewestToOldest(errors[1..]) + [Stored(errors[0])]
  }

  lemma CapOfCap(a: seq<Json>, b: seq<Json>)
    ensures Cap(a + Cap(b)) == Cap(a + b)
  {
    if |b| > MAX_STORED_ERRORS {
      if |a| >= MAX_STORED_ERRORS {
        assert (a + Cap(b))[..MAX_STORED_ERRORS] == a[..MAX_STORED_ERRORS] == (a + b)[..MAX_STORED_ERRORS];
      } else {
        assert (a + Cap(b))[..MAX_STORED_ERRORS] == (a + b)[..MAX_STORED_ERRORS];
      }
    }
  }

  /** Capping after each prepend is capping once at the end. */
  lemma CapPrepend(newer: seq<Json>, x: Json, list: seq<Json>)
    ensures Cap(newer + Cap([x] + list)) == Cap((newer + [x]) + list)
  {
    CapOfCap(newer, [x] + list);
    assert newer + ([x] + list) == (newer + [x]) + list;
  }

  /**
   * However many errors are logged in a row, the log holds the fifty most
   * recent of them (and of what it held before), newest first.
   */
  lemma {:induction false} LogKeepsFiftyNewest(list: seq<Json>, errors: seq<AppError>)
    requires |list| <= MAX_STORED_ERRORS
    ensures LogAll(list, errors) == Cap(NewestToOldest(errors) + list)
    decreases |errors|
  {
    if |errors| > 0 {
      var rest, x := errors[1..], Stored(errors[0]);
      var newer := NewestToOldest(rest);
      LogKeepsFiftyNewest(Cap([x] + list), rest);
      CapPrepend(newer, x, list);
      assert NewestToOldest(errors) == newer + [x];
    }
  }
}
