/**
 * The error card of components/error-fallback.tsx: it shows the message,
 * recognises database errors, and for those offers a repair that creates the
 * missing tables and reports the outcome.
 */
module ErrorFallback {
  import opened Common
  import opened Strings
  import DbInit
  import ErrorBoundary

  /** The `error` prop: a plain string or an `Error`. */
  datatype ErrorValue = Text(text: string) | ErrorObject(message: string)

  /** The text shown: the string itself or the error's message. */
  function ErrorMessage(error: ErrorValue): string
  {
    match error
    case Text(s) => s
    case ErrorObject(m) => m
  }

  predicate IsDatabaseError(message: string)
  {
    Contains(message, "does not exist") || Contains(message, "relation")
  }

  /** Every message this card treats as a database error, the boundary treats as one too. */
  lemma DatabaseErrorAgreesWithBoundary(message: string)
    requires IsDatabaseError(message)
    ensures ErrorBoundary.IsDatabaseError(message)
  {
    if Contains(message, "does not exist") {
      assert ErrorBoundary.DATABASE_MARKERS[4] == "does not exist";
    } else {
      assert ErrorBoundary.DATABASE_MARKERS[1] == "relation";
    }
  }

  datatype FixResult = FixResult(success: bool, message: string)

  const CREATED_PREFIX := "Created missing tables: "
  const ALL_AVAILABLE := "All database tables are now available"
  const FIX_FAILED := "Failed to fix database issues. Please try again later."
  const FIX_CRASHED := "An unexpected error occurred while fixing the database."

  /** The repair's report, given what `ensureDatabaseTables` returned or threw. */
  function FixOutcome(result: Result<DbInit.EnsureResult>): (f: FixResult)
    ensures f.success <==> result.Ok? && result.value.success
    ensures f.success && |result.value.created| > 0 ==>
      f.message == CREATED_PREFIX + Join(result.value.created, ", ")
    ensures f.success && |result.value.created| == 0 ==> f.message == ALL_AVAILABLE
    ensures result.Ok? && !result.value.success ==> f.message == FIX_FAILED
    ensures result.Err? ==> f.message == FIX_CRASHED
  {
    match result
    case Err(_) => FixResult(false, FIX_CRASHED)
    case Ok(r) =>
      if r.success then
        FixResult(true, if |r.created| > 0 then CREATED_PREFIX + Join(r.created, ", ") else ALL_AVAILABLE)
      else FixResult(false, FIX_FAILED)
  }

  /** The success message names every table that was created. */
  lemma FixMessageNamesTables(result: Result<DbInit.EnsureResult>, i: nat)
    requires result.Ok? && result.value.success && i < |result.value.created|
    ensures Contains(FixOutcome(result).message, result.value.created[i])
  {
    var joined := Join(result.value.created, ", ");
    JoinHoldsParts(result.value.created, ", ", i);
    ContainsAfter(CREATED_PREFIX, joined, result.value.created[i]);
  }

  /** The card's state around the repair. */
  class FallbackState {
    var isFixing: bool
    var fixResult: Option<FixResult>

    constructor()
      ensures !isFixing && fixResult.None?
    {
      isFixing := false;
      fixResult := None;
    }

    /**
     * `handleFixDatabase`: the helper functions are created (their outcome is
     * not looked at), the tables are ensured, and the report is stored.
     */
    method HandleFixDatabase(result: Result<DbInit.EnsureResult>)
      modifies this
      ensures fixResult == Some(FixOutcome(result))
      ensures !isFixing
    {
      isFixing := true;
      fixResult := None;
      fixResult := Some(FixOutcome(result));
      isFixing := false;
    }
  }

  /** A successful repair says all tables are available exactly when none had to be created. */
  lemma AllAvailableIffNoneCreated(created: seq<string>)
    ensures FixOutcome(Ok(DbInit.EnsureResult(true, created))).message == ALL_AVAILABLE <==> created == []
  {
    if created != [] {
      var m := CREATED_PREFIX + Join(created, ", ");
      assert m[..|CREATED_PREFIX|] == CREATED_PREFIX;
      assert ALL_AVAILABLE[..|CREATED_PREFIX|] == "All database tables are ";
    }
  }
}
