/**
 * The render-error boundary of components/error-boundary.tsx: it records the
 * error a child throws and picks what to show instead of the children.
 */
module ErrorBoundary {
  import opened Common
  import opened Strings

  /** The substrings that mark an error message as a database problem; matched case-sensitively. */
  const DATABASE_MARKERS: seq<string> := [
    "database", "relation", "table", "column", "does not exist",
    "connection", "supabase", "postgres", "redis", "neon"]

  predicate IsDatabaseError(message: string)
  {
    exists i :: 0 <= i < |DATABASE_MARKERS| && Contains(message, DATABASE_MARKERS[i])
  }

  /** What the boundary renders. */
  datatype View =
    | Children
    | DatabaseFallback(error: string)
    | CustomFallback
    | DefaultBox(message: Option<string>)

  class Boundary {
    var hasError: bool
    /** The caught error's message; `None` is a null error. */
    var error: Option<string>
    /** Whether a fallback element was passed in. */
    const hasFallback: bool

    constructor(hasFallback: bool)
      ensures !hasError && error.None? && this.hasFallback == hasFallback
    {
      hasError := false;
      error := None;
      this.hasFallback := hasFallback;
    }

    /** `getDerivedStateFromError`: the boundary now holds the error. */
    method Catch(message: string)
      modifies this`hasError, this`error
      ensures hasError && error == Some(message)
    {
      hasError := true;
      error := Some(message);
    }

    /** `resetErrorBoundary` */
    method Reset()
      modifies this`hasError, this`error
      ensures !hasError && error.None?
    {
      hasError := false;
      error := None;
    }

    /**
     * `render`: the children when nothing was caught; for a caught database
     * error the database fallback; otherwise the given fallback, or the
     * default box with the message.
     */
    function Render(): (v: View)
      reads this
      ensures !hasError <==> v == Children
      ensures v.DatabaseFallback? <==> hasError && error.Some? && IsDatabaseError(error.value)
      ensures v.CustomFallback? <==> hasError && !(error.Some? && IsDatabaseError(error.value)) && hasFallback
      ensures v.DefaultBox? ==> v.message == error
    {
      if !hasError then Children
      else if error.Some? && IsDatabaseError(error.value) then DatabaseFallback(error.value)
      else if hasFallback then CustomFallback
      else DefaultBox(error)
    }
  }

  /** After a reset the children render again, whatever was caught before. */
  lemma ResetShowsChildren(b: Boundary)
    requires !b.hasError
    ensures b.Render() == Children
  {
  }

  /** A message naming a missing relation is a database error. */
  lemma MissingRelationIsDatabaseError(before: string, after: string)
    ensures IsDatabaseError(before + "does not exist" + after)
  {
    ContainsInfix(before, "does not exist", after);
    assert DATABASE_MARKERS[4] == "does not exist";
  }
}
