/**
 * The trace executor's error vocabulary: the numbered error kinds, the
 * table of their names used in the report, and the session's error records.
 */
module Errors {

  const TRACE_ERROR_FILE_NOT_FOUND: nat := 0
  const TRACE_ERROR_INVALID_JSON: nat := 1
  const TRACE_ERROR_INVALID_PARAMETER: nat := 2
  const TRACE_ERROR_MISSING_PARAMETER: nat := 3
  const TRACE_ERROR_PARAMETER_OUT_OF_BOUNDS: nat := 4
  const TRACE_ERROR_OUT_OF_MEMORY: nat := 5
  const TRACE_ERROR_MEMORY_BUDGET: nat := 6
  const TRACE_ERROR_INITIALISING_INSTRUMENTATION: nat := 7
  const TRACE_ERROR_CAPTURING_INSTRUMENTATION_DATA: nat := 8
  const TRACE_ERROR_INCONSISTENT_TRACE_FILE: nat := 9
  const TRACE_ERROR_GENERIC: nat := 10
  /** Number of error kinds; codes at or above it have no name. */
  const TRACE_ERROR_COUNT: nat := 11

  /** The name of each error kind, indexed by its code. */
  const ErrorNames: seq<string> := [
    "TRACE_ERROR_FILE_NOT_FOUND",
    "TRACE_ERROR_INVALID_JSON",
    "TRACE_ERROR_INVALID_PARAMETER",
    "TRACE_ERROR_MISSING_PARAMETER",
    "TRACE_ERROR_PARAMETER_OUT_OF_BOUNDS",
    "TRACE_ERROR_OUT_OF_MEMORY",
    "TRACE_ERROR_MEMORY_BUDGET",
    "TRACE_ERROR_INITIALISING_INSTRUMENTATION",
    "TRACE_ERROR_CAPTURING_INSTRUMENTATION_DATA",
    "TRACE_ERROR_INCONSISTENT_TRACE_FILE",
    "TRACE_ERROR_GENERIC"
  ]

  /** The table has one name per error kind, and no two kinds share a name. */
  lemma ErrorNamesComplete()
    ensures |ErrorNames| == TRACE_ERROR_COUNT
    ensures forall i, j :: 0 <= i < j < |ErrorNames| ==> ErrorNames[i] != ErrorNames[j]
  {
  }

  /** One recorded error: its kind and a human-readable description. */
  datatype TraceError = TraceError(code: nat, description: string)

  predicate IsKnown(e: TraceError) {
    e.code < TRACE_ERROR_COUNT
  }

  /** The errors the report can name, in the order they were recorded. */
  function KnownErrors(errs: seq<TraceError>): (r: seq<TraceError>)
    ensures |r| <= |errs|
    ensures forall i :: 0 <= i < |r| ==> IsKnown(r[i])
    ensures forall e :: e in r ==> e in errs
    ensures forall e :: e in errs && IsKnown(e) ==> e in r
  {
    if errs == [] then []
    else
      var init := errs[..|errs| - 1];
      var last := errs[|errs| - 1];
      assert errs == init + [last];
      KnownErrors(init) + (if IsKnown(last) then [last] else [])
  }

  /** Recording one more error adds it at the end of the nameable ones exactly when it has a name. */
  lemma KnownErrorsSnoc(errs: seq<TraceError>, e: TraceError)
    ensures KnownErrors(errs + [e]) == KnownErrors(errs) + (if IsKnown(e) then [e] else [])
  {
    assert (errs + [e])[..|errs|] == errs;
  }

  /** Filtering distributes over concatenation, so recorded order is kept. */
  lemma {:induction false} KnownErrorsAppend(a: seq<TraceError>, b: seq<TraceError>)
    ensures KnownErrors(a + b) == KnownErrors(a) + KnownErrors(b)
  {
    if b == [] {
      assert a + b == a;
    } else {
      var init := b[..|b| - 1];
      assert (a + b)[..|a + b| - 1] == a + init;
      assert (a + b)[|a + b| - 1] == b[|b| - 1];
      KnownErrorsAppend(a, init);
    }
  }

  /** When every code has a name, nothing is skipped. */
  lemma {:induction false} KnownErrorsAllKnown(errs: seq<TraceError>)
    requires forall i :: 0 <= i < |errs| ==> IsKnown(errs[i])
    ensures KnownErrors(errs) == errs
  {
    if errs != [] {
      var init := errs[..|errs| - 1];
      KnownErrorsAllKnown(init);
      assert errs == init + [errs[|errs| - 1]];
    }
  }

  /**
   * `names` and `descriptions` are the report's two parallel error arrays
   * for `errs`: one entry per nameable error, in recorded order.
   */
  predicate ListsErrors(errs: seq<TraceError>, names: seq<string>, descriptions: seq<string>) {
    var known := KnownErrors(errs);
    && |names| == |known|
    && |descriptions| == |known|
    && forall i :: 0 <= i < |known| ==>
         names[i] == ErrorNames[known[i].code] && descriptions[i] == known[i].description
  }

  /** One more recorded error adds its name and description exactly when it has a name. */
  lemma ListsErrorsSnoc(errs: seq<TraceError>, e: TraceError, names: seq<string>, descriptions: seq<string>)
    requires ListsErrors(errs, names, descriptions)
    ensures IsKnown(e) ==> ListsErrors(errs + [e], names + [ErrorNames[e.code]], descriptions + [e.description])
    ensures !IsKnown(e) ==> ListsErrors(errs + [e], names, descriptions)
  {
    KnownErrorsSnoc(errs, e);
    var known := KnownErrors(errs);
    if IsKnown(e) {
      var names', descriptions' := names + [ErrorNames[e.code]], descriptions + [e.description];
      var known' := known + [e];
      forall i | 0 <= i < |known'|
        ensures names'[i] == ErrorNames[known'[i].code] && descriptions'[i] == known'[i].description
      {
        if i < |known| {
          assert known'[i] == known[i] && names'[i] == names[i] && descriptions'[i] == descriptions[i];
        }
      }
    }
  }

  /** The loop of the report writer that fills the two error arrays. */
  method ErrorArrays(errs: seq<TraceError>) returns (names: seq<string>, descriptions: seq<string>)
    ensures ListsErrors(errs, names, descriptions)
  {
    names, descriptions := [], [];
    var i := 0;
    while i < |errs|
      invariant 0 <= i <= |errs|
      invariant ListsErrors(errs[..i], names, descriptions)
    {
      assert errs[..i + 1] == errs[..i] + [errs[i]];
      ListsErrorsSnoc(errs[..i], errs[i], names, descriptions);
      if errs[i].code < TRACE_ERROR_COUNT {
        names := names + [ErrorNames[errs[i].code]];
        descriptions := descriptions + [errs[i].description];
      }
      i := i + 1;
    }
    assert errs[..i] == errs;
  }
}
