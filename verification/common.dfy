/**
 Shared vocabulary of the cohort-allele-frequency plugin model: an optional
 value, a success-or-error result standing for Python's raised exceptions, the
 error kinds the plugins and the plugin manager raise, and a first-appearance
 de-duplication (the behaviour of pandas' `Series.unique`).
 */
module Common {

  /** A value that may be absent (Python's `None`). */
  datatype Option<+T> = None | Some(value: T)

  /** The outcome of an operation that either returns or raises. */
  datatype Result<+R, +E> = Success(value: R) | Failure(error: E)

  /** The exceptions the modelled code raises. */
  datatype Error =
    /** `NotImplementedError` with its message */
    | NotImplemented(message: string)
    /** `KeyError` from looking up a sample the record does not hold */
    | SampleNotFound(sampleId: string)
    /** `ImportError` for the module (or package) that could not be imported */
    | ImportFailure(moduleName: string)
    /** `OSError` raised when no module of the package holds the plugin */
    | PluginNotFound(pluginName: string, packagePath: string)

  /** No element occurs twice. */
  predicate NoDuplicates<T(==)>(s: seq<T>) {
    forall i, j :: 0 <= i < j < |s| ==> s[i] != s[j]
  }

  /**
   The distinct elements of `s` in order of first appearance. Defined on the
   prefix so that an element is appended exactly when it has not been seen.
   */
  function Unique<T(==,!new)>(s: seq<T>): (u: seq<T>)
    ensures forall x :: x in u <==> x in s
    ensures NoDuplicates(u)
    ensures |u| <= |s|
    decreases |s|
  {
    if |s| == 0 then []
    else
      var seen := Unique(s[..|s| - 1]);
      var last := s[|s| - 1];
      assert s == s[..|s| - 1] + [last];
      if last in seen then seen else seen + [last]
  }
}
