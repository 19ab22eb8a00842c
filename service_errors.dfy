/** The service layer's two error idioms: the typed `ServiceError`, which carries an
    HTTP status code (500 unless the raiser gives another), and every other Python
    exception, which the HTTP layer reports as a generic 500. */
module ServiceErrors {

  const DefaultStatusCode := 500

  datatype Raised =
    | ServiceError(message: string, statusCode: int)
    | OtherError(message: string)

  /** A call that returns a value or raises. */
  datatype Result<+T> = Ok(value: T) | Err(error: Raised)

  /** What leaves a `try` block whose handlers re-raise a `ServiceError` unchanged and
      turn every other exception into a `ServiceError` with `message` and status 500. */
  function Guarded(e: Raised, message: string): (r: Raised)
    ensures r.ServiceError?
    ensures e.ServiceError? ==> r == e
    ensures e.OtherError? ==> r == ServiceError(message, DefaultStatusCode)
  {
    if e.ServiceError? then e else ServiceError(message, DefaultStatusCode)
  }

  /** The outcome of running calls one after another until one raises: all their values
      in order, or the error of the first call that raised. */
  function Collect<T>(results: seq<Result<T>>): Result<seq<T>>
    decreases |results|
  {
    if results == [] then Ok([])
    else
      var n := |results| - 1;
      match Collect(results[..n])
      case Err(e) => Err(e)
      case Ok(done) =>
        match results[n]
        case Err(e) => Err(e)
        case Ok(v) => Ok(done + [v])
  }

  /** Call `i` is the first that raised. */
  predicate FirstFailure<T>(results: seq<Result<T>>, i: int) {
    && 0 <= i < |results|
    && results[i].Err?
    && forall k :: 0 <= k < i ==> results[k].Ok?
  }

  /** Collecting succeeds exactly when no call raised, and then holds every value in
      order; otherwise it carries the error of the first call that raised. */
  lemma {:induction false} CollectSpec<T>(results: seq<Result<T>>)
    ensures var r := Collect(results);
      && (r.Ok? <==> forall i :: 0 <= i < |results| ==> results[i].Ok?)
      && (r.Ok? ==> |r.value| == |results|)
      && (r.Ok? ==> forall i :: 0 <= i < |results| ==> r.value[i] == results[i].value)
      && (r.Err? ==> exists i :: FirstFailure(results, i) && r.error == results[i].error)
    decreases |results|
  {
    if results != [] {
      var n := |results| - 1;
      var front := results[..n];
      CollectSpec(front);
      assert forall i :: 0 <= i < n ==> front[i] == results[i];
      if Collect(front).Err? {
        var i :| FirstFailure(front, i) && Collect(front).error == front[i].error;
        assert FirstFailure(results, i);
      } else if results[n].Err? {
        assert FirstFailure(results, n);
      }
    }
  }

  /** Once a call raises, the calls after it do not matter. */
  lemma {:induction false} CollectStopsAt<T>(results: seq<Result<T>>, i: nat)
    requires i < |results| && Collect(results[..i]).Ok? && results[i].Err?
    ensures Collect(results) == Err(results[i].error)
    decreases |results|
  {
    var n := |results| - 1;
    if i < n {
      assert results[..n][..i] == results[..i];
      CollectStopsAt(results[..n], i);
    } else {
      assert results[..n] == results[..i];
    }
  }
}
