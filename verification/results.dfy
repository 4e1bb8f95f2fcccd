/** Failure-compatible wrappers for operations that, in the plugin, may raise a
    Python exception, and the "for loop whose body may raise" pattern. */
module Results {

  /** An optional value (a search that may find nothing). */
  datatype Option<+T> = None | Some(value: T)

  /** Either the value an operation computed or the exception it raised. */
  datatype Result<+T, +E> = Ok(value: T) | Err(error: E) {

    predicate IsFailure() {
      Err?
    }

    function PropagateFailure<U>(): Result<U, E>
      requires Err?
    {
      Err(error)
    }

    function Extract(): T
      requires Ok?
    {
      value
    }
  }

  /** Applies `f` to the elements of `s` in order and collects the results,
      stopping at the first element for which `f` fails: the behaviour of a
      Python `for` loop that appends to a list and whose body may raise. */
  function MapAll<A, B, E>(f: A -> Result<B, E>, s: seq<A>): (r: Result<seq<B>, E>)
    ensures r.Ok? <==> forall i :: 0 <= i < |s| ==> f(s[i]).Ok?
    ensures r.Ok? ==> |r.value| == |s| && forall i :: 0 <= i < |s| ==> r.value[i] == f(s[i]).value
    ensures r.Err? ==> exists i :: 0 <= i < |s| && f(s[i]) == Err(r.error)
    ensures forall i :: 0 <= i < |s| && f(s[i]).Err? && (forall j :: 0 <= j < i ==> f(s[j]).Ok?) ==>
              r == Err(f(s[i]).error)
    decreases |s|
  {
    if |s| == 0 then Ok([])
    else
      match f(s[0])
      case Err(e) => Err(e)
      case Ok(b) =>
        var rest := MapAll(f, s[1..]);
        assert forall i :: 1 <= i < |s| ==> s[1..][i - 1] == s[i];
        match rest
        case Err(e) =>
          assert exists i :: 0 <= i < |s| - 1 && f(s[1..][i]) == Err(e);
          Err(e)
        case Ok(bs) => Ok([b] + bs)
  }
}
