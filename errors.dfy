/** Outcomes of the mapper's operations: every `throw` of the library becomes an `Err`. */
module Errors {

  datatype Option<+T> = None | Some(value: T) {
    function GetOr(default: T): T {
      match this
      case Some(v) => v
      case None => default
    }
  }

  /** The failure kinds the library's error messages tell apart, plus the JavaScript runtime's own. */
  datatype Error =
    | MissingProperty              // "... is missing and not optional"
    | NotNullViolation             // "... is null and set as 'notNull'"
    | TypeMismatch                 // "... type missmatch ..."
    | NotMapped                    // "Trying to (de)serialize an object wihout @JsonObject annotation"
    | RuntimeTypeError             // a TypeError thrown by the JavaScript runtime itself
    | TextInput                    // a string that the library would hand to JSON.parse
    | ConverterFailure(message: string)  // an exception thrown by a user-supplied converter
    | TypeArrayLength              // "@JsonProperty : Type array must have length = 1"
    | IncompatibleAnnotations      // '"@Optional" and "@NotNull" annotations are not compatible'
    | ModifierWithoutJsonProperty  // "... cannot be used without @JsonProperty decoration"

  datatype Result<+T> = Ok(value: T) | Err(error: Error)

  /** `results.map(...)` that stops at the first failure: every value in order, or the first error. */
  function Collect<T>(rs: seq<Result<T>>): Result<seq<T>> {
    if rs == [] then Ok([])
    else
      match rs[0]
      case Err(e) => Err(e)
      case Ok(v) =>
        match Collect(rs[1..])
        case Err(e) => Err(e)
        case Ok(vs) => Ok([v] + vs)
  }

  /**
   * `Collect` succeeds exactly when every result does, keeping length and order;
   * otherwise it fails with the error of the first failed result.
   */
  lemma {:induction false} CollectPointwise<T>(rs: seq<Result<T>>)
    ensures var r := Collect(rs);
      && (r.Ok? <==> forall i :: 0 <= i < |rs| ==> rs[i].Ok?)
      && (r.Ok? ==> |r.value| == |rs| && forall i :: 0 <= i < |rs| ==> rs[i] == Ok(r.value[i]))
      && (r.Err? ==> exists i :: 0 <= i < |rs| && rs[i] == Err(r.error) && forall j :: 0 <= j < i ==> rs[j].Ok?)
  {
    if rs != [] {
      var tl := rs[1..];
      CollectPointwise(tl);
      assert forall i :: 0 < i < |rs| ==> rs[i] == tl[i - 1];
      var r := Collect(rs);
      var rest := Collect(tl);
      if rs[0].Ok? && rest.Err? {
        var k :| 0 <= k < |tl| && tl[k] == Err(rest.error) && forall j :: 0 <= j < k ==> tl[j].Ok?;
        assert rs[k + 1] == Err(r.error);
      }
    }
  }
}
