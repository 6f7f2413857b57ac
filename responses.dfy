/** The `GenericResponse` record both HTTP services answer with, and the rule both apply to an
    operation that may raise: a normal return is `OK`, any exception is `ERROR` with its text. */
module Responses {
  import opened Common
  import opened Transport

  datatype GenericResponse = GenericResponse(ok: bool, resultCode: string, error: Option<string>)

  function GenericResponseOf(raised: Option<Error>): (r: GenericResponse)
    ensures r.ok <==> raised.None?
    ensures r.ok ==> r.resultCode == "OK" && r.error.None?
    ensures !r.ok ==> r.resultCode == "ERROR" && r.error == Some(raised.value.message)
  {
    match raised
    case None => GenericResponse(true, "OK", None)
    case Some(e) => GenericResponse(false, "ERROR", Some(e.message))
  }

  /** The exception a completion raised, if any. */
  function RaisedBy<T>(c: Completion<T>): (r: Option<Error>)
    ensures r.None? <==> c.Returned?
    ensures c.Raised? ==> r == Some(c.error)
  {
    match c
    case Returned(_) => None
    case Raised(e) => Some(e)
  }
}
