/** The response envelope `ApiResponse<T>` and its two factories. */
module Responses {
  import opened Wrappers

  /** `Void`, the data type of error envelopes: it has no value but null. */
  type Void = ()

  /** A value in a details map: a string, or a list of strings. */
  datatype DetailValue = Text(text: string) | Names(names: seq<string>)

  /** The untyped `details` object: a string-keyed map, or a bare string. */
  datatype Details = Entries(entries: map<string, DetailValue>) | Plain(text: string)

  /** Unset fields (Java null) are `None`. */
  datatype ApiResponse<T> = ApiResponse(
    success: bool,
    code: string,
    message: string,
    data: Option<T>,
    details: Option<Details>)

  function Ok<T>(data: T): (r: ApiResponse<T>)
    ensures r.success && r.code == "OK" && r.message == "Success"
    ensures r.data == Some(data) && r.details.None?
  {
    ApiResponse(true, "OK", "Success", Some(data), None)
  }

  function Error(code: string, message: string, details: Option<Details>): (r: ApiResponse<Void>)
    ensures !r.success && r.code == code && r.message == message
    ensures r.details == details && r.data.None?
  {
    ApiResponse(false, code, message, None, details)
  }

  /** `ok` keeps what it wraps and `error` keeps its three arguments: both
      factories are injective. */
  lemma FactoriesAreInjective<T>(d1: T, d2: T, c1: string, m1: string, x1: Option<Details>,
                                 c2: string, m2: string, x2: Option<Details>)
    ensures Ok(d1) == Ok(d2) ==> d1 == d2
    ensures Error(c1, m1, x1) == Error(c2, m2, x2) ==> c1 == c2 && m1 == m2 && x1 == x2
  {
  }
}
