/** The browser client's record shapes and the values its components exchange
    with the HTTP services and the router. An optional field that is absent
    (`undefined`) is `None`; a field explicitly set to `null` is not
    distinguished from an absent one. */
module FrontendDto {
  import opened Wrappers

  datatype Sex = Female | Male

  /** A JavaScript `Date`; components copy it and never look inside. */
  datatype Date = Date(epochMillis: int)

  datatype Owner = Owner(
    id: Option<int>,
    firstName: string,
    lastName: string,
    email: Option<string>)

  datatype Horse = Horse(
    id: Option<int>,
    name: string,
    description: string,
    dateOfBirth: Date,
    sex: Sex,
    owner: Option<Owner>,
    mother: Option<Horse>,
    father: Option<Horse>)

  /** A JavaScript number, as far as the components use it: `NaN`, an
      infinity, or a finite value. */
  datatype JsNumber = NaN | Infinity(negative: bool) | Finite(value: real)

  /** An `HttpErrorResponse`: `message` is its own text, `serverMessage` the
      `message` field of the JSON body the server sent. */
  datatype HttpError = HttpError(message: string, serverMessage: string)

  /** The single value or error an HTTP observable delivers. */
  type Response<T> = Result<T, HttpError>

  /** One `router.navigate(commands, {state})` call; `state` is the transient
      navigation state, absent when the call passes no extras. */
  datatype Navigation = Navigation(commands: seq<string>, state: Option<map<string, string>>)
}
