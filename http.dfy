/** What a request handler ends with: a response body, an HTTPException with its status code
    and detail, or an exception nothing catches (which the framework turns into a 500). */
module Http {

  datatype Outcome<T> = Ok(value: T) | HttpError(status: int, detail: string) | Crashed(reason: string)
}
