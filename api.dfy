/** The boundary shared by both resource stores: the `{ success, data, message }`
    envelope that an awaited axios call yields, the requests a store issues, the
    toasts it raises, and JavaScript truthiness of optional strings. */
module Api {

  /** A value that may be `null` or `undefined` in the source. Nothing in the
      modelled code tells `null` from `undefined`, so both are `None`. */
  datatype Option<+T> = None | Some(value: T)

  /** JavaScript truthiness of a string that may be absent: only a non-empty
      string is truthy. */
  predicate Truthy(s: Option<string>) {
    s.Some? && s.value != ""
  }

  /** What one awaited call produced, as the store operation sees it. */
  datatype Response<T> =
      /** the envelope says `success` and carries `data` */
    | Succeeded(data: T)
      /** the envelope says not `success`; `message` may be missing */
    | Refused(message: Option<string>)
      /** the call rejected; the error may carry `response.data.message`
          and its own `message` */
    | Threw(responseMessage: Option<string>, exceptionMessage: Option<string>)

  /** One toast raised through react-toastify. `toast.error` receives the
      envelope's message as it is, which may be `undefined`. */
  datatype Toast = SuccessToast(text: string) | ErrorToast(shown: Option<string>)

  /** One HTTP request a store issues, with its path and body
      (`C` is the body of a create, `U` the body of an update). */
  datatype Request<C, U> =
    | HttpGet(path: string)
    | HttpPost(path: string, created: C)
    | HttpPut(path: string, updated: U)
    | HttpDelete(path: string)

  /** The message a `catch` block computes:
      `err.response?.data?.message || err.message || fallback`. */
  function CaughtMessage(responseMessage: Option<string>, exceptionMessage: Option<string>,
                         fallback: string): (r: string)
    ensures Truthy(responseMessage) ==> r == responseMessage.value
    ensures !Truthy(responseMessage) && Truthy(exceptionMessage) ==> r == exceptionMessage.value
    ensures !Truthy(responseMessage) && !Truthy(exceptionMessage) ==> r == fallback
    ensures fallback != "" ==> Truthy(Some(r))
  {
    if Truthy(responseMessage) then responseMessage.value
    else if Truthy(exceptionMessage) then exceptionMessage.value
    else fallback
  }

  /** The `error` a failed store operation stores: the envelope's message when
      the server refused, the caught message when the call threw. */
  function FailureText<T>(response: Response<T>, fallback: string): (r: Option<string>)
    requires !response.Succeeded?
    ensures response.Refused? ==> r == response.message
    ensures response.Threw? && fallback != "" ==> Truthy(r)
  {
    if response.Refused? then response.message
    else Some(CaughtMessage(response.responseMessage, response.exceptionMessage, fallback))
  }

  /** A refusal without a message stores no error text at all: the failure is
      invisible to any `if (error)` test. */
  lemma RefusalWithoutMessageIsFalsy<T>(fallback: string)
    ensures !Truthy(FailureText(Response<T>.Refused(None), fallback))
    ensures !Truthy(FailureText(Response<T>.Refused(Some("")), fallback))
  {
  }
}
