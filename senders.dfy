/** The response envelope every route answers with: an HTTP status and the JSON body `{auth, data}`. */
module Senders {
  import opened Wrappers

  /** The authentication triad carried by every answer. */
  datatype AuthResponse = AuthResponse(error: bool, code: int, interceptCode: int)

  /** What a sender emits: the status it sets and the body it writes; `data == None` is JSON `null`. */
  datatype Response<D> = Response(status: int, auth: AuthResponse, data: Option<D>)

  /** The code reserved for a failure on the server's side. */
  const ServerErrorCode := 5

  /** The base sender: the body is exactly `{auth, data}`, under the requested status. */
  function SendAuthData<D>(httpCode: int, auth: AuthResponse, data: Option<D>): (r: Response<D>)
    ensures r.status == httpCode && r.auth == auth && r.data == data
  {
    Response(httpCode, auth, data)
  }

  /** A non-error answer with an authentication code; the data is passed through unchanged. */
  function SendAuthResponse<D>(httpCode: int, authCode: int, data: Option<D>): (r: Response<D>)
    ensures r.status == httpCode && r.data == data
    ensures !r.auth.error && r.auth.code == authCode && r.auth.interceptCode == 0
  {
    SendAuthData(httpCode, AuthResponse(false, authCode, 0), data)
  }

  /** An error answer: no data, and an intercept code that is 0 unless one is given. */
  function SendAuthError<D>(httpCode: int, authCode: int, interceptCode: int := 0): (r: Response<D>)
    ensures r.status == httpCode && r.data.None?
    ensures r.auth.error && r.auth.code == authCode && r.auth.interceptCode == interceptCode
  {
    SendAuthData(httpCode, AuthResponse(true, authCode, interceptCode), None)
  }

  /** The reserved server error: HTTP 500 with code 5. */
  function SendAuthServerError<D>(): (r: Response<D>)
    ensures r.status == 500 && r.data.None?
    ensures r.auth == AuthResponse(true, ServerErrorCode, 0)
  {
    SendAuthError(500, ServerErrorCode)
  }

  /** A plain data answer: no error, code 0, intercept code 0. */
  function SendData<D>(httpCode: int, data: Option<D>): (r: Response<D>)
    ensures r.status == httpCode && r.data == data
    ensures r.auth == AuthResponse(false, 0, 0)
  {
    SendAuthData(httpCode, AuthResponse(false, 0, 0), data)
  }

  /** Whether a response reports an error; every error answer carries `null` data. */
  predicate IsError<D>(r: Response<D>) {
    r.auth.error
  }

  /**
   * The senders are told apart by the body alone: an answer from `SendAuthError` is never one from
   * `SendAuthResponse` or `SendData`, and the server error is the only error answer with code 5.
   */
  lemma SendersDisjoint<D>(httpCode: int, authCode: int, interceptCode: int, data: Option<D>)
    ensures IsError(SendAuthError<D>(httpCode, authCode, interceptCode))
    ensures !IsError(SendAuthResponse(httpCode, authCode, data)) && !IsError(SendData(httpCode, data))
    ensures SendAuthError<D>(httpCode, authCode, interceptCode) == SendAuthServerError<D>()
      <==> httpCode == 500 && authCode == ServerErrorCode && interceptCode == 0
  {
  }
}
