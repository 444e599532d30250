/**
 * The HTTP client's two interceptors: the bearer header added to each
 * request and the notification raised for a failed response.
 */
module Api {
  import opened Wrappers
  import Auth

  /** The header an authenticated request carries. */
  const AuthorizationHeader: string := "Authorization"

  /** An outgoing request; the interceptor edits its headers in place. */
  class RequestConfig {
    var url: string
    var headers: map<string, string>

    constructor (url: string, headers: map<string, string>)
      ensures this.url == url && this.headers == headers
    {
      this.url := url;
      this.headers := headers;
    }
  }

  /**
   * The request interceptor: in a browser with a truthy stored token the
   * request gets `Authorization: Bearer <token>`; otherwise it passes as is.
   */
  method Interceptar(config: RequestConfig, enNavegador: bool, storage: map<string, string>)
    returns (r: RequestConfig)
    modifies config
    ensures r == config && config.url == old(config.url)
    ensures enNavegador && Auth.Truthy(Auth.StoredToken(storage)) ==>
      config.headers == old(config.headers)[AuthorizationHeader := "Bearer " + Auth.StoredToken(storage).value]
    ensures !(enNavegador && Auth.Truthy(Auth.StoredToken(storage))) ==> config.headers == old(config.headers)
  {
    if enNavegador {
      var token := Auth.StoredToken(storage);
      if Auth.Truthy(token) {
        config.headers := config.headers[AuthorizationHeader := "Bearer " + token.value];
      }
    }
    return config;
  }

  /** A failed response: its status (absent without a response), the body's `message` and the error's own. */
  datatype ApiError = ApiError(status: Option<int>, bodyMessage: Option<string>, message: string)

  /** `error.response?.data?.message || error.message`. */
  function Mensaje(e: ApiError): (r: string)
    ensures Auth.Truthy(e.bodyMessage) ==> r == e.bodyMessage.value
    ensures !Auth.Truthy(e.bodyMessage) ==> r == e.message
  {
    if Auth.Truthy(e.bodyMessage) then e.bodyMessage.value else e.message
  }

  /** `message || fallback`. */
  function OTexto(message: string, fallback: string): string {
    if message != "" then message else fallback
  }

  datatype Categoria = NoAutorizado | AccesoDenegado | NoEncontrado | ErrorDelServidor | Generico

  /** The notification category of a status; none below 400 or without a status. */
  function Clasificar(status: Option<int>): (r: Option<Categoria>)
    ensures r.None? <==> status.None? || status.value < 400
  {
    if status == Some(401) then Some(NoAutorizado)
    else if status == Some(403) then Some(AccesoDenegado)
    else if status == Some(404) then Some(NoEncontrado)
    else if status == Some(500) then Some(ErrorDelServidor)
    else if status.Some? && status.value >= 400 then Some(Generico)
    else None
  }

  /** 401, 403, 404 and 500 have categories of their own; every other error status is generic. */
  lemma ClasificarCases(s: int)
    ensures Clasificar(Some(401)) == Some(NoAutorizado) && Clasificar(Some(403)) == Some(AccesoDenegado)
    ensures Clasificar(Some(404)) == Some(NoEncontrado) && Clasificar(Some(500)) == Some(ErrorDelServidor)
    ensures s >= 400 && s !in {401, 403, 404, 500} ==> Clasificar(Some(s)) == Some(Generico)
  {
  }

  /** The text of the toast a category shows. */
  function Texto(c: Categoria, message: string): (r: string)
    ensures r != ""
    ensures message != "" ==> |message| <= |r| && r[|r| - |message|..] == message
    ensures c == Generico && message != "" ==> r == message
  {
    match c
    case NoAutorizado => "No autorizado: " + OTexto(message, "Sesión inválida o expirada")
    case AccesoDenegado => "Acceso denegado: " + OTexto(message, "No tienes permisos")
    case NoEncontrado => "No encontrado: " + OTexto(message, "Recurso no encontrado")
    case ErrorDelServidor => "Error del servidor: " + OTexto(message, "Error interno")
    case Generico => OTexto(message, "Error en la solicitud")
  }

  /** What the response interceptor does: at most one toast, and the same error rejected again. */
  datatype Manejo = Manejo(toast: Option<string>, rechazado: ApiError)

  function ManejarError(e: ApiError): (r: Manejo)
    ensures r.rechazado == e
    ensures r.toast.Some? <==> e.status.Some? && e.status.value >= 400
  {
    match Clasificar(e.status)
    case Some(c) => Manejo(Some(Texto(c, Mensaje(e))), e)
    case None => Manejo(None, e)
  }

  /**
   * A 401 with a body message shows that message after "No autorizado: ";
   * with neither message the toast falls back to the fixed text.
   */
  lemma UnauthorizedToast(m: string)
    requires m != ""
    ensures ManejarError(ApiError(Some(401), Some(m), "x")).toast == Some("No autorizado: " + m)
    ensures ManejarError(ApiError(Some(401), None, "")).toast == Some("No autorizado: " + "Sesión inválida o expirada")
    ensures ManejarError(ApiError(Some(302), Some(m), m)).toast == None
  {
    var e := ApiError(Some(401), None, "");
    assert Clasificar(e.status) == Some(NoAutorizado);
    assert Mensaje(e) == "";
    assert ManejarError(e).toast == Some(Texto(NoAutorizado, ""));
  }
}
