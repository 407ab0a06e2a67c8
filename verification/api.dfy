/**
 * Values shared by the three components of the glass-shop front-end: the
 * records the backend hands out, the HTTP requests the components issue, and
 * the outcome of one awaited backend call.
 *
 * Every call to the transport helper `apiFetch` is abstracted as an
 * `Outcome` supplied by the caller of a transition: `Success(data)` is the
 * parsed body of a 2xx response, `Failure(message)` is the message of the
 * error it throws (the backend's `message` field or a generic fallback).
 */
module Api {

  datatype Option<+T> = None | Some(value: T)

  /** Result of one awaited backend call. */
  datatype Outcome<+T> = Success(data: T) | Failure(message: string)

  datatype Method = GET | POST | PUT | DELETE

  /** A glass type of the catalog; `grosor` is absent when the backend omits it. */
  datatype GlassType = GlassType(id: string, nombre: string, grosor: Option<string>, precioM2: real)

  /** A persisted quote as the backend returns it (its computed fields are the backend's). */
  datatype Budget = Budget(
    id: string,
    fecha: string,
    tipoVidrio: string,
    alto: real,
    ancho: real,
    m2: real,
    porcentajeGanancia: real,
    precioCosto: real,
    precioCliente: real,
    nota: string)

  /** The authenticated administrator, opaque to the client beyond its presence. */
  datatype User = User(id: string, username: string)

  /** JSON bodies the components send. `precioM2` is `None` where `Number(text)` gives NaN. */
  datatype Body =
    | NoBody
    | GlassBody(nombre: string, grosor: string, precioM2: Option<real>)
    | BudgetBody(alto: real, ancho: real, tipoVidrio: string, porcentajeGanancia: real, nota: string)

  datatype Request = Request(verb: Method, path: string, body: Body)

  const MePath := "/api/auth/me"
  const LogoutPath := "/api/auth/logout"
  const BudgetsPath := "/api/presupuestos"
  const GlassTypesPath := "/api/vidrios"
}
