/**
 * The back-office order table: the countdown to a backorder date and which
 * actions a row offers.
 */
module AdminPedidos {
  import opened Wrappers
  import opened Types

  const MinutoMs: int := 1000 * 60
  const HoraMs: int := 1000 * 60 * 60

  /** What the "Encargo" column shows under the date. */
  datatype TiempoRestante =
    | YaPaso                                 // "¡Ya pasó!"
    | DiasHoras(dias: int, horas: int)       // "{dias}d {horas}h"
    | HorasMinutos(horas: int, minutos: int) // "{horas}h {minutos}m"
    | Minutos(minutos: int)                  // "{minutos}m"

  /**
   * `getTiempoRestante`, given `diff` = date - now in milliseconds. On a
   * non-negative `diff` floor division and Dafny's division agree.
   */
  function GetTiempoRestante(diff: int): TiempoRestante {
    if diff < 0 then YaPaso
    else
      var horas := diff / HoraMs;
      var minutos := (diff % HoraMs) / MinutoMs;
      if horas > 24 then DiasHoras(horas / 24, horas % 24)
      else if horas > 0 then HorasMinutos(horas, minutos)
      else Minutos(minutos)
  }

  /** A negative difference has already passed; 0 has not. */
  lemma YaPasoIff(diff: int)
    ensures GetTiempoRestante(diff) == YaPaso <==> diff < 0
    ensures GetTiempoRestante(0) == Minutos(0)
  {
  }

  /**
   * The breakdown is exact: minutes stay below 60, hours and minutes never
   * exceed the difference and the next minute would; days and remaining hours
   * recompose the hours, with fewer than 24 left over.
   */
  lemma TiempoRestanteBreakdown(diff: int)
    requires diff >= 0
    ensures var r := GetTiempoRestante(diff);
      match r
      case YaPaso => false
      case DiasHoras(d, h) =>
        0 <= h < 24 && d >= 1 && 25 * HoraMs <= diff
        && (d * 24 + h) * HoraMs <= diff < (d * 24 + h + 1) * HoraMs
      case HorasMinutos(h, m) =>
        1 <= h <= 24 && 0 <= m < 60
        && h * HoraMs + m * MinutoMs <= diff < h * HoraMs + (m + 1) * MinutoMs
      case Minutos(m) =>
        0 <= m < 60 && diff < HoraMs && m * MinutoMs <= diff < (m + 1) * MinutoMs
  {
    var horas := diff / HoraMs;
    var resto := diff % HoraMs;
    var minutos := resto / MinutoMs;
    FloorBounds(diff, HoraMs);
    FloorBounds(resto, MinutoMs);
    assert diff == horas * HoraMs + resto;
    assert 0 <= minutos < 60;
    if horas > 24 {
      FloorBounds(horas, 24);
    }
  }

  /** Euclidean division of a non-negative number brackets it between two consecutive multiples. */
  lemma FloorBounds(x: int, q: int)
    requires x >= 0 && q > 0
    ensures x == (x / q) * q + x % q && 0 <= x % q < q
    ensures x / q >= 0 && (x / q) * q <= x < (x / q + 1) * q
  {
  }

  /**
   * The day form starts strictly above 24 hours: exactly 24 hours shows as
   * "24h 0m", 24 h 59 min as "24h 59m", and 25 hours as "1d 1h".
   */
  lemma TwentyFourHoursBoundary()
    ensures GetTiempoRestante(24 * HoraMs) == HorasMinutos(24, 0)
    ensures GetTiempoRestante(24 * HoraMs + 59 * MinutoMs) == HorasMinutos(24, 59)
    ensures GetTiempoRestante(25 * HoraMs) == DiasHoras(1, 1)
    ensures GetTiempoRestante(59 * MinutoMs) == Minutos(59)
  {
  }

  /** The "Tomar" button: only for a pending order. */
  predicate MuestraTomar(estado: EstadoPedido) {
    estado == PENDIENTE
  }

  /** The "En Camino" button: only for an order in preparation. */
  predicate MuestraEnCamino(estado: EstadoPedido) {
    estado == EN_PREPARACION
  }

  /** No row offers both actions, and orders past preparation offer neither. */
  lemma AccionesExclusivas(estado: EstadoPedido)
    ensures !(MuestraTomar(estado) && MuestraEnCamino(estado))
    ensures estado in {CONFIRMADO, EN_CAMINO, ENTREGADO, CANCELADO} ==>
      !MuestraTomar(estado) && !MuestraEnCamino(estado)
  {
  }

  /** `handleTomarPedido`: without a logged-in user id nothing is requested. */
  function SolicitudTomar(user: Option<Usuario>, pedidoId: string): (r: Option<string>)
    ensures r.Some? <==> user.Some? && user.value.id != ""
    ensures r.Some? ==> r.value == pedidoId
  {
    if user.None? || user.value.id == "" then None else Some(pedidoId)
  }

  /** `pedido.id.slice(0, 8)`: the first 8 characters, or the whole id when shorter. */
  function IdCorto(id: string): (r: string)
    ensures |r| == if |id| < 8 then |id| else 8
    ensures r <= id
  {
    if |id| < 8 then id else id[..8]
  }
}
