/** The customer's account page: the order counters and the status badges. */
module UsuarioPage {
  import opened Types
  import Seqs

  /** The states counted as active. */
  const EstadosActivos: seq<EstadoPedido> := [PENDIENTE, CONFIRMADO, EN_PREPARACION, EN_CAMINO]

  function Activos(pedidos: seq<Pedido>): seq<Pedido> {
    Seqs.Filter(pedidos, (p: Pedido) => p.estado in EstadosActivos)
  }

  function Entregados(pedidos: seq<Pedido>): seq<Pedido> {
    Seqs.Filter(pedidos, (p: Pedido) => p.estado == ENTREGADO)
  }

  function Cancelados(pedidos: seq<Pedido>): seq<Pedido> {
    Seqs.Filter(pedidos, (p: Pedido) => p.estado == CANCELADO)
  }

  /** The number of orders in state `e`, counted one by one. */
  function CountEstado(pedidos: seq<Pedido>, e: EstadoPedido): nat
    decreases |pedidos|
  {
    if |pedidos| == 0 then 0
    else (if pedidos[0].estado == e then 1 else 0) + CountEstado(pedidos[1..], e)
  }

  /**
   * The active counter is the number of pending, confirmed, in-preparation
   * and on-the-way orders; the delivered counter the number of delivered
   * ones; and active, delivered and cancelled together are all the orders.
   */
  lemma {:induction false} CountersPartition(pedidos: seq<Pedido>)
    ensures |Activos(pedidos)| == CountEstado(pedidos, PENDIENTE) + CountEstado(pedidos, CONFIRMADO)
      + CountEstado(pedidos, EN_PREPARACION) + CountEstado(pedidos, EN_CAMINO)
    ensures |Entregados(pedidos)| == CountEstado(pedidos, ENTREGADO)
    ensures |Activos(pedidos)| + |Entregados(pedidos)| + |Cancelados(pedidos)| == |pedidos|
    decreases |pedidos|
  {
    if |pedidos| > 0 {
      CountersPartition(pedidos[1..]);
    }
  }

  /** The active and delivered counters never add up to more than the total. */
  lemma ActiveAndDeliveredBounded(pedidos: seq<Pedido>)
    ensures |Activos(pedidos)| + |Entregados(pedidos)| <= |pedidos|
  {
    CountersPartition(pedidos);
  }

  datatype Variante = Secondary | Default | Destructive

  /** `estadoConfig`: a label and a badge variant for each state. */
  function EstadoConfig(e: EstadoPedido): (string, Variante) {
    match e
    case PENDIENTE => ("Pendiente", Secondary)
    case CONFIRMADO => ("Confirmado", Default)
    case EN_PREPARACION => ("En preparación", Default)
    case EN_CAMINO => ("En camino", Default)
    case ENTREGADO => ("Entregado", Default)
    case CANCELADO => ("Cancelado", Destructive)
  }

  /** Every state has a non-empty label, the labels differ, and only a cancelled order is destructive. */
  lemma EstadoConfigCoverage()
    ensures forall e: EstadoPedido :: EstadoConfig(e).0 != ""
    ensures forall e: EstadoPedido :: EstadoConfig(e).1 == Destructive <==> e == CANCELADO
    ensures forall e1: EstadoPedido, e2: EstadoPedido :: e1 != e2 ==> EstadoConfig(e1).0 != EstadoConfig(e2).0
  {
  }
}
