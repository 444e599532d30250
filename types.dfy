/**
 * The entities the storefront and back-office exchange with the REST API.
 * Prices, purchase prices and costs are integer cents; stock and quantities
 * are whole units (the API sends them as `string | number`).
 */
module Types {
  import opened Wrappers

  datatype RolUsuario = ADMIN | USUARIO | REPARTIDOR

  datatype EstadoPedido = PENDIENTE | CONFIRMADO | EN_PREPARACION | EN_CAMINO | ENTREGADO | CANCELADO

  datatype UnidadMedida = L | ML | KG | GR | PZ | MTR

  datatype DiaSemana = LUNES | MARTES | MIERCOLES | JUEVES | VIERNES | SABADO | DOMINGO

  datatype Usuario = Usuario(
    id: string,
    nombre: string,
    telefono: string,
    rol: RolUsuario,
    fechaNacimiento: Option<string>,
    createdAt: string)

  datatype Categoria = Categoria(
    id: string,
    nombre: string,
    descripcion: Option<string>,
    activo: bool)

  datatype Producto = Producto(
    id: string,
    nombre: string,
    codigoBarras: Option<string>,
    marca: Option<string>,
    contenido: Option<string>,
    medida: Option<UnidadMedida>,
    descripcion: Option<string>,
    precioCompra: int,
    precioVenta: int,
    stock: int,
    imagen: Option<string>,
    permiteEncargo: bool,
    activo: bool,
    categoriaId: string,
    categoria: Option<Categoria>)

  /** One line of a placed order, as the API returns it. */
  datatype DetallePedido = DetallePedido(
    id: string,
    cantidad: int,
    precioUnitario: int,
    subtotal: int,
    producto: Producto)

  datatype Pedido = Pedido(
    id: string,
    usuarioId: string,
    estado: EstadoPedido,
    subtotal: int,
    costoEnvio: int,
    total: int,
    fechaEncargo: Option<string>,
    notas: Option<string>,
    createdAt: string,
    detalles: seq<DetallePedido>)

  datatype CartItem = CartItem(producto: Producto, cantidad: int)

  /** One weekly opening-hours entry; the times are "HH:MM" strings. */
  datatype HorarioAtencion = HorarioAtencion(
    id: string,
    dia: DiaSemana,
    horaApertura: string,
    horaCierre: string,
    cerrado: bool,
    activo: bool)

  /** A shipping destination with its delivery cost. */
  datatype Ubicacion = Ubicacion(
    id: string,
    nombre: string,
    costo: int,
    activo: bool)
}
