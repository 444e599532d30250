/**
 * The checkout page: the opening-hours flag it keeps, the stock-bounded
 * quantity update, the ordered pre-submission checks and the order totals.
 * The clock, the date parser and the API outcomes are parameters.
 */
module Checkout {
  import opened Wrappers
  import opened Types
  import Text
  import Cart
  import Schedule

  /** `tieneProductosSinStock`: some entry has stock exactly 0 and allows backorder. */
  predicate TieneProductosSinStock(items: seq<CartItem>) {
    exists i :: 0 <= i < |items| && items[i].producto.stock == 0 && items[i].producto.permiteEncargo
  }

  // ---------------------------------------------------------------------------
  // Quantity updates

  /** Whether `handleUpdateQuantity(id, q)` passes the new quantity on to the store. */
  predicate CantidadAceptada(items: seq<CartItem>, productoId: string, q: int) {
    match Cart.Find(items, productoId)
    case None => false
    case Some(item) =>
      q > 0 && (if item.producto.stock > 0 then q <= item.producto.stock else item.producto.permiteEncargo)
  }

  /**
   * An update is ignored for an unknown product and for a quantity <= 0; with
   * stock > 0 it applies iff the quantity is at most the stock (a larger request
   * is dropped, not clamped); with no stock it applies iff backorder is allowed.
   */
  lemma CantidadAceptadaCases(items: seq<CartItem>, productoId: string, q: int)
    ensures !Cart.HasProduct(items, productoId) ==> !CantidadAceptada(items, productoId, q)
    ensures q <= 0 ==> !CantidadAceptada(items, productoId, q)
    ensures forall k :: Cart.FirstWithId(items, productoId, k) && q > 0 ==>
      (CantidadAceptada(items, productoId, q) <==>
        if items[k].producto.stock > 0 then q <= items[k].producto.stock
        else items[k].producto.permiteEncargo)
  {
    forall k | Cart.FirstWithId(items, productoId, k) && q > 0
      ensures CantidadAceptada(items, productoId, q) <==>
        if items[k].producto.stock > 0 then q <= items[k].producto.stock
        else items[k].producto.permiteEncargo
    {
      var r := Cart.Find(items, productoId);
      var k' :| Cart.FirstWithId(items, productoId, k') && items[k'] == r.value;
      assert k' == k;
    }
  }

  /**
   * In a cart with unique ids, an accepted update leaves the entry at exactly the
   * requested quantity, within the stock when there is stock, and otherwise only
   * for a backorder product.
   */
  lemma AcceptedUpdateRespectsStock(items: seq<CartItem>, productoId: string, q: int, k: int)
    requires Cart.UniqueIds(items)
    requires 0 <= k < |items| && items[k].producto.id == productoId
    requires CantidadAceptada(items, productoId, q)
    ensures Cart.WithQuantity(items, productoId, q)[k].cantidad == q >= 1
    ensures items[k].producto.stock > 0 ==> q <= items[k].producto.stock
    ensures items[k].producto.stock <= 0 ==> items[k].producto.permiteEncargo
  {
    assert Cart.FirstWithId(items, productoId, k);
    CantidadAceptadaCases(items, productoId, q);
  }

  // ---------------------------------------------------------------------------
  // Totals

  /** `k` is the first location named `nombre`. */
  predicate PrimeraConNombre(ubicaciones: seq<Ubicacion>, nombre: string, k: int) {
    0 <= k < |ubicaciones| && ubicaciones[k].nombre == nombre
    && forall j :: 0 <= j < k ==> ubicaciones[j].nombre != nombre
  }

  /** `ubicaciones.find(u => u.nombre === nombre)`. */
  function BuscarUbicacion(ubicaciones: seq<Ubicacion>, nombre: string): (r: Option<Ubicacion>)
    ensures r.None? <==> forall j :: 0 <= j < |ubicaciones| ==> ubicaciones[j].nombre != nombre
    ensures r.Some? ==> exists k :: PrimeraConNombre(ubicaciones, nombre, k) && ubicaciones[k] == r.value
    decreases |ubicaciones|
  {
    if |ubicaciones| == 0 then None
    else if ubicaciones[0].nombre == nombre then Some(ubicaciones[0])
    else
      var r := BuscarUbicacion(ubicaciones[1..], nombre);
      if r.Some? then
        var k :| PrimeraConNombre(ubicaciones[1..], nombre, k) && ubicaciones[1..][k] == r.value;
        assert PrimeraConNombre(ubicaciones, nombre, k + 1) && ubicaciones[k + 1] == r.value;
        r
      else
        assert forall j :: 1 <= j < |ubicaciones| ==> ubicaciones[j] == ubicaciones[1..][j - 1];
        r
  }

  /** `costoEnvio`: the cost of the selected location, 0 when no location has that name. */
  function CostoEnvio(ubicaciones: seq<Ubicacion>, seleccion: string): int {
    match BuscarUbicacion(ubicaciones, seleccion)
    case Some(u) => u.costo
    case None => 0
  }

  /** `total = subtotal + costoEnvio`. */
  function TotalPedido(items: seq<CartItem>, ubicaciones: seq<Ubicacion>, seleccion: string): int {
    Cart.Total(items) + CostoEnvio(ubicaciones, seleccion)
  }

  /**
   * The order total is the cart total plus the cost of the first location whose
   * name equals the selection, or plus 0 when none matches.
   */
  lemma TotalPedidoIs(items: seq<CartItem>, ubicaciones: seq<Ubicacion>, seleccion: string)
    ensures (forall j :: 0 <= j < |ubicaciones| ==> ubicaciones[j].nombre != seleccion)
      ==> TotalPedido(items, ubicaciones, seleccion) == Cart.Total(items)
    ensures forall k :: PrimeraConNombre(ubicaciones, seleccion, k) ==>
      TotalPedido(items, ubicaciones, seleccion) == Cart.Total(items) + ubicaciones[k].costo
  {
    forall k | PrimeraConNombre(ubicaciones, seleccion, k)
      ensures TotalPedido(items, ubicaciones, seleccion) == Cart.Total(items) + ubicaciones[k].costo
    {
      var r := BuscarUbicacion(ubicaciones, seleccion);
      var k' :| PrimeraConNombre(ubicaciones, seleccion, k') && ubicaciones[k'] == r.value;
      assert k' == k;
    }
  }

  // ---------------------------------------------------------------------------
  // Pre-submission checks

  /** The checkout form; an absent optional field is "". */
  datatype CheckoutForm = CheckoutForm(ubicacionEnvio: string, fechaEncargo: string, notas: string)

  /** The schema run before the handler: a shipping location of at least one character. */
  predicate SchemaValido(data: CheckoutForm) {
    |data.ubicacionEnvio| >= 1
  }

  /** Why a submission was stopped. */
  datatype Rechazo =
    | SinUsuario              // redirected to /login
    | CarritoVacio
    | FueraDeHorarioSinFecha
    | SinUbicacion
    | FechaObligatoria        // a backorder item and a blank date
    | FechaMuyPronto          // a date earlier than now + 1 hour

  /** One hour in milliseconds: `fechaMinima.setHours(fechaMinima.getHours() + 1)`. */
  const UnaHoraMs: int := 60 * 60 * 1000

  /**
   * The checks of `onSubmitPedido` in their order; the first that fails is the
   * answer, None when all pass. `fechaMs` is the date parsed from the form's
   * text (None for an invalid date, which no comparison rejects).
   */
  function Validar(hayUsuario: bool, items: seq<CartItem>, dentroDeHorario: bool,
                   ubicacionSeleccionada: string, data: CheckoutForm,
                   ahoraMs: int, fechaMs: Option<int>): Option<Rechazo>
  {
    if !hayUsuario then Some(SinUsuario)
    else if |items| == 0 then Some(CarritoVacio)
    else if !dentroDeHorario && data.fechaEncargo == "" then Some(FueraDeHorarioSinFecha)
    else if ubicacionSeleccionada == "" || data.ubicacionEnvio == "" then Some(SinUbicacion)
    else if TieneProductosSinStock(items) && (data.fechaEncargo == "" || Text.Trim(data.fechaEncargo) == "")
    then Some(FechaObligatoria)
    else if data.fechaEncargo != "" && fechaMs.Some? && fechaMs.value < ahoraMs + UnaHoraMs
    then Some(FechaMuyPronto)
    else None
  }

  /**
   * A submission without a shipping location is always stopped, whatever the
   * other fields hold; so is one with a backorder item and a blank date, even
   * inside opening hours.
   */
  lemma AlwaysRejected(hayUsuario: bool, items: seq<CartItem>, dentroDeHorario: bool,
                       ubicacionSeleccionada: string, data: CheckoutForm,
                       ahoraMs: int, fechaMs: Option<int>)
    ensures !hayUsuario ==>
      Validar(hayUsuario, items, dentroDeHorario, ubicacionSeleccionada, data, ahoraMs, fechaMs) == Some(SinUsuario)
    ensures hayUsuario && |items| == 0 ==>
      Validar(hayUsuario, items, dentroDeHorario, ubicacionSeleccionada, data, ahoraMs, fechaMs) == Some(CarritoVacio)
    ensures ubicacionSeleccionada == "" || data.ubicacionEnvio == "" ==>
      Validar(hayUsuario, items, dentroDeHorario, ubicacionSeleccionada, data, ahoraMs, fechaMs).Some?
    ensures TieneProductosSinStock(items) && Text.AllWhitespace(data.fechaEncargo) ==>
      Validar(hayUsuario, items, dentroDeHorario, ubicacionSeleccionada, data, ahoraMs, fechaMs).Some?
  {
    Text.TrimEmptyIff(data.fechaEncargo);
  }

  /**
   * An order goes through exactly when there is a user and a non-empty cart, a
   * date is given whenever the shop is closed, a location is chosen, a backorder
   * has a non-blank date, and a date that parses is at least one hour ahead.
   */
  lemma AceptadoIff(hayUsuario: bool, items: seq<CartItem>, dentroDeHorario: bool,
                    ubicacionSeleccionada: string, data: CheckoutForm,
                    ahoraMs: int, fechaMs: Option<int>)
    ensures Validar(hayUsuario, items, dentroDeHorario, ubicacionSeleccionada, data, ahoraMs, fechaMs).None?
      <==> (hayUsuario && |items| > 0
        && (dentroDeHorario || data.fechaEncargo != "")
        && ubicacionSeleccionada != "" && data.ubicacionEnvio != ""
        && !(TieneProductosSinStock(items) && Text.AllWhitespace(data.fechaEncargo))
        && (data.fechaEncargo == "" || fechaMs.None? || fechaMs.value >= ahoraMs + UnaHoraMs))
  {
    Text.TrimEmptyIff(data.fechaEncargo);
  }

  /**
   * The hours check counts any non-empty text as a date, while the backorder
   * check trims it first: a blank but non-empty date passes the first and fails
   * the second.
   */
  lemma BlankDateAsymmetry(items: seq<CartItem>, ubicacionSeleccionada: string, data: CheckoutForm,
                           ahoraMs: int, fechaMs: Option<int>)
    requires |items| > 0 && ubicacionSeleccionada != "" && data.ubicacionEnvio != ""
    requires data.fechaEncargo != "" && Text.AllWhitespace(data.fechaEncargo)
    ensures Validar(true, items, false, ubicacionSeleccionada, data, ahoraMs, fechaMs)
      != Some(FueraDeHorarioSinFecha)
    ensures TieneProductosSinStock(items) ==>
      Validar(true, items, false, ubicacionSeleccionada, data, ahoraMs, fechaMs) == Some(FechaObligatoria)
  {
    Text.TrimEmptyIff(data.fechaEncargo);
  }

  /**
   * Once the earlier checks pass, a date is stopped iff it is strictly earlier
   * than now + 1 hour: now + 30 minutes is stopped, now + 1 hour and now + 61
   * minutes pass.
   */
  lemma OneHourRule(items: seq<CartItem>, dentroDeHorario: bool, ubicacionSeleccionada: string,
                    data: CheckoutForm, ahoraMs: int, fechaMs: int)
    requires |items| > 0 && ubicacionSeleccionada != "" && data.ubicacionEnvio != ""
    requires data.fechaEncargo != "" && !Text.AllWhitespace(data.fechaEncargo)
    ensures Validar(true, items, dentroDeHorario, ubicacionSeleccionada, data, ahoraMs, Some(fechaMs))
      == (if fechaMs < ahoraMs + UnaHoraMs then Some(FechaMuyPronto) else None)
    ensures Validar(true, items, dentroDeHorario, ubicacionSeleccionada, data, ahoraMs, Some(ahoraMs + 30 * 60 * 1000))
      == Some(FechaMuyPronto)
    ensures Validar(true, items, dentroDeHorario, ubicacionSeleccionada, data, ahoraMs, Some(ahoraMs + UnaHoraMs))
      == None
    ensures Validar(true, items, dentroDeHorario, ubicacionSeleccionada, data, ahoraMs, Some(ahoraMs + 61 * 60 * 1000))
      == None
  {
    Text.TrimEmptyIff(data.fechaEncargo);
  }

  // ---------------------------------------------------------------------------
  // The order request

  datatype ItemPedido = ItemPedido(productoId: string, cantidad: int)

  /** The body of `POST /pedidos`. */
  datatype PedidoRequest = PedidoRequest(
    items: seq<ItemPedido>,
    ubicacionEnvio: string,
    fechaEncargo: Option<string>,
    notas: Option<string>,
    costoEnvio: int)

  /** `items.map(item => ({ productoId: item.producto.id, cantidad: item.cantidad }))`. */
  function ItemsPedido(items: seq<CartItem>): (r: seq<ItemPedido>)
    ensures |r| == |items|
    ensures forall i :: 0 <= i < |items| ==>
      r[i].productoId == items[i].producto.id && r[i].cantidad == items[i].cantidad
  {
    seq(|items|, i requires 0 <= i < |items| => ItemPedido(items[i].producto.id, items[i].cantidad))
  }

  /** `s || undefined`: an empty text is left out of the request. */
  function SiNoVacio(s: string): Option<string> {
    if s == "" then None else Some(s)
  }

  function RequestPedido(items: seq<CartItem>, data: CheckoutForm, costoEnvio: int): PedidoRequest {
    PedidoRequest(ItemsPedido(items), data.ubicacionEnvio, SiNoVacio(data.fechaEncargo),
      SiNoVacio(data.notas), costoEnvio)
  }

  /** What a submission ends in. */
  datatype Resultado =
    | FormularioInvalido                    // the schema stopped it; the handler did not run
    | Rechazado(motivo: Rechazo)
    | Enviado(request: PedidoRequest)       // cart cleared, navigated to /usuario
    | ErrorAlEnviar(request: PedidoRequest) // the API refused it; the cart is kept

  const MsgFueraDeHorario := "Estamos fuera de horario. Selecciona una fecha de encargo."
  const MsgUbicacion := "Debes seleccionar una ubicación de envío"
  const MsgFechaObligatoria := "La fecha de encargo es obligatoria para productos sin existencia"
  const MsgFechaMinima := "La fecha de encargo debe ser al menos 1 hora después de la hora actual"

  /** The field message a rejection leaves, if any. */
  function MensajeFecha(motivo: Rechazo): Option<string> {
    match motivo
    case FueraDeHorarioSinFecha => Some(MsgFueraDeHorario)
    case FechaObligatoria => Some(MsgFechaObligatoria)
    case FechaMuyPronto => Some(MsgFechaMinima)
    case _ => None
  }

  // ---------------------------------------------------------------------------
  // The page

  class CarritoPage {
    const cart: Cart.CartStore
    var ubicaciones: seq<Ubicacion>
    var ubicacionSeleccionada: string
    var horarios: seq<HorarioAtencion>
    var dentroDeHorario: bool
    var horarioHoy: Option<HorarioAtencion>
    var fechaEncargoError: string
    var ubicacionError: string
    var loading: bool

    /** The page starts open (the flag is true until the schedule says otherwise) and without errors. */
    constructor (cart: Cart.CartStore)
      ensures this.cart == cart
      ensures dentroDeHorario && horarioHoy == None
      ensures ubicaciones == [] && horarios == [] && ubicacionSeleccionada == ""
      ensures fechaEncargoError == "" && ubicacionError == "" && !loading
    {
      this.cart := cart;
      ubicaciones := [];
      ubicacionSeleccionada := "";
      horarios := [];
      dentroDeHorario := true;
      horarioHoy := None;
      fechaEncargoError := "";
      ubicacionError := "";
      loading := false;
    }

    /** `verificarHorario`, with `getDay()` and the minute of the day passed in. */
    method VerificarHorario(horariosData: seq<HorarioAtencion>, diaIndice: int, minutoActual: int)
      requires 0 <= diaIndice < 7
      modifies this`dentroDeHorario, this`horarioHoy
      ensures horarioHoy == Schedule.HorarioDelDia(horariosData, Schedule.DiaDeIndice(diaIndice))
      ensures dentroDeHorario == Schedule.DentroDeHorario(horariosData, Schedule.DiaDeIndice(diaIndice), minutoActual)
    {
      var diaActual := Schedule.DiaDeIndice(diaIndice);
      var horarioDelDia := Schedule.HorarioDelDia(horariosData, diaActual);
      if horarioDelDia.None? {
        dentroDeHorario := false;
        horarioHoy := None;
        return;
      }
      horarioHoy := horarioDelDia;
      if horarioDelDia.value.cerrado {
        dentroDeHorario := false;
        return;
      }
      var minutosApertura := Schedule.ParseHora(horarioDelDia.value.horaApertura);
      var minutosCierre := Schedule.ParseHora(horarioDelDia.value.horaCierre);
      dentroDeHorario := minutosApertura.Some? && minutosCierre.Some?
        && minutoActual >= minutosApertura.value && minutoActual <= minutosCierre.value;
    }

    /** `cargarHorarios`: a failed fetch leaves the flag and today's entry as they were. */
    method CargarHorarios(respuesta: Option<seq<HorarioAtencion>>, diaIndice: int, minutoActual: int)
      requires 0 <= diaIndice < 7
      modifies this`horarios, this`dentroDeHorario, this`horarioHoy
      ensures respuesta.None? ==> (horarios == old(horarios)
        && dentroDeHorario == old(dentroDeHorario) && horarioHoy == old(horarioHoy))
      ensures respuesta.Some? ==> (horarios == respuesta.value
        && horarioHoy == Schedule.HorarioDelDia(respuesta.value, Schedule.DiaDeIndice(diaIndice))
        && dentroDeHorario == Schedule.DentroDeHorario(respuesta.value, Schedule.DiaDeIndice(diaIndice), minutoActual))
    {
      if respuesta.Some? {
        horarios := respuesta.value;
        VerificarHorario(respuesta.value, diaIndice, minutoActual);
      }
    }

    /** `handleUpdateQuantity`: forwards to the store only when the stock rules allow it. */
    method HandleUpdateQuantity(productoId: string, newQuantity: int)
      modifies cart
      ensures cart.items == if CantidadAceptada(old(cart.items), productoId, newQuantity)
        then Cart.WithQuantity(old(cart.items), productoId, newQuantity)
        else old(cart.items)
    {
      var item := Cart.Find(cart.items, productoId);
      if item.Some? && newQuantity > 0 {
        var stock := item.value.producto.stock;
        if stock > 0 {
          if newQuantity <= stock {
            cart.UpdateQuantity(productoId, newQuantity);
          }
        } else {
          if item.value.producto.permiteEncargo {
            cart.UpdateQuantity(productoId, newQuantity);
          }
        }
      }
    }

    /**
     * `onSubmitPedido`. The user, the clock (`ahoraMs`), the parsed date and
     * the outcome of `POST /pedidos` are parameters. The open flag and today's
     * entry are never changed here.
     */
    method OnSubmitPedido(user: Option<Usuario>, data: CheckoutForm, ahoraMs: int,
                          fechaMs: Option<int>, envioOk: bool) returns (r: Resultado)
      modifies this`fechaEncargoError, this`ubicacionError, this`loading, cart
      ensures var v := Validar(user.Some?, old(cart.items), dentroDeHorario, ubicacionSeleccionada,
                               data, ahoraMs, fechaMs);
        v.Some? ==> (r == Rechazado(v.value) && cart.items == old(cart.items) && loading == old(loading)
          && fechaEncargoError == MensajeFecha(v.value).GetOr(old(fechaEncargoError))
          && ubicacionError == (if v.value == SinUbicacion then MsgUbicacion else old(ubicacionError)))
      ensures var v := Validar(user.Some?, old(cart.items), dentroDeHorario, ubicacionSeleccionada,
                               data, ahoraMs, fechaMs);
        v.None? ==> (fechaEncargoError == "" && ubicacionError == "" && !loading)
      ensures var v := Validar(user.Some?, old(cart.items), dentroDeHorario, ubicacionSeleccionada,
                               data, ahoraMs, fechaMs);
        var req := RequestPedido(old(cart.items), data, CostoEnvio(ubicaciones, ubicacionSeleccionada));
        v.None? ==> (if envioOk then r == Enviado(req) && cart.items == []
                     else r == ErrorAlEnviar(req) && cart.items == old(cart.items))
    {
      if user.None? {
        return Rechazado(SinUsuario);
      }
      if |cart.items| == 0 {
        return Rechazado(CarritoVacio);
      }
      if !dentroDeHorario && data.fechaEncargo == "" {
        fechaEncargoError := MsgFueraDeHorario;
        return Rechazado(FueraDeHorarioSinFecha);
      }
      if ubicacionSeleccionada == "" || data.ubicacionEnvio == "" {
        ubicacionError := MsgUbicacion;
        return Rechazado(SinUbicacion);
      }
      var fechaVacia := data.fechaEncargo == "" || Text.Trim(data.fechaEncargo) == "";
      if TieneProductosSinStock(cart.items) && fechaVacia {
        fechaEncargoError := MsgFechaObligatoria;
        return Rechazado(FechaObligatoria);
      }
      if data.fechaEncargo != "" {
        var fechaMinima := ahoraMs + UnaHoraMs;
        if fechaMs.Some? && fechaMs.value < fechaMinima {
          fechaEncargoError := MsgFechaMinima;
          return Rechazado(FechaMuyPronto);
        }
      }
      ubicacionError := "";
      fechaEncargoError := "";
      loading := true;
      var request := RequestPedido(cart.items, data, CostoEnvio(ubicaciones, ubicacionSeleccionada));
      if envioOk {
        cart.ClearCart();
        r := Enviado(request);
      } else {
        r := ErrorAlEnviar(request);
      }
      loading := false;
    }

    /** `form.handleSubmit(onSubmitPedido)`: the schema runs first; the handler only on a valid form. */
    method Submit(user: Option<Usuario>, data: CheckoutForm, ahoraMs: int,
                  fechaMs: Option<int>, envioOk: bool) returns (r: Resultado)
      modifies this`fechaEncargoError, this`ubicacionError, this`loading, cart
      ensures !SchemaValido(data) ==> (r == FormularioInvalido && cart.items == old(cart.items)
        && fechaEncargoError == old(fechaEncargoError) && ubicacionError == old(ubicacionError)
        && loading == old(loading))
      ensures SchemaValido(data) ==> r != FormularioInvalido
      ensures r.Enviado? ==> cart.items == [] && Validar(user.Some?, old(cart.items), dentroDeHorario,
        ubicacionSeleccionada, data, ahoraMs, fechaMs).None?
      ensures var v := Validar(user.Some?, old(cart.items), dentroDeHorario, ubicacionSeleccionada,
                               data, ahoraMs, fechaMs);
        SchemaValido(data) && v.Some? ==> (r == Rechazado(v.value) && cart.items == old(cart.items)
          && loading == old(loading)
          && fechaEncargoError == MensajeFecha(v.value).GetOr(old(fechaEncargoError))
          && ubicacionError == (if v.value == SinUbicacion then MsgUbicacion else old(ubicacionError)))
      ensures var v := Validar(user.Some?, old(cart.items), dentroDeHorario, ubicacionSeleccionada,
                               data, ahoraMs, fechaMs);
        SchemaValido(data) && v.None? ==> (fechaEncargoError == "" && ubicacionError == "" && !loading)
      ensures var v := Validar(user.Some?, old(cart.items), dentroDeHorario, ubicacionSeleccionada,
                               data, ahoraMs, fechaMs);
        var req := RequestPedido(old(cart.items), data, CostoEnvio(ubicaciones, ubicacionSeleccionada));
        SchemaValido(data) && v.None? ==> (if envioOk then r == Enviado(req) && cart.items == []
                     else r == ErrorAlEnviar(req) && cart.items == old(cart.items))
    {
      if !SchemaValido(data) {
        return FormularioInvalido;
      }
      r := OnSubmitPedido(user, data, ahoraMs, fechaMs, envioOk);
    }
  }
}
