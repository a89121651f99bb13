/**
 * The standalone invoice form: an invoice written directly, without a work order.
 * The form keeps a list of lines keyed by a client-side key, recomputes the total
 * whenever the list changes, and validates everything before handing a payload to
 * its caller.
 */
module FacturaIndependienteForm {

  import opened Wrappers
  import opened Seqs
  import opened Text
  import opened Entidades

  /** An invoice line being edited; `key` identifies it within the form. Money in cents. */
  datatype Detalle = Detalle(key: int, descripcion: string, cantidad: int, precio: int,
                             productoId: Option<int>, servicioId: Option<int>, tipo: Option<Tipo>)

  /** The kind the form uses for a line: its own `tipo`, otherwise inferred from its catalog reference. */
  function TipoEfectivo(d: Detalle): (t: Tipo)
    ensures d.tipo.Some? ==> t == d.tipo.value
    ensures d.tipo.None? ==> (t == PRODUCTO <==> Truthy(d.productoId))
    ensures d.tipo.None? ==> (t == SERVICIO <==> !Truthy(d.productoId) && Truthy(d.servicioId))
  {
    match d.tipo
    case Some(t) => t
    case None => if Truthy(d.productoId) then PRODUCTO else if Truthy(d.servicioId) then SERVICIO else OTRO
  }

  function Subtotal(d: Detalle): int
  {
    d.cantidad * d.precio
  }

  /** The invoice total: the sum of quantity times unit price over every line. */
  function Total(ds: seq<Detalle>): int
  {
    SumOf(ds, Subtotal)
  }

  /** What the catalog modal passes when a line is added from it. */
  datatype ItemCatalogo = Ninguno | DeProducto(p: Producto) | DeServicio(s: Servicio)

  /** The line that adding `item` as kind `tipo` appends. */
  function NuevoDetalle(key: int, item: ItemCatalogo, tipo: Tipo): (d: Detalle)
    requires tipo != OTRO
    ensures d.key == key && d.cantidad == 1 && d.tipo == Some(tipo)
    ensures tipo == PRODUCTO && item.DeProducto? ==>
              d.descripcion == item.p.nombre && d.precio == item.p.precio
              && d.productoId == Some(item.p.id) && d.servicioId == None
    ensures tipo == SERVICIO && item.DeServicio? ==>
              d.descripcion == item.s.nombre && d.precio == item.s.precio
              && d.servicioId == Some(item.s.id) && d.productoId == None
    ensures !(tipo == PRODUCTO && item.DeProducto?) && !(tipo == SERVICIO && item.DeServicio?) ==>
              d.descripcion == "" && d.precio == 0 && d.productoId == None && d.servicioId == None
  {
    if tipo == PRODUCTO && item.DeProducto? then
      Detalle(key, item.p.nombre, 1, item.p.precio, Some(item.p.id), None, Some(tipo))
    else if tipo == SERVICIO && item.DeServicio? then
      Detalle(key, item.s.nombre, 1, item.s.precio, None, Some(item.s.id), Some(tipo))
    else
      Detalle(key, "", 1, 0, None, None, Some(tipo))
  }

  /** A field assignment `{ ...d, [campo]: valor }`. */
  datatype Campo = Descripcion(s: string) | Cantidad(n: int) | PrecioUnitario(p: int) | TipoDe(t: Tipo)

  /** One line after assigning a field; choosing the service kind also forces quantity 1. */
  function Actualizar(d: Detalle, campo: Campo): (r: Detalle)
    ensures r.key == d.key && r.productoId == d.productoId && r.servicioId == d.servicioId
    ensures campo == TipoDe(SERVICIO) ==> r.cantidad == 1 && r.tipo == Some(SERVICIO)
    ensures campo.Cantidad? ==> r == d.(cantidad := campo.n)
    ensures campo.PrecioUnitario? ==> r == d.(precio := campo.p)
    ensures campo.Descripcion? ==> r == d.(descripcion := campo.s)
  {
    match campo
    case Descripcion(s) => d.(descripcion := s)
    case Cantidad(n) => d.(cantidad := n)
    case PrecioUnitario(p) => d.(precio := p)
    case TipoDe(t) => if t == SERVICIO then d.(tipo := Some(t), cantidad := 1) else d.(tipo := Some(t))
  }

  /**
   * Whether the quantity column forwards a typed value (`Number(null)` is 0):
   * a service line has no editable quantity; a product line whose product is in the
   * loaded catalog accepts 1..stock; any other line accepts any positive value.
   */
  function CantidadAceptada(d: Detalle, valor: Option<int>, productos: seq<Producto>): (ok: bool)
    ensures TipoEfectivo(d) == SERVICIO ==> !ok
    ensures ok ==> valor.GetOr(0) > 0
    ensures ok && TipoEfectivo(d) == PRODUCTO && Truthy(d.productoId)
            && FindProducto(productos, d.productoId.value).Some? ==>
              valor.GetOr(0) <= FindProducto(productos, d.productoId.value).value.stock
    ensures TipoEfectivo(d) == OTRO ==> (ok <==> valor.GetOr(0) > 0)
  {
    var v := valor.GetOr(0);
    match TipoEfectivo(d)
    case SERVICIO => false
    case PRODUCTO =>
      if Truthy(d.productoId) && FindProducto(productos, d.productoId.value).Some? then
        0 < v <= FindProducto(productos, d.productoId.value).value.stock
      else v > 0
    case OTRO => v > 0
  }

  /** Whether the description cell is an input: catalog lines that already have a text are read-only. */
  predicate DescripcionEditable(d: Detalle)
  {
    !((Truthy(d.productoId) || Truthy(d.servicioId)) && d.descripcion != "")
  }

  // ----- submission -----

  datatype ModoCliente = ClienteExistente | ClienteNuevo
  datatype ModoVehiculo = VehiculoExistente | VehiculoNuevo | VehiculoNinguno

  /** The form fields, as `validateFields` returns them. */
  datatype Valores = Valores(
    metodoPago: string, estadoPago: Option<EstadoPago>, notas: Option<string>,
    mecanicoId: Option<int>, clienteId: Option<int>,
    nombreCliente: Option<string>, telefonoCliente: Option<string>, emailCliente: Option<string>,
    identificacionCliente: Option<string>, direccionCliente: Option<string>,
    vehiculoId: Option<int>, placaVehiculo: Option<string>, marcaVehiculo: Option<string>,
    modeloVehiculo: Option<string>, anioVehiculo: Option<int>, colorVehiculo: Option<string>)

  datatype LineaValidada = LineaValidada(descripcion: string, cantidad: int, precio: int,
                                         productoId: Option<int>, servicioId: Option<int>, tipo: Tipo)

  datatype NuevoCliente = NuevoCliente(nombre: string, telefono: Option<string>, email: Option<string>,
                                       identificacion: Option<string>, direccion: Option<string>)

  datatype NuevoVehiculo = NuevoVehiculo(placa: string, marca: string, modelo: string,
                                         anio: Option<int>, color: Option<string>)

  datatype ClienteRef = IdCliente(id: int) | AltaCliente(nuevo: NuevoCliente)
  datatype VehiculoRef = SinVehiculo | IdVehiculo(id: int) | AltaVehiculo(nuevo: NuevoVehiculo)

  /** The payload handed to the caller's `onSubmit`. */
  datatype FacturaData = FacturaData(metodoPago: string, estadoPago: EstadoPago, notas: string,
                                     detalles: seq<LineaValidada>, mecanicoId: Option<int>,
                                     cliente: ClienteRef, vehiculo: VehiculoRef)

  /** Why a submission stopped; lines are named by their description. */
  datatype ErrorEnvio =
    | CamposIncompletos
    | PrecioInvalido
    | CantidadNoPositiva(linea: string)
    | PrecioNegativo(linea: string)
    | ServicioSinCantidadUno(linea: string)
    | StockInsuficiente(linea: string, disponible: int)
    | SinItems
    | DescripcionVacia
    | NombreClienteRequerido
    | SinCliente
    | PlacaRequerida

  /** A product line whose quantity exceeds the stock of its product in the loaded catalog. */
  predicate ExcedeStock(d: Detalle, productos: seq<Producto>)
  {
    TipoEfectivo(d) == PRODUCTO && Truthy(d.productoId)
    && FindProducto(productos, d.productoId.value).Some?
    && d.cantidad > FindProducto(productos, d.productoId.value).value.stock
  }

  /** A line that passes every per-line test of the submit handler. */
  predicate LineaValida(d: Detalle, productos: seq<Producto>)
  {
    d.cantidad > 0 && d.precio >= 0 && !(TipoEfectivo(d) == SERVICIO && d.cantidad != 1)
    && !ExcedeStock(d, productos)
  }

  /** The payload line a valid line becomes. */
  function Convertir(d: Detalle): LineaValidada
  {
    LineaValidada(Trim(d.descripcion), d.cantidad, d.precio, OrNull(d.productoId), OrNull(d.servicioId),
                  TipoEfectivo(d))
  }

  /** The per-line check and conversion of the submit handler, in its order of tests. */
  function ValidarLinea(d: Detalle, productos: seq<Producto>): (r: Result<LineaValidada, ErrorEnvio>)
    ensures r.Ok? <==> LineaValida(d, productos)
    ensures r.Ok? ==> r.value == Convertir(d)
  {
    if d.cantidad <= 0 then Err(CantidadNoPositiva(d.descripcion))
    else if d.precio < 0 then Err(PrecioNegativo(d.descripcion))
    else if TipoEfectivo(d) == SERVICIO && d.cantidad != 1 then Err(ServicioSinCantidadUno(d.descripcion))
    else if ExcedeStock(d, productos)
    then Err(StockInsuficiente(d.descripcion, FindProducto(productos, d.productoId.value).value.stock))
    else Ok(Convertir(d))
  }

  /** `detalles.map(validate)`: the converted lines, or the error of the first line that fails. */
  function ValidarLineas(ds: seq<Detalle>, productos: seq<Producto>): (r: Result<seq<LineaValidada>, ErrorEnvio>)
    ensures r.Ok? ==> |r.value| == |ds|
    ensures r.Err? ==> !r.error.CamposIncompletos? && !r.error.PrecioInvalido? && !r.error.SinItems?
  {
    if ds == [] then Ok([])
    else
      match ValidarLineas(ds[..|ds| - 1], productos)
      case Err(e) => Err(e)
      case Ok(ls) =>
        match ValidarLinea(ds[|ds| - 1], productos)
        case Err(e) => Err(e)
        case Ok(l) => Ok(ls + [l])
  }

  function ClienteDe(v: Valores, modo: ModoCliente): (r: Result<ClienteRef, ErrorEnvio>)
    ensures r == Err(SinCliente) <==> !modo.ClienteNuevo? && !Truthy(v.clienteId)
    ensures r == Err(NombreClienteRequerido) <==>
              modo == ClienteNuevo && (v.nombreCliente.None? || IsBlank(v.nombreCliente.value))
    ensures r.Ok? && modo == ClienteNuevo ==>
              r.value.AltaCliente? && r.value.nuevo.nombre == Trim(v.nombreCliente.value)
              && r.value.nuevo.email == TrimOrNull(v.emailCliente)
  {
    if modo == ClienteExistente && Truthy(v.clienteId) then Ok(IdCliente(v.clienteId.value))
    else if modo == ClienteNuevo then
      if v.nombreCliente.None? || IsBlank(v.nombreCliente.value) then Err(NombreClienteRequerido)
      else Ok(AltaCliente(NuevoCliente(Trim(v.nombreCliente.value), TrimOrNull(v.telefonoCliente),
                                       TrimOrNull(v.emailCliente), TrimOrNull(v.identificacionCliente),
                                       TrimOrNull(v.direccionCliente))))
    else Err(SinCliente)
  }

  function VehiculoDe(v: Valores, modo: ModoVehiculo): (r: Result<VehiculoRef, ErrorEnvio>)
    ensures r.Err? <==> modo == VehiculoNuevo && (v.placaVehiculo.None? || IsBlank(v.placaVehiculo.value))
    ensures r.Ok? && modo == VehiculoNuevo ==>
              r.value.AltaVehiculo? && r.value.nuevo.placa == Upper(Trim(v.placaVehiculo.value))
              && r.value.nuevo.marca == TrimOrEmpty(v.marcaVehiculo)
    ensures modo == VehiculoNinguno ==> r == Ok(SinVehiculo)
  {
    if modo == VehiculoExistente && Truthy(v.vehiculoId) then Ok(IdVehiculo(v.vehiculoId.value))
    else if modo == VehiculoNuevo then
      if v.placaVehiculo.None? || IsBlank(v.placaVehiculo.value) then Err(PlacaRequerida)
      else Ok(AltaVehiculo(NuevoVehiculo(Upper(Trim(v.placaVehiculo.value)), TrimOrEmpty(v.marcaVehiculo),
                                         TrimOrEmpty(v.modeloVehiculo), OrNull(v.anioVehiculo),
                                         TrimOrNull(v.colorVehiculo))))
    else Ok(SinVehiculo)
  }

  predicate HayPrecioNegativo(ds: seq<Detalle>)
  {
    exists i :: 0 <= i < |ds| && ds[i].precio < 0
  }

  predicate HayDescripcionVacia(ls: seq<LineaValidada>)
  {
    exists i :: 0 <= i < |ls| && IsBlank(ls[i].descripcion)
  }

  /**
   * The submit handler as a whole: `None` for `values` is a failed `validateFields`.
   * The tests run in the handler's order, so the first failing one names the error.
   */
  function Enviar(ds: seq<Detalle>, productos: seq<Producto>, values: Option<Valores>,
                  mc: ModoCliente, mv: ModoVehiculo): (r: Result<FacturaData, ErrorEnvio>)
    ensures values.None? ==> r == Err(CamposIncompletos)
    ensures values.Some? && HayPrecioNegativo(ds) ==> r == Err(PrecioInvalido)
    ensures values.Some? && ds == [] ==> r == Err(SinItems)
    ensures r.Ok? ==> |r.value.detalles| == |ds| > 0 && !HayDescripcionVacia(r.value.detalles)
  {
    if values.None? then Err(CamposIncompletos)
    else if HayPrecioNegativo(ds) then Err(PrecioInvalido)
    else
      match ValidarLineas(ds, productos)
      case Err(e) => Err(e)
      case Ok(ls) =>
        if ls == [] then Err(SinItems)
        else if HayDescripcionVacia(ls) then Err(DescripcionVacia)
        else
          var v := values.value;
          match ClienteDe(v, mc)
          case Err(e) => Err(e)
          case Ok(c) =>
            match VehiculoDe(v, mv)
            case Err(e) => Err(e)
            case Ok(veh) =>
              Ok(FacturaData(v.metodoPago, v.estadoPago.GetOr(NO_PAGA), v.notas.GetOr(""), ls,
                             OrNull(v.mecanicoId), c, veh))
  }

  /** One step of the map: a successful list is the successful prefix plus the last line converted. */
  lemma ValidarLineasPaso(ds: seq<Detalle>, productos: seq<Producto>)
    requires ValidarLineas(ds, productos).Ok? && ds != []
    ensures ValidarLineas(ds[..|ds| - 1], productos).Ok?
    ensures ValidarLineas(ds, productos).value
            == ValidarLineas(ds[..|ds| - 1], productos).value + [Convertir(ds[|ds| - 1])]
  {
  }

  lemma {:induction false} ValidarLineasSoloValidas(ds: seq<Detalle>, productos: seq<Producto>)
    requires ValidarLineas(ds, productos).Ok?
    ensures forall i :: 0 <= i < |ds| ==> LineaValida(ds[i], productos)
  {
    if ds != [] {
      var init, last := ds[..|ds| - 1], ds[|ds| - 1];
      assert ValidarLineas(init, productos).Ok?;
      ValidarLineasSoloValidas(init, productos);
      assert LineaValida(last, productos);
      forall i | 0 <= i < |ds| ensures LineaValida(ds[i], productos) {
        if i < |init| { assert ds[i] == init[i]; }
      }
    }
  }

  lemma {:induction false} ValidarLineasTodasValidas(ds: seq<Detalle>, productos: seq<Producto>)
    requires forall i :: 0 <= i < |ds| ==> LineaValida(ds[i], productos)
    ensures ValidarLineas(ds, productos).Ok?
  {
    if ds != [] {
      var init, last := ds[..|ds| - 1], ds[|ds| - 1];
      forall i | 0 <= i < |init| ensures LineaValida(init[i], productos) {
        assert init[i] == ds[i];
      }
      ValidarLineasTodasValidas(init, productos);
      assert LineaValida(last, productos);
    }
  }

  /** The map succeeds exactly when every line is valid. */
  lemma ValidarLineasOk(ds: seq<Detalle>, productos: seq<Producto>)
    ensures ValidarLineas(ds, productos).Ok? <==> forall i :: 0 <= i < |ds| ==> LineaValida(ds[i], productos)
  {
    if ValidarLineas(ds, productos).Ok? {
      ValidarLineasSoloValidas(ds, productos);
    }
    if forall i :: 0 <= i < |ds| ==> LineaValida(ds[i], productos) {
      ValidarLineasTodasValidas(ds, productos);
    }
  }

  /** When the map succeeds it converts each line in place. */
  lemma {:induction false} ValidarLineasValor(ds: seq<Detalle>, productos: seq<Producto>)
    requires ValidarLineas(ds, productos).Ok?
    ensures ValidarLineas(ds, productos).value == Map(ds, Convertir)
  {
    if ds != [] {
      var init := ds[..|ds| - 1];
      ValidarLineasPaso(ds, productos);
      ValidarLineasValor(init, productos);
      MapSnoc(ds, Convertir);
    }
  }

  /** An error in a prefix is the error of the whole list. */
  lemma {:induction false} ValidarLineasPrefijo(ds: seq<Detalle>, k: nat, productos: seq<Producto>)
    requires k <= |ds| && ValidarLineas(ds[..k], productos).Err?
    ensures ValidarLineas(ds, productos) == ValidarLineas(ds[..k], productos)
    decreases |ds| - k
  {
    if k < |ds| {
      assert ds[..k + 1][..k] == ds[..k];
      ValidarLineasPrefijo(ds, k + 1, productos);
    } else {
      assert ds[..k] == ds;
    }
  }

  /** The submission is refused whenever one of the handler's guards fails. */
  lemma EnviarRechaza(ds: seq<Detalle>, productos: seq<Producto>, values: Option<Valores>,
                      mc: ModoCliente, mv: ModoVehiculo, i: int)
    requires 0 <= i < |ds|
    requires ds[i].precio < 0 || ds[i].cantidad <= 0
             || (TipoEfectivo(ds[i]) == SERVICIO && ds[i].cantidad != 1)
             || ExcedeStock(ds[i], productos)
             || IsBlank(ds[i].descripcion)
    ensures Enviar(ds, productos, values, mc, mv).Err?
  {
    ValidarLineasOk(ds, productos);
    if values.Some? && !HayPrecioNegativo(ds) && ValidarLineas(ds, productos).Ok? {
      ValidarLineasValor(ds, productos);
      var ls := ValidarLineas(ds, productos).value;
      TrimIdempotent(ds[i].descripcion);
      assert ls[i] == Convertir(ds[i]);
      assert IsBlank(ls[i].descripcion);
    }
  }

  /** An empty invoice is never submitted. */
  lemma EnviarSinLineas(productos: seq<Producto>, v: Valores, mc: ModoCliente, mv: ModoVehiculo)
    ensures Enviar([], productos, Some(v), mc, mv) == Err(SinItems)
  {
  }

  /** Blank descriptions survive the conversion: trimming does not change blankness. */
  lemma DescripcionesConvertidas(ds: seq<Detalle>)
    ensures HayDescripcionVacia(Map(ds, Convertir)) <==> exists i :: 0 <= i < |ds| && IsBlank(ds[i].descripcion)
  {
    var ls := Map(ds, Convertir);
    forall i | 0 <= i < |ds|
      ensures IsBlank(ls[i].descripcion) <==> IsBlank(ds[i].descripcion)
    {
      TrimIdempotent(ds[i].descripcion);
    }
  }

  /** Everything the handler requires before it calls `onSubmit`. */
  predicate EnvioValido(ds: seq<Detalle>, productos: seq<Producto>, values: Option<Valores>,
                        mc: ModoCliente, mv: ModoVehiculo)
  {
    values.Some? && |ds| > 0
    && (forall i :: 0 <= i < |ds| ==> LineaValida(ds[i], productos) && !IsBlank(ds[i].descripcion))
    && ClienteDe(values.value, mc).Ok? && VehiculoDe(values.value, mv).Ok?
  }

  /**
   * A submission goes through exactly when the form validated, there is a line, every
   * line passes its checks (positive quantity, non-negative price, quantity 1 on
   * services, within stock) and has a description, and the client and vehicle
   * sections resolve.
   */
  lemma EnviarAceptaSiiValido(ds: seq<Detalle>, productos: seq<Producto>, values: Option<Valores>,
                              mc: ModoCliente, mv: ModoVehiculo)
    ensures Enviar(ds, productos, values, mc, mv).Ok? <==> EnvioValido(ds, productos, values, mc, mv)
  {
    if Enviar(ds, productos, values, mc, mv).Ok? {
      EnviarOkEsValido(ds, productos, values, mc, mv);
    }
    if EnvioValido(ds, productos, values, mc, mv) {
      ValidoSeEnvia(ds, productos, values, mc, mv);
    }
  }

  lemma EnviarOkEsValido(ds: seq<Detalle>, productos: seq<Producto>, values: Option<Valores>,
                         mc: ModoCliente, mv: ModoVehiculo)
    requires Enviar(ds, productos, values, mc, mv).Ok?
    ensures EnvioValido(ds, productos, values, mc, mv)
  {
    ValidarLineasOk(ds, productos);
    ValidarLineasValor(ds, productos);
    DescripcionesConvertidas(ds);
  }

  lemma ValidoSeEnvia(ds: seq<Detalle>, productos: seq<Producto>, values: Option<Valores>,
                      mc: ModoCliente, mv: ModoVehiculo)
    requires EnvioValido(ds, productos, values, mc, mv)
    ensures Enviar(ds, productos, values, mc, mv).Ok?
  {
    assert !HayPrecioNegativo(ds);
    ValidarLineasOk(ds, productos);
    ValidarLineasValor(ds, productos);
    DescripcionesConvertidas(ds);
  }

  /**
   * An accepted payload carries one converted line per form line, each with a positive
   * quantity, a non-negative price, quantity 1 on services, a trimmed non-blank
   * description, and the same total as the form.
   */
  lemma EnviarAceptado(ds: seq<Detalle>, productos: seq<Producto>, values: Option<Valores>,
                       mc: ModoCliente, mv: ModoVehiculo)
    requires Enviar(ds, productos, values, mc, mv).Ok?
    ensures var f := Enviar(ds, productos, values, mc, mv).value;
            |f.detalles| == |ds| > 0
            && (forall i :: 0 <= i < |ds| ==>
                  f.detalles[i].cantidad == ds[i].cantidad > 0
                  && f.detalles[i].precio == ds[i].precio >= 0
                  && f.detalles[i].tipo == TipoEfectivo(ds[i])
                  && (f.detalles[i].tipo == SERVICIO ==> f.detalles[i].cantidad == 1)
                  && f.detalles[i].descripcion == Trim(ds[i].descripcion)
                  && !IsBlank(f.detalles[i].descripcion))
            && SumOf(f.detalles, (l: LineaValidada) => l.cantidad * l.precio) == Total(ds)
  {
    ValidarLineasOk(ds, productos);
    ValidarLineasValor(ds, productos);
    var f := Enviar(ds, productos, values, mc, mv).value;
    assert f.detalles == Map(ds, Convertir);
    forall i | 0 <= i < |ds| ensures !IsBlank(f.detalles[i].descripcion) {
      assert !HayDescripcionVacia(f.detalles);
    }
    SumMapped(ds, f.detalles);
  }

  /**
   * The rest of an accepted payload: the payment status defaults to NO_PAGA and the
   * notes to empty; an existing client or vehicle is sent by id, a new client with a
   * trimmed non-blank name, a new vehicle with its plate trimmed and upper-cased, and
   * an existing-vehicle choice without an id sends no vehicle.
   */
  lemma EnviarCabecera(ds: seq<Detalle>, productos: seq<Producto>, values: Option<Valores>,
                       mc: ModoCliente, mv: ModoVehiculo)
    requires Enviar(ds, productos, values, mc, mv).Ok?
    ensures var f, v := Enviar(ds, productos, values, mc, mv).value, values.value;
            f.metodoPago == v.metodoPago
            && f.estadoPago == v.estadoPago.GetOr(NO_PAGA)
            && f.notas == v.notas.GetOr("")
            && f.mecanicoId == OrNull(v.mecanicoId)
            && (mc == ClienteExistente ==> Truthy(v.clienteId) && f.cliente == IdCliente(v.clienteId.value))
            && (mc == ClienteNuevo ==>
                  f.cliente.AltaCliente? && !IsBlank(v.nombreCliente.value)
                  && f.cliente.nuevo.nombre == Trim(v.nombreCliente.value))
            && (mv == VehiculoExistente ==>
                  f.vehiculo == if Truthy(v.vehiculoId) then IdVehiculo(v.vehiculoId.value) else SinVehiculo)
            && (mv == VehiculoNuevo ==>
                  f.vehiculo.AltaVehiculo? && !IsBlank(v.placaVehiculo.value)
                  && f.vehiculo.nuevo.placa == Upper(Trim(v.placaVehiculo.value)))
            && (mv == VehiculoNinguno ==> f.vehiculo == SinVehiculo)
  {
  }

  lemma {:induction false} SumMapped(ds: seq<Detalle>, ls: seq<LineaValidada>)
    requires |ls| == |ds|
    requires forall i :: 0 <= i < |ds| ==> ls[i].cantidad == ds[i].cantidad && ls[i].precio == ds[i].precio
    ensures SumOf(ls, (l: LineaValidada) => l.cantidad * l.precio) == Total(ds)
    decreases |ds|
  {
    if ds != [] {
      SumMapped(ds[1..], ls[1..]);
    }
  }

  /** The `for` loop of the submit handler: each line validated in order, stopping at the first error. */
  method ValidarCadaLinea(ds: seq<Detalle>, productos: seq<Producto>) returns (r: Result<seq<LineaValidada>, ErrorEnvio>)
    ensures r == ValidarLineas(ds, productos)
  {
    var validados: seq<LineaValidada> := [];
    var i := 0;
    while i < |ds|
      invariant 0 <= i <= |ds|
      invariant ValidarLineas(ds[..i], productos) == Ok(validados)
    {
      assert ds[..i + 1][..i] == ds[..i];
      match ValidarLinea(ds[i], productos)
      case Err(e) =>
        ValidarLineasPrefijo(ds, i + 1, productos);
        return Err(e);
      case Ok(l) =>
        validados := validados + [l];
      i := i + 1;
    }
    assert ds[..i] == ds;
    r := Ok(validados);
  }

  /** The description check over the validated lines. */
  method BuscarDescripcionVacia(ls: seq<LineaValidada>) returns (vacia: bool)
    ensures vacia <==> HayDescripcionVacia(ls)
  {
    var j := 0;
    while j < |ls|
      invariant 0 <= j <= |ls|
      invariant forall k :: 0 <= k < j ==> !IsBlank(ls[k].descripcion)
    {
      if IsBlank(ls[j].descripcion) {
        return true;
      }
      j := j + 1;
    }
    return false;
  }

  // ----- the message the user reads -----

  /** The text of the catch-all branch of the handler's `catch`. */
  const GENERICO: string := "Error al procesar el formulario"

  /** The errors a line check throws from inside `detalles.map`, each naming its line. */
  predicate Lanzado(e: ErrorEnvio)
  {
    e.CantidadNoPositiva? || e.PrecioNegativo? || e.ServicioSinCantidadUno? || e.StockInsuficiente?
  }

  /** The `message` of the `Error` a line check throws: it names the line, and a stock error the units left. */
  function MensajeLanzado(e: ErrorEnvio): (m: string)
    requires Lanzado(e)
    ensures Includes(m, e.linea)
    ensures e.StockInsuficiente? ==> Includes(m, IntToString(e.disponible))
  {
    match e
    case CantidadNoPositiva(l) =>
      var m := "La cantidad en \"" + l + "\" " + "debe ser" + " mayor a 0";
      IncluyeEnMedio("La cantidad en \"", l, "\" " + "debe ser" + " mayor a 0");
      assert m == "La cantidad en \"" + l + ("\" " + "debe ser" + " mayor a 0");
      m
    case PrecioNegativo(l) =>
      var m := "El precio en \"" + l + "\" " + "debe ser" + " un número válido mayor o igual a 0";
      IncluyeEnMedio("El precio en \"", l, "\" " + "debe ser" + " un número válido mayor o igual a 0");
      assert m == "El precio en \"" + l + ("\" " + "debe ser" + " un número válido mayor o igual a 0");
      m
    case ServicioSinCantidadUno(l) =>
      IncluyeEnMedio("Los servicios deben tener cantidad 1 (en \"", l, "\")");
      "Los servicios deben tener cantidad 1 (en \"" + l + "\")"
    case StockInsuficiente(l, n) =>
      var m := "Stock insuficiente para \"" + l + "\". Disponible: " + IntToString(n);
      IncluyeEnMedio("Stock insuficiente para \"", l, "\". Disponible: " + IntToString(n));
      assert m == "Stock insuficiente para \"" + l + ("\". Disponible: " + IntToString(n));
      IncluyeAlFinal("Stock insuficiente para \"" + l + "\". Disponible: ", IntToString(n));
      m
  }

  /** The text of the `message.error` of each early return and of the `errorFields` branch. */
  function MensajeDirecto(e: ErrorEnvio): string
    requires !Lanzado(e)
  {
    match e
    case CamposIncompletos => "Por favor complete todos los campos requeridos"
    case PrecioInvalido => "Todos los precios deben ser números válidos mayores o iguales a 0"
    case SinItems => "Debe agregar al menos un item a la factura"
    case DescripcionVacia => "Todos los items deben tener una descripción"
    case NombreClienteRequerido => "El nombre del cliente es requerido"
    case SinCliente => "Debe seleccionar o crear un cliente"
    case PlacaRequerida => "La placa del vehículo es requerida"
  }

  /**
   * The message shown, as written: a thrown message is shown only when it contains
   * "debe ser"; any other thrown error is replaced by the generic text.
   */
  function MensajeMostradoComoEscrito(e: ErrorEnvio): (m: string)
    ensures !Lanzado(e) ==> m == MensajeDirecto(e)
    ensures Lanzado(e) ==> m == MensajeLanzado(e) || m == GENERICO
  {
    if !Lanzado(e) then MensajeDirecto(e)
    else if Includes(MensajeLanzado(e), "debe ser") then MensajeLanzado(e)
    else GENERICO
  }

  /** The quantity and price messages do contain "debe ser", so they reach the user. */
  lemma CantidadYPrecioSeMuestran(e: ErrorEnvio)
    requires e.CantidadNoPositiva? || e.PrecioNegativo?
    ensures MensajeMostradoComoEscrito(e) == MensajeLanzado(e)
    ensures Includes(MensajeMostradoComoEscrito(e), e.linea)
  {
    var l := e.linea;
    if e.CantidadNoPositiva? {
      IncluyeEnMedio("La cantidad en \"" + l + "\" ", "debe ser", " mayor a 0");
    } else {
      IncluyeEnMedio("El precio en \"" + l + "\" ", "debe ser", " un número válido mayor o igual a 0");
    }
  }

  /**
   * A stock error on a line whose description has no lower-case "d" is shown as the
   * generic text: the line and the units left never reach the user.
   */
  lemma StockOculto(l: string, disponible: int)
    requires 'd' !in l
    ensures MensajeMostradoComoEscrito(StockInsuficiente(l, disponible)) == GENERICO
    ensures !Includes(GENERICO, IntToString(disponible))
  {
    var e := StockInsuficiente(l, disponible);
    var m := MensajeLanzado(e);
    var a, b, c := "Stock insuficiente para \"", "\". Disponible: ", IntToString(disponible);
    assert m == a + l + b + c;
    assert 'd' !in a && 'd' !in b;
    assert forall i :: 0 <= i < |c| ==> IsDigit(c[i]) || c[i] == '-';
    assert 'd' !in c;
    assert 'd' !in m;
    SinCaracterNoIncluye(m, "debe ser", 'd');
    assert c[|c| - 1] in c;
    assert c[|c| - 1] !in GENERICO;
    SinCaracterNoIncluye(GENERICO, c, c[|c| - 1]);
  }

  /**
   * Likewise a service-quantity error on a line whose description has no lower-case
   * "d": the only "d"s of the message are those of "deben" and "cantidad".
   */
  lemma ServicioOculto(l: string)
    requires 'd' !in l
    ensures MensajeMostradoComoEscrito(ServicioSinCantidadUno(l)) == GENERICO
  {
    var p := "Los servicios deben tener cantidad 1 (en \"";
    var m := p + l + "\")";
    assert MensajeLanzado(ServicioSinCantidadUno(l)) == m;
    forall k: nat
      ensures !EnPosicion(m, "debe ser", k)
    {
      if k + 8 > |m| {
      } else if k < |p| {
        assert m[k..k + 8][0] == p[k];
        if p[k] == 'd' {
          assert k == 14 || k == 31 || k == 33;
          assert m[k + 4] == p[k + 4];
        }
      } else {
        assert m[k..k + 8][0] == m[k];
        assert m[k] in l + "\")";
      }
    }
    NoIncluyeEnNingunaPosicion(m, "debe ser");
  }

  /** The message as evidently intended: every thrown line error is shown as thrown. */
  function MensajeMostrado(e: ErrorEnvio): (m: string)
    ensures Lanzado(e) ==> Includes(m, e.linea)
    ensures e.StockInsuficiente? ==> Includes(m, IntToString(e.disponible))
    ensures !Lanzado(e) ==> m == MensajeMostradoComoEscrito(e)
  {
    if Lanzado(e) then MensajeLanzado(e) else MensajeDirecto(e)
  }

  /** The form's state: its lines, the derived total, and the loaded product catalog. */
  class Formulario {
    var detalles: seq<Detalle>
    var total: int
    var productos: seq<Producto>
    var modalItems: bool

    /** The total always reflects the current lines. */
    ghost predicate Valid()
      reads this
    {
      total == Total(detalles)
    }

    constructor ()
      ensures Valid() && detalles == [] && total == 0 && productos == [] && !modalItems
    {
      detalles := [];
      total := 0;
      productos := [];
      modalItems := false;
    }

    /** Keeps only products with stock; the alphabetical ordering is not modelled. */
    method CargarProductos(data: seq<Producto>)
      modifies this
      ensures productos == Filter(data, (p: Producto) => p.stock > 0)
      ensures forall i :: 0 <= i < |productos| ==> productos[i].stock > 0
      ensures detalles == old(detalles) && total == old(total) && modalItems == old(modalItems)
    {
      productos := Filter(data, (p: Producto) => p.stock > 0);
    }

    method AgregarDetalle(key: int, item: ItemCatalogo, tipo: Tipo)
      requires Valid() && tipo != OTRO
      modifies this
      ensures Valid()
      ensures detalles == old(detalles) + [NuevoDetalle(key, item, tipo)]
      ensures total == old(total) + Subtotal(NuevoDetalle(key, item, tipo))
      ensures !modalItems && productos == old(productos)
    {
      var d := NuevoDetalle(key, item, tipo);
      SumPush(detalles, d, Subtotal);
      detalles := detalles + [d];
      total := Total(detalles);
      modalItems := false;
    }

    method AgregarDetalleManual(key: int, tipo: Tipo)
      requires Valid()
      modifies this
      ensures Valid()
      ensures detalles == old(detalles) + [Detalle(key, "", 1, 0, None, None, Some(tipo))]
      ensures total == old(total)
      ensures productos == old(productos) && modalItems == old(modalItems)
    {
      var d := Detalle(key, "", 1, 0, None, None, Some(tipo));
      SumPush(detalles, d, Subtotal);
      detalles := detalles + [d];
      total := Total(detalles);
    }

    method EliminarDetalle(key: int)
      requires Valid()
      modifies this
      ensures Valid()
      ensures detalles == Filter(old(detalles), (d: Detalle) => d.key != key)
      ensures forall i :: 0 <= i < |detalles| ==> detalles[i].key != key
      ensures forall i :: 0 <= i < |old(detalles)| && old(detalles)[i].key != key ==> old(detalles)[i] in detalles
      ensures IsSubseq(detalles, old(detalles))
      ensures total == SumOf(old(detalles), (d: Detalle) => if d.key != key then Subtotal(d) else 0)
      ensures productos == old(productos) && modalItems == old(modalItems)
    {
      var p := (d: Detalle) => d.key != key;
      SumFilter(detalles, p, Subtotal, (d: Detalle) => if d.key != key then Subtotal(d) else 0);
      detalles := Filter(detalles, p);
      total := Total(detalles);
    }

    method ActualizarDetalle(key: int, campo: Campo)
      requires Valid()
      modifies this
      ensures Valid()
      ensures |detalles| == |old(detalles)|
      ensures forall i :: 0 <= i < |detalles| ==>
                detalles[i] == if old(detalles)[i].key == key then Actualizar(old(detalles)[i], campo)
                               else old(detalles)[i]
      ensures productos == old(productos) && modalItems == old(modalItems)
    {
      detalles := Map(detalles, (d: Detalle) => if d.key == key then Actualizar(d, campo) else d);
      total := Total(detalles);
    }

    /** The quantity cell's change handler for line `d`. */
    method EditarCantidad(d: Detalle, valor: Option<int>)
      requires Valid()
      modifies this
      ensures Valid()
      ensures CantidadAceptada(d, valor, productos) ==>
                |detalles| == |old(detalles)|
                && forall i :: 0 <= i < |detalles| ==>
                     detalles[i] == if old(detalles)[i].key == d.key
                                    then old(detalles)[i].(cantidad := valor.GetOr(0)) else old(detalles)[i]
      ensures !CantidadAceptada(d, valor, productos) ==> detalles == old(detalles)
      ensures productos == old(productos) && modalItems == old(modalItems)
    {
      if CantidadAceptada(d, valor, productos) {
        ActualizarDetalle(d.key, Cantidad(valor.GetOr(0)));
      }
    }

    /** The unit-price cell's change handler: any non-negative value is taken. */
    method EditarPrecio(d: Detalle, valor: Option<int>)
      requires Valid()
      modifies this
      ensures Valid()
      ensures valor.GetOr(0) >= 0 ==>
                |detalles| == |old(detalles)|
                && forall i :: 0 <= i < |detalles| ==>
                     detalles[i] == if old(detalles)[i].key == d.key
                                    then old(detalles)[i].(precio := valor.GetOr(0)) else old(detalles)[i]
      ensures valor.GetOr(0) < 0 ==> detalles == old(detalles)
      ensures productos == old(productos) && modalItems == old(modalItems)
    {
      if valor.GetOr(0) >= 0 {
        ActualizarDetalle(d.key, PrecioUnitario(valor.GetOr(0)));
      }
    }

    /**
     * The submit handler: it changes nothing and yields the payload for `onSubmit`, or
     * the reason the submission stops together with the message shown for it.
     */
    method HandleSubmit(values: Option<Valores>, mc: ModoCliente, mv: ModoVehiculo)
      returns (r: Result<FacturaData, ErrorEnvio>, mensaje: Option<string>)
      ensures r == Enviar(detalles, productos, values, mc, mv)
      ensures r.Ok? <==> EnvioValido(detalles, productos, values, mc, mv)
      ensures r.Ok? ==> r.value.estadoPago == values.value.estadoPago.GetOr(NO_PAGA)
      ensures r.Ok? && mv == VehiculoNuevo ==>
                r.value.vehiculo.AltaVehiculo?
                && r.value.vehiculo.nuevo.placa == Upper(Trim(values.value.placaVehiculo.value))
      ensures r.Ok? <==> mensaje.None?
      ensures r.Err? ==> mensaje == Some(MensajeMostrado(r.error))
    {
      EnviarAceptaSiiValido(detalles, productos, values, mc, mv);
      if values.None? {
        r := Err(CamposIncompletos);
        mensaje := Some(MensajeMostrado(r.error));
        return;
      }
      var preciosInvalidos := Filter(detalles, (d: Detalle) => d.precio < 0);
      if |preciosInvalidos| > 0 {
        assert preciosInvalidos[0] in detalles;
        r := Err(PrecioInvalido);
        mensaje := Some(MensajeMostrado(r.error));
        return;
      }
      var validados := ValidarCadaLinea(detalles, productos);
      if validados.Err? {
        r := Err(validados.error);
        mensaje := Some(MensajeMostrado(r.error));
        return;
      }
      if |validados.value| == 0 {
        r := Err(SinItems);
        mensaje := Some(MensajeMostrado(r.error));
        return;
      }
      var vacia := BuscarDescripcionVacia(validados.value);
      if vacia {
        r := Err(DescripcionVacia);
        mensaje := Some(MensajeMostrado(r.error));
        return;
      }
      var v := values.value;
      var cliente := ClienteDe(v, mc);
      if cliente.Err? {
        r := Err(cliente.error);
        mensaje := Some(MensajeMostrado(r.error));
        return;
      }
      var vehiculo := VehiculoDe(v, mv);
      if vehiculo.Err? {
        r := Err(vehiculo.error);
        mensaje := Some(MensajeMostrado(r.error));
        return;
      }
      r := Ok(FacturaData(v.metodoPago, v.estadoPago.GetOr(NO_PAGA), v.notas.GetOr(""), validados.value,
                          OrNull(v.mecanicoId), cliente.value, vehiculo.value));
      mensaje := None;
    }
  }
}
