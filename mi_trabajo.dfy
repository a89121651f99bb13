/**
 * The mechanic's work page: the orders assigned to the signed-in mechanic, the
 * status buttons, and the restricted line editor in which a mechanic may add
 * products, remove lines and change product quantities. Every change re-sends the
 * whole line list, rebuilt from the order as last loaded.
 */
module MiTrabajo {

  import opened Wrappers
  import opened Seqs
  import opened Entidades

  /**
   * A line of a loaded order. `productoRef`/`servicioRef` are the ids of the embedded
   * catalog objects, `productoId`/`servicioId` the plain foreign keys; either may be absent.
   */
  datatype Detalle = Detalle(id: int, descripcion: string, cantidad: int, precio: int, tipo: Tipo,
                             productoRef: Option<int>, productoId: Option<int>,
                             servicioRef: Option<int>, servicioId: Option<int>)

  datatype Orden = Orden(id: int, estado: EstadoOrden, total: int, mecanicoId: Option<int>, detalles: seq<Detalle>)

  /** A line as re-sent to the server. */
  datatype LineaEnviada = LineaEnviada(descripcion: string, cantidad: int, precio: int, tipo: Tipo,
                                       productoId: Option<int>, servicioId: Option<int>)

  /** An existing line re-sent as it is; a truthy embedded object's id wins over the plain key. */
  function Reenviada(d: Detalle): (l: LineaEnviada)
    ensures l.descripcion == d.descripcion && l.cantidad == d.cantidad && l.precio == d.precio && l.tipo == d.tipo
    ensures l.productoId == OrElse(d.productoRef, d.productoId)
    ensures l.servicioId == OrElse(d.servicioRef, d.servicioId)
  {
    LineaEnviada(d.descripcion, d.cantidad, d.precio, d.tipo, OrElse(d.productoRef, d.productoId),
                 OrElse(d.servicioRef, d.servicioId))
  }

  function Importe(l: LineaEnviada): int
  {
    l.cantidad * l.precio
  }

  function ImporteDetalle(d: Detalle): int
  {
    d.cantidad * d.precio
  }

  datatype Motivo = ProductoNoEncontrado | StockInsuficiente(disponible: int) | DetalleNoEncontrado | SoloProductos

  /** What a line-editing handler does: nothing, refuse with a message, or send this list. */
  datatype Peticion = SinCambio | Rechazo(motivo: Motivo) | Enviar(lineas: seq<LineaEnviada>)

  // ----- adding a product -----

  /**
   * Adding `cantidad` units of the chosen product: refused when the product is not in
   * the loaded catalog or its stock is below the quantity; otherwise every existing
   * line is re-sent and one product line at the catalog price is appended.
   */
  function PeticionAgregar(editing: Option<Orden>, productos: seq<Producto>, nuevoProductoId: Option<int>,
                           cantidad: int): (r: Peticion)
    ensures r.SinCambio? <==> editing.None? || !Truthy(nuevoProductoId)
    ensures r == Rechazo(ProductoNoEncontrado) <==>
              editing.Some? && Truthy(nuevoProductoId) && FindProducto(productos, nuevoProductoId.value).None?
    ensures r.Enviar? ==> |r.lineas| == |editing.value.detalles| + 1
                          && r.lineas[|r.lineas| - 1].productoId == nuevoProductoId
  {
    if editing.None? || !Truthy(nuevoProductoId) then SinCambio
    else match FindProducto(productos, nuevoProductoId.value)
      case None => Rechazo(ProductoNoEncontrado)
      case Some(p) =>
        if p.stock < cantidad then Rechazo(StockInsuficiente(p.stock))
        else Enviar(Map(editing.value.detalles, Reenviada)
                    + [LineaEnviada(p.nombre, cantidad, p.precio, PRODUCTO, nuevoProductoId, None)])
  }

  /**
   * The add request is sent exactly when an order is open, a product is chosen, it is
   * in the catalog and its stock covers the quantity; then the existing lines go
   * unchanged, the new line carries the catalog price, and the order's value rises
   * by quantity times that price.
   */
  lemma AgregarSii(editing: Option<Orden>, productos: seq<Producto>, nuevoProductoId: Option<int>, cantidad: int)
    ensures PeticionAgregar(editing, productos, nuevoProductoId, cantidad).Enviar? <==>
              editing.Some? && Truthy(nuevoProductoId)
              && FindProducto(productos, nuevoProductoId.value).Some?
              && FindProducto(productos, nuevoProductoId.value).value.stock >= cantidad
    ensures PeticionAgregar(editing, productos, nuevoProductoId, cantidad).Enviar? ==>
              var ls := PeticionAgregar(editing, productos, nuevoProductoId, cantidad).lineas;
              var ds := editing.value.detalles;
              var p := FindProducto(productos, nuevoProductoId.value).value;
              |ls| == |ds| + 1
              && (forall j :: 0 <= j < |ds| ==> ls[j] == Reenviada(ds[j]))
              && ls[|ds|].precio == p.precio && ls[|ds|].cantidad == cantidad && ls[|ds|].tipo == PRODUCTO
              && ls[|ds|].productoId == nuevoProductoId
              && SumOf(ls, Importe) == SumOf(ds, ImporteDetalle) + cantidad * p.precio
  {
    var pet := PeticionAgregar(editing, productos, nuevoProductoId, cantidad);
    if pet.Enviar? {
      var ds := editing.value.detalles;
      var p := FindProducto(productos, nuevoProductoId.value).value;
      SumPush(Map(ds, Reenviada), LineaEnviada(p.nombre, cantidad, p.precio, PRODUCTO, nuevoProductoId, None), Importe);
      ReenviadasImporte(ds);
    }
  }

  lemma {:induction false} ReenviadasImporte(ds: seq<Detalle>)
    ensures SumOf(Map(ds, Reenviada), Importe) == SumOf(ds, ImporteDetalle)
    decreases |ds|
  {
    if ds != [] {
      assert Map(ds, Reenviada)[1..] == Map(ds[1..], Reenviada);
      ReenviadasImporte(ds[1..]);
    }
  }

  // ----- removing a line -----

  predicate TieneDetalle(ds: seq<Detalle>, id: int)
  {
    exists k :: 0 <= k < |ds| && ds[k].id == id
  }

  /** Removing line `detalleId`: refused when the open order has no such line. */
  function PeticionEliminar(editing: Option<Orden>, detalleId: int): (r: Peticion)
    ensures r.SinCambio? <==> editing.None?
    ensures r.Rechazo? ==> r.motivo == DetalleNoEncontrado
    ensures r.Enviar? ==> |r.lineas| <= |editing.value.detalles|
  {
    if editing.None? then SinCambio
    else if !TieneDetalle(editing.value.detalles, detalleId) then Rechazo(DetalleNoEncontrado)
    else Enviar(Map(Filter(editing.value.detalles, (d: Detalle) => d.id != detalleId), Reenviada))
  }

  /**
   * The remove request is sent exactly when the line exists; what is sent is every
   * other line, re-sent unchanged and in order, and the order's value falls by the
   * removed lines' amounts.
   */
  lemma EliminarSii(editing: Option<Orden>, detalleId: int)
    ensures PeticionEliminar(editing, detalleId).Enviar? <==>
              editing.Some? && TieneDetalle(editing.value.detalles, detalleId)
    ensures PeticionEliminar(editing, detalleId).Enviar? ==>
              var ds := editing.value.detalles;
              var kept := Filter(ds, (d: Detalle) => d.id != detalleId);
              PeticionEliminar(editing, detalleId).lineas == Map(kept, Reenviada)
              && IsSubseq(kept, ds) && |kept| < |ds|
              && (forall j :: 0 <= j < |kept| ==> kept[j].id != detalleId)
              && (forall j :: 0 <= j < |ds| && ds[j].id != detalleId ==> ds[j] in kept)
              && SumOf(PeticionEliminar(editing, detalleId).lineas, Importe)
                 == SumOf(ds, ImporteDetalle) - SumOf(ds, (d: Detalle) => if d.id == detalleId then ImporteDetalle(d) else 0)
  {
    if PeticionEliminar(editing, detalleId).Enviar? {
      var ds := editing.value.detalles;
      var keep := (d: Detalle) => d.id != detalleId;
      var kept := Filter(ds, keep);
      ReenviadasImporte(kept);
      SumFilter(ds, keep, ImporteDetalle, (d: Detalle) => if d.id != detalleId then ImporteDetalle(d) else 0);
      SumSplit(ds, detalleId);
      var k :| 0 <= k < |ds| && ds[k].id == detalleId;
      FilterDrops(ds, keep, k);
    }
  }

  lemma {:induction false} SumSplit(ds: seq<Detalle>, id: int)
    ensures SumOf(ds, (d: Detalle) => if d.id != id then ImporteDetalle(d) else 0)
            + SumOf(ds, (d: Detalle) => if d.id == id then ImporteDetalle(d) else 0)
            == SumOf(ds, ImporteDetalle)
    decreases |ds|
  {
    if ds != [] {
      SumSplit(ds[1..], id);
    }
  }

  /** A filter that rejects some element is strictly shorter. */
  lemma {:induction false} FilterDrops<T>(s: seq<T>, p: T -> bool, k: int)
    requires 0 <= k < |s| && !p(s[k])
    ensures |Filter(s, p)| < |s|
    decreases |s|
  {
    if k > 0 {
      FilterDrops(s[1..], p, k - 1);
    }
  }

  // ----- changing a product's quantity -----

  /** `detalles.find(d => d.id === id)`. */
  function FindDetalle(ds: seq<Detalle>, id: int): Option<Detalle>
  {
    Find(ds, (d: Detalle) => d.id, id)
  }

  /** A line re-sent with a new quantity when it is the one being edited. */
  function ConCantidad(d: Detalle, detalleId: int, nueva: int): LineaEnviada
  {
    if d.id == detalleId then Reenviada(d).(cantidad := nueva) else Reenviada(d)
  }

  /**
   * Changing the quantity of line `detalleId`: refused for an unknown line, for a
   * line that is not a product, and when the product the line's key names has less
   * stock than the new quantity. A line without a key, or whose product is not in
   * the loaded catalog, is not checked against stock.
   */
  function PeticionCantidad(editing: Option<Orden>, editandoDetalleId: Option<int>, productos: seq<Producto>,
                            detalleId: int, nueva: int): (r: Peticion)
    ensures r.SinCambio? <==> editing.None? || editandoDetalleId.None?
    ensures r == Rechazo(DetalleNoEncontrado) <==>
              editing.Some? && editandoDetalleId.Some? && !TieneDetalle(editing.value.detalles, detalleId)
    ensures r.Enviar? ==> |r.lineas| == |editing.value.detalles|
  {
    if editing.None? || editandoDetalleId.None? then SinCambio
    else match FindDetalle(editing.value.detalles, detalleId)
      case None => Rechazo(DetalleNoEncontrado)
      case Some(d) =>
        if d.tipo != PRODUCTO then Rechazo(SoloProductos)
        else if Truthy(d.productoId) && FindProducto(productos, d.productoId.value).Some?
                && FindProducto(productos, d.productoId.value).value.stock < nueva
        then Rechazo(StockInsuficiente(FindProducto(productos, d.productoId.value).value.stock))
        else Enviar(Map(editing.value.detalles, (x: Detalle) => ConCantidad(x, detalleId, nueva)))
  }

  /**
   * A quantity change is sent only for an existing product line; services and
   * labour lines are always refused. What is sent keeps every line's price and
   * changes the quantity of the edited line only.
   */
  lemma CantidadSii(editing: Option<Orden>, editandoDetalleId: Option<int>, productos: seq<Producto>,
                    detalleId: int, nueva: int)
    ensures var pet := PeticionCantidad(editing, editandoDetalleId, productos, detalleId, nueva);
            pet.Enviar? ==>
              editing.Some? && TieneDetalle(editing.value.detalles, detalleId)
              && FindDetalle(editing.value.detalles, detalleId).value.tipo == PRODUCTO
    ensures var pet := PeticionCantidad(editing, editandoDetalleId, productos, detalleId, nueva);
            (editing.Some? && editandoDetalleId.Some? && TieneDetalle(editing.value.detalles, detalleId)
             && FindDetalle(editing.value.detalles, detalleId).value.tipo != PRODUCTO)
            ==> pet == Rechazo(SoloProductos)
    ensures var pet := PeticionCantidad(editing, editandoDetalleId, productos, detalleId, nueva);
            pet.Enviar? ==>
              var ds := editing.value.detalles;
              |pet.lineas| == |ds|
              && forall j :: 0 <= j < |ds| ==>
                   pet.lineas[j].precio == ds[j].precio && pet.lineas[j].tipo == ds[j].tipo
                   && pet.lineas[j].descripcion == ds[j].descripcion
                   && pet.lineas[j].cantidad == (if ds[j].id == detalleId then nueva else ds[j].cantidad)
  {
  }

  /** A product line whose product has enough stock is sent with its new quantity. */
  lemma CantidadAceptada(editing: Option<Orden>, editandoDetalleId: Option<int>, productos: seq<Producto>,
                         detalleId: int, nueva: int)
    requires editing.Some? && editandoDetalleId.Some?
    requires TieneDetalle(editing.value.detalles, detalleId)
    requires FindDetalle(editing.value.detalles, detalleId).value.tipo == PRODUCTO
    requires var d := FindDetalle(editing.value.detalles, detalleId).value;
             Truthy(d.productoId) && FindProducto(productos, d.productoId.value).Some?
             && FindProducto(productos, d.productoId.value).value.stock >= nueva
    ensures PeticionCantidad(editing, editandoDetalleId, productos, detalleId, nueva).Enviar?
  {
  }

  // ----- the order list and the views of an order -----

  datatype Usuario = Usuario(esMecanico: bool, mecanicoId: Option<int>)

  /**
   * The mechanic's order list: empty for anyone who is not a mechanic with an id;
   * otherwise the dedicated endpoint's answer without invoiced orders, or, when that
   * request fails, the general list restricted to this mechanic. `None` stands for
   * a failed request.
   */
  function MisOrdenes(u: Usuario, especifica: Option<seq<Orden>>, general: Option<seq<Orden>>): (r: seq<Orden>)
    ensures !u.esMecanico || !Truthy(u.mecanicoId) ==> r == []
    ensures especifica.None? && general.None? ==> r == []
    ensures especifica.Some? ==> |r| <= |especifica.value|
    ensures especifica.None? && general.Some? ==> IsSubseq(r, general.value)
  {
    if !u.esMecanico || !Truthy(u.mecanicoId) then []
    else if especifica.Some? then Filter(especifica.value, (o: Orden) => o.estado != FACTURADA)
    else if general.Some? then Filter(general.value, (o: Orden) => o.mecanicoId == u.mecanicoId && o.estado != FACTURADA)
    else []
  }

  /** The list never shows an invoiced order; from the general list it shows only the mechanic's own. */
  lemma MisOrdenesSinFacturadas(u: Usuario, especifica: Option<seq<Orden>>, general: Option<seq<Orden>>)
    ensures var r := MisOrdenes(u, especifica, general);
            forall i :: 0 <= i < |r| ==> r[i].estado != FACTURADA
    ensures var r := MisOrdenes(u, especifica, general);
            especifica.None? ==> forall i :: 0 <= i < |r| ==> r[i].mecanicoId == u.mecanicoId
    ensures var r := MisOrdenes(u, especifica, general);
            u.esMecanico && Truthy(u.mecanicoId) && especifica.Some? ==>
              IsSubseq(r, especifica.value)
              && forall i :: 0 <= i < |especifica.value| && especifica.value[i].estado != FACTURADA ==>
                   especifica.value[i] in r
  {
  }

  /** The read-write product view of an order. */
  function DetallesProductos(o: Orden): (r: seq<Detalle>)
    ensures forall i :: 0 <= i < |r| ==> r[i].tipo == PRODUCTO
  {
    Filter(o.detalles, (d: Detalle) => d.tipo == PRODUCTO)
  }

  /** The read-only service view of an order. */
  function DetallesServicios(o: Orden): (r: seq<Detalle>)
    ensures forall i :: 0 <= i < |r| ==> r[i].tipo == SERVICIO
  {
    Filter(o.detalles, (d: Detalle) => d.tipo == SERVICIO)
  }

  /** The two views share no line, and together they are every line that is not OTRO. */
  lemma VistasParticion(o: Orden)
    ensures |DetallesProductos(o)| + |DetallesServicios(o)| + |Filter(o.detalles, (d: Detalle) => d.tipo == OTRO)|
            == |o.detalles|
  {
    var esP := (d: Detalle) => d.tipo == PRODUCTO;
    var noP := (d: Detalle) => d.tipo != PRODUCTO;
    var esS := (d: Detalle) => d.tipo == SERVICIO;
    var esO := (d: Detalle) => d.tipo == OTRO;
    FilterPartition(o.detalles, esP, noP);
    var resto := Filter(o.detalles, noP);
    FilterPartition(resto, esS, (d: Detalle) => !esS(d));
    FilterCompose(o.detalles, noP, esS, esS);
    FilterCompose(o.detalles, noP, (d: Detalle) => !esS(d), esO);
  }

  /** Filtering twice is filtering once by the conjunction. */
  lemma {:induction false} FilterCompose<T>(s: seq<T>, p: T -> bool, q: T -> bool, pq: T -> bool)
    requires forall x :: pq(x) == (p(x) && q(x))
    ensures Filter(Filter(s, p), q) == Filter(s, pq)
    decreases |s|
  {
    if s != [] {
      FilterCompose(s[1..], p, q, pq);
    }
  }

  // ----- status buttons and controls -----

  /** The status button a row offers: start a received order, finish one in progress. */
  function Siguiente(e: EstadoOrden): (r: Option<EstadoOrden>)
    ensures r.Some? <==> e == RECIBIDA || e == EN_PROCESO
    ensures r.Some? ==> Etapa(r.value) == Etapa(e) + 1 && r.value != FACTURADA && r.value != CANCELADA
  {
    if e == RECIBIDA then Some(EN_PROCESO) else if e == EN_PROCESO then Some(TERMINADA) else None
  }

  /** The remove and add-product controls, and the quantity edit button, exist only before invoicing. */
  predicate Editable(o: Orden)
  {
    o.estado != FACTURADA
  }

  /** Every order the list offers shows the line-editing controls: invoiced orders never reach it. */
  lemma MisOrdenesEditables(u: Usuario, especifica: Option<seq<Orden>>, general: Option<seq<Orden>>)
    ensures var r := MisOrdenes(u, especifica, general);
            forall i :: 0 <= i < |r| ==> Editable(r[i])
  {
    MisOrdenesSinFacturadas(u, especifica, general);
  }

  /** A cleared quantity input stands for 1. */
  function CantidadEntrada(v: Option<int>): (r: int)
    ensures v.None? ==> r == 1
    ensures v.Some? ==> r == v.value
  {
    if v.None? then 1 else v.value
  }

  /** The Add button is enabled only with a product chosen and a positive quantity. */
  predicate AgregarHabilitado(nuevoProductoId: Option<int>, cantidad: int)
  {
    Truthy(nuevoProductoId) && cantidad > 0
  }

  /**
   * A click on the enabled Add button of an open order is never silently dropped:
   * it sends the list or shows a refusal, and a sent line has a positive quantity.
   */
  lemma AgregarHabilitadoResponde(editing: Option<Orden>, productos: seq<Producto>, nuevoProductoId: Option<int>,
                                  cantidad: int)
    requires editing.Some? && AgregarHabilitado(nuevoProductoId, cantidad)
    ensures !PeticionAgregar(editing, productos, nuevoProductoId, cantidad).SinCambio?
    ensures var pet := PeticionAgregar(editing, productos, nuevoProductoId, cantidad);
            pet.Enviar? ==> pet.lineas[|pet.lineas| - 1].cantidad > 0
  {
  }

  // ----- the page's state -----

  class Pagina {
    var ordenes: seq<Orden>
    var productos: seq<Producto>
    var editing: Option<Orden>
    var editandoDetalleId: Option<int>
    var nuevaCantidad: int
    var nuevoProductoId: Option<int>
    var cantidadNuevoProducto: int

    constructor ()
      ensures ordenes == [] && productos == [] && editing.None? && editandoDetalleId.None?
      ensures nuevaCantidad == 1 && nuevoProductoId.None? && cantidadNuevoProducto == 1
    {
      ordenes := [];
      productos := [];
      editing := None;
      editandoDetalleId := None;
      nuevaCantidad := 1;
      nuevoProductoId := None;
      cantidadNuevoProducto := 1;
    }

    method CargarMisOrdenes(u: Usuario, especifica: Option<seq<Orden>>, general: Option<seq<Orden>>)
      modifies this
      ensures ordenes == MisOrdenes(u, especifica, general)
      ensures forall i :: 0 <= i < |ordenes| ==> ordenes[i].estado != FACTURADA
      ensures editing == old(editing) && productos == old(productos)
      ensures editandoDetalleId == old(editandoDetalleId) && nuevaCantidad == old(nuevaCantidad)
      ensures nuevoProductoId == old(nuevoProductoId) && cantidadNuevoProducto == old(cantidadNuevoProducto)
    {
      MisOrdenesSinFacturadas(u, especifica, general);
      ordenes := MisOrdenes(u, especifica, general);
    }

    method CambiarCantidadNueva(v: Option<int>)
      modifies this
      ensures cantidadNuevoProducto == CantidadEntrada(v)
      ensures editing == old(editing) && nuevoProductoId == old(nuevoProductoId) && ordenes == old(ordenes)
      ensures productos == old(productos) && editandoDetalleId == old(editandoDetalleId)
      ensures nuevaCantidad == old(nuevaCantidad)
    {
      cantidadNuevoProducto := CantidadEntrada(v);
    }

    /** The pencil button of a product line: start editing its quantity. */
    method EditarCantidad(d: Detalle)
      modifies this
      ensures editandoDetalleId == Some(d.id) && nuevaCantidad == d.cantidad
      ensures editing == old(editing) && ordenes == old(ordenes) && productos == old(productos)
      ensures nuevoProductoId == old(nuevoProductoId) && cantidadNuevoProducto == old(cantidadNuevoProducto)
    {
      editandoDetalleId := Some(d.id);
      nuevaCantidad := d.cantidad;
    }

    /**
     * The add handler. `recargada` is the order as reloaded after the request, `None`
     * when the request failed; on success the order is replaced and the inputs reset.
     */
    method AgregarProducto(recargada: Option<Orden>) returns (pet: Peticion)
      modifies this
      ensures pet == PeticionAgregar(old(editing), productos, old(nuevoProductoId), old(cantidadNuevoProducto))
      ensures pet.Enviar? && recargada.Some? ==>
                editing == recargada && nuevoProductoId.None? && cantidadNuevoProducto == 1
      ensures !(pet.Enviar? && recargada.Some?) ==>
                editing == old(editing) && nuevoProductoId == old(nuevoProductoId)
                && cantidadNuevoProducto == old(cantidadNuevoProducto)
      ensures ordenes == old(ordenes) && productos == old(productos) && editandoDetalleId == old(editandoDetalleId)
      ensures nuevaCantidad == old(nuevaCantidad)
    {
      pet := PeticionAgregar(editing, productos, nuevoProductoId, cantidadNuevoProducto);
      if pet.Enviar? && recargada.Some? {
        editing := recargada;
        nuevoProductoId := None;
        cantidadNuevoProducto := 1;
      }
    }

    method EliminarDetalle(detalleId: int, recargada: Option<Orden>) returns (pet: Peticion)
      modifies this
      ensures pet == PeticionEliminar(old(editing), detalleId)
      ensures editing == if pet.Enviar? && recargada.Some? then recargada else old(editing)
      ensures ordenes == old(ordenes) && productos == old(productos) && editandoDetalleId == old(editandoDetalleId)
      ensures nuevoProductoId == old(nuevoProductoId) && cantidadNuevoProducto == old(cantidadNuevoProducto)
      ensures nuevaCantidad == old(nuevaCantidad)
    {
      pet := PeticionEliminar(editing, detalleId);
      if pet.Enviar? && recargada.Some? {
        editing := recargada;
      }
    }

    method ActualizarCantidadDetalle(detalleId: int, recargada: Option<Orden>) returns (pet: Peticion)
      modifies this
      ensures pet == PeticionCantidad(old(editing), old(editandoDetalleId), productos, detalleId, nuevaCantidad)
      ensures pet.Enviar? && recargada.Some? ==> editing == recargada && editandoDetalleId.None?
      ensures !(pet.Enviar? && recargada.Some?) ==>
                editing == old(editing) && editandoDetalleId == old(editandoDetalleId)
      ensures ordenes == old(ordenes) && productos == old(productos) && nuevaCantidad == old(nuevaCantidad)
      ensures nuevoProductoId == old(nuevoProductoId) && cantidadNuevoProducto == old(cantidadNuevoProducto)
    {
      pet := PeticionCantidad(editing, editandoDetalleId, productos, detalleId, nuevaCantidad);
      if pet.Enviar? && recargada.Some? {
        editing := recargada;
        editandoDetalleId := None;
      }
    }
  }
}
