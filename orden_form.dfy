/**
 * The work-order form: the mechanic or receptionist picks products and services
 * from the catalog, adds free-text labour lines, and edits quantities, prices and
 * descriptions in place; the running total and the estimated time follow the lines.
 */
module OrdenForm {

  import opened Wrappers
  import opened Seqs
  import opened Text
  import opened Entidades

  /** An order line as the form holds it; money in cents, duration in minutes. */
  datatype Item = Item(id: Option<int>, productoId: Option<int>, servicioId: Option<int>,
                       descripcion: string, cantidad: int, precio: int, tipo: Option<Tipo>,
                       duracionMinutos: Option<int>)

  // ----- catalog as loaded -----

  /** A product as the API sends it; `None` stands for a missing or non-numeric field. */
  datatype ProductoCrudo = ProductoCrudo(id: Option<int>, nombre: string, precio: Option<int>, stock: Option<int>)

  /** A service as the API sends it. */
  datatype ServicioCrudo = ServicioCrudo(id: Option<int>, nombre: string, precio: Option<int>,
                                         duracionMinutos: Option<int>, esActivo: bool)

  /** `Number(x) || 0` on every numeric field. */
  function ConvertirProducto(p: ProductoCrudo): (r: Producto)
    ensures r.nombre == p.nombre
    ensures r.id == NumberOr(p.id, 0) && r.precio == NumberOr(p.precio, 0) && r.stock == NumberOr(p.stock, 0)
  {
    Producto(NumberOr(p.id, 0), p.nombre, NumberOr(p.precio, 0), NumberOr(p.stock, 0))
  }

  /** `Number(x) || 0` on id and price; a missing or zero duration becomes 60 minutes. */
  function ConvertirServicio(s: ServicioCrudo): (r: Servicio)
    ensures r.duracionMinutos != 0
    ensures Truthy(s.duracionMinutos) ==> r.duracionMinutos == s.duracionMinutos.value
    ensures !Truthy(s.duracionMinutos) ==> r.duracionMinutos == 60
    ensures r.esActivo == s.esActivo && r.nombre == s.nombre
  {
    Servicio(NumberOr(s.id, 0), s.nombre, NumberOr(s.precio, 0), NumberOr(s.duracionMinutos, 60), s.esActivo)
  }

  // ----- lines loaded from an existing order -----

  datatype RefProducto = RefProducto(id: int, nombre: string)
  datatype RefServicio = RefServicio(id: int, nombre: string, duracionMinutos: Option<int>)

  /** A saved order line as the API sends it, with its catalog entry embedded when it has one. */
  datatype DetalleGuardado = DetalleGuardado(id: Option<int>, producto: Option<RefProducto>,
                                             servicio: Option<RefServicio>, tipo: Option<Tipo>,
                                             descripcion: string, cantidad: Option<int>, precio: Option<int>)

  /** `a || b || c || ''` on texts: the first non-empty one. */
  function PrimerTexto(a: string, b: Option<string>, c: Option<string>): (r: string)
    ensures a != "" ==> r == a
    ensures a == "" && b.Some? && b.value != "" ==> r == b.value
  {
    if a != "" then a
    else if b.Some? && b.value != "" then b.value
    else if c.Some? && c.value != "" then c.value
    else ""
  }

  /**
   * How a saved line becomes a form line: the embedded product decides the kind first,
   * then the embedded service, then the saved kind, else a manual line; quantity
   * defaults to 1, price to 0 and duration to 60 minutes.
   */
  function FormatearDetalle(d: DetalleGuardado): (r: Item)
    ensures r.id == d.id
    ensures d.producto.Some? ==> r.tipo == Some(PRODUCTO) && r.productoId == Some(d.producto.value.id)
    ensures d.producto.None? && d.servicio.Some? ==>
              r.tipo == Some(SERVICIO) && r.servicioId == Some(d.servicio.value.id)
    ensures d.producto.None? && d.servicio.None? ==> r.tipo == Some(d.tipo.GetOr(OTRO))
    ensures d.descripcion != "" ==> r.descripcion == d.descripcion
    ensures r.cantidad != 0 && (Truthy(d.cantidad) ==> r.cantidad == d.cantidad.value)
    ensures Truthy(d.precio) ==> r.precio == d.precio.value
    ensures !Truthy(d.precio) ==> r.precio == 0
    ensures r.duracionMinutos.Some? && r.duracionMinutos.value != 0
  {
    var tipo := if d.producto.Some? then PRODUCTO
                else if d.servicio.Some? then SERVICIO
                else d.tipo.GetOr(OTRO);
    Item(d.id,
         if d.producto.Some? then Some(d.producto.value.id) else None,
         if d.servicio.Some? then Some(d.servicio.value.id) else None,
         PrimerTexto(d.descripcion,
                     if d.producto.Some? then Some(d.producto.value.nombre) else None,
                     if d.servicio.Some? then Some(d.servicio.value.nombre) else None),
         NumberOr(d.cantidad, 1), NumberOr(d.precio, 0), Some(tipo),
         Some(if d.servicio.Some? then NumberOr(d.servicio.value.duracionMinutos, 60) else 60))
  }

  // ----- totals -----

  function Subtotal(it: Item): int
  {
    it.cantidad * it.precio
  }

  /** The order total shown under the lines. */
  function Total(items: seq<Item>): int
  {
    SumOf(items, Subtotal)
  }

  /** A line's contribution to the estimated time: only service lines with a duration count. */
  function Minutos(it: Item): int
  {
    if it.tipo == Some(SERVICIO) && Truthy(it.duracionMinutos) then it.cantidad * it.duracionMinutos.value else 0
  }

  /** The estimated time of the order, in minutes. */
  function DuracionTotal(items: seq<Item>): int
  {
    SumOf(items, Minutos)
  }

  // ----- adding from the catalog -----

  /** The catalog product a line refers to. */
  function ProductoDe(it: Item): Option<int>
  {
    it.productoId
  }

  /** The catalog service a line refers to. */
  function ServicioDe(it: Item): Option<int>
  {
    it.servicioId
  }

  /** Some line refers, through `ref`, to catalog entry `id`. */
  predicate Tiene(items: seq<Item>, ref: Item -> Option<int>, id: int)
  {
    exists i :: 0 <= i < |items| && ref(items[i]) == Some(id)
  }

  function LineaProducto(p: Producto): Item
  {
    Item(None, Some(p.id), None, p.nombre, 1, p.precio, Some(PRODUCTO), None)
  }

  function LineaServicio(s: Servicio): Item
  {
    Item(None, None, Some(s.id), s.nombre, 1, s.precio, Some(SERVICIO), Some(s.duracionMinutos))
  }

  /** Every line referring, through `ref`, to catalog entry `id` gets one more unit. */
  function Incrementar(items: seq<Item>, ref: Item -> Option<int>, id: int): (r: seq<Item>)
    ensures |r| == |items|
    ensures forall i :: 0 <= i < |items| ==>
              r[i] == if ref(items[i]) == Some(id) then items[i].(cantidad := items[i].cantidad + 1) else items[i]
  {
    Map(items, (it: Item) => if ref(it) == Some(id) then it.(cantidad := it.cantidad + 1) else it)
  }

  /**
   * The lines after choosing product `id`: unknown or out-of-stock products change
   * nothing; a product already on the order gets one more unit; otherwise a new
   * line at the catalog price is appended.
   */
  function ConProducto(items: seq<Item>, productos: seq<Producto>, id: int): (r: seq<Item>)
    ensures |r| == |items| || |r| == |items| + 1
    ensures forall i :: 0 <= i < |items| ==>
              r[i].productoId == items[i].productoId && r[i].servicioId == items[i].servicioId
              && r[i].precio == items[i].precio && items[i].cantidad <= r[i].cantidad <= items[i].cantidad + 1
    ensures |r| == |items| + 1 ==> r[|items|].productoId == Some(id) && r[|items|].cantidad == 1
  {
    match FindProducto(productos, id)
    case None => items
    case Some(p) =>
      if p.stock <= 0 then items
      else if Tiene(items, ProductoDe, id) then Incrementar(items, ProductoDe, id)
      else items + [LineaProducto(p)]
  }

  /**
   * The lines after choosing service `id`: unknown or inactive services change
   * nothing; a service already on the order gets one more unit; otherwise a new
   * line at the catalog price and duration is appended.
   */
  function ConServicio(items: seq<Item>, servicios: seq<Servicio>, id: int): (r: seq<Item>)
    ensures |r| == |items| || |r| == |items| + 1
    ensures forall i :: 0 <= i < |items| ==>
              r[i].productoId == items[i].productoId && r[i].servicioId == items[i].servicioId
              && r[i].precio == items[i].precio && items[i].cantidad <= r[i].cantidad <= items[i].cantidad + 1
    ensures |r| == |items| + 1 ==> r[|items|].servicioId == Some(id) && r[|items|].cantidad == 1
  {
    match FindServicio(servicios, id)
    case None => items
    case Some(s) =>
      if !s.esActivo then items
      else if Tiene(items, ServicioDe, id) then Incrementar(items, ServicioDe, id)
      else items + [LineaServicio(s)]
  }

  /** No two lines refer, through `ref`, to the same catalog entry. */
  predicate UnaLineaPor(items: seq<Item>, ref: Item -> Option<int>)
  {
    forall i, j :: 0 <= i < j < |items| && ref(items[i]).Some? ==> ref(items[i]) != ref(items[j])
  }

  /** Incrementing keeps every line's catalog references. */
  lemma IncrementarReferencias(items: seq<Item>, ref: Item -> Option<int>, id: int)
    ensures forall i :: 0 <= i < |items| ==>
              ProductoDe(Incrementar(items, ref, id)[i]) == ProductoDe(items[i])
              && ServicioDe(Incrementar(items, ref, id)[i]) == ServicioDe(items[i])
  {
  }

  /** Choosing a product never creates a second line for it, and leaves service references alone. */
  lemma ConProductoUnaLinea(items: seq<Item>, productos: seq<Producto>, id: int)
    requires UnaLineaPor(items, ProductoDe)
    ensures UnaLineaPor(ConProducto(items, productos, id), ProductoDe)
    ensures UnaLineaPor(items, ServicioDe) ==> UnaLineaPor(ConProducto(items, productos, id), ServicioDe)
  {
    IncrementarReferencias(items, ProductoDe, id);
  }

  /** Choosing a service never creates a second line for it, and leaves product references alone. */
  lemma ConServicioUnaLinea(items: seq<Item>, servicios: seq<Servicio>, id: int)
    requires UnaLineaPor(items, ServicioDe)
    ensures UnaLineaPor(ConServicio(items, servicios, id), ServicioDe)
    ensures UnaLineaPor(items, ProductoDe) ==> UnaLineaPor(ConServicio(items, servicios, id), ProductoDe)
  {
    IncrementarReferencias(items, ServicioDe, id);
  }

  /** The total of the unit prices of the lines referring, through `ref`, to catalog entry `id`. */
  function PreciosDe(items: seq<Item>, ref: Item -> Option<int>, id: int): int
  {
    SumOf(items, (it: Item) => if ref(it) == Some(id) then it.precio else 0)
  }

  lemma {:induction false} TotalIncrementar(items: seq<Item>, ref: Item -> Option<int>, id: int)
    ensures Total(Incrementar(items, ref, id)) == Total(items) + PreciosDe(items, ref, id)
    decreases |items|
  {
    if items != [] {
      assert Incrementar(items, ref, id)[1..] == Incrementar(items[1..], ref, id);
      TotalIncrementar(items[1..], ref, id);
    }
  }

  /**
   * Choosing an available product raises the total by the price of one more unit:
   * the price on its existing line, or the catalog price on a new line.
   */
  lemma ConProductoTotal(items: seq<Item>, productos: seq<Producto>, id: int)
    requires UnaLineaPor(items, ProductoDe)
    ensures FindProducto(productos, id).None? || FindProducto(productos, id).value.stock <= 0 ==>
              ConProducto(items, productos, id) == items
    ensures FindProducto(productos, id).Some? && FindProducto(productos, id).value.stock > 0 ==>
              if Tiene(items, ProductoDe, id)
              then ConProducto(items, productos, id) == Incrementar(items, ProductoDe, id)
                   && exists k :: 0 <= k < |items| && items[k].productoId == Some(id)
                                  && Total(ConProducto(items, productos, id)) == Total(items) + items[k].precio
              else ConProducto(items, productos, id) == items + [LineaProducto(FindProducto(productos, id).value)]
                   && Total(ConProducto(items, productos, id)) == Total(items) + FindProducto(productos, id).value.precio
  {
    match FindProducto(productos, id)
    case None =>
    case Some(p) =>
      if p.stock > 0 {
        if Tiene(items, ProductoDe, id) {
          var k :| 0 <= k < |items| && ProductoDe(items[k]) == Some(id);
          TotalIncrementar(items, ProductoDe, id);
          PreciosUnaLinea(items, ProductoDe, id, k);
        } else {
          SumPush(items, LineaProducto(p), Subtotal);
        }
      }
  }

  /**
   * Choosing an active service raises the total by the price of one more unit:
   * the price on its existing line, or the catalog price on a new line with
   * quantity 1 and the catalog duration; an unknown or inactive service is refused.
   */
  lemma ConServicioTotal(items: seq<Item>, servicios: seq<Servicio>, id: int)
    requires UnaLineaPor(items, ServicioDe)
    ensures FindServicio(servicios, id).None? || !FindServicio(servicios, id).value.esActivo ==>
              ConServicio(items, servicios, id) == items
    ensures FindServicio(servicios, id).Some? && FindServicio(servicios, id).value.esActivo ==>
              if Tiene(items, ServicioDe, id)
              then ConServicio(items, servicios, id) == Incrementar(items, ServicioDe, id)
                   && exists k :: 0 <= k < |items| && items[k].servicioId == Some(id)
                                  && Total(ConServicio(items, servicios, id)) == Total(items) + items[k].precio
              else var s := FindServicio(servicios, id).value;
                   ConServicio(items, servicios, id) == items + [LineaServicio(s)]
                   && LineaServicio(s).cantidad == 1 && LineaServicio(s).duracionMinutos == Some(s.duracionMinutos)
                   && Total(ConServicio(items, servicios, id)) == Total(items) + s.precio
  {
    match FindServicio(servicios, id)
    case None =>
    case Some(s) =>
      if s.esActivo {
        if Tiene(items, ServicioDe, id) {
          var k :| 0 <= k < |items| && ServicioDe(items[k]) == Some(id);
          TotalIncrementar(items, ServicioDe, id);
          PreciosUnaLinea(items, ServicioDe, id, k);
        } else {
          SumPush(items, LineaServicio(s), Subtotal);
        }
      }
  }

  lemma PreciosUnaLinea(items: seq<Item>, ref: Item -> Option<int>, id: int, k: int)
    requires UnaLineaPor(items, ref)
    requires 0 <= k < |items| && ref(items[k]) == Some(id)
    ensures PreciosDe(items, ref, id) == items[k].precio
  {
    var f := (it: Item) => if ref(it) == Some(id) then it.precio else 0;
    assert items == items[..k] + ([items[k]] + items[k + 1..]);
    SumAppend(items[..k], [items[k]] + items[k + 1..], f);
    SumZero(items[..k], ref, id);
    SumZero(items[k + 1..], ref, id);
  }

  lemma {:induction false} SumZero(items: seq<Item>, ref: Item -> Option<int>, id: int)
    requires forall i :: 0 <= i < |items| ==> ref(items[i]) != Some(id)
    ensures PreciosDe(items, ref, id) == 0
    decreases |items|
  {
    if items != [] {
      SumZero(items[1..], ref, id);
    }
  }

  /** Incrementing an existing product line does not look at the stock again. */
  lemma IncrementoSinRevisarStock()
    ensures var p := Producto(7, "Filtro", 2000, 1);
            var items := [LineaProducto(p)];
            ConProducto(items, [p], 7)[0].cantidad == 2 > p.stock
  {
    var p := Producto(7, "Filtro", 2000, 1);
    assert ProductoDe([LineaProducto(p)][0]) == Some(7);
  }

  /** Adding a new service line adds its duration to the estimated time; other additions leave it alone. */
  lemma DuracionTrasAgregar(items: seq<Item>, productos: seq<Producto>, servicios: seq<Servicio>, id: int)
    requires ReferenciasCoherentes(items)
    ensures DuracionTotal(ConProducto(items, productos, id)) == DuracionTotal(items)
    ensures DuracionTotal(items + [ItemManual()]) == DuracionTotal(items)
    ensures FindServicio(servicios, id).Some? && FindServicio(servicios, id).value.esActivo
            && !Tiene(items, ServicioDe, id) ==>
              DuracionTotal(ConServicio(items, servicios, id))
              == DuracionTotal(items) + FindServicio(servicios, id).value.duracionMinutos
  {
    SumPush(items, ItemManual(), Minutos);
    match FindProducto(productos, id) {
      case None =>
      case Some(p) =>
        if p.stock > 0 {
          if Tiene(items, ProductoDe, id) {
            MinutosIncrementarProducto(items, id);
          } else {
            SumPush(items, LineaProducto(p), Minutos);
          }
        }
    }
    match FindServicio(servicios, id) {
      case None =>
      case Some(s) =>
        SumPush(items, LineaServicio(s), Minutos);
    }
  }

  /** Lines that refer to a product are product lines, as every line the form creates is. */
  predicate ReferenciasCoherentes(items: seq<Item>)
  {
    forall i :: 0 <= i < |items| && items[i].productoId.Some? ==> items[i].tipo == Some(PRODUCTO)
  }

  lemma {:induction false} MinutosIncrementarProducto(items: seq<Item>, id: int)
    requires ReferenciasCoherentes(items)
    ensures DuracionTotal(Incrementar(items, ProductoDe, id)) == DuracionTotal(items)
    decreases |items|
  {
    if items != [] {
      assert Incrementar(items, ProductoDe, id)[1..] == Incrementar(items[1..], ProductoDe, id);
      MinutosIncrementarProducto(items[1..], id);
    }
  }

  /** The free-text labour line. */
  function ItemManual(): Item
  {
    Item(None, None, None, "Mano de obra", 1, 0, Some(OTRO), None)
  }

  // ----- submission -----

  datatype Mecanico = Mecanico(id: int, nombre: string, activo: Option<bool>)

  datatype ValoresOrden = ValoresOrden(clienteId: Option<int>, vehiculoId: Option<int>,
                                       mecanicoId: Option<int>, observaciones: Option<string>)

  datatype OrdenPayload = OrdenPayload(clienteId: int, vehiculoId: int, mecanicoId: int,
                                       observaciones: Option<string>)

  datatype DetallePayload = DetallePayload(descripcion: string, cantidad: int, precio: int, tipo: Option<Tipo>,
                                           productoId: Option<int>, servicioId: Option<int>)

  datatype Envio = Envio(orden: OrdenPayload, detalles: seq<DetallePayload>)

  datatype ErrorOrden = OrdenSinItems | CamposObligatorios | MecanicoInactivo

  /** The mechanics the selector offers: those not marked inactive. */
  function MecanicosActivos(ms: seq<Mecanico>): (r: seq<Mecanico>)
    ensures forall i :: 0 <= i < |r| ==> r[i].activo != Some(false)
    ensures IsSubseq(r, ms)
  {
    Filter(ms, (m: Mecanico) => m.activo != Some(false))
  }

  /** `mecanicos.find(m => m.id === id)`. */
  function FindMecanico(ms: seq<Mecanico>, id: int): Option<Mecanico>
  {
    Find(ms, (m: Mecanico) => m.id, id)
  }

  /** A catalog reference is sent only when it is a positive id. */
  function IdPositivo(o: Option<int>): Option<int>
  {
    if Truthy(o) && o.value > 0 then o else None
  }

  function DetalleAPayload(it: Item): DetallePayload
  {
    DetallePayload(Trim(it.descripcion), it.cantidad, it.precio, it.tipo, IdPositivo(it.productoId),
                   IdPositivo(it.servicioId))
  }

  predicate MecanicoBloqueado(ms: seq<Mecanico>, id: int)
  {
    FindMecanico(ms, id).Some? && FindMecanico(ms, id).value.activo == Some(false)
  }

  /** The submit handler's guards and the two payloads it sends. */
  function Preparar(items: seq<Item>, mecanicos: seq<Mecanico>, v: ValoresOrden): (r: Result<Envio, ErrorOrden>)
    ensures items == [] ==> r == Err(OrdenSinItems)
    ensures r.Ok? ==> Truthy(v.clienteId) && Truthy(v.vehiculoId) && Truthy(v.mecanicoId)
                      && r.value.orden.clienteId == v.clienteId.value
                      && r.value.orden.vehiculoId == v.vehiculoId.value
                      && r.value.orden.mecanicoId == v.mecanicoId.value
                      && |r.value.detalles| == |items| > 0
    ensures r.Ok? && r.value.orden.observaciones.Some? ==> r.value.orden.observaciones == v.observaciones
                                                            && v.observaciones.value != ""
  {
    if items == [] then Err(OrdenSinItems)
    else if !Truthy(v.clienteId) || !Truthy(v.vehiculoId) || !Truthy(v.mecanicoId) then Err(CamposObligatorios)
    else if MecanicoBloqueado(mecanicos, v.mecanicoId.value) then Err(MecanicoInactivo)
    else
      var obs := if v.observaciones.Some? && v.observaciones.value != "" then v.observaciones else None;
      Ok(Envio(OrdenPayload(v.clienteId.value, v.vehiculoId.value, v.mecanicoId.value, obs),
               Map(items, DetalleAPayload)))
  }

  /**
   * An order is sent exactly when it has lines, client, vehicle and mechanic are all
   * chosen, and the chosen mechanic is not marked inactive.
   */
  lemma PrepararSii(items: seq<Item>, mecanicos: seq<Mecanico>, v: ValoresOrden)
    ensures Preparar(items, mecanicos, v).Ok? <==>
              |items| > 0 && Truthy(v.clienteId) && Truthy(v.vehiculoId) && Truthy(v.mecanicoId)
              && !(exists i :: PrimeraPosicion(mecanicos, v.mecanicoId.value, i) && mecanicos[i].activo == Some(false))
  {
    if Truthy(v.mecanicoId) {
      PrimerMecanico(mecanicos, v.mecanicoId.value);
    }
  }

  /** `i` is the first position of a mechanic with that id. */
  predicate PrimeraPosicion(ms: seq<Mecanico>, id: int, i: int)
  {
    0 <= i < |ms| && ms[i].id == id && forall j :: 0 <= j < i ==> ms[j].id != id
  }

  lemma {:induction false} FindMecanicoEn(ms: seq<Mecanico>, id: int, i: int)
    requires PrimeraPosicion(ms, id, i)
    ensures FindMecanico(ms, id) == Some(ms[i])
    decreases i
  {
    if i > 0 {
      assert ms[0].id != id;
      assert ms[1..][i - 1] == ms[i];
      assert forall j :: 0 <= j < i - 1 ==> ms[1..][j] == ms[j + 1];
      FindMecanicoEn(ms[1..], id, i - 1);
    }
  }

  lemma {:induction false} FindMecanicoPrimero(ms: seq<Mecanico>, id: int)
    requires FindMecanico(ms, id).Some?
    ensures exists i :: PrimeraPosicion(ms, id, i) && ms[i] == FindMecanico(ms, id).value
    decreases |ms|
  {
    if ms[0].id == id {
      assert PrimeraPosicion(ms, id, 0);
    } else {
      FindMecanicoPrimero(ms[1..], id);
      var i :| PrimeraPosicion(ms[1..], id, i) && ms[1..][i] == FindMecanico(ms[1..], id).value;
      assert forall j :: 0 < j <= i ==> ms[j] == ms[1..][j - 1];
      assert PrimeraPosicion(ms, id, i + 1);
    }
  }

  lemma PrimerMecanico(ms: seq<Mecanico>, id: int)
    ensures MecanicoBloqueado(ms, id) <==>
              exists i :: PrimeraPosicion(ms, id, i) && ms[i].activo == Some(false)
  {
    if MecanicoBloqueado(ms, id) {
      FindMecanicoPrimero(ms, id);
    }
    if exists i :: PrimeraPosicion(ms, id, i) && ms[i].activo == Some(false) {
      var i :| PrimeraPosicion(ms, id, i) && ms[i].activo == Some(false);
      FindMecanicoEn(ms, id, i);
    }
  }

  /**
   * The detail payload has one entry per line in order, with the line's quantity,
   * price and kind, a trimmed description, catalog references only when positive,
   * and the same total as the form.
   */
  lemma PrepararDetalles(items: seq<Item>, mecanicos: seq<Mecanico>, v: ValoresOrden)
    requires Preparar(items, mecanicos, v).Ok?
    ensures var ds := Preparar(items, mecanicos, v).value.detalles;
            |ds| == |items|
            && (forall i :: 0 <= i < |items| ==>
                  ds[i].cantidad == items[i].cantidad && ds[i].precio == items[i].precio
                  && ds[i].tipo == items[i].tipo && ds[i].descripcion == Trim(items[i].descripcion)
                  && (ds[i].productoId.Some? ==> ds[i].productoId == items[i].productoId && ds[i].productoId.value > 0)
                  && (ds[i].servicioId.Some? ==> ds[i].servicioId == items[i].servicioId && ds[i].servicioId.value > 0))
            && SumOf(ds, (d: DetallePayload) => d.cantidad * d.precio) == Total(items)
  {
    var ds := Preparar(items, mecanicos, v).value.detalles;
    assert ds == Map(items, DetalleAPayload);
    PayloadTotal(items);
  }

  lemma {:induction false} PayloadTotal(items: seq<Item>)
    ensures SumOf(Map(items, DetalleAPayload), (d: DetallePayload) => d.cantidad * d.precio) == Total(items)
    decreases |items|
  {
    if items != [] {
      assert Map(items, DetalleAPayload)[1..] == Map(items[1..], DetalleAPayload);
      PayloadTotal(items[1..]);
    }
  }

  // ----- the form's state -----

  class Formulario {
    var items: seq<Item>
    var productos: seq<Producto>
    var servicios: seq<Servicio>

    constructor ()
      ensures items == [] && productos == [] && servicios == []
    {
      items := [];
      productos := [];
      servicios := [];
    }

    method CargarCatalogo(ps: seq<ProductoCrudo>, ss: seq<ServicioCrudo>)
      modifies this
      ensures productos == Map(ps, ConvertirProducto)
      ensures servicios == Map(ss, ConvertirServicio)
      ensures items == old(items)
    {
      productos := Map(ps, ConvertirProducto);
      servicios := Map(ss, ConvertirServicio);
    }

    /** Editing an existing order: its saved lines become the form's lines. */
    method CargarDetalles(ds: seq<DetalleGuardado>)
      modifies this
      ensures items == Map(ds, FormatearDetalle)
      ensures productos == old(productos) && servicios == old(servicios)
    {
      items := Map(ds, FormatearDetalle);
    }

    method AgregarProducto(id: int)
      modifies this
      ensures items == ConProducto(old(items), productos, id)
      ensures UnaLineaPor(old(items), ProductoDe) ==> UnaLineaPor(items, ProductoDe)
      ensures productos == old(productos) && servicios == old(servicios)
    {
      if UnaLineaPor(items, ProductoDe) {
        ConProductoUnaLinea(items, productos, id);
      }
      items := ConProducto(items, productos, id);
    }

    method AgregarServicio(id: int)
      modifies this
      ensures items == ConServicio(old(items), servicios, id)
      ensures UnaLineaPor(old(items), ServicioDe) ==> UnaLineaPor(items, ServicioDe)
      ensures productos == old(productos) && servicios == old(servicios)
    {
      if UnaLineaPor(items, ServicioDe) {
        ConServicioUnaLinea(items, servicios, id);
      }
      items := ConServicio(items, servicios, id);
    }

    method AgregarItemManual()
      modifies this
      ensures items == old(items) + [ItemManual()]
      ensures Total(items) == Total(old(items))
      ensures productos == old(productos) && servicios == old(servicios)
    {
      SumPush(items, ItemManual(), Subtotal);
      items := items + [ItemManual()];
    }

    method EliminarItem(index: int)
      modifies this
      ensures items == RemoveAt(old(items), index)
      ensures 0 <= index < |old(items)| ==> Total(items) == Total(old(items)) - Subtotal(old(items)[index])
      ensures productos == old(productos) && servicios == old(servicios)
    {
      if 0 <= index < |items| {
        SumRemoveAt(items, index, Subtotal);
      }
      items := RemoveAt(items, index);
    }

    /** The quantity cell: an emptied or zero input stands for 1. */
    method ActualizarCantidad(index: int, entrada: Option<int>)
      requires 0 <= index < |items|
      modifies this
      ensures items == old(items)[index := old(items)[index].(cantidad := NumberOr(entrada, 1))]
      ensures Total(items) == Total(old(items)) - Subtotal(old(items)[index]) + Subtotal(items[index])
      ensures productos == old(productos) && servicios == old(servicios)
    {
      var it := items[index].(cantidad := NumberOr(entrada, 1));
      SumUpdate(items, index, it, Subtotal);
      items := items[index := it];
    }

    /** The unit-price cell: an emptied input stands for 0. */
    method ActualizarPrecio(index: int, entrada: Option<int>)
      requires 0 <= index < |items|
      modifies this
      ensures items == old(items)[index := old(items)[index].(precio := NumberOr(entrada, 0))]
      ensures Total(items) == Total(old(items)) - Subtotal(old(items)[index]) + Subtotal(items[index])
      ensures productos == old(productos) && servicios == old(servicios)
    {
      var it := items[index].(precio := NumberOr(entrada, 0));
      SumUpdate(items, index, it, Subtotal);
      items := items[index := it];
    }

    method ActualizarDescripcion(index: int, descripcion: string)
      requires 0 <= index < |items|
      modifies this
      ensures items == old(items)[index := old(items)[index].(descripcion := descripcion)]
      ensures Total(items) == Total(old(items))
      ensures productos == old(productos) && servicios == old(servicios)
    {
      var it := items[index].(descripcion := descripcion);
      SumUpdate(items, index, it, Subtotal);
      items := items[index := it];
    }
  }
}
