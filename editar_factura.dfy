/**
 * The invoice editor: the lines of an existing invoice are loaded, edited against the
 * product and service catalogs, and sent back with the payment fields.
 */
module EditarFacturaForm {

  import opened Wrappers
  import opened Seqs
  import opened Text
  import opened Entidades

  /**
   * A numeric cell as JavaScript holds it: `null` when the input was cleared,
   * `undefined` when the field was never set, or a number.
   */
  datatype Numero = Nulo | Indefinido | Valor(v: int)

  /** `Number(x || 0)`. */
  function ONulo(n: Numero): (r: int)
    ensures n.Valor? ==> r == n.v
    ensures !n.Valor? ==> r == 0
  {
    if n.Valor? then n.v else 0
  }

  /**
   * `x <= 0` in JavaScript: `null` compares as 0 and so is not positive, while
   * `undefined` compares as NaN and so is never `<= 0`.
   */
  predicate NoPositivo(n: Numero)
  {
    match n
    case Nulo => true
    case Indefinido => false
    case Valor(v) => v <= 0
  }

  datatype Linea = Linea(id: Option<int>, descripcion: string, cantidad: Numero, precio: Numero,
                         productoId: Option<int>, servicioId: Option<int>, tipo: Option<Tipo>)

  /** A saved invoice line as the API sends it. */
  datatype DetalleGuardado = DetalleGuardado(id: int, descripcion: string, cantidad: int, precio: int,
                                             productoId: Option<int>, servicioId: Option<int>)

  /** The kind of a saved line follows whichever catalog reference is set. */
  function TipoGuardado(d: DetalleGuardado): (t: Tipo)
    ensures t == PRODUCTO <==> Truthy(d.productoId)
    ensures t == SERVICIO <==> !Truthy(d.productoId) && Truthy(d.servicioId)
  {
    if Truthy(d.productoId) then PRODUCTO else if Truthy(d.servicioId) then SERVICIO else OTRO
  }

  function LineaCargada(d: DetalleGuardado): Linea
  {
    Linea(Some(d.id), d.descripcion, Valor(d.cantidad), Valor(d.precio), d.productoId, d.servicioId,
          Some(TipoGuardado(d)))
  }

  // ----- editing the lines -----

  /** Choosing a product for line `i`: name, price and reference come from the catalog, the quantity stays. */
  function ConProductoEn(ls: seq<Linea>, i: int, p: Producto): (r: seq<Linea>)
    requires 0 <= i < |ls|
    ensures |r| == |ls| && forall j :: 0 <= j < |ls| && j != i ==> r[j] == ls[j]
    ensures r[i].productoId == Some(p.id) && r[i].servicioId.None? && r[i].tipo == Some(PRODUCTO)
    ensures r[i].descripcion == p.nombre && r[i].precio == Valor(p.precio)
    ensures r[i].cantidad == ls[i].cantidad && r[i].id == ls[i].id
  {
    ls[i := ls[i].(descripcion := p.nombre, precio := Valor(p.precio), productoId := Some(p.id),
                   servicioId := None, tipo := Some(PRODUCTO))]
  }

  /** Choosing a service for line `i`: as for a product, and the quantity becomes 1. */
  function ConServicioEn(ls: seq<Linea>, i: int, s: Servicio): (r: seq<Linea>)
    requires 0 <= i < |ls|
    ensures |r| == |ls| && forall j :: 0 <= j < |ls| && j != i ==> r[j] == ls[j]
    ensures r[i].servicioId == Some(s.id) && r[i].productoId.None? && r[i].tipo == Some(SERVICIO)
    ensures r[i].descripcion == s.nombre && r[i].precio == Valor(s.precio)
    ensures r[i].cantidad == Valor(1) && r[i].id == ls[i].id
  {
    ls[i := ls[i].(descripcion := s.nombre, precio := Valor(s.precio), servicioId := Some(s.id),
                   productoId := None, tipo := Some(SERVICIO), cantidad := Valor(1))]
  }

  function LineaVacia(tipo: Tipo): Linea
  {
    Linea(None, "", Valor(1), Valor(0), None, None, Some(tipo))
  }

  /** What the description, quantity and unit-price cells send. */
  datatype Campo = Descripcion(texto: string) | Cantidad(cantidad: Numero) | PrecioUnitario(precio: Numero)

  predicate NombreDeProducto(ps: seq<Producto>, texto: string)
  {
    exists k :: 0 <= k < |ps| && Lower(ps[k].nombre) == Lower(texto)
  }

  predicate NombreDeServicio(ss: seq<Servicio>, texto: string)
  {
    exists k :: 0 <= k < |ss| && Lower(ss[k].nombre) == Lower(texto)
  }

  /**
   * Editing one cell of line `i`. A service line's quantity stays 1 whatever is typed.
   * A new description that matches no catalog name (ignoring case) drops the line's
   * catalog reference.
   */
  function Editada(ls: seq<Linea>, i: int, campo: Campo, ps: seq<Producto>, ss: seq<Servicio>): (r: seq<Linea>)
    requires 0 <= i < |ls|
    ensures |r| == |ls| && forall j :: 0 <= j < |ls| && j != i ==> r[j] == ls[j]
    ensures r[i].id == ls[i].id && r[i].tipo == ls[i].tipo
    ensures campo.Cantidad? ==>
              r[i] == ls[i].(cantidad := if ls[i].tipo == Some(SERVICIO) then Valor(1) else campo.cantidad)
    ensures campo.PrecioUnitario? ==> r[i] == ls[i].(precio := campo.precio)
    ensures campo.Descripcion? ==>
              r[i].descripcion == campo.texto && r[i].cantidad == ls[i].cantidad && r[i].precio == ls[i].precio
              && (Truthy(r[i].productoId) ==> NombreDeProducto(ps, campo.texto) && r[i].productoId == ls[i].productoId)
              && (Truthy(r[i].servicioId) ==> NombreDeServicio(ss, campo.texto) && r[i].servicioId == ls[i].servicioId)
              && (NombreDeProducto(ps, campo.texto) ==> r[i].productoId == ls[i].productoId)
              && (NombreDeServicio(ss, campo.texto) ==> r[i].servicioId == ls[i].servicioId)
  {
    var d := ls[i];
    match campo
    case Cantidad(c) => ls[i := d.(cantidad := if d.tipo == Some(SERVICIO) then Valor(1) else c)]
    case PrecioUnitario(p) => ls[i := d.(precio := p)]
    case Descripcion(t) =>
      var pid := if !NombreDeProducto(ps, t) && Truthy(d.productoId) then None else d.productoId;
      var sid := if !NombreDeServicio(ss, t) && Truthy(d.servicioId) then None else d.servicioId;
      ls[i := d.(descripcion := t, productoId := pid, servicioId := sid)]
  }

  /** Every service line has quantity 1. */
  predicate ServiciosUnitarios(ls: seq<Linea>)
  {
    forall j :: 0 <= j < |ls| && ls[j].tipo == Some(SERVICIO) ==> ls[j].cantidad == Valor(1)
  }

  /** Once every service line has quantity 1, no edit of the form changes that. */
  lemma ServiciosUnitariosPreservado(ls: seq<Linea>, i: int, campo: Campo, ps: seq<Producto>, ss: seq<Servicio>,
                                     p: Producto, s: Servicio, tipo: Tipo)
    requires ServiciosUnitarios(ls)
    ensures ServiciosUnitarios(ls + [LineaVacia(tipo)])
    ensures 0 <= i < |ls| ==> ServiciosUnitarios(Editada(ls, i, campo, ps, ss))
    ensures 0 <= i < |ls| ==> ServiciosUnitarios(ConProductoEn(ls, i, p))
    ensures 0 <= i < |ls| ==> ServiciosUnitarios(ConServicioEn(ls, i, s))
    ensures 0 <= i < |ls| ==> ServiciosUnitarios(RemoveAt(ls, i))
  {
    if 0 <= i < |ls| {
      var r := RemoveAt(ls, i);
      forall j | 0 <= j < |r| && r[j].tipo == Some(SERVICIO)
        ensures r[j].cantidad == Valor(1)
      {
        if j < i { assert r[j] == ls[j]; } else { assert r[j] == ls[j + 1]; }
      }
    }
  }

  function Importe(l: Linea): int
  {
    ONulo(l.cantidad) * ONulo(l.precio)
  }

  /** The running total: an empty quantity or price counts as 0. */
  function CalcularTotal(ls: seq<Linea>): (t: int)
    ensures (forall j :: 0 <= j < |ls| ==> !LineaInvalida(ls[j])) ==> t >= 0
  {
    ImportesValidos(ls);
    SumOf(ls, Importe)
  }

  /** Lines the submit guard accepts never lower the total. */
  lemma ImportesValidos(ls: seq<Linea>)
    ensures (forall j :: 0 <= j < |ls| ==> !LineaInvalida(ls[j])) ==> SumOf(ls, Importe) >= 0
  {
    if forall j :: 0 <= j < |ls| ==> !LineaInvalida(ls[j]) {
      forall j | 0 <= j < |ls| ensures Importe(ls[j]) >= 0 {
        ImporteValido(ls[j]);
      }
      SumNonNegative(ls, Importe);
    }
  }

  lemma ImporteValido(l: Linea)
    requires !LineaInvalida(l)
    ensures Importe(l) >= 0
  {
    var c, p := ONulo(l.cantidad), ONulo(l.precio);
    assert c >= 0 && p >= 0;
    MulNoNegativo(c, p);
  }

  lemma MulNoNegativo(a: int, b: int)
    requires a >= 0 && b >= 0
    ensures a * b >= 0
  {
  }

  lemma TotalTrasEditar(ls: seq<Linea>, i: int, campo: Campo, ps: seq<Producto>, ss: seq<Servicio>)
    requires 0 <= i < |ls|
    ensures var r := Editada(ls, i, campo, ps, ss);
            CalcularTotal(r) == CalcularTotal(ls) - Importe(ls[i]) + Importe(r[i])
    ensures campo.Descripcion? ==> CalcularTotal(Editada(ls, i, campo, ps, ss)) == CalcularTotal(ls)
  {
    var r := Editada(ls, i, campo, ps, ss);
    assert r == ls[i := r[i]];
    SumUpdate(ls, i, r[i], Importe);
  }

  // ----- quick add from the catalog tabs -----

  /**
   * Quick-adding a product as written: a blank product line is appended, and the
   * selection, run afterwards from the handler of the earlier render, fills index
   * `|ls|` of the list as it was before the append. The entry it writes carries no
   * quantity, and it replaces the appended line.
   */
  function AgregarRapidoProductoComoEscrito(ls: seq<Linea>, p: Producto): (r: seq<Linea>)
    ensures |r| == |ls| + 1 && r[..|ls|] == ls
    ensures r[|ls|].productoId == Some(p.id) && r[|ls|].precio == Valor(p.precio)
    ensures r[|ls|].cantidad == Indefinido
  {
    ls + [Linea(None, p.nombre, Indefinido, Valor(p.precio), Some(p.id), None, Some(PRODUCTO))]
  }

  /**
   * The quick-added product line has no quantity; the submit guard still lets it
   * through, and the displayed total ignores it.
   */
  lemma RapidoProductoSinCantidad(ls: seq<Linea>, p: Producto)
    requires !IsBlank(p.nombre) && p.precio > 0
    ensures var r := AgregarRapidoProductoComoEscrito(ls, p);
            |r| == |ls| + 1 && r[|ls|].cantidad == Indefinido && !LineaInvalida(r[|ls|])
            && CalcularTotal(r) == CalcularTotal(ls)
  {
    var r := AgregarRapidoProductoComoEscrito(ls, p);
    SumPush(ls, r[|ls|], Importe);
  }

  /** Quick-adding a product: a product line is appended and then filled from the catalog. */
  function ConProductoRapido(ls: seq<Linea>, p: Producto): (r: seq<Linea>)
    ensures |r| == |ls| + 1 && forall j :: 0 <= j < |ls| ==> r[j] == ls[j]
    ensures r[|ls|].productoId == Some(p.id) && r[|ls|].precio == Valor(p.precio) && r[|ls|].cantidad == Valor(1)
  {
    ConProductoEn(ls + [LineaVacia(PRODUCTO)], |ls|, p)
  }

  /** Quick-adding a service: a service line is appended and then filled from the catalog. */
  function ConServicioRapido(ls: seq<Linea>, s: Servicio): seq<Linea>
  {
    ConServicioEn(ls + [LineaVacia(SERVICIO)], |ls|, s)
  }

  /**
   * Quick-adding keeps the existing lines, appends one unit of the chosen item at
   * its catalog price, and raises the total by that price.
   */
  lemma RapidoProducto(ls: seq<Linea>, p: Producto, s: Servicio)
    ensures var r := ConProductoRapido(ls, p);
            |r| == |ls| + 1 && r[..|ls|] == ls
            && r[|ls|] == Linea(None, p.nombre, Valor(1), Valor(p.precio), Some(p.id), None, Some(PRODUCTO))
            && CalcularTotal(r) == CalcularTotal(ls) + p.precio
    ensures var r := ConServicioRapido(ls, s);
            |r| == |ls| + 1 && r[..|ls|] == ls
            && r[|ls|] == Linea(None, s.nombre, Valor(1), Valor(s.precio), None, Some(s.id), Some(SERVICIO))
            && CalcularTotal(r) == CalcularTotal(ls) + s.precio
  {
    var r := ConProductoRapido(ls, p);
    assert r == ls + [r[|ls|]];
    SumPush(ls, r[|ls|], Importe);
    var q := ConServicioRapido(ls, s);
    assert q == ls + [q[|ls|]];
    SumPush(ls, q[|ls|], Importe);
  }

  // ----- submission -----

  /** A line the submit guard refuses: blank description, or a quantity or price not above 0. */
  predicate LineaInvalida(l: Linea)
  {
    IsBlank(l.descripcion) || NoPositivo(l.cantidad) || NoPositivo(l.precio)
  }

  /** The payment fields; `None` when the form's own validation fails. */
  datatype ValoresFactura = ValoresFactura(metodoPago: string, notas: string)

  /** A line as sent; a catalog reference is sent as given, `null` when absent. */
  datatype DetalleEnviado = DetalleEnviado(descripcion: string, cantidad: Numero, precio: Numero,
                                           productoId: Option<int>, servicioId: Option<int>, tipo: Option<Tipo>)

  datatype DatosEnviar = DatosEnviar(valores: ValoresFactura, detalles: seq<DetalleEnviado>)

  datatype ErrorEnvio = EnvioEnCurso | DetallesIncompletos | SinDetalles | CamposInvalidos

  function Enviado(l: Linea): DetalleEnviado
  {
    DetalleEnviado(l.descripcion, l.cantidad, l.precio, l.productoId, l.servicioId, l.tipo)
  }

  function HayInvalida(ls: seq<Linea>): (b: bool)
    ensures b <==> exists j :: 0 <= j < |ls| && LineaInvalida(ls[j])
  {
    |Filter(ls, LineaInvalida)| > 0
  }

  /** The submit handler's decision: refused while busy, on any invalid line, on no lines, or on bad fields. */
  function Envio(ocupado: bool, ls: seq<Linea>, valores: Option<ValoresFactura>): (r: Result<DatosEnviar, ErrorEnvio>)
    ensures ocupado ==> r == Err(EnvioEnCurso)
    ensures !ocupado && HayInvalida(ls) ==> r == Err(DetallesIncompletos)
    ensures r.Ok? ==> valores.Some? && r.value.valores == valores.value && |r.value.detalles| == |ls| > 0
  {
    if ocupado then Err(EnvioEnCurso)
    else if HayInvalida(ls) then Err(DetallesIncompletos)
    else if ls == [] then Err(SinDetalles)
    else if valores.None? then Err(CamposInvalidos)
    else Ok(DatosEnviar(valores.value, Map(ls, Enviado)))
  }

  /**
   * An invoice is sent exactly when no submission is in progress, there is at least
   * one line, no line is invalid and the form fields validate; then every line is
   * sent unchanged, in order.
   */
  lemma EnvioSii(ocupado: bool, ls: seq<Linea>, valores: Option<ValoresFactura>)
    ensures Envio(ocupado, ls, valores).Ok? <==>
              !ocupado && |ls| > 0 && valores.Some? && forall j :: 0 <= j < |ls| ==> !LineaInvalida(ls[j])
    ensures Envio(ocupado, ls, valores).Ok? ==>
              var ds := Envio(ocupado, ls, valores).value.detalles;
              |ds| == |ls| && forall j :: 0 <= j < |ls| ==>
                ds[j].descripcion == ls[j].descripcion && ds[j].cantidad == ls[j].cantidad
                && ds[j].precio == ls[j].precio && ds[j].productoId == ls[j].productoId
                && ds[j].servicioId == ls[j].servicioId && ds[j].tipo == ls[j].tipo
  {
  }

  /** The editor's state: the lines, the catalogs, and the two busy flags that guard submission. */
  class Editor {
    var detalles: seq<Linea>
    var productos: seq<Producto>
    var servicios: seq<Servicio>
    var loading: bool
    var enviando: bool

    /** The button flag and the re-entrancy flag are raised and lowered together. */
    ghost predicate Valid()
      reads this
    {
      loading == enviando
    }

    constructor ()
      ensures Valid() && !loading && detalles == [] && productos == [] && servicios == []
    {
      detalles := [];
      productos := [];
      servicios := [];
      loading := false;
      enviando := false;
    }

    method Cargar(ds: seq<DetalleGuardado>, ps: seq<Producto>, ss: seq<Servicio>)
      modifies this
      ensures detalles == Map(ds, LineaCargada) && productos == ps && servicios == ss
      ensures loading == old(loading) && enviando == old(enviando)
    {
      detalles := Map(ds, LineaCargada);
      productos := ps;
      servicios := ss;
    }

    method AddDetalle(tipo: Tipo)
      modifies this
      ensures detalles == old(detalles) + [LineaVacia(tipo)]
      ensures CalcularTotal(detalles) == CalcularTotal(old(detalles))
      ensures ServiciosUnitarios(old(detalles)) ==> ServiciosUnitarios(detalles)
      ensures productos == old(productos) && servicios == old(servicios)
      ensures loading == old(loading) && enviando == old(enviando)
    {
      SumPush(detalles, LineaVacia(tipo), Importe);
      if ServiciosUnitarios(detalles) {
        ServiciosUnitariosPreservado(detalles, 0, Descripcion(""), [], [], Producto(0, "", 0, 0),
                                     Servicio(0, "", 0, 0, false), tipo);
      }
      detalles := detalles + [LineaVacia(tipo)];
    }

    /** The delete button of row `index`, which is disabled while only one line is left. */
    method RemoveDetalle(index: int)
      requires 0 <= index < |detalles| && |detalles| > 1
      modifies this
      ensures detalles == RemoveAt(old(detalles), index) && |detalles| >= 1
      ensures CalcularTotal(detalles) == CalcularTotal(old(detalles)) - Importe(old(detalles)[index])
      ensures productos == old(productos) && servicios == old(servicios)
      ensures loading == old(loading) && enviando == old(enviando)
    {
      SumRemoveAt(detalles, index, Importe);
      detalles := RemoveAt(detalles, index);
    }

    method UpdateDetalle(index: int, campo: Campo)
      requires 0 <= index < |detalles|
      modifies this
      ensures detalles == Editada(old(detalles), index, campo, productos, servicios)
      ensures ServiciosUnitarios(old(detalles)) ==> ServiciosUnitarios(detalles)
      ensures productos == old(productos) && servicios == old(servicios)
      ensures loading == old(loading) && enviando == old(enviando)
    {
      if ServiciosUnitarios(detalles) {
        ServiciosUnitariosPreservado(detalles, index, campo, productos, servicios, Producto(0, "", 0, 0),
                                     Servicio(0, "", 0, 0, false), OTRO);
      }
      detalles := Editada(detalles, index, campo, productos, servicios);
    }

    method SeleccionarProducto(index: int, p: Producto)
      requires 0 <= index < |detalles|
      modifies this
      ensures detalles == ConProductoEn(old(detalles), index, p)
      ensures productos == old(productos) && servicios == old(servicios)
      ensures loading == old(loading) && enviando == old(enviando)
    {
      detalles := ConProductoEn(detalles, index, p);
    }

    method SeleccionarServicio(index: int, s: Servicio)
      requires 0 <= index < |detalles|
      modifies this
      ensures detalles == ConServicioEn(old(detalles), index, s)
      ensures productos == old(productos) && servicios == old(servicios)
      ensures loading == old(loading) && enviando == old(enviando)
    {
      detalles := ConServicioEn(detalles, index, s);
    }

    method AgregarRapidoProducto(p: Producto)
      modifies this
      ensures detalles == ConProductoRapido(old(detalles), p)
      ensures CalcularTotal(detalles) == CalcularTotal(old(detalles)) + p.precio
      ensures productos == old(productos) && servicios == old(servicios)
      ensures loading == old(loading) && enviando == old(enviando)
    {
      RapidoProducto(detalles, p, Servicio(0, "", 0, 0, false));
      detalles := ConProductoRapido(detalles, p);
    }

    method AgregarRapidoServicio(s: Servicio)
      modifies this
      ensures detalles == ConServicioRapido(old(detalles), s)
      ensures CalcularTotal(detalles) == CalcularTotal(old(detalles)) + s.precio
      ensures productos == old(productos) && servicios == old(servicios)
      ensures loading == old(loading) && enviando == old(enviando)
    {
      RapidoProducto(detalles, Producto(0, "", 0, 0), s);
      detalles := ConServicioRapido(detalles, s);
    }

    /**
     * The first half of the submit handler: a refused submission leaves everything
     * as it was; an accepted one raises both busy flags and yields the data handed
     * to the caller's save function.
     */
    method IniciarEnvio(valores: Option<ValoresFactura>) returns (r: Result<DatosEnviar, ErrorEnvio>)
      requires Valid()
      modifies this
      ensures Valid()
      ensures r == Envio(old(loading), detalles, valores)
      ensures r.Ok? ==> loading && enviando
      ensures r.Err? ==> loading == old(loading)
      ensures detalles == old(detalles) && productos == old(productos) && servicios == old(servicios)
    {
      if enviando || loading {
        return Err(EnvioEnCurso);
      }
      var invalidos := Filter(detalles, LineaInvalida);
      if |invalidos| > 0 {
        return Err(DetallesIncompletos);
      }
      if |detalles| == 0 {
        return Err(SinDetalles);
      }
      if valores.None? {
        return Err(CamposInvalidos);
      }
      enviando := true;
      loading := true;
      r := Ok(DatosEnviar(valores.value, Map(detalles, Enviado)));
    }

    /** The handler's `finally`: both flags come down whether the save succeeded or not. */
    method TerminarEnvio()
      modifies this
      ensures Valid() && !loading
      ensures detalles == old(detalles) && productos == old(productos) && servicios == old(servicios)
    {
      loading := false;
      enviando := false;
    }
  }
}
