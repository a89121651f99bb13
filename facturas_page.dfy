/**
 * The invoice list page: how an invoice's vehicle and mechanic are resolved from
 * the invoice itself or from the order it came from, the search and the two
 * payment filters, the delete gate, the edit busy flag, and the collected total.
 */
module FacturasPage {

  import opened Wrappers
  import opened Seqs
  import opened Text
  import opened Entidades

  /** A vehicle as embedded in an invoice or an order; an empty text stands for an absent field. */
  datatype Vehiculo = Vehiculo(placa: string, marca: string, modelo: string)

  datatype Mecanico = Mecanico(nombre: string, especialidad: string)

  datatype OrdenRef = OrdenRef(id: int, vehiculo: Option<Vehiculo>, mecanico: Option<Mecanico>)

  /** An invoice as listed; the direct vehicle and mechanic are set on invoices made without an order. */
  datatype Factura = Factura(id: int, total: Option<int>, metodoPago: string, estadoPago: EstadoPago,
                             clienteNombre: Option<string>, orden: Option<OrdenRef>,
                             vehiculo: Option<Vehiculo>, mecanico: Option<Mecanico>)

  /** Where a resolved vehicle came from. */
  datatype Origen = Directo | DeOrden

  datatype VehiculoResuelto = VehiculoResuelto(vehiculo: Vehiculo, origen: Origen)

  predicate VehiculoEnOrden(f: Factura)
  {
    f.orden.Some? && f.orden.value.vehiculo.Some?
  }

  /** The invoice's own vehicle wins; otherwise the order's; otherwise none. */
  function ObtenerVehiculo(f: Factura): (r: Option<VehiculoResuelto>)
    ensures f.vehiculo.Some? ==> r == Some(VehiculoResuelto(f.vehiculo.value, Directo))
    ensures f.vehiculo.None? && VehiculoEnOrden(f) ==> r == Some(VehiculoResuelto(f.orden.value.vehiculo.value, DeOrden))
    ensures r.None? <==> f.vehiculo.None? && !VehiculoEnOrden(f)
  {
    if f.vehiculo.Some? then Some(VehiculoResuelto(f.vehiculo.value, Directo))
    else if VehiculoEnOrden(f) then Some(VehiculoResuelto(f.orden.value.vehiculo.value, DeOrden))
    else None
  }

  /** The plate of the resolved vehicle, or "N/A". */
  function ObtenerPlacaVehiculo(f: Factura): (r: string)
    ensures r != ""
    ensures ObtenerVehiculo(f).Some? && ObtenerVehiculo(f).value.vehiculo.placa != "" ==>
              r == ObtenerVehiculo(f).value.vehiculo.placa
  {
    var v := ObtenerVehiculo(f);
    if v.Some? && v.value.vehiculo.placa != "" then v.value.vehiculo.placa else "N/A"
  }

  /** "PLACA", "PLACA (MARCA)" or "PLACA (MARCA MODELO)"; the model is shown only with a make. */
  function Describir(v: Vehiculo): (r: string)
    ensures v.placa <= r
    ensures v.marca == "" ==> r == v.placa
    ensures v.marca != "" ==> |r| > 0 && r[|r| - 1] == ')' && Includes(r, v.marca)
  {
    if v.marca == "" then v.placa
    else
      var r := v.placa + " (" + v.marca + (if v.modelo != "" then " " + v.modelo else "") + ")";
      assert (v.placa + " (") + v.marca + (if v.modelo != "" then " " + v.modelo else "") + ")" == r;
      IncludesAt(r, v.marca, |v.placa| + 2);
      r
  }

  /** The vehicle column: the resolved vehicle described, or "N/A". */
  function ObtenerInfoVehiculo(f: Factura): (r: string)
    ensures ObtenerVehiculo(f).None? ==> r == "N/A"
    ensures ObtenerVehiculo(f).Some? ==> r == Describir(ObtenerVehiculo(f).value.vehiculo)
  {
    var v := ObtenerVehiculo(f);
    if v.None? then "N/A" else Describir(v.value.vehiculo)
  }

  /** The mechanic's name: the invoice's own mechanic, else the order's, else "N/A". */
  function ObtenerMecanico(f: Factura): (r: string)
    ensures f.mecanico.Some? ==> r == f.mecanico.value.nombre
    ensures f.mecanico.None? && f.orden.Some? && f.orden.value.mecanico.Some? ==> r == f.orden.value.mecanico.value.nombre
    ensures f.mecanico.None? && (f.orden.None? || f.orden.value.mecanico.None?) ==> r == "N/A"
  {
    if f.mecanico.Some? then f.mecanico.value.nombre
    else if f.orden.Some? && f.orden.value.mecanico.Some? then f.orden.value.mecanico.value.nombre
    else "N/A"
  }

  /** The mechanic's speciality: the first non-empty one of the invoice's mechanic and the order's. */
  function ObtenerEspecialidadMecanico(f: Factura): (r: string)
    ensures f.mecanico.Some? && f.mecanico.value.especialidad != "" ==> r == f.mecanico.value.especialidad
    ensures !(f.mecanico.Some? && f.mecanico.value.especialidad != "") && f.orden.Some? && f.orden.value.mecanico.Some? ==>
              r == f.orden.value.mecanico.value.especialidad
    ensures !(f.mecanico.Some? && f.mecanico.value.especialidad != "") && (f.orden.None? || f.orden.value.mecanico.None?) ==>
              r == ""
  {
    if f.mecanico.Some? && f.mecanico.value.especialidad != "" then f.mecanico.value.especialidad
    else if f.orden.Some? && f.orden.value.mecanico.Some? && f.orden.value.mecanico.value.especialidad != ""
    then f.orden.value.mecanico.value.especialidad
    else ""
  }

  /**
   * The name and the speciality can come from different mechanics: a direct mechanic
   * without a speciality shows its own name beside the order mechanic's speciality.
   */
  lemma EspecialidadDeOtroMecanico()
    ensures var f := Factura(1, Some(0), "EFECTIVO", NO_PAGA, None,
                             Some(OrdenRef(9, None, Some(Mecanico("Ana", "Frenos")))),
                             None, Some(Mecanico("Luis", "")));
            ObtenerMecanico(f) == "Luis" && ObtenerEspecialidadMecanico(f) == "Frenos"
  {
  }

  // ----- search and filters -----

  function NombreEstadoPago(e: EstadoPago): string
  {
    match e
    case PAGA => "PAGA"
    case NO_PAGA => "NO_PAGA"
  }

  /** The search over client, plate, id (either way round), mechanic and vehicle text; `texto` is lower-cased. */
  predicate Coincide(f: Factura, texto: string)
  {
    var id := IntToString(f.id);
    Includes(Lower(f.clienteNombre.GetOr("")), texto)
    || Includes(Lower(ObtenerPlacaVehiculo(f)), texto)
    || Includes(id, texto) || Includes(texto, id)
    || Includes(Lower(ObtenerMecanico(f)), texto)
    || Includes(Lower(ObtenerInfoVehiculo(f)), texto)
  }

  /** An invoice shown under the current search and filters. */
  predicate Pasa(f: Factura, searchText: string, filtroMetodoPago: string, filtroEstadoPago: string)
  {
    (searchText != "" ==> Coincide(f, Lower(searchText)))
    && (filtroMetodoPago != "TODAS" ==> f.metodoPago == filtroMetodoPago)
    && (filtroEstadoPago != "TODAS" ==> NombreEstadoPago(f.estadoPago) == filtroEstadoPago)
  }

  /**
   * The visible invoices, narrowed step by step: by the search text, then by payment
   * method, then by payment state. The result keeps the list's order and holds
   * exactly the invoices that pass every active filter.
   */
  method FiltrarFacturas(facturas: seq<Factura>, searchText: string, filtroMetodoPago: string,
                         filtroEstadoPago: string) returns (filtradas: seq<Factura>)
    ensures IsSubseq(filtradas, facturas)
    ensures forall i :: 0 <= i < |filtradas| ==> Pasa(filtradas[i], searchText, filtroMetodoPago, filtroEstadoPago)
    ensures forall i :: 0 <= i < |facturas| && Pasa(facturas[i], searchText, filtroMetodoPago, filtroEstadoPago) ==>
              facturas[i] in filtradas
    ensures searchText == "" && filtroMetodoPago == "TODAS" && filtroEstadoPago == "TODAS" ==> filtradas == facturas
  {
    filtradas := facturas;
    SubseqRefl(facturas);
    if searchText != "" {
      var texto := Lower(searchText);
      var antes := filtradas;
      filtradas := Filter(filtradas, (f: Factura) => Coincide(f, texto));
      SubseqTrans(filtradas, antes, facturas);
    }
    if filtroMetodoPago != "TODAS" {
      var antes := filtradas;
      filtradas := Filter(filtradas, (f: Factura) => f.metodoPago == filtroMetodoPago);
      SubseqTrans(filtradas, antes, facturas);
    }
    if filtroEstadoPago != "TODAS" {
      var antes := filtradas;
      filtradas := Filter(filtradas, (f: Factura) => NombreEstadoPago(f.estadoPago) == filtroEstadoPago);
      SubseqTrans(filtradas, antes, facturas);
    }
  }

  // ----- the collected total -----

  function TotalDe(f: Factura): int
  {
    NumberOr(f.total, 0)
  }

  /** "Total Recaudado": the totals of the paid invoices. */
  function TotalRecaudado(fs: seq<Factura>): (t: int)
    ensures (forall i :: 0 <= i < |fs| ==> fs[i].estadoPago != PAGA) ==> t == 0
  {
    SumOf(Filter(fs, (f: Factura) => f.estadoPago == PAGA), TotalDe)
  }

  /** "Pendiente": the totals of the unpaid invoices. */
  function TotalPendiente(fs: seq<Factura>): (t: int)
    ensures (forall i :: 0 <= i < |fs| ==> fs[i].estadoPago != NO_PAGA) ==> t == 0
  {
    SumOf(Filter(fs, (f: Factura) => f.estadoPago == NO_PAGA), TotalDe)
  }

  /** Collected and pending totals split the sum of all invoice totals. */
  lemma RecaudadoMasPendiente(fs: seq<Factura>)
    ensures TotalRecaudado(fs) + TotalPendiente(fs) == SumOf(fs, TotalDe)
    ensures TotalRecaudado(fs) == SumOf(fs, (f: Factura) => if f.estadoPago == PAGA then TotalDe(f) else 0)
  {
    var pagada := (f: Factura) => f.estadoPago == PAGA;
    SumPartition(fs, pagada, (f: Factura) => f.estadoPago == NO_PAGA, TotalDe);
    SumFilter(fs, pagada, TotalDe, (f: Factura) => if f.estadoPago == PAGA then TotalDe(f) else 0);
  }

  // ----- the page's state -----

  /** `facturas.find(f => f.id === id)`. */
  function FindFactura(fs: seq<Factura>, id: int): Option<Factura>
  {
    Find(fs, (f: Factura) => f.id, id)
  }

  /** The list after the edited invoice is replaced by its reloaded version. */
  function Reemplazar(fs: seq<Factura>, id: int, fresca: Factura): (r: seq<Factura>)
    ensures |r| == |fs|
    ensures forall i :: 0 <= i < |fs| ==> r[i] == if fs[i].id == id then fresca else fs[i]
  {
    Map(fs, (f: Factura) => if f.id == id then fresca else f)
  }

  class Pagina {
    var facturas: seq<Factura>
    var editando: bool
    var facturaAEditar: Option<Factura>
    var versionModal: int
    var facturaAEliminar: Option<int>
    var adminPassword: string
    var passwordModalOpen: bool

    constructor ()
      ensures facturas == [] && !editando && facturaAEditar.None? && facturaAEliminar.None?
      ensures !passwordModalOpen && adminPassword == "" && versionModal == 0
    {
      facturas := [];
      editando := false;
      facturaAEditar := None;
      versionModal := 0;
      facturaAEliminar := None;
      adminPassword := "";
      passwordModalOpen := false;
    }

    /**
     * The delete button: ignored while an edit is in flight, for an unknown invoice
     * and for a paid one; otherwise the password prompt opens, empty, for that invoice.
     */
    method EliminarFactura(id: int)
      modifies this
      ensures var f := FindFactura(facturas, id);
              if old(editando) || f.None? || f.value.estadoPago == PAGA
              then facturaAEliminar == old(facturaAEliminar) && adminPassword == old(adminPassword)
                   && passwordModalOpen == old(passwordModalOpen)
              else facturaAEliminar == Some(id) && adminPassword == "" && passwordModalOpen
      ensures passwordModalOpen && !old(passwordModalOpen) ==>
                FindFactura(facturas, id).Some? && FindFactura(facturas, id).value.estadoPago == NO_PAGA && !editando
      ensures facturas == old(facturas) && editando == old(editando) && facturaAEditar == old(facturaAEditar)
      ensures versionModal == old(versionModal)
    {
      if editando {
        return;
      }
      var f := FindFactura(facturas, id);
      if f.None? {
        return;
      }
      if f.value.estadoPago == PAGA {
        return;
      }
      facturaAEliminar := Some(id);
      adminPassword := "";
      passwordModalOpen := true;
    }

    /** The first half of the edit handler: a second edit while one is in flight is ignored. */
    method IniciarEdicion() returns (aceptada: bool)
      modifies this
      ensures aceptada <==> !old(editando)
      ensures editando
      ensures facturas == old(facturas) && facturaAEditar == old(facturaAEditar) && versionModal == old(versionModal)
      ensures facturaAEliminar == old(facturaAEliminar) && adminPassword == old(adminPassword)
      ensures passwordModalOpen == old(passwordModalOpen)
    {
      if editando {
        return false;
      }
      editando := true;
      aceptada := true;
    }

    /**
     * The end of the edit handler. `fresca` is the invoice as reloaded after the save,
     * `None` when the save or the reload failed. On success it replaces the invoice
     * in the list and in the editor; in every case the busy flag comes down.
     */
    method ConcluirEdicion(id: int, fresca: Option<Factura>) returns (r: Option<Factura>)
      modifies this
      ensures !editando && r == fresca
      ensures fresca.None? ==>
                facturas == old(facturas) && facturaAEditar == old(facturaAEditar) && versionModal == old(versionModal)
      ensures fresca.Some? ==>
                facturas == Reemplazar(old(facturas), id, fresca.value)
                && facturaAEditar == (if old(facturaAEditar).Some? && old(facturaAEditar).value.id == id
                                      then fresca else old(facturaAEditar))
                && versionModal == old(versionModal) + 1
      ensures facturaAEliminar == old(facturaAEliminar) && passwordModalOpen == old(passwordModalOpen)
      ensures adminPassword == old(adminPassword)
    {
      if fresca.Some? {
        facturas := Reemplazar(facturas, id, fresca.value);
        if facturaAEditar.Some? && facturaAEditar.value.id == id {
          facturaAEditar := fresca;
        }
        versionModal := versionModal + 1;
      }
      editando := false;
      r := fresca;
    }
  }
}
