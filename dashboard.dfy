/**
 * The dashboard's tables: the searches over the period's orders, new clients and
 * invoices, the invoice summary, and the payment label used in the invoice export.
 */
module Dashboard {

  import opened Wrappers
  import opened Seqs
  import opened Text
  import opened Entidades

  /** The text of a state as the API spells it. */
  function NombreEstado(e: EstadoOrden): string
  {
    match e
    case RECIBIDA => "RECIBIDA"
    case EN_PROCESO => "EN_PROCESO"
    case TERMINADA => "TERMINADA"
    case FACTURADA => "FACTURADA"
    case CANCELADA => "CANCELADA"
  }

  function NombrePago(e: EstadoPago): string
  {
    match e
    case PAGA => "PAGA"
    case NO_PAGA => "NO_PAGA"
  }

  /** The payment column of the invoice export. */
  function EtiquetaEstadoPago(e: EstadoPago): (r: string)
    ensures r == "PAGADA" <==> e.PAGA?
    ensures r == "NO PAGADA" <==> e.NO_PAGA?
  {
    match e
    case PAGA => "PAGADA"
    case NO_PAGA => "NO PAGADA"
  }

  /** An optional text lower-cased, or "" when absent. */
  function Campo(o: Option<string>): string
  {
    if o.Some? then Lower(o.value) else ""
  }

  // ----- orders of the period -----

  datatype OrdenDash = OrdenDash(id: int, clienteNombre: Option<string>, placa: Option<string>, estado: EstadoOrden)

  predicate OrdenCoincide(o: OrdenDash, texto: string)
  {
    Includes(Campo(o.clienteNombre), texto) || Includes(Campo(o.placa), texto)
    || Includes(IntToString(o.id), texto) || Includes(Lower(NombreEstado(o.estado)), texto)
  }

  /** `None` stands for data not loaded yet. */
  function FiltrarOrdenes(data: Option<seq<OrdenDash>>, search: string): (r: seq<OrdenDash>)
    ensures data.None? ==> r == []
    ensures data.Some? && search == "" ==> r == data.value
    ensures data.Some? ==> IsSubseq(r, data.value)
    ensures data.Some? && search != "" ==>
              (forall i :: 0 <= i < |r| ==> OrdenCoincide(r[i], Lower(search)))
              && forall i :: 0 <= i < |data.value| && OrdenCoincide(data.value[i], Lower(search)) ==> data.value[i] in r
  {
    if data.None? then []
    else if search == "" then SubseqRefl(data.value); data.value
    else Filter(data.value, (o: OrdenDash) => OrdenCoincide(o, Lower(search)))
  }

  // ----- new clients of the period -----

  datatype ClienteDash = ClienteDash(nombre: Option<string>, identificacion: Option<string>, telefono: Option<string>)

  predicate ClienteCoincide(c: ClienteDash, texto: string)
  {
    Includes(Campo(c.nombre), texto) || Includes(Campo(c.identificacion), texto) || Includes(Campo(c.telefono), texto)
  }

  function FiltrarClientesNuevos(data: Option<seq<ClienteDash>>, search: string): (r: seq<ClienteDash>)
    ensures data.None? ==> r == []
    ensures data.Some? && search == "" ==> r == data.value
    ensures data.Some? ==> IsSubseq(r, data.value)
    ensures data.Some? && search != "" ==>
              (forall i :: 0 <= i < |r| ==> ClienteCoincide(r[i], Lower(search)))
              && forall i :: 0 <= i < |data.value| && ClienteCoincide(data.value[i], Lower(search)) ==> data.value[i] in r
  {
    if data.None? then []
    else if search == "" then SubseqRefl(data.value); data.value
    else Filter(data.value, (c: ClienteDash) => ClienteCoincide(c, Lower(search)))
  }

  // ----- invoices of the period -----

  datatype FacturaDash = FacturaDash(id: int, clienteNombre: Option<string>, placa: Option<string>,
                                     estadoPago: EstadoPago, metodoPago: Option<string>, total: Option<int>)

  predicate FacturaCoincide(f: FacturaDash, texto: string)
  {
    Includes(Campo(f.clienteNombre), texto) || Includes(Campo(f.placa), texto)
    || Includes(IntToString(f.id), texto) || Includes(Lower(NombrePago(f.estadoPago)), texto)
    || Includes(Campo(f.metodoPago), texto)
  }

  function FiltrarFacturas(data: Option<seq<FacturaDash>>, search: string): (r: seq<FacturaDash>)
    ensures data.None? ==> r == []
    ensures data.Some? && search == "" ==> r == data.value
    ensures data.Some? ==> IsSubseq(r, data.value)
    ensures data.Some? && search != "" ==>
              (forall i :: 0 <= i < |r| ==> FacturaCoincide(r[i], Lower(search)))
              && forall i :: 0 <= i < |data.value| && FacturaCoincide(data.value[i], Lower(search)) ==> data.value[i] in r
  {
    if data.None? || |data.value| == 0 then []
    else if search == "" then SubseqRefl(data.value); data.value
    else Filter(data.value, (f: FacturaDash) => FacturaCoincide(f, Lower(search)))
  }

  // ----- invoice summary -----

  datatype Resumen = Resumen(total: int, pagadas: int, pendientes: int, totalPagado: int, totalPendiente: int)

  function TotalDe(f: FacturaDash): int
  {
    NumberOr(f.total, 0)
  }

  function CalcularResumenFacturas(data: Option<seq<FacturaDash>>): (r: Resumen)
    ensures r.total == if data.Some? then |data.value| else 0
    ensures r.pagadas <= r.total && r.pendientes <= r.total
  {
    if data.None? || |data.value| == 0 then Resumen(0, 0, 0, 0, 0)
    else
      var pagadas := Filter(data.value, (f: FacturaDash) => f.estadoPago == PAGA);
      var pendientes := Filter(data.value, (f: FacturaDash) => f.estadoPago == NO_PAGA);
      Resumen(|data.value|, |pagadas|, |pendientes|, SumOf(pagadas, TotalDe), SumOf(pendientes, TotalDe))
  }

  /**
   * The summary counts every invoice exactly once as paid or pending, and the paid
   * and pending amounts add up to the sum of all totals; without invoices every
   * figure is 0.
   */
  lemma ResumenCuadra(data: Option<seq<FacturaDash>>)
    ensures var r := CalcularResumenFacturas(data);
            var fs := if data.Some? then data.value else [];
            r.pagadas + r.pendientes == r.total && r.total == |fs|
            && r.totalPagado + r.totalPendiente == SumOf(fs, TotalDe)
            && r.totalPagado == SumOf(fs, (f: FacturaDash) => if f.estadoPago == PAGA then TotalDe(f) else 0)
    ensures data.None? || data.value == [] ==> CalcularResumenFacturas(data) == Resumen(0, 0, 0, 0, 0)
  {
    if data.Some? && |data.value| > 0 {
      var fs := data.value;
      var pagada := (f: FacturaDash) => f.estadoPago == PAGA;
      var pendiente := (f: FacturaDash) => f.estadoPago == NO_PAGA;
      FilterPartition(fs, pagada, pendiente);
      SumPartition(fs, pagada, pendiente, TotalDe);
      SumFilter(fs, pagada, TotalDe, (f: FacturaDash) => if f.estadoPago == PAGA then TotalDe(f) else 0);
    }
  }
}
