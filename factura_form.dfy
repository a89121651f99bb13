/**
 * The form that invoices a finished work order: only finished orders can be
 * chosen, and the invoice takes its total, client and vehicle from the chosen order.
 */
module FacturaForm {

  import opened Wrappers
  import opened Seqs
  import opened Entidades

  datatype Orden = Orden(id: int, estado: EstadoOrden, total: Option<int>, clienteId: Option<int>, vehiculoId: Option<int>)

  /** The orders offered for invoicing: the finished ones, in their original order. */
  function Terminadas(ordenes: seq<Orden>): (r: seq<Orden>)
    ensures IsSubseq(r, ordenes)
    ensures forall i :: 0 <= i < |r| ==> r[i].estado == TERMINADA
    ensures forall i :: 0 <= i < |ordenes| && ordenes[i].estado == TERMINADA ==> ordenes[i] in r
  {
    Filter(ordenes, (o: Orden) => o.estado == TERMINADA)
  }

  /** `ordenes.find(o => o.id === id)`. */
  function FindOrden(os: seq<Orden>, id: int): Option<Orden>
  {
    Find(os, (o: Orden) => o.id, id)
  }

  /**
   * The selection after choosing order `id` among the offered ones: an order that is
   * not finished leaves the selection as it was; otherwise the selection becomes the
   * order found, or nothing when there is none.
   */
  function Seleccion(actual: Option<Orden>, ofrecidas: seq<Orden>, id: int): Option<Orden>
  {
    var o := FindOrden(ofrecidas, id);
    if o.Some? && o.value.estado != TERMINADA then actual else o
  }

  /**
   * Because only finished orders are offered, the guard never fires: choosing an
   * order always selects it, and the selection is always a finished order.
   */
  lemma SeleccionSiempreTerminada(actual: Option<Orden>, ordenes: seq<Orden>, id: int)
    ensures Seleccion(actual, Terminadas(ordenes), id) == FindOrden(Terminadas(ordenes), id)
    ensures Seleccion(actual, Terminadas(ordenes), id).Some? ==>
              Seleccion(actual, Terminadas(ordenes), id).value.estado == TERMINADA
              && Seleccion(actual, Terminadas(ordenes), id).value in ordenes
  {
  }

  /** Choosing an order that is not finished, were one offered, would keep the previous selection. */
  lemma SeleccionRechazada(actual: Option<Orden>, ofrecidas: seq<Orden>, id: int)
    requires FindOrden(ofrecidas, id).Some? && FindOrden(ofrecidas, id).value.estado != TERMINADA
    ensures Seleccion(actual, ofrecidas, id) == actual
  {
  }

  datatype Valores = Valores(ordenId: int, metodoPago: string, estadoPago: EstadoPago, notas: Option<string>)

  datatype Payload = Payload(ordenId: int, metodoPago: string, estadoPago: EstadoPago, notas: Option<string>,
                             total: int, clienteId: Option<int>, vehiculoId: Option<int>)

  /** Finishing the form: nothing is sent without a selected order; the amounts and parties come from it. */
  function AlEnviar(seleccion: Option<Orden>, v: Valores): (r: Option<Payload>)
    ensures r.Some? <==> seleccion.Some?
    ensures r.Some? ==>
              r.value.total == NumberOr(seleccion.value.total, 0)
              && r.value.clienteId == seleccion.value.clienteId && r.value.vehiculoId == seleccion.value.vehiculoId
              && r.value.ordenId == v.ordenId && r.value.estadoPago == v.estadoPago
              && r.value.metodoPago == v.metodoPago && r.value.notas == v.notas
  {
    if seleccion.None? then None
    else Some(Payload(v.ordenId, v.metodoPago, v.estadoPago, v.notas, NumberOr(seleccion.value.total, 0),
                      seleccion.value.clienteId, seleccion.value.vehiculoId))
  }

  /** A price field as it may arrive. */
  datatype Precio = Nulo | Indefinido | Vacio | NoNumerico | Numero(centavos: int)

  /**
   * The price text: "$0.00" for a missing, empty or non-numeric price; otherwise "$"
   * followed by the locale rendering of the number, which is given as `formato`.
   */
  function FormatPrice(p: Precio, formato: int -> string): (r: string)
    ensures |r| >= 1 && r[0] == '$'
    ensures !p.Numero? ==> r == "$0.00"
    ensures p.Numero? ==> r[1..] == formato(p.centavos)
  {
    if p.Numero? then "$" + formato(p.centavos) else "$0.00"
  }

  class Formulario {
    var ordenesFiltradas: seq<Orden>
    var ordenSeleccionada: Option<Orden>
    var ordenId: Option<int>
    var estadoPagoInicial: EstadoPago

    /** Only finished orders are offered or selected. */
    ghost predicate Valid()
      reads this
    {
      (forall i :: 0 <= i < |ordenesFiltradas| ==> ordenesFiltradas[i].estado == TERMINADA)
      && (ordenSeleccionada.Some? ==> ordenSeleccionada.value.estado == TERMINADA)
    }

    constructor ()
      ensures Valid() && ordenesFiltradas == [] && ordenSeleccionada.None? && ordenId.None?
      ensures estadoPagoInicial == NO_PAGA
    {
      ordenesFiltradas := [];
      ordenSeleccionada := None;
      ordenId := None;
      estadoPagoInicial := NO_PAGA;
    }

    method CargarOrdenes(ordenes: seq<Orden>)
      requires Valid()
      modifies this
      ensures Valid()
      ensures ordenesFiltradas == Terminadas(ordenes)
      ensures ordenSeleccionada == old(ordenSeleccionada) && ordenId == old(ordenId)
      ensures estadoPagoInicial == old(estadoPagoInicial)
    {
      ordenesFiltradas := Terminadas(ordenes);
    }

    method OnOrdenChange(id: int)
      requires Valid()
      modifies this
      ensures Valid()
      ensures ordenSeleccionada == Seleccion(old(ordenSeleccionada), ordenesFiltradas, id)
      ensures ordenSeleccionada == FindOrden(ordenesFiltradas, id) && ordenId == Some(id)
      ensures ordenesFiltradas == old(ordenesFiltradas) && estadoPagoInicial == old(estadoPagoInicial)
    {
      ordenSeleccionada := Seleccion(ordenSeleccionada, ordenesFiltradas, id);
      ordenId := Some(id);
    }

    method OnFinish(v: Valores) returns (r: Option<Payload>)
      requires Valid()
      ensures r == AlEnviar(ordenSeleccionada, v)
      ensures r.Some? ==> ordenSeleccionada.Some? && ordenSeleccionada.value.estado == TERMINADA
    {
      r := AlEnviar(ordenSeleccionada, v);
    }
  }
}
