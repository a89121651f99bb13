/**
 * The work-order list page: loading and ordering the orders, the status buttons,
 * the counters above the table, the search, and removal after a confirmed delete.
 */
module OrdenesPage {

  import opened Wrappers
  import opened Seqs
  import opened Text
  import opened Entidades
  import MiTrabajo

  /**
   * An order as the API sends it. Dates are timestamps; `None` stands for a missing
   * or empty date and for a missing or non-numeric total.
   */
  datatype OrdenCruda = OrdenCruda(id: int, estado: EstadoOrden, total: Option<int>, createdAt: Option<int>,
                                   fechaIngreso: Option<int>, clienteNombre: string,
                                   clienteIdentificacion: Option<string>, placa: string, mecanicoNombre: string)

  datatype Orden = Orden(id: int, estado: EstadoOrden, total: int, createdAt: Option<int>, clienteNombre: string,
                         clienteIdentificacion: Option<string>, placa: string, mecanicoNombre: string)

  /** The total becomes a number (0 when it is not one); the creation date falls back to the intake date. */
  function Normalizar(o: OrdenCruda): (r: Orden)
    ensures r.id == o.id && r.estado == o.estado
    ensures r.total == NumberOr(o.total, 0)
    ensures r.createdAt == if o.createdAt.Some? then o.createdAt else o.fechaIngreso
  {
    Orden(o.id, o.estado, NumberOr(o.total, 0), if o.createdAt.Some? then o.createdAt else o.fechaIngreso,
          o.clienteNombre, o.clienteIdentificacion, o.placa, o.mecanicoNombre)
  }

  // ----- newest first -----

  function Clave(o: Orden): int
  {
    o.createdAt.GetOr(0)
  }

  /** Newest first. */
  predicate Descendente(s: seq<Orden>)
  {
    forall i, j :: 0 <= i < j < |s| ==> Clave(s[i]) >= Clave(s[j])
  }

  /** Puts `x` before the first order that is not newer than it. */
  function Insertar(x: Orden, t: seq<Orden>): (r: seq<Orden>)
    ensures |r| == |t| + 1
    ensures multiset(r) == multiset(t) + multiset{x}
  {
    if t == [] || Clave(t[0]) <= Clave(x) then [x] + t
    else
      assert t == [t[0]] + t[1..];
      [t[0]] + Insertar(x, t[1..])
  }

  /** Inserting into a newest-first list keeps it newest first. */
  lemma {:induction false} InsertarOrdenado(x: Orden, t: seq<Orden>)
    requires Descendente(t)
    ensures Descendente(Insertar(x, t))
    ensures Insertar(x, t)[0] == x || Insertar(x, t)[0] == t[0]
    decreases |t|
  {
    if t != [] && Clave(t[0]) > Clave(x) {
      InsertarOrdenado(x, t[1..]);
      var r := Insertar(x, t);
      assert r == [t[0]] + Insertar(x, t[1..]);
      forall j | 0 < j < |r|
        ensures Clave(r[0]) >= Clave(r[j])
      {
        assert r[j] in multiset(Insertar(x, t[1..]));
        assert r[j] in multiset(t[1..]) + multiset{x};
        if r[j] != x {
          assert r[j] in t[1..];
        }
      }
    }
  }

  /** The loaded orders sorted by creation date, newest first. */
  function OrdenarDesc(s: seq<Orden>): (r: seq<Orden>)
    ensures |r| == |s|
    ensures multiset(r) == multiset(s)
    ensures Descendente(r)
  {
    if s == [] then []
    else
      assert s == [s[0]] + s[1..];
      InsertarOrdenado(s[0], OrdenarDesc(s[1..]));
      Insertar(s[0], OrdenarDesc(s[1..]))
  }

  /** The orders created at instant `k`, in list order. */
  function ConClave(s: seq<Orden>, k: int): seq<Orden>
  {
    Filter(s, (o: Orden) => Clave(o) == k)
  }

  /** `x` lands before every order of its own instant: insertion keeps ties in arrival order. */
  lemma {:induction false} InsertarEstable(x: Orden, t: seq<Orden>, k: int)
    ensures ConClave(Insertar(x, t), k) == (if Clave(x) == k then [x] else []) + ConClave(t, k)
    decreases |t|
  {
    if t == [] || Clave(t[0]) <= Clave(x) {
      assert ([x] + t)[1..] == t;
    } else {
      InsertarEstable(x, t[1..], k);
      assert ([t[0]] + Insertar(x, t[1..]))[1..] == Insertar(x, t[1..]);
      assert t == [t[0]] + t[1..];
    }
  }

  /**
   * The sort is stable, as JavaScript's `sort` is: orders with the same creation
   * date keep the order in which they were loaded.
   */
  lemma {:induction false} OrdenarDescEstable(s: seq<Orden>, k: int)
    ensures ConClave(OrdenarDesc(s), k) == ConClave(s, k)
    decreases |s|
  {
    if s != [] {
      var resto := OrdenarDesc(s[1..]);
      assert OrdenarDesc(s) == Insertar(s[0], resto);
      OrdenarDescEstable(s[1..], k);
      InsertarEstable(s[0], resto, k);
      assert ConClave(s, k) == (if Clave(s[0]) == k then [s[0]] else []) + ConClave(s[1..], k);
    }
  }

  // ----- status change -----

  /** After a successful status change, only the order with that id shows the new state. */
  function ConEstado(ordenes: seq<Orden>, id: int, estado: EstadoOrden): (r: seq<Orden>)
    ensures |r| == |ordenes|
    ensures forall i :: 0 <= i < |ordenes| ==>
              r[i] == if ordenes[i].id == id then ordenes[i].(estado := estado) else ordenes[i]
  {
    Map(ordenes, (o: Orden) => if o.id == id then o.(estado := estado) else o)
  }

  // ----- counters -----

  datatype Stats = Stats(total: int, recibidas: int, enProceso: int, totalIngresos: int)

  function Total(o: Orden): int
  {
    o.total
  }

  function Contar(ordenes: seq<Orden>): Stats
  {
    Stats(|ordenes|,
          |Filter(ordenes, (o: Orden) => o.estado == RECIBIDA)|,
          |Filter(ordenes, (o: Orden) => o.estado == EN_PROCESO)|,
          SumOf(ordenes, Total))
  }

  lemma {:induction false} CuentaDisjunta(s: seq<Orden>)
    ensures |Filter(s, (o: Orden) => o.estado == RECIBIDA)| + |Filter(s, (o: Orden) => o.estado == EN_PROCESO)| <= |s|
    decreases |s|
  {
    if s != [] {
      CuentaDisjunta(s[1..]);
    }
  }

  lemma {:induction false} IngresosSinCambio(s: seq<Orden>, id: int, estado: EstadoOrden)
    ensures SumOf(ConEstado(s, id, estado), Total) == SumOf(s, Total)
    decreases |s|
  {
    if s != [] {
      assert ConEstado(s, id, estado)[1..] == ConEstado(s[1..], id, estado);
      IngresosSinCambio(s[1..], id, estado);
    }
  }

  /**
   * The received and in-progress counters never exceed the order count, and a status
   * change moves orders between counters without changing the count or the revenue.
   */
  lemma StatsCoherentes(ordenes: seq<Orden>, id: int, estado: EstadoOrden)
    ensures var st := Contar(ordenes);
            0 <= st.recibidas && 0 <= st.enProceso && st.recibidas + st.enProceso <= st.total
    ensures Contar(ConEstado(ordenes, id, estado)).total == Contar(ordenes).total
    ensures Contar(ConEstado(ordenes, id, estado)).totalIngresos == Contar(ordenes).totalIngresos
  {
    CuentaDisjunta(ordenes);
    IngresosSinCambio(ordenes, id, estado);
  }

  // ----- search -----

  /** The search: `texto` is the lower-cased, trimmed search; the id is matched against the raw search. */
  predicate Coincide(o: Orden, texto: string, searchText: string)
    ensures texto == "" ==> Coincide(o, texto, searchText)
  {
    IncludesTrivial(Lower(o.clienteNombre));
    Includes(Lower(o.clienteNombre), texto)
    || (o.clienteIdentificacion.Some? && Includes(Lower(o.clienteIdentificacion.value), texto))
    || Includes(Lower(o.placa), texto)
    || Includes(Lower(o.mecanicoNombre), texto)
    || Includes(IntToString(o.id), searchText)
  }

  predicate Visible(o: Orden, searchText: string, estadoFilter: Option<EstadoOrden>)
  {
    (searchText != "" ==> Coincide(o, Lower(Trim(searchText)), searchText))
    && (estadoFilter.Some? ==> o.estado == estadoFilter.value)
  }

  function OrdenesFiltradas(ordenes: seq<Orden>, searchText: string, estadoFilter: Option<EstadoOrden>): (r: seq<Orden>)
    ensures |r| <= |ordenes|
    ensures estadoFilter.Some? ==> forall i :: 0 <= i < |r| ==> r[i].estado == estadoFilter.value
    ensures searchText == "" && estadoFilter.None? ==> r == ordenes
  {
    var porTexto := if searchText != "" then
                      Filter(ordenes, (o: Orden) => Coincide(o, Lower(Trim(searchText)), searchText))
                    else ordenes;
    if estadoFilter.Some? then Filter(porTexto, (o: Orden) => o.estado == estadoFilter.value) else porTexto
  }

  /**
   * The table shows, in list order, exactly the orders that match the search and the
   * state filter; a blank search with no state filter shows every order.
   */
  lemma FiltradasSpec(ordenes: seq<Orden>, searchText: string, estadoFilter: Option<EstadoOrden>)
    ensures var r := OrdenesFiltradas(ordenes, searchText, estadoFilter);
            IsSubseq(r, ordenes)
            && (forall i :: 0 <= i < |r| ==> Visible(r[i], searchText, estadoFilter))
            && (forall i :: 0 <= i < |ordenes| && Visible(ordenes[i], searchText, estadoFilter) ==> ordenes[i] in r)
    ensures IsBlank(searchText) && estadoFilter.None? ==> OrdenesFiltradas(ordenes, searchText, estadoFilter) == ordenes
  {
    var porTexto := if searchText != "" then
                      Filter(ordenes, (o: Orden) => Coincide(o, Lower(Trim(searchText)), searchText))
                    else ordenes;
    SubseqRefl(ordenes);
    if estadoFilter.Some? {
      SubseqTrans(OrdenesFiltradas(ordenes, searchText, estadoFilter), porTexto, ordenes);
    }
    if IsBlank(searchText) && searchText != "" {
      assert Lower(Trim(searchText)) == "";
      forall i | 0 <= i < |ordenes|
        ensures Coincide(ordenes[i], Lower(Trim(searchText)), searchText)
      {
        IncludesTrivial(Lower(ordenes[i].clienteNombre));
      }
      FilterAll(ordenes, (o: Orden) => Coincide(o, Lower(Trim(searchText)), searchText));
    }
  }

  // ----- row actions -----

  datatype Acciones = Acciones(iniciar: bool, terminar: bool, editar: bool, eliminar: bool)

  /** The buttons a row offers, besides the PDF export that every row has. */
  function AccionesDe(e: EstadoOrden): (a: Acciones)
    ensures a.iniciar <==> e == RECIBIDA
    ensures a.terminar <==> e == EN_PROCESO
    ensures a.editar <==> e != FACTURADA
    ensures a.eliminar <==> e == RECIBIDA
  {
    Acciones(e == RECIBIDA, e == EN_PROCESO, e != FACTURADA, e == RECIBIDA)
  }

  /**
   * The start and finish buttons are the mechanic page's transitions, so both pages
   * only move an order forward; an invoiced order offers no action, and whatever
   * can be deleted can also be edited.
   */
  lemma AccionesCoherentes(e: EstadoOrden)
    ensures AccionesDe(e).iniciar <==> MiTrabajo.Siguiente(e) == Some(EN_PROCESO)
    ensures AccionesDe(e).terminar <==> MiTrabajo.Siguiente(e) == Some(TERMINADA)
    ensures AccionesDe(e).eliminar ==> AccionesDe(e).editar && AccionesDe(e).iniciar
    ensures e == FACTURADA ==> AccionesDe(e) == Acciones(false, false, false, false)
  {
  }

  // ----- the page's state -----

  class Pagina {
    var ordenes: seq<Orden>
    var ordenAEliminar: Option<int>
    var adminPassword: string
    var passwordModalOpen: bool

    constructor ()
      ensures ordenes == [] && ordenAEliminar.None? && adminPassword == "" && !passwordModalOpen
    {
      ordenes := [];
      ordenAEliminar := None;
      adminPassword := "";
      passwordModalOpen := false;
    }

    method Cargar(crudas: seq<OrdenCruda>)
      modifies this
      ensures ordenes == OrdenarDesc(Map(crudas, Normalizar))
      ensures Descendente(ordenes) && multiset(ordenes) == multiset(Map(crudas, Normalizar))
      ensures ordenAEliminar == old(ordenAEliminar) && passwordModalOpen == old(passwordModalOpen)
      ensures adminPassword == old(adminPassword)
    {
      ordenes := OrdenarDesc(Map(crudas, Normalizar));
    }

    /** `exito` is whether the server accepted the change; only then is the list updated. */
    method CambiarEstado(id: int, estado: EstadoOrden, exito: bool)
      modifies this
      ensures ordenes == if exito then ConEstado(old(ordenes), id, estado) else old(ordenes)
      ensures Contar(ordenes).totalIngresos == Contar(old(ordenes)).totalIngresos
      ensures ordenAEliminar == old(ordenAEliminar) && passwordModalOpen == old(passwordModalOpen)
      ensures adminPassword == old(adminPassword)
    {
      if exito {
        StatsCoherentes(ordenes, id, estado);
        ordenes := ConEstado(ordenes, id, estado);
      }
    }

    /** The delete button opens the password prompt, empty, for that order. */
    method EliminarOrden(id: int)
      modifies this
      ensures ordenAEliminar == Some(id) && adminPassword == "" && passwordModalOpen
      ensures ordenes == old(ordenes)
    {
      ordenAEliminar := Some(id);
      adminPassword := "";
      passwordModalOpen := true;
    }

    /**
     * The prompt's OK: nothing happens without a password or without a selected order
     * (an id of 0 counts as none); `exito` is whether the server deleted it, and then
     * exactly the orders with that id leave the list and the prompt closes.
     */
    method ConfirmarEliminacion(exito: bool)
      modifies this
      ensures adminPassword == "" || !Truthy(ordenAEliminar) || !exito ==>
                ordenes == old(ordenes) && passwordModalOpen == old(passwordModalOpen)
      ensures adminPassword != "" && Truthy(ordenAEliminar) && exito ==>
                var id := ordenAEliminar.value;
                ordenes == Filter(old(ordenes), (o: Orden) => o.id != id) && !passwordModalOpen
                && IsSubseq(ordenes, old(ordenes))
                && (forall i :: 0 <= i < |ordenes| ==> ordenes[i].id != id)
                && (forall i :: 0 <= i < |old(ordenes)| && old(ordenes)[i].id != id ==> old(ordenes)[i] in ordenes)
      ensures ordenAEliminar == old(ordenAEliminar) && adminPassword == old(adminPassword)
    {
      if adminPassword == "" || !Truthy(ordenAEliminar) {
        return;
      }
      if exito {
        var id := ordenAEliminar.value;
        ordenes := Filter(ordenes, (o: Orden) => o.id != id);
        passwordModalOpen := false;
      }
    }
  }
}
