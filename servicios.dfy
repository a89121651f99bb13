/**
 * The service catalogue page: the active toggle applied to the loaded list, the
 * header counters, the search and the row highlighting. Durations are written by
 * `Duracion.FormatDuracion`.
 */
module Servicios {

  import opened Wrappers
  import opened Seqs
  import opened Text

  datatype Servicio = Servicio(id: int, nombre: string, descripcion: Option<string>,
                               categoria: Option<string>, esActivo: bool, requiereRepuestos: bool)

  /** The list after a successful toggle of `id`: that service's flag flipped, nothing else touched. */
  function Alternado(ss: seq<Servicio>, id: int): (r: seq<Servicio>)
    ensures |r| == |ss|
    ensures forall i :: 0 <= i < |ss| ==> r[i].esActivo == (if ss[i].id == id then !ss[i].esActivo else ss[i].esActivo)
    ensures forall i :: 0 <= i < |ss| ==> r[i].(esActivo := ss[i].esActivo) == ss[i]
  {
    Map(ss, (s: Servicio) => if s.id == id then s.(esActivo := !s.esActivo) else s)
  }

  /** Toggling twice gives the list back. */
  lemma AlternadoDosVeces(ss: seq<Servicio>, id: int)
    ensures Alternado(Alternado(ss, id), id) == ss
  {
    var r := Alternado(Alternado(ss, id), id);
    assert forall i :: 0 <= i < |ss| ==> r[i] == ss[i];
  }

  function TotalActivos(ss: seq<Servicio>): (r: nat)
    ensures r <= |ss|
  {
    |Filter(ss, (s: Servicio) => s.esActivo)|
  }

  function TotalConRepuestos(ss: seq<Servicio>): (r: nat)
    ensures r <= |ss|
  {
    |Filter(ss, (s: Servicio) => s.requiereRepuestos)|
  }

  /**
   * A toggle moves the services with that id across the active count: those that
   * were active leave it and those that were inactive join it.
   */
  lemma {:induction false} ActivosTrasAlternar(ss: seq<Servicio>, id: int)
    ensures TotalActivos(Alternado(ss, id)) + |Filter(ss, (s: Servicio) => s.id == id && s.esActivo)|
            == TotalActivos(ss) + |Filter(ss, (s: Servicio) => s.id == id && !s.esActivo)|
    decreases |ss|
  {
    if ss != [] {
      ActivosTrasAlternar(ss[1..], id);
      assert Alternado(ss, id)[1..] == Alternado(ss[1..], id);
    }
  }

  /** The toggle leaves the spare-parts count alone. */
  lemma {:induction false} RepuestosTrasAlternar(ss: seq<Servicio>, id: int)
    ensures TotalConRepuestos(Alternado(ss, id)) == TotalConRepuestos(ss)
    decreases |ss|
  {
    if ss != [] {
      RepuestosTrasAlternar(ss[1..], id);
      assert Alternado(ss, id)[1..] == Alternado(ss[1..], id);
    }
  }

  predicate Coincide(s: Servicio, texto: string)
  {
    Includes(Lower(s.nombre), texto)
    || (s.descripcion.Some? && s.descripcion.value != "" && Includes(Lower(s.descripcion.value), texto))
    || (s.categoria.Some? && s.categoria.value != "" && Includes(Lower(s.categoria.value), texto))
  }

  /** The whole list for an empty search, otherwise the services matching name, description or category. */
  function ServiciosFiltrados(ss: seq<Servicio>, searchText: string): (r: seq<Servicio>)
    ensures searchText == "" ==> r == ss
    ensures IsSubseq(r, ss)
    ensures searchText != "" ==>
              (forall i :: 0 <= i < |r| ==> Coincide(r[i], Lower(searchText)))
              && forall i :: 0 <= i < |ss| && Coincide(ss[i], Lower(searchText)) ==> ss[i] in r
  {
    if searchText == "" then SubseqRefl(ss); ss
    else Filter(ss, (s: Servicio) => Coincide(s, Lower(searchText)))
  }

  /** Inactive rows (when inactive ones are hidden from the query) win over rows needing parts. */
  function ClaseFila(s: Servicio, includeInactive: bool): (r: string)
    ensures r == "row-inactive" <==> !includeInactive && !s.esActivo
    ensures r == "row-requires-parts" <==> (includeInactive || s.esActivo) && s.requiereRepuestos
    ensures r == "" <==> (includeInactive || s.esActivo) && !s.requiereRepuestos
  {
    if !includeInactive && !s.esActivo then "row-inactive"
    else if s.requiereRepuestos then "row-requires-parts"
    else ""
  }

  /** The only role the page serves. */
  const VENDEDOR: string := "VENDEDOR"

  class Pagina {
    var servicios: seq<Servicio>
    var userRol: Option<string>
    var accesoDenegado: bool

    constructor ()
      ensures servicios == [] && userRol.None? && !accesoDenegado
    {
      servicios := [];
      userRol := None;
      accesoDenegado := false;
    }

    /**
     * `loadData`. `rolVisto` is the role held by the closure of the render that
     * created the handler; only a seller's closure sends the request. `prohibido`
     * is whether the server answered 403, which denies access and keeps the list;
     * otherwise the received list is stored.
     * The refresh button and the reloads after a write use the current render's
     * handler, so they pass `userRol`.
     */
    method Cargar(rolVisto: Option<string>, recibidos: seq<Servicio>, prohibido: bool)
      modifies this
      ensures rolVisto == Some(VENDEDOR) && !prohibido ==> servicios == recibidos
      ensures rolVisto != Some(VENDEDOR) || prohibido ==> servicios == old(servicios)
      ensures accesoDenegado == (old(accesoDenegado) || (rolVisto == Some(VENDEDOR) && prohibido))
      ensures userRol == old(userRol)
    {
      if rolVisto != Some(VENDEDOR) {
        return;
      }
      if prohibido {
        accesoDenegado := true;
        return;
      }
      servicios := recibidos;
    }

    /**
     * The mount effect as written. `rol` is the stored role, `None` when it or the
     * token is missing (the page then redirects). Another role denies access; a
     * seller's role is stored, but the `loadData` called is the first render's, whose
     * closure still sees no role, so no request is sent (`recibidos` and `prohibido`
     * are the answer it would have had) and the list is left as it was: empty.
     */
    method MontarComoEscrito(rol: Option<string>, recibidos: seq<Servicio>, prohibido: bool)
      requires userRol.None?
      modifies this
      ensures rol == Some(VENDEDOR) ==> userRol == rol && accesoDenegado == old(accesoDenegado) && servicios == old(servicios)
      ensures rol.Some? && rol != Some("") && rol != Some(VENDEDOR) ==> accesoDenegado && userRol.None?
      ensures servicios == old(servicios)
    {
      if rol.None? || rol == Some("") {
        return;
      }
      if rol != Some(VENDEDOR) {
        accesoDenegado := true;
        return;
      }
      var visto := userRol;
      userRol := rol;
      Cargar(visto, recibidos, prohibido);
    }

    /** The mount effect as intended: a seller's page loads the catalogue at once, unless the server answers 403. */
    method Montar(rol: Option<string>, recibidos: seq<Servicio>, prohibido: bool)
      requires userRol.None?
      modifies this
      ensures rol == Some(VENDEDOR) && !prohibido ==>
                userRol == rol && accesoDenegado == old(accesoDenegado) && servicios == recibidos
      ensures rol == Some(VENDEDOR) && prohibido ==> userRol == rol && accesoDenegado && servicios == old(servicios)
      ensures rol.Some? && rol != Some("") && rol != Some(VENDEDOR) ==>
                accesoDenegado && userRol.None? && servicios == old(servicios)
      ensures rol.None? || rol == Some("") ==> servicios == old(servicios) && userRol.None?
    {
      if rol.None? || rol == Some("") {
        return;
      }
      if rol != Some(VENDEDOR) {
        accesoDenegado := true;
        return;
      }
      userRol := rol;
      Cargar(userRol, recibidos, prohibido);
    }

    /** `exito` is whether the PATCH request succeeded; a failed request changes nothing. */
    method ToggleActivo(id: int, exito: bool)
      modifies this
      ensures exito ==> servicios == Alternado(old(servicios), id)
      ensures !exito ==> servicios == old(servicios)
      ensures TotalConRepuestos(servicios) == TotalConRepuestos(old(servicios))
    {
      if exito {
        RepuestosTrasAlternar(servicios, id);
        servicios := Alternado(servicios, id);
      }
    }
  }
}
