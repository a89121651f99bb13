/**
 * The vehicle list: the SOAT and technical-inspection expiry status computed from
 * the number of days left, the list filters, the header statistics and the row
 * highlighting. The day difference against today is an input (`None` when the
 * vehicle has no date recorded).
 */
module Vehiculos {

  import opened Wrappers
  import opened Seqs
  import opened Text

  /** The antd tag colour of a status. */
  datatype Color = Default | Error | Warning | Processing | Success

  datatype Estado = Estado(color: Color, texto: string, dias: int)

  /** The SOAT status: absent, expired, due within a week, due within a month, or current. */
  function EstadoSoat(dias: Option<int>): (r: Estado)
    ensures dias.None? ==> r == Estado(Default, "Sin SOAT", 0)
    ensures dias.Some? ==> r.dias == dias.value
    ensures dias.Some? ==> (r.color == Error <==> dias.value < 0)
    ensures dias.Some? ==> (r.color == Warning <==> 0 <= dias.value <= 7)
    ensures dias.Some? ==> (r.color == Processing <==> 8 <= dias.value <= 30)
    ensures dias.Some? ==> (r.color == Success <==> dias.value > 30)
    ensures dias.Some? ==> (r.texto == "Vencido" <==> r.color == Error)
  {
    if dias.None? then Estado(Default, "Sin SOAT", 0)
    else if dias.value < 0 then Estado(Error, "Vencido", dias.value)
    else if dias.value <= 7 then Estado(Warning, "Por vencer", dias.value)
    else if dias.value <= 30 then Estado(Processing, "Vigente", dias.value)
    else Estado(Success, "Vigente", dias.value)
  }

  /** The technical-inspection status: the same bands, feminine wording. */
  function EstadoTecno(dias: Option<int>): (r: Estado)
    ensures dias.None? ==> r == Estado(Default, "Sin Tecno", 0)
    ensures dias.Some? ==> r.dias == dias.value
    ensures dias.Some? ==> (r.color == Error <==> dias.value < 0)
    ensures dias.Some? ==> (r.color == Warning <==> 0 <= dias.value <= 7)
    ensures dias.Some? ==> (r.color == Processing <==> 8 <= dias.value <= 30)
    ensures dias.Some? ==> (r.color == Success <==> dias.value > 30)
    ensures dias.Some? ==> (r.texto == "Vencida" <==> r.color == Error)
  {
    if dias.None? then Estado(Default, "Sin Tecno", 0)
    else if dias.value < 0 then Estado(Error, "Vencida", dias.value)
    else if dias.value <= 7 then Estado(Warning, "Por vencer", dias.value)
    else if dias.value <= 30 then Estado(Processing, "Vigente", dias.value)
    else Estado(Success, "Vigente", dias.value)
  }

  /** Both documents share thresholds: the same day count gets the same colour. */
  lemma MismosUmbrales(dias: Option<int>)
    ensures EstadoSoat(dias).color == EstadoTecno(dias).color
    ensures EstadoSoat(dias).dias == EstadoTecno(dias).dias
  {
  }

  // ----- the list -----

  /**
   * A vehicle as listed. `diasSoat`/`diasTecno` are the day differences of the
   * expiry dates, `None` when the date is missing or empty.
   */
  datatype Vehiculo = Vehiculo(id: int, placa: string, marca: string, modelo: string,
                               color: Option<string>, clienteNombre: Option<string>,
                               clienteEmail: Option<string>,
                               diasSoat: Option<int>, diasTecno: Option<int>)

  /** `!v.cliente?.email`. */
  predicate SinCorreo(v: Vehiculo)
  {
    v.clienteEmail.None? || v.clienteEmail.value == ""
  }

  /** The SOAT select; `Todos` is the cleared select (no filtering). */
  datatype FiltroSoat = Todos | Vigente | PorVencer | Vencido | SinFecha | SinEmail

  predicate CoincideBusqueda(v: Vehiculo, texto: string)
  {
    Includes(Lower(v.placa), texto)
    || (v.clienteNombre.Some? && v.clienteNombre.value != "" && Includes(Lower(v.clienteNombre.value), texto))
    || Includes(Lower(v.marca), texto)
    || Includes(Lower(v.modelo), texto)
    || (v.color.Some? && v.color.value != "" && Includes(Lower(v.color.value), texto))
  }

  /**
   * The SOAT filter as written: a vehicle without a SOAT date is answered by
   * "is the filter `sin_fecha`?" before the switch is reached, so it never
   * passes `sin_email`.
   */
  predicate PasaSoatComoEscrito(v: Vehiculo, f: FiltroSoat)
    ensures v.diasSoat.None? ==> (PasaSoatComoEscrito(v, f) <==> f.Todos? || f.SinFecha?)
  {
    if f.Todos? then true
    else if v.diasSoat.None? then f.SinFecha?
    else match f
      case Vencido => v.diasSoat.value < 0
      case PorVencer => 0 <= v.diasSoat.value <= 30
      case Vigente => v.diasSoat.value > 30
      case SinFecha => false
      case SinEmail => SinCorreo(v)
      case Todos => true
  }

  /** The SOAT filter with `sin_email` answered for every vehicle. */
  predicate PasaSoat(v: Vehiculo, f: FiltroSoat)
    ensures PasaSoatComoEscrito(v, f) ==> PasaSoat(v, f)
    ensures f.SinEmail? ==> (PasaSoat(v, f) <==> SinCorreo(v))
  {
    if f.Todos? then true
    else if f.SinEmail? then SinCorreo(v)
    else if v.diasSoat.None? then f.SinFecha?
    else match f
      case Vencido => v.diasSoat.value < 0
      case PorVencer => 0 <= v.diasSoat.value <= 30
      case Vigente => v.diasSoat.value > 30
      case SinFecha => false
      case SinEmail => SinCorreo(v)
      case Todos => true
  }

  /** The two filters differ only on `sin_email` for vehicles without a SOAT date. */
  lemma PasaSoatDifiere(v: Vehiculo, f: FiltroSoat)
    ensures PasaSoat(v, f) != PasaSoatComoEscrito(v, f) <==>
              (f.SinEmail? && v.diasSoat.None? && SinCorreo(v))
  {
  }

  /** Search text (lower-cased), then exact brand, then the SOAT select; "" disables a stage. */
  function VehiculosFiltrados(vs: seq<Vehiculo>, search: string, marca: string, f: FiltroSoat): (r: seq<Vehiculo>)
    ensures IsSubseq(r, vs)
    ensures forall i :: 0 <= i < |r| ==>
              (search == "" || CoincideBusqueda(r[i], Lower(search)))
              && (marca == "" || r[i].marca == marca) && PasaSoat(r[i], f)
    ensures forall i :: 0 <= i < |vs| ==>
              ((search == "" || CoincideBusqueda(vs[i], Lower(search)))
               && (marca == "" || vs[i].marca == marca) && PasaSoat(vs[i], f)
               ==> vs[i] in r)
    ensures search == "" && marca == "" && f.Todos? ==> r == vs
  {
    var a := if search == "" then vs else Filter(vs, (v: Vehiculo) => CoincideBusqueda(v, Lower(search)));
    var b := if marca == "" then a else Filter(a, (v: Vehiculo) => v.marca == marca);
    var c := if f.Todos? then b else Filter(b, (v: Vehiculo) => PasaSoat(v, f));
    SubseqRefl(vs);
    SubseqRefl(a);
    SubseqRefl(b);
    SubseqTrans(b, a, vs);
    SubseqTrans(c, b, vs);
    c
  }

  // ----- statistics -----

  datatype Estadisticas = Estadisticas(total: nat, soatPorVencer: nat, tecnoPorVencer: nat,
                                       soatVencidos: nat, tecnoVencidos: nat,
                                       sinEmail: nat, sinSoat: nat)

  predicate ProximoAVencer(dias: Option<int>)
  {
    dias.Some? && 0 <= dias.value <= 30
  }

  predicate YaVencido(dias: Option<int>)
  {
    dias.Some? && dias.value < 0
  }

  function Stats(vs: seq<Vehiculo>): (r: Estadisticas)
    ensures r.total == |vs|
    ensures r.soatPorVencer + r.soatVencidos + r.sinSoat <= r.total
    ensures r.tecnoPorVencer + r.tecnoVencidos <= r.total
  {
    var st := Estadisticas(
      |vs|,
      |Filter(vs, (v: Vehiculo) => ProximoAVencer(v.diasSoat))|,
      |Filter(vs, (v: Vehiculo) => ProximoAVencer(v.diasTecno))|,
      |Filter(vs, (v: Vehiculo) => YaVencido(v.diasSoat))|,
      |Filter(vs, (v: Vehiculo) => YaVencido(v.diasTecno))|,
      |Filter(vs, (v: Vehiculo) => SinCorreo(v))|,
      |Filter(vs, (v: Vehiculo) => v.diasSoat.None?)|);
    CuentaSoat(vs);
    CuentaTecno(vs);
    st
  }

  /** The SOAT classes split the list: expired, due within 30 days, later, no date. */
  lemma {:induction false} CuentaSoat(vs: seq<Vehiculo>)
    ensures |Filter(vs, (v: Vehiculo) => ProximoAVencer(v.diasSoat))|
            + |Filter(vs, (v: Vehiculo) => YaVencido(v.diasSoat))|
            + |Filter(vs, (v: Vehiculo) => v.diasSoat.None?)|
            + |Filter(vs, (v: Vehiculo) => v.diasSoat.Some? && v.diasSoat.value > 30)| == |vs|
    decreases |vs|
  {
    if vs != [] {
      CuentaSoat(vs[1..]);
    }
  }

  lemma {:induction false} CuentaTecno(vs: seq<Vehiculo>)
    ensures |Filter(vs, (v: Vehiculo) => ProximoAVencer(v.diasTecno))|
            + |Filter(vs, (v: Vehiculo) => YaVencido(v.diasTecno))| <= |vs|
    decreases |vs|
  {
    if vs != [] {
      CuentaTecno(vs[1..]);
    }
  }

  /** With no search and no brand, the list is the SOAT select's filter alone. */
  lemma SoloFiltroSoat(vs: seq<Vehiculo>, f: FiltroSoat)
    requires !f.Todos?
    ensures VehiculosFiltrados(vs, "", "", f) == Filter(vs, (v: Vehiculo) => PasaSoat(v, f))
  {
  }

  /** Each SOAT counter is the size of the list shown by the matching SOAT filter. */
  lemma StatsComoFiltros(vs: seq<Vehiculo>)
    ensures Stats(vs).soatPorVencer == |VehiculosFiltrados(vs, "", "", PorVencer)|
    ensures Stats(vs).soatVencidos == |VehiculosFiltrados(vs, "", "", Vencido)|
    ensures Stats(vs).sinSoat == |VehiculosFiltrados(vs, "", "", SinFecha)|
    ensures Stats(vs).sinEmail == |VehiculosFiltrados(vs, "", "", SinEmail)|
  {
    SoloFiltroSoat(vs, PorVencer);
    SoloFiltroSoat(vs, Vencido);
    SoloFiltroSoat(vs, SinFecha);
    SoloFiltroSoat(vs, SinEmail);
    FilterExt(vs, (v: Vehiculo) => PasaSoat(v, PorVencer), (v: Vehiculo) => ProximoAVencer(v.diasSoat));
    FilterExt(vs, (v: Vehiculo) => PasaSoat(v, Vencido), (v: Vehiculo) => YaVencido(v.diasSoat));
    FilterExt(vs, (v: Vehiculo) => PasaSoat(v, SinFecha), (v: Vehiculo) => v.diasSoat.None?);
    FilterExt(vs, (v: Vehiculo) => PasaSoat(v, SinEmail), (v: Vehiculo) => SinCorreo(v));
  }

  /**
   * With the filter as written, one vehicle without SOAT date and without
   * e-mail is counted by `sinEmail` but not listed under "Cliente sin Email".
   */
  lemma SinEmailComoEscritoOmite()
    ensures var v := Vehiculo(1, "ABC123", "Mazda", "3", None, Some("Ana"), None, None, Some(40));
            Stats([v]).sinEmail == 1
            && Filter([v], (x: Vehiculo) => PasaSoatComoEscrito(x, SinEmail)) == []
  {
    var v := Vehiculo(1, "ABC123", "Mazda", "3", None, Some("Ana"), None, None, Some(40));
    assert Filter([v], (x: Vehiculo) => SinCorreo(x)) == [v];
  }

  // ----- row highlighting -----

  /** Red row when either document is expired, else amber when either is due within a week. */
  function ClaseFila(v: Vehiculo): (r: string)
    ensures r == "vencido-row" <==> YaVencido(v.diasSoat) || YaVencido(v.diasTecno)
    ensures r == "por-vencer-row" <==>
              !(YaVencido(v.diasSoat) || YaVencido(v.diasTecno))
              && ((v.diasSoat.Some? && 0 <= v.diasSoat.value <= 7) || (v.diasTecno.Some? && 0 <= v.diasTecno.value <= 7))
    ensures r == "" || r == "vencido-row" || r == "por-vencer-row"
  {
    var soat := EstadoSoat(v.diasSoat);
    var tecno := EstadoTecno(v.diasTecno);
    if soat.color == Error || tecno.color == Error then "vencido-row"
    else if soat.color == Warning || tecno.color == Warning then "por-vencer-row"
    else ""
  }
}
