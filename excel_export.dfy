/**
 * The arithmetic of the spreadsheet export: the empty-data guard, the width of
 * each column (the longest text in it, clamped into [10, 50]) and the name of
 * the downloaded file, `<name>_YYYY-MM-DD_HH-MM.xlsx`. Building and downloading
 * the workbook is library and browser work and is not modelled.
 */
module ExcelExport {

  import opened Wrappers
  import opened Seqs
  import opened Text

  /** A cell value as it reaches `String(value || '')`. */
  datatype Celda = Texto(s: string) | Entero(n: int) | Logico(b: bool) | Nulo

  /** A row's values in key order. */
  type Fila = seq<Celda>

  function Max(a: nat, b: nat): nat
  {
    if a >= b then a else b
  }

  /** `String(v || '').length`: falsy values (0, false, null, "") count as empty. */
  function Longitud(c: Celda): (r: nat)
    ensures c.Nulo? || c == Texto("") || c == Entero(0) || c == Logico(false) ==> r == 0
  {
    match c
    case Texto(s) => |s|
    case Entero(n) => if n == 0 then 0 else |IntToString(n)|
    case Logico(b) => if b then |"true"| else 0
    case Nulo => 0
  }

  /** The number of columns: the longest row's length. */
  function NumColumnas(rows: seq<Fila>): nat
  {
    if rows == [] then 0 else Max(NumColumnas(rows[..|rows| - 1]), |rows[|rows| - 1]|)
  }

  /** The longest text in column `k`, 0 when no row reaches that column. */
  function AnchoMax(rows: seq<Fila>, k: nat): nat
  {
    if rows == [] then 0
    else
      var last := rows[|rows| - 1];
      Max(AnchoMax(rows[..|rows| - 1], k), if k < |last| then Longitud(last[k]) else 0)
  }

  /** Every row fits in the column count, and some row fills it. */
  lemma {:induction false} NumColumnasSpec(rows: seq<Fila>)
    ensures forall r :: 0 <= r < |rows| ==> |rows[r]| <= NumColumnas(rows)
    ensures rows != [] ==> exists r :: 0 <= r < |rows| && |rows[r]| == NumColumnas(rows)
    decreases |rows|
  {
    if rows != [] {
      var pre := rows[..|rows| - 1];
      NumColumnasSpec(pre);
      assert forall r :: 0 <= r < |pre| ==> rows[r] == pre[r];
      if |rows[|rows| - 1]| < NumColumnas(pre) {
        var r :| 0 <= r < |pre| && |pre[r]| == NumColumnas(pre);
        assert |rows[r]| == NumColumnas(rows);
      }
    }
  }

  /** No row reaches a column past the count, so its width is 0. */
  lemma {:induction false} AnchoMasAlla(rows: seq<Fila>, k: nat)
    requires k >= NumColumnas(rows)
    ensures AnchoMax(rows, k) == 0
    decreases |rows|
  {
    if rows != [] {
      AnchoMasAlla(rows[..|rows| - 1], k);
    }
  }

  /** The width of a column bounds every text in it... */
  lemma {:induction false} AnchoMaxCota(rows: seq<Fila>, k: nat)
    ensures forall r :: 0 <= r < |rows| && k < |rows[r]| ==> Longitud(rows[r][k]) <= AnchoMax(rows, k)
    decreases |rows|
  {
    if rows != [] {
      var pre := rows[..|rows| - 1];
      AnchoMaxCota(pre, k);
      assert forall r :: 0 <= r < |pre| ==> rows[r] == pre[r];
    }
  }

  /** ...and is the length of one of them when the column is used. */
  lemma {:induction false} AnchoMaxAlcanzado(rows: seq<Fila>, k: nat)
    requires AnchoMax(rows, k) > 0
    ensures exists r :: 0 <= r < |rows| && k < |rows[r]| && Longitud(rows[r][k]) == AnchoMax(rows, k)
    decreases |rows|
  {
    var pre, last := rows[..|rows| - 1], rows[|rows| - 1];
    if k < |last| && AnchoMax(rows, k) == Longitud(last[k]) {
      assert Longitud(rows[|rows| - 1][k]) == AnchoMax(rows, k);
    } else {
      AnchoMaxAlcanzado(pre, k);
      var r :| 0 <= r < |pre| && k < |pre[r]| && Longitud(pre[r][k]) == AnchoMax(pre, k);
      assert rows[r] == pre[r];
    }
  }

  /**
   * One step of the `reduce`: for each value of row `i`, the accumulator slot is
   * set when it is unset or 0, or when the new length is larger.
   */
  method AnchosFila(rows: seq<Fila>, i: nat, acc0: seq<nat>) returns (acc: seq<nat>)
    requires i < |rows|
    requires |acc0| == NumColumnas(rows[..i])
    requires forall k :: 0 <= k < |acc0| ==> acc0[k] == AnchoMax(rows[..i], k)
    ensures |acc| == NumColumnas(rows[..i + 1])
    ensures forall k :: 0 <= k < |acc| ==> acc[k] == AnchoMax(rows[..i + 1], k)
  {
    var row := rows[i];
    acc := acc0;
    var j := 0;
    while j < |row|
      invariant 0 <= j <= |row|
      invariant |acc| == Max(NumColumnas(rows[..i]), j)
      invariant forall k :: 0 <= k < |acc| ==>
                  acc[k] == Max(AnchoMax(rows[..i], k), if k < j then Longitud(row[k]) else 0)
    {
      var len := Longitud(row[j]);
      if j >= |acc| {
        AnchoMasAlla(rows[..i], j);
        acc := acc + [len];
      } else if acc[j] == 0 || len > acc[j] {
        acc := acc[j := len];
      }
      j := j + 1;
    }
    assert rows[..i + 1][..i] == rows[..i];
    assert rows[..i + 1][i] == row;
  }

  /** The `reduce` over the rows: the widest text of every column. */
  method AnchosColumnas(rows: seq<Fila>) returns (acc: seq<nat>)
    ensures |acc| == NumColumnas(rows)
    ensures forall k :: 0 <= k < |acc| ==> acc[k] == AnchoMax(rows, k)
  {
    acc := [];
    var i := 0;
    while i < |rows|
      invariant 0 <= i <= |rows|
      invariant |acc| == NumColumnas(rows[..i])
      invariant forall k :: 0 <= k < |acc| ==> acc[k] == AnchoMax(rows[..i], k)
    {
      acc := AnchosFila(rows, i, acc);
      i := i + 1;
    }
    assert rows[..|rows|] == rows;
  }

  /** `Math.min(Math.max(w, 10), 50)`. */
  function Acotar(w: int): (r: int)
    ensures 10 <= r <= 50
    ensures 10 <= w <= 50 ==> r == w
    ensures w < 10 ==> r == 10
    ensures w > 50 ==> r == 50
  {
    if w < 10 then 10 else if w > 50 then 50 else w
  }

  /** The local date and time the file is named after; `mes` is already 1-based. */
  datatype Fecha = Fecha(anio: nat, mes: nat, dia: nat, hora: nat, minuto: nat)

  predicate FechaValida(f: Fecha)
  {
    1 <= f.mes <= 12 && 1 <= f.dia <= 31 && f.hora < 24 && f.minuto < 60
  }

  /** The fixed-width tail "-MM-DD_HH-mm.xlsx". */
  function Cola(f: Fecha): (t: string)
    ensures FechaValida(f) ==> |t| == 17
  {
    "-" + Pad2(f.mes) + "-" + Pad2(f.dia) + "_" + Pad2(f.hora) + "-" + Pad2(f.minuto) + ".xlsx"
  }

  /** `${filename}_${YYYY}-${MM}-${DD}_${HH}-${mm}.xlsx`, with the year unpadded. */
  function NombreArchivo(nombre: string, f: Fecha): (r: string)
    ensures |r| >= |nombre| + 5 && r[..|nombre|] == nombre && r[|r| - 5..] == ".xlsx"
  {
    var r := nombre + "_" + NatToString(f.anio) + Cola(f);
    assert r[..|nombre|] == nombre;
    r
  }

  /** Reads month, day, hour and minute back out of a tail. */
  function LeerCola(t: string): Option<(nat, nat, nat, nat)>
  {
    if |t| == 17 && t[0] == '-' && t[3] == '-' && t[6] == '_' && t[9] == '-' && t[12..] == ".xlsx"
       && AllDigits(t[1..3]) && AllDigits(t[4..6]) && AllDigits(t[7..9]) && AllDigits(t[10..12])
    then Some((ParseDigits(t[1..3]), ParseDigits(t[4..6]), ParseDigits(t[7..9]), ParseDigits(t[10..12])))
    else None
  }

  /** Reads the name and the date and time back out of a file name whose name part has length `n`. */
  function LeerNombreArchivo(s: string, n: nat): Option<(string, Fecha)>
  {
    if |s| < n + 18 || s[n] != '_' || !AllDigits(s[n + 1..|s| - 17]) then None
    else
      match LeerCola(s[|s| - 17..])
      case None => None
      case Some((mes, dia, hora, minuto)) =>
        Some((s[..n], Fecha(ParseDigits(s[n + 1..|s| - 17]), mes, dia, hora, minuto)))
  }

  lemma ColaRoundTrip(f: Fecha)
    requires FechaValida(f)
    ensures LeerCola(Cola(f)) == Some((f.mes, f.dia, f.hora, f.minuto))
  {
    var mm, dd, hh, mi := Pad2(f.mes), Pad2(f.dia), Pad2(f.hora), Pad2(f.minuto);
    var t := Cola(f);
    assert t[1..3] == mm && t[4..6] == dd && t[7..9] == hh && t[10..12] == mi && t[12..] == ".xlsx";
    Pad2RoundTrip(f.mes);
    Pad2RoundTrip(f.dia);
    Pad2RoundTrip(f.hora);
    Pad2RoundTrip(f.minuto);
  }

  /** The file name carries the export name and the full date and time, recoverably. */
  lemma NombreArchivoRoundTrip(nombre: string, f: Fecha)
    requires FechaValida(f)
    ensures LeerNombreArchivo(NombreArchivo(nombre, f), |nombre|) == Some((nombre, f))
  {
    var y, t := NatToString(f.anio), Cola(f);
    var s := NombreArchivo(nombre, f);
    assert s == nombre + "_" + y + t;
    var n, e := |nombre|, |s|;
    assert s[..n] == nombre && s[n] == '_' && s[n + 1..e - 17] == y && s[e - 17..] == t;
    NatToStringRoundTrip(f.anio);
    ColaRoundTrip(f);
  }

  datatype Exportacion = Exportacion(anchos: seq<int>, archivo: string)

  /**
   * `exportToExcel` up to the download: `None` (the function's `false`) when
   * there is no data, otherwise the clamped column widths and the file name.
   */
  method ExportToExcel(data: Option<seq<Fila>>, filename: string, ahora: Fecha) returns (r: Option<Exportacion>)
    ensures r.None? <==> data.None? || |data.value| == 0
    ensures r.Some? ==> r.value.archivo == NombreArchivo(filename, ahora)
    ensures r.Some? ==> |r.value.anchos| == NumColumnas(data.value)
    ensures r.Some? ==> forall k :: 0 <= k < |r.value.anchos| ==> r.value.anchos[k] == Acotar(AnchoMax(data.value, k))
  {
    if data.None? || |data.value| == 0 {
      return None;
    }
    var maxWidth := AnchosColumnas(data.value);
    var anchos := Map(maxWidth, (w: nat) => Acotar(w));
    r := Some(Exportacion(anchos, NombreArchivo(filename, ahora)));
  }
}
