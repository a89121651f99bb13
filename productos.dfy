/**
 * The product inventory page: the stock tag and badge, the row highlighting, the
 * displayed minimum, the search and the "Sin Stock" counter.
 */
module Productos {

  import opened Wrappers
  import opened Seqs
  import opened Text

  /**
   * A product as listed. `stockMinimo` is `None` when the field is null or
   * missing; a JS comparison `stock <= null` or `stock <= undefined` is false for
   * any positive stock, which is how `None` behaves below.
   */
  datatype Producto = Producto(id: int, nombre: string, referencia: Option<string>,
                               categoria: Option<string>, stock: int, stockMinimo: Option<int>)

  predicate BajoMinimo(stock: int, minimo: Option<int>)
  {
    minimo.Some? && stock <= minimo.value
  }

  datatype Tag = Tag(color: string, texto: string)

  /** Out of stock, at or below the minimum, or available. */
  function StockTag(stock: int, minimo: Option<int>): (r: Tag)
    ensures r.texto == "Sin stock" <==> stock <= 0
    ensures r.texto == "Bajo stock" <==> 0 < stock && BajoMinimo(stock, minimo)
    ensures r.texto == "Disponible" <==> 0 < stock && !BajoMinimo(stock, minimo)
    ensures r.color == "red" <==> r.texto == "Sin stock"
    ensures r.color == "orange" <==> r.texto == "Bajo stock"
  {
    if stock <= 0 then Tag("red", "Sin stock")
    else if BajoMinimo(stock, minimo) then Tag("orange", "Bajo stock")
    else Tag("green", "Disponible")
  }

  /** The colour of the stock badge beside the tag. */
  function ColorInsignia(stock: int, minimo: Option<int>): (r: string)
    ensures r == StockTag(stock, minimo).color
  {
    if stock <= 0 then "red" else if BajoMinimo(stock, minimo) then "orange" else "green"
  }

  /** The row class, by the same thresholds as the tag. */
  function ClaseFila(p: Producto): (r: string)
    ensures r == "row-no-stock" <==> StockTag(p.stock, p.stockMinimo).texto == "Sin stock"
    ensures r == "row-low-stock" <==> StockTag(p.stock, p.stockMinimo).texto == "Bajo stock"
    ensures r == "" <==> StockTag(p.stock, p.stockMinimo).texto == "Disponible"
  {
    if p.stock <= 0 then "row-no-stock"
    else if BajoMinimo(p.stock, p.stockMinimo) then "row-low-stock"
    else ""
  }

  /** The "Stock Mínimo" column shows `v || 5`. */
  function MinimoMostrado(v: Option<int>): (r: int)
    ensures Truthy(v) ==> r == v.value
    ensures !Truthy(v) ==> r == 5
  {
    if Truthy(v) then v.value else 5
  }

  /**
   * The displayed default is not used by the tag: a product with no minimum
   * shows "5" as its minimum yet is tagged available with 3 units.
   */
  lemma MinimoMostradoNoSeUsa()
    ensures MinimoMostrado(None) == 5 && 3 <= MinimoMostrado(None)
    ensures StockTag(3, None).texto == "Disponible"
  {
  }

  predicate Coincide(p: Producto, texto: string)
  {
    Includes(Lower(p.nombre), texto)
    || (p.referencia.Some? && p.referencia.value != "" && Includes(Lower(p.referencia.value), texto))
    || (p.categoria.Some? && p.categoria.value != "" && Includes(Lower(p.categoria.value), texto))
  }

  /** The whole list for an empty search, otherwise the products matching name, reference or category. */
  function ProductosFiltrados(ps: seq<Producto>, searchText: string): (r: seq<Producto>)
    ensures searchText == "" ==> r == ps
    ensures IsSubseq(r, ps)
    ensures searchText != "" ==>
              (forall i :: 0 <= i < |r| ==> Coincide(r[i], Lower(searchText)))
              && forall i :: 0 <= i < |ps| && Coincide(ps[i], Lower(searchText)) ==> ps[i] in r
  {
    if searchText == "" then SubseqRefl(ps); ps
    else Filter(ps, (p: Producto) => Coincide(p, Lower(searchText)))
  }

  /** The "Sin Stock" statistic. */
  function SinStock(ps: seq<Producto>): (r: nat)
    ensures r <= |ps|
  {
    |Filter(ps, (p: Producto) => p.stock <= 0)|
  }

  /** The counter agrees with the rows tagged "Sin stock" and highlighted as such. */
  lemma SinStockComoEtiquetas(ps: seq<Producto>)
    ensures SinStock(ps) == |Filter(ps, (p: Producto) => StockTag(p.stock, p.stockMinimo).texto == "Sin stock")|
    ensures SinStock(ps) == |Filter(ps, (p: Producto) => ClaseFila(p) == "row-no-stock")|
  {
    FilterExt(ps, (p: Producto) => p.stock <= 0,
              (p: Producto) => StockTag(p.stock, p.stockMinimo).texto == "Sin stock");
    FilterExt(ps, (p: Producto) => p.stock <= 0, (p: Producto) => ClaseFila(p) == "row-no-stock");
  }
}
