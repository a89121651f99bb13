/** The workshop's shared vocabulary: line kinds, order and payment states, catalog entries. */
module Entidades {

  import opened Wrappers
  import opened Seqs

  /** The kind of an invoice or order line. */
  datatype Tipo = PRODUCTO | SERVICIO | OTRO

  /** The lifecycle of a work order. */
  datatype EstadoOrden = RECIBIDA | EN_PROCESO | TERMINADA | FACTURADA | CANCELADA

  /** How far along the workflow a state is; a cancelled order is as final as an invoiced one. */
  function Etapa(e: EstadoOrden): nat
  {
    match e
    case RECIBIDA => 0
    case EN_PROCESO => 1
    case TERMINADA => 2
    case FACTURADA => 3
    case CANCELADA => 3
  }

  /** The payment state of an invoice. */
  datatype EstadoPago = PAGA | NO_PAGA

  /** A catalog product; prices in cents. */
  datatype Producto = Producto(id: int, nombre: string, precio: int, stock: int)

  /** A catalog service; prices in cents, duration in minutes. */
  datatype Servicio = Servicio(id: int, nombre: string, precio: int, duracionMinutos: int, esActivo: bool)

  /** `productos.find(p => p.id === id)`. */
  function FindProducto(ps: seq<Producto>, id: int): Option<Producto>
  {
    Find(ps, (p: Producto) => p.id, id)
  }

  /** `servicios.find(s => s.id === id)`. */
  function FindServicio(ss: seq<Servicio>, id: int): Option<Servicio>
  {
    Find(ss, (s: Servicio) => s.id, id)
  }
}
