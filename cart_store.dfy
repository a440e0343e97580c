/** The in-memory cart store and the cart endpoints that read and update it. */
module CartStore {
  import opened Wrappers
  import opened Catalog
  import opened CartLines

  /** The one session key every endpoint uses. */
  const DemoSession: string := "demo_session"

  /** The body of the read endpoint: the lines, their total and the number of lines. */
  datatype CartView = CartView(items: seq<CartLine>, total: int, cantidadItems: int)

  /** Every cart in `storage` keeps the cart invariant. */
  predicate AllCartsValid(catalog: seq<Product>, storage: map<string, seq<CartLine>>) {
    forall s :: s in storage ==> CartInvariant(catalog, storage[s])
  }

  /** Storing a cart that keeps the invariant keeps it for every session. */
  lemma StoreKeepsInvariant(catalog: seq<Product>, storage: map<string, seq<CartLine>>, key: string, lines: seq<CartLine>)
    requires AllCartsValid(catalog, storage)
    requires CartInvariant(catalog, lines)
    ensures AllCartsValid(catalog, storage[key := lines])
  {
  }

  /** `carrito_storage`: the carts of all sessions, each a list of lines. */
  class Store {
    /** The catalogue the endpoints look products up in: `PRODUCTOS`, fixed for the server's life. */
    const catalog: seq<Product>
    var carritoStorage: map<string, seq<CartLine>>

    /** The catalogue lists each id once, and every stored cart has at most one line per
        product and snapshots taken from the catalogue. */
    ghost predicate Valid()
      reads this
    {
      && UniqueProductIds(catalog)
      && AllCartsValid(catalog, carritoStorage)
    }

    /** The demo session's lines, or none when the session has no entry yet. */
    function Session(): seq<CartLine>
      reads this
    {
      if DemoSession in carritoStorage then carritoStorage[DemoSession] else []
    }

    /** The store as the server starts it: no session has a cart. */
    constructor ()
      ensures catalog == Productos
      ensures carritoStorage == map[]
      ensures Valid()
    {
      catalog := Productos;
      carritoStorage := map[];
      CatalogIdsUnique();
    }

    /** `agregar_carrito`: add `item.cantidad` of a catalogue product to the demo session's cart. */
    method AgregarCarrito(item: ItemCarrito) returns (r: Result<seq<CartLine>, Error>)
      modifies this
      ensures FindProduct(catalog, item.productoId).None? ==>
                r == Failure(ProductoNoEncontrado) && carritoStorage == old(carritoStorage)
      ensures FindProduct(catalog, item.productoId).Some? ==>
                var p := FindProduct(catalog, item.productoId).value;
                && carritoStorage == old(carritoStorage)[DemoSession := AddLine(old(Session()), item.productoId, item.cantidad, p)]
                && r == Success(Session())
                && (old(Valid()) ==> GetCarrito().total == old(GetCarrito().total) + p.precio * item.cantidad)
      ensures old(Valid()) ==> Valid()
    {
      var producto := FindProduct(catalog, item.productoId);
      if producto.None? {
        return Failure(ProductoNoEncontrado);
      }
      ghost var before := Session();
      if DemoSession !in carritoStorage {
        carritoStorage := carritoStorage[DemoSession := []];
      }
      var lines := carritoStorage[DemoSession];
      assert lines == before;
      var existente := FindLine(lines, item.productoId);
      if existente.Some? {
        var k := existente.value;
        lines := lines[k := lines[k].(cantidad := lines[k].cantidad + item.cantidad)];
      } else {
        lines := lines + [CartLine(item.productoId, item.cantidad, producto.value)];
      }
      assert lines == AddLine(before, item.productoId, item.cantidad, producto.value);
      carritoStorage := carritoStorage[DemoSession := lines];
      r := Success(lines);
      if old(Valid()) {
        assert CartInvariant(catalog, before);
        assert producto.value in catalog;
        AddPreservesInvariant(catalog, before, item.productoId, item.cantidad, producto.value);
        assert carritoStorage == old(carritoStorage)[DemoSession := lines];
        StoreKeepsInvariant(catalog, old(carritoStorage), DemoSession, lines);
        TotalAfterAdd(catalog, before, item.productoId, item.cantidad, producto.value);
      }
    }

    /** `get_carrito`: the demo session's lines with their total and line count. */
    function GetCarrito(): (v: CartView)
      reads this
      ensures v.items == Session()
      ensures v.total == Total(v.items)
      ensures v.cantidadItems == |v.items|
      ensures UniqueIds(v.items) ==> v.cantidadItems == |ProductIds(v.items)|
      ensures DemoSession !in carritoStorage ==> v == CartView([], 0, 0)
    {
      var carrito := Session();
      assert UniqueIds(carrito) ==> |ProductIds(carrito)| == |carrito| by {
        if UniqueIds(carrito) { UniqueIdsCount(carrito); }
      }
      CartView(carrito, Total(carrito), |carrito|)
    }

    /** `eliminar_carrito`: drop the lines for `productoId` from the demo session's cart. */
    method EliminarCarrito(productoId: int)
      modifies this
      ensures DemoSession in old(carritoStorage) ==>
                carritoStorage == old(carritoStorage)[DemoSession := RemoveId(old(Session()), productoId)]
      ensures DemoSession !in old(carritoStorage) ==> carritoStorage == old(carritoStorage)
      ensures old(Valid()) ==> Valid()
      ensures old(Valid()) ==>
                GetCarrito().total == old(GetCarrito().total) -
                  (match FindLine(old(Session()), productoId)
                   case Some(k) => LineTotal(old(Session())[k])
                   case None => 0)
    {
      if DemoSession in carritoStorage {
        ghost var before := carritoStorage[DemoSession];
        carritoStorage := carritoStorage[DemoSession := RemoveId(carritoStorage[DemoSession], productoId)];
        if old(Valid()) {
          assert CartInvariant(catalog, before);
          RemovePreservesInvariant(catalog, before, productoId);
          TotalAfterRemove(before, productoId);
        }
      }
    }

    /** `limpiar_carrito`: give the demo session an empty cart, whatever it held. */
    method LimpiarCarrito()
      modifies this
      ensures carritoStorage == old(carritoStorage)[DemoSession := []]
      ensures GetCarrito() == CartView([], 0, 0)
      ensures old(Valid()) ==> Valid()
    {
      carritoStorage := carritoStorage[DemoSession := []];
    }
  }

  /** Clearing twice leaves the store exactly as clearing once does. */
  method LimpiarTwice(store: Store)
    modifies store
    ensures store.carritoStorage == old(store.carritoStorage)[DemoSession := []]
  {
    store.LimpiarCarrito();
    ghost var once := store.carritoStorage;
    store.LimpiarCarrito();
    assert store.carritoStorage == once;
  }
}
