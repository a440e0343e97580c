/** The fixed product catalogue and the lookup of a product by its id. */
module Catalog {
  import opened Wrappers

  /** One catalogue entry; `precio` is an integer amount of pesos. */
  datatype Product = Product(id: int, nombre: string, precio: int, imagen: string, descripcion: string)

  /** The error every endpoint answers with when an id is not in the catalogue
      (the source returns the pair `({"error": "Producto no encontrado"}, 404)`, which the
      framework sends as a JSON array with the route's default status 200). */
  datatype Error = ProductoNoEncontrado

  /** The hard-coded catalogue, in declaration order. */
  const Productos: seq<Product> := [
    Product(1, "Monster Lemon", 1990, "\U{1F34B}", " La mejor?"),
    Product(2, "Monster Apple", 1990, "\U{1F34F}", "yum"),
    Product(3, "Monster Melon", 1990, "\U{1F348}", " Es verde"),
    Product(4, "Monster Cherry", 1990, "\U{1F352}", " ahah sip")
  ]

  /** No two entries of `catalog` share an id. */
  predicate UniqueProductIds(catalog: seq<Product>) {
    forall i, j :: 0 <= i < j < |catalog| ==> catalog[i].id != catalog[j].id
  }

  /** The first entry of `catalog` whose id is `id`, as `next(...)` over a generator finds it. */
  function FindProduct(catalog: seq<Product>, id: int): (r: Option<Product>)
    ensures r.None? <==> forall i :: 0 <= i < |catalog| ==> catalog[i].id != id
    ensures r.Some? ==> exists i :: 0 <= i < |catalog| && catalog[i] == r.value && r.value.id == id
                                    && forall j :: 0 <= j < i ==> catalog[j].id != id
  {
    if |catalog| == 0 then None
    else if catalog[0].id == id then Some(catalog[0])
    else
      var r := FindProduct(catalog[1..], id);
      assert r.Some? ==> exists i :: 1 <= i < |catalog| && catalog[i] == r.value && r.value.id == id
                                     && forall j :: 0 <= j < i ==> catalog[j].id != id
      by {
        if r.Some? {
          var i :| 0 <= i < |catalog[1..]| && catalog[1..][i] == r.value && r.value.id == id
                   && forall j :: 0 <= j < i ==> catalog[1..][j].id != id;
          assert catalog[i + 1] == r.value;
          assert forall j :: 0 <= j < i + 1 ==> catalog[j].id != id by {
            forall j | 0 <= j < i + 1 ensures catalog[j].id != id {
              if j > 0 { assert catalog[j] == catalog[1..][j - 1]; }
            }
          }
        }
      }
      r
  }

  /** The `get_producto` endpoint: the product with that id, or the not-found error. */
  function GetProducto(productoId: int): (r: Result<Product, Error>)
    ensures r.Success? ==> r.value in Productos && r.value.id == productoId
    ensures r.Failure? <==> forall i :: 0 <= i < |Productos| ==> Productos[i].id != productoId
    ensures r.Failure? ==> r.error == ProductoNoEncontrado
  {
    match FindProduct(Productos, productoId)
    case Some(p) => Success(p)
    case None => Failure(ProductoNoEncontrado)
  }

  /** In a catalogue without duplicate ids, looking up an entry's id finds that entry. */
  lemma FindProductAt(catalog: seq<Product>, i: int)
    requires UniqueProductIds(catalog)
    requires 0 <= i < |catalog|
    ensures FindProduct(catalog, catalog[i].id) == Some(catalog[i])
  {
  }

  /** The catalogue lists each id once. */
  lemma CatalogIdsUnique()
    ensures UniqueProductIds(Productos)
  {
  }

  /** Every product of the catalogue is found by `get_producto` under its own id. */
  lemma LookupEachCatalogId(i: int)
    requires 0 <= i < |Productos|
    ensures GetProducto(Productos[i].id) == Success(Productos[i])
  {
    CatalogIdsUnique();
    FindProductAt(Productos, i);
  }

  /** The catalogue covers exactly the ids 1 to 4: any other id, such as those of the entries
      commented out of the source, is refused. */
  lemma LookupOutsideCatalog(productoId: int)
    ensures GetProducto(productoId).Failure? <==> productoId < 1 || productoId > 4
  {
  }
}
