# Pepestore shopping cart

A model of the server side of the Pepestore shop (`back/pepestore.py`): the fixed product
catalogue `PRODUCTOS`, the in-memory cart table `carrito_storage` and the five endpoints that
work on them. These are product lookup (`get_producto`), add to cart (`agregar_carrito`), read
the cart (`get_carrito`), delete a product's lines (`eliminar_carrito`) and clear the cart
(`limpiar_carrito`).

- `wrappers.dfy`: `Option` (what a `next(..., None)` search yields) and `Result` (an answer, or
  the error body an endpoint returns instead).
- `catalog.dfy` (module `Catalog`): `Product`, the four-entry catalogue `Productos`, the
  first-match search `FindProduct` and the `GetProducto` endpoint.
- `cart_lines.dfy` (module `CartLines`): a cart line (`producto_id`, `cantidad`, a `producto`
  snapshot), the total, the cart invariant (at most one line per product id, and each snapshot
  an entry of the catalogue with the line's id), and the pure specifications `FindLine`,
  `AddLine` and `RemoveId` of what the endpoints do to a list of lines. The lemmas about them
  are in this file too. They hold for any catalogue without duplicate ids.
- `cart_store.dfy` (module `CartStore`): class `Store` holds `carritoStorage`, a
  `map<string, seq<CartLine>>` keyed by session, and the catalogue as a constant field that the
  constructor sets to `Productos`. Every endpoint uses the key `"demo_session"`.
  The add, delete and clear endpoints are methods that update the map in place. Each one is
  proved against the pure specification and proved to preserve the invariant `Valid()`. The read
  endpoint is a function of the stored cart.

The map is kept, rather than a single list, because the source tells a session with no entry
apart from one with an empty list. A successful add and a clear create the entry. A delete on a
missing entry creates nothing. A read of a missing entry answers with the empty cart.

The quantity is an unbounded `int`. The source never checks that it is positive, so a negative
add lowers a line's quantity and the total, and a line may reach zero or below. The shipped
client always sends `cantidad: 1` (front/app.js:93-96), but the server accepts any integer, and
the model follows the server.

## Model

| member | source | states |
|---|---|---|
| `Catalog.FindProduct` | back/pepestore.py:62 | the result is absent exactly when no catalogue entry has the id; otherwise it is the first entry with that id |
| `Catalog.GetProducto` | back/pepestore.py:60-65 | answers with a catalogue product carrying the requested id, or with `ProductoNoEncontrado` exactly when no entry has that id |
| `Catalog.FindProductAt` | back/pepestore.py:62 | in a catalogue without duplicate ids, searching for an entry's id finds that entry |
| `Catalog.CatalogIdsUnique` | back/pepestore.py:29-36 | no two catalogue entries share an id |
| `Catalog.LookupEachCatalogId` | back/pepestore.py:29-36 | looking up the id of each of the four catalogue products returns that product |
| `Catalog.LookupOutsideCatalog` | back/pepestore.py:29-36 | a lookup is refused exactly when the id is outside 1 to 4, so the ids 5 and 6 of the commented-out entries are refused |
| `CartLines.FindLine` | back/pepestore.py:80 | the index of the first line for the product id, absent exactly when no line has that id |
| `CartLines.AddLineExisting` | back/pepestore.py:80-82 | when the product has a line, the first such line's quantity rises by exactly the added amount, its id and snapshot stay, and the line count and every other line stay the same |
| `CartLines.AddLineNew` | back/pepestore.py:83-88 | when the product has no line, the old lines are kept and one line with the given quantity and the catalogue product as snapshot is appended at the end |
| `CartLines.AddPreservesInvariant` | back/pepestore.py:80-88 | adding a catalogue product keeps at most one line per product id and keeps every snapshot a catalogue entry with the line's id |
| `CartLines.SnapshotIsCatalogEntry` | back/pepestore.py:87 | in a catalogue without duplicate ids, a line's snapshot is the one catalogue entry with the line's id |
| `CartLines.TotalAfterAdd` | back/pepestore.py:80-88 | adding a catalogue product raises the cart total by its price times the added quantity, whether it merges or appends |
| `CartLines.AddAccumulates` | back/pepestore.py:80-88 | two adds of the same product give the same cart as one add of the summed quantity |
| `CartLines.RemoveIdMembers` | back/pepestore.py:110-113 | a line is kept exactly when it was in the cart and its id differs from the removed one |
| `CartLines.RemoveIdConcat` | back/pepestore.py:110-113 | removal distributes over concatenation, so the kept lines keep their original order |
| `CartLines.RemoveIdAbsent` | back/pepestore.py:110-113 | removing an id that no line carries leaves the cart unchanged |
| `CartLines.RemoveIdExactLine` | back/pepestore.py:110-113 | with at most one line per product, removing a present id deletes exactly that line and keeps the lines before and after it in order |
| `CartLines.RemoveKeepsUniqueIds` | back/pepestore.py:110-113 | removal keeps at most one line per product id |
| `CartLines.RemovePreservesInvariant` | back/pepestore.py:110-113 | removal keeps the cart invariant and leaves no line for the removed id |
| `CartLines.RemoveUndoesNewAdd` | back/pepestore.py:83-88 | removing a product that an add has just appended gives back the cart as it was before the add |
| `CartLines.TotalConcat` | back/pepestore.py:98 | the total of two carts laid end to end is the sum of their totals |
| `CartLines.TotalUpdate` | back/pepestore.py:98 | replacing one line changes the total by the difference between the new and the old line totals |
| `CartLines.TotalAfterRemove` | back/pepestore.py:98 | with at most one line per product, removing a present id lowers the total by that line's price times quantity; removing an absent id leaves it unchanged |
| `CartLines.UniqueIdsCount` | back/pepestore.py:103 | with at most one line per product, the number of lines equals the number of distinct products in the cart |
| `CartStore.Store.constructor` | back/pepestore.py:39 | the store starts with no session entries and with the catalogue `Productos`, which satisfies the invariant |
| `CartStore.Store.AgregarCarrito` | back/pepestore.py:67-90 | an id missing from the catalogue gives `ProductoNoEncontrado` and leaves the store unchanged; otherwise the demo session's cart becomes `AddLine` of its old lines (an entry is created if missing), the answer is the new cart, no other session changes, the invariant is kept and the total rises by price times quantity |
| `CartStore.Store.GetCarrito` | back/pepestore.py:92-104 | the answer holds the demo session's lines; its total is `Total` of those lines, the sum of price times quantity; its count is the number of lines, which under the invariant is the number of distinct products, not the sum of quantities; a session with no entry reads as no items, total 0 and count 0 |
| `CartStore.Store.EliminarCarrito` | back/pepestore.py:106-114 | with a session entry, the cart becomes `RemoveId` of its old lines; without one, the store is unchanged and no entry is created; the invariant is kept and the total drops by the removed line's total |
| `CartStore.Store.LimpiarCarrito` | back/pepestore.py:150-154 | the demo session's cart becomes the empty list whatever it held, the read endpoint then answers with the empty cart, and no other session changes |
| `CartStore.LimpiarTwice` | back/pepestore.py:153 | clearing twice leaves the store as one clear does, so clearing is idempotent |

## Left out

- `checkout` (back/pepestore.py:116-148) and the `ordenes` table: they call the external Fintoc payment service, read environment variables and derive the order id from Python's salted `hash()`.
- The `get_productos` endpoint (back/pepestore.py:56-58) only returns the catalogue; the constant `Productos` stands for it.
- FastAPI and uvicorn wiring, CORS middleware, static files and `FileResponse` (back/pepestore.py:15-24, 52-54, 156-162): framework plumbing and I/O.
- HTTP status codes: the `({"error": ...}, 404)` answers become the `ProductoNoEncontrado` error of a `Result`. The framework does not read that returned pair as a status code: it sends the pair as a JSON array `[{"error": "Producto no encontrado"}, 404]` with status 200 (back/pepestore.py:64, 72), so clients must inspect the body, not the status. The success messages (`"Producto agregado"`, `"Producto eliminado"`, `"Carrito limpiado"`) are not modelled.
- Pydantic request validation: `ItemCarrito` is a plain record of two integers, and ids and quantities that are not integers are not modelled.
- Aliasing: in the source, each line's `producto` is the same dictionary as the catalogue entry, and the add endpoint answers with the stored list object itself. The model copies values, which is the same as long as nothing mutates a product or an answer, and nothing in the source does.
- Concurrency between requests: the store is modelled as taking one request at a time.
- `front/app.js`: browser rendering, `fetch` calls, notifications and locale price formatting.
