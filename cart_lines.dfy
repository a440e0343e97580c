/** The list of lines stored for one session, and the pure specifications of what each cart
    endpoint does to it. */
module CartLines {
  import opened Wrappers
  import opened Catalog

  /** The body of an add request; nothing constrains `cantidad` to be positive. */
  datatype ItemCarrito = ItemCarrito(productoId: int, cantidad: int)

  /** One cart line: a product id, a quantity and the catalogue entry captured when the line was made. */
  datatype CartLine = CartLine(productoId: int, cantidad: int, producto: Product)

  /** What one line contributes to the cart total: unit price times quantity. */
  function LineTotal(l: CartLine): int {
    l.producto.precio * l.cantidad
  }

  /** The cart total: the sum of the line totals. */
  function Total(lines: seq<CartLine>): int {
    if |lines| == 0 then 0 else LineTotal(lines[0]) + Total(lines[1..])
  }

  /** At most one line per product id. */
  predicate UniqueIds(lines: seq<CartLine>) {
    forall i, j :: 0 <= i < j < |lines| ==> lines[i].productoId != lines[j].productoId
  }

  /** Every line's snapshot is an entry of `catalog` carrying the line's product id. */
  predicate SnapshotsFromCatalog(catalog: seq<Product>, lines: seq<CartLine>) {
    forall l :: l in lines ==> l.producto in catalog && l.producto.id == l.productoId
  }

  /** The invariant every stored cart keeps. */
  predicate CartInvariant(catalog: seq<Product>, lines: seq<CartLine>) {
    UniqueIds(lines) && SnapshotsFromCatalog(catalog, lines)
  }

  /** The index of the first line for product `id`, as the `next(...)` search of an add finds it. */
  function FindLine(lines: seq<CartLine>, id: int): (r: Option<nat>)
    ensures r.None? <==> forall i :: 0 <= i < |lines| ==> lines[i].productoId != id
    ensures r.Some? ==> r.value < |lines| && lines[r.value].productoId == id
                        && forall j :: 0 <= j < r.value ==> lines[j].productoId != id
  {
    if |lines| == 0 then None
    else if lines[0].productoId == id then Some(0)
    else
      match FindLine(lines[1..], id)
      case None => None
      case Some(k) => Some(k + 1)
  }

  /** What adding `qty` of catalogue product `p` (whose id is `id`) does to the cart: the first
      line for `id` has its quantity raised, otherwise a new line is appended. */
  function AddLine(lines: seq<CartLine>, id: int, qty: int, p: Product): seq<CartLine> {
    match FindLine(lines, id)
    case Some(k) => lines[k := lines[k].(cantidad := lines[k].cantidad + qty)]
    case None => lines + [CartLine(id, qty, p)]
  }

  /** The lines whose product id is not `id`, in their original order. */
  function RemoveId(lines: seq<CartLine>, id: int): seq<CartLine> {
    if |lines| == 0 then []
    else if lines[0].productoId != id then [lines[0]] + RemoveId(lines[1..], id)
    else RemoveId(lines[1..], id)
  }

  // ---- Total ----

  /** The total of two carts laid end to end is the sum of their totals. */
  lemma {:induction false} TotalConcat(a: seq<CartLine>, b: seq<CartLine>)
    ensures Total(a + b) == Total(a) + Total(b)
  {
    if |a| > 0 {
      assert (a + b)[1..] == a[1..] + b;
      TotalConcat(a[1..], b);
    } else {
      assert a + b == b;
    }
  }

  /** Replacing one line changes the total by the difference of the two line totals. */
  lemma {:induction false} TotalUpdate(lines: seq<CartLine>, k: int, l: CartLine)
    requires 0 <= k < |lines|
    ensures Total(lines[k := l]) == Total(lines) - LineTotal(lines[k]) + LineTotal(l)
  {
    if k > 0 {
      assert lines[k := l][1..] == lines[1..][k - 1 := l];
      TotalUpdate(lines[1..], k - 1, l);
    } else {
      assert lines[k := l][1..] == lines[1..];
    }
  }

  /** A cart of one line totals that line's total. */
  lemma TotalSingle(l: CartLine)
    ensures Total([l]) == LineTotal(l)
  {
  }

  /** Raising a line's quantity by `qty` raises its total by the unit price times `qty`. */
  lemma LineTotalRaise(l: CartLine, qty: int)
    ensures LineTotal(l.(cantidad := l.cantidad + qty)) == LineTotal(l) + l.producto.precio * qty
  {
  }

  /** The set of product ids that have a line in the cart. */
  function ProductIds(lines: seq<CartLine>): (ids: set<int>)
    ensures forall i :: 0 <= i < |lines| ==> lines[i].productoId in ids
    ensures forall x :: x in ids ==> exists i :: 0 <= i < |lines| && lines[i].productoId == x
  {
    if |lines| == 0 then {}
    else
      var rest := ProductIds(lines[1..]);
      assert forall x :: x in rest ==> exists i :: 0 <= i < |lines| && lines[i].productoId == x by {
        forall x | x in rest ensures exists i :: 0 <= i < |lines| && lines[i].productoId == x {
          var m :| 0 <= m < |lines[1..]| && lines[1..][m].productoId == x;
          assert lines[m + 1].productoId == x;
        }
      }
      {lines[0].productoId} + rest
  }

  /** With at most one line per product, the number of lines is the number of distinct
      products in the cart. */
  lemma {:induction false} UniqueIdsCount(lines: seq<CartLine>)
    requires UniqueIds(lines)
    ensures |ProductIds(lines)| == |lines|
  {
    if |lines| > 0 {
      var rest := lines[1..];
      UniqueIdsCount(rest);
      assert forall m :: 0 <= m < |rest| ==> rest[m].productoId != lines[0].productoId by {
        forall m | 0 <= m < |rest| ensures rest[m].productoId != lines[0].productoId {
          assert rest[m] == lines[m + 1];
        }
      }
    }
  }

  // ---- Add ----

  /** Adding a product that has a line raises the quantity of the first such line by exactly
      `qty`; the line count and every other line stay the same. */
  lemma AddLineExisting(lines: seq<CartLine>, id: int, qty: int, p: Product)
    requires FindLine(lines, id).Some?
    ensures var k, r := FindLine(lines, id).value, AddLine(lines, id, qty, p);
            && |r| == |lines|
            && r[k].productoId == id
            && r[k].producto == lines[k].producto
            && r[k].cantidad == lines[k].cantidad + qty
            && forall i :: 0 <= i < |lines| && i != k ==> r[i] == lines[i]
  {
  }

  /** Adding a product that has no line keeps the old lines and appends one line at the end,
      with the given quantity and the catalogue product as snapshot. */
  lemma AddLineNew(lines: seq<CartLine>, id: int, qty: int, p: Product)
    requires FindLine(lines, id).None?
    ensures var r := AddLine(lines, id, qty, p);
            |r| == |lines| + 1 && r[..|lines|] == lines && r[|lines|] == CartLine(id, qty, p)
  {
  }

  /** Adding keeps at most one line per product and keeps every snapshot equal to the catalogue. */
  lemma AddPreservesInvariant(catalog: seq<Product>, lines: seq<CartLine>, id: int, qty: int, p: Product)
    requires CartInvariant(catalog, lines)
    requires p in catalog && p.id == id
    ensures CartInvariant(catalog, AddLine(lines, id, qty, p))
  {
    var r := AddLine(lines, id, qty, p);
    if FindLine(lines, id).Some? {
      var k := FindLine(lines, id).value;
      AddLineExisting(lines, id, qty, p);
      assert forall i :: 0 <= i < |r| ==> r[i].productoId == lines[i].productoId;
      forall l | l in r ensures l.producto in catalog && l.producto.id == l.productoId {
        var i :| 0 <= i < |r| && r[i] == l;
        assert lines[i] in lines;
      }
    } else {
      AddLineNew(lines, id, qty, p);
      assert forall i :: 0 <= i < |lines| ==> r[i] == lines[i];
      forall l | l in r ensures l.producto in catalog && l.producto.id == l.productoId {
        var i :| 0 <= i < |r| && r[i] == l;
        if i < |lines| { assert lines[i] in lines; }
      }
    }
  }

  /** In a catalogue without duplicate ids, a line's snapshot is the one entry with its id. */
  lemma SnapshotIsCatalogEntry(catalog: seq<Product>, lines: seq<CartLine>, k: int, p: Product)
    requires UniqueProductIds(catalog)
    requires SnapshotsFromCatalog(catalog, lines)
    requires 0 <= k < |lines|
    requires p in catalog && p.id == lines[k].productoId
    ensures lines[k].producto == p
  {
    assert lines[k] in lines;
    var i :| 0 <= i < |catalog| && catalog[i] == p;
    var j :| 0 <= j < |catalog| && catalog[j] == lines[k].producto;
  }

  /** Adding `qty` of a catalogue product raises the cart total by its price times `qty`,
      whether it merges into an existing line or appends a new one. */
  lemma {:induction false} TotalAfterAdd(catalog: seq<Product>, lines: seq<CartLine>, id: int, qty: int, p: Product)
    requires UniqueProductIds(catalog)
    requires SnapshotsFromCatalog(catalog, lines)
    requires p in catalog && p.id == id
    ensures Total(AddLine(lines, id, qty, p)) == Total(lines) + p.precio * qty
  {
    match FindLine(lines, id)
    case Some(k) =>
      SnapshotIsCatalogEntry(catalog, lines, k, p);
      TotalUpdate(lines, k, lines[k].(cantidad := lines[k].cantidad + qty));
      LineTotalRaise(lines[k], qty);
      assert AddLine(lines, id, qty, p) == lines[k := lines[k].(cantidad := lines[k].cantidad + qty)];
    case None =>
      TotalConcat(lines, [CartLine(id, qty, p)]);
      TotalSingle(CartLine(id, qty, p));
      assert AddLine(lines, id, qty, p) == lines + [CartLine(id, qty, p)];
  }

  /** Two adds of the same product accumulate: they equal one add of the summed quantity. */
  lemma AddAccumulates(lines: seq<CartLine>, id: int, a: int, b: int, p: Product)
    ensures AddLine(AddLine(lines, id, a, p), id, b, p) == AddLine(lines, id, a + b, p)
  {
    var once := AddLine(lines, id, a, p);
    match FindLine(lines, id)
    case Some(k) =>
      assert FindLine(once, id) == Some(k) by {
        assert forall j :: 0 <= j <= k ==> once[j].productoId == lines[j].productoId;
      }
    case None =>
      assert FindLine(once, id) == Some(|lines|) by {
        assert once == lines + [CartLine(id, a, p)];
        assert once[|lines|].productoId == id;
        assert forall j :: 0 <= j < |lines| ==> once[j].productoId != id;
      }
  }

  // ---- Remove ----

  /** A line is kept exactly when it was in the cart and its id is not the removed one. */
  lemma {:induction false} RemoveIdMembers(lines: seq<CartLine>, id: int)
    ensures forall l :: l in RemoveId(lines, id) <==> l in lines && l.productoId != id
  {
    if |lines| > 0 {
      RemoveIdMembers(lines[1..], id);
      assert lines == [lines[0]] + lines[1..];
    }
  }

  /** Removing distributes over concatenation, which with the one-line cases of its definition
      says that the kept lines stay in their original order. */
  lemma {:induction false} RemoveIdConcat(a: seq<CartLine>, b: seq<CartLine>, id: int)
    ensures RemoveId(a + b, id) == RemoveId(a, id) + RemoveId(b, id)
  {
    if |a| > 0 {
      assert (a + b)[0] == a[0];
      assert (a + b)[1..] == a[1..] + b;
      RemoveIdConcat(a[1..], b, id);
    } else {
      assert a + b == b;
    }
  }

  /** Removing an id that no line carries leaves the cart unchanged. */
  lemma {:induction false} RemoveIdAbsent(lines: seq<CartLine>, id: int)
    requires forall i :: 0 <= i < |lines| ==> lines[i].productoId != id
    ensures RemoveId(lines, id) == lines
  {
    if |lines| > 0 {
      RemoveIdAbsent(lines[1..], id);
      assert [lines[0]] + lines[1..] == lines;
    }
  }

  /** In a cart with at most one line per product, removing a present id deletes exactly the
      line found for it and keeps the others in order. */
  lemma {:induction false} RemoveIdExactLine(lines: seq<CartLine>, id: int)
    requires UniqueIds(lines)
    requires FindLine(lines, id).Some?
    ensures var k := FindLine(lines, id).value;
            RemoveId(lines, id) == lines[..k] + lines[k + 1..]
  {
    var k := FindLine(lines, id).value;
    assert lines == lines[..k] + ([lines[k]] + lines[k + 1..]);
    RemoveIdConcat(lines[..k], [lines[k]] + lines[k + 1..], id);
    RemoveIdConcat([lines[k]], lines[k + 1..], id);
    RemoveIdAbsent(lines[..k], id);
    RemoveIdAbsent(lines[k + 1..], id);
    assert RemoveId([lines[k]], id) == [];
  }

  /** Removing keeps at most one line per product. */
  lemma {:induction false} RemoveKeepsUniqueIds(lines: seq<CartLine>, id: int)
    requires UniqueIds(lines)
    ensures UniqueIds(RemoveId(lines, id))
  {
    if |lines| > 0 {
      var rest := RemoveId(lines[1..], id);
      RemoveKeepsUniqueIds(lines[1..], id);
      RemoveIdMembers(lines[1..], id);
      if lines[0].productoId != id {
        var r := [lines[0]] + rest;
        forall i, j | 0 <= i < j < |r| ensures r[i].productoId != r[j].productoId {
          if i == 0 {
            assert r[j] in rest;
            var m :| 0 <= m < |lines[1..]| && lines[1..][m] == r[j];
            assert lines[m + 1] == r[j];
          } else {
            assert r[i] == rest[i - 1] && r[j] == rest[j - 1];
          }
        }
      }
    }
  }

  /** Removing keeps the invariant, and no line for the removed id is left. */
  lemma RemovePreservesInvariant(catalog: seq<Product>, lines: seq<CartLine>, id: int)
    requires CartInvariant(catalog, lines)
    ensures CartInvariant(catalog, RemoveId(lines, id))
    ensures forall i :: 0 <= i < |RemoveId(lines, id)| ==> RemoveId(lines, id)[i].productoId != id
  {
    RemoveKeepsUniqueIds(lines, id);
    var r := RemoveId(lines, id);
    assert forall i :: 0 <= i < |r| ==> r[i] in r;
  }

  /** Removing a present id lowers the total by that line's total; removing an absent one
      leaves it unchanged. */
  lemma {:induction false} TotalAfterRemove(lines: seq<CartLine>, id: int)
    requires UniqueIds(lines)
    ensures FindLine(lines, id).None? ==> Total(RemoveId(lines, id)) == Total(lines)
    ensures FindLine(lines, id).Some? ==>
              Total(RemoveId(lines, id)) == Total(lines) - LineTotal(lines[FindLine(lines, id).value])
  {
    match FindLine(lines, id)
    case None =>
      RemoveIdAbsent(lines, id);
    case Some(k) =>
      RemoveIdExactLine(lines, id);
      var before, after := lines[..k], lines[k + 1..];
      assert lines == before + ([lines[k]] + after);
      TotalConcat(before, [lines[k]] + after);
      TotalConcat([lines[k]], after);
      TotalConcat(before, after);
      TotalSingle(lines[k]);
  }

  /** Removing a product that an add has just appended gives back the cart before the add. */
  lemma {:induction false} RemoveUndoesNewAdd(lines: seq<CartLine>, id: int, qty: int, p: Product)
    requires FindLine(lines, id).None?
    ensures RemoveId(AddLine(lines, id, qty, p), id) == lines
  {
    RemoveIdConcat(lines, [CartLine(id, qty, p)], id);
    RemoveIdAbsent(lines, id);
  }
}
