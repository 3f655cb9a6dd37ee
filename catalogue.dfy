/**
 * The product routes (backend/src/routes/products.js). Every product is
 * stored as rows of one name, one per masa; create adds a pair, update and
 * delete act on every row sharing the name of the row they are given, and
 * the listing groups rows by name. Prices are integer cents.
 */
module Catalogue {
  import opened Common
  import opened Text
  import opened Pricing
  import opened Orders

  const Maiz: string := "maíz"
  const Arroz: string := "arroz"

  datatype ProductRow = ProductRow(id: int, name: string, masa: string, price: int, isSmall: bool)

  /** The `products` table and the next value of its id sequence. */
  datatype Catalog = Catalog(rows: seq<ProductRow>, nextId: int)

  datatype CatalogueError = UnknownProduct | ProductInUse

  function StatusCode(e: CatalogueError): int
  {
    match e
    case UnknownProduct => 404
    case ProductInUse => 400
  }

  /** Ids strictly ascend in table order. */
  ghost predicate IdsAscending(rows: seq<ProductRow>)
  {
    forall i, j :: 0 <= i < j < |rows| ==> rows[i].id < rows[j].id
  }

  /** Some row has this name. */
  predicate NameIn(rows: seq<ProductRow>, name: string)
  {
    exists y :: y in rows && y.name == name
  }

  /** Some row has this name and this masa. */
  predicate HasRow(rows: seq<ProductRow>, name: string, masa: string)
  {
    exists y :: y in rows && y.name == name && y.masa == masa
  }

  /** Every name present has a maíz row and an arroz row. */
  ghost predicate Paired(rows: seq<ProductRow>)
  {
    forall n :: NameIn(rows, n) ==> HasRow(rows, n, Maiz) && HasRow(rows, n, Arroz)
  }

  /** Every row's masa is maíz or arroz. */
  ghost predicate TwoMasas(rows: seq<ProductRow>)
  {
    forall x :: x in rows ==> x.masa == Maiz || x.masa == Arroz
  }

  /** Each arroz row of this name has a maíz row of this name with a smaller id. */
  predicate MaizBeforeArroz(rows: seq<ProductRow>, name: string)
  {
    forall x :: x in rows && x.name == name && x.masa == Arroz ==>
      exists y :: y in rows && y.name == name && y.masa == Maiz && y.id < x.id
  }

  /** In every name a maíz row comes first: create inserts maíz before arroz. */
  ghost predicate MaizFirst(rows: seq<ProductRow>)
  {
    forall n :: MaizBeforeArroz(rows, n)
  }

  /**
   * Ids ascend and stay below the sequence's next value, every row's masa is
   * maíz or arroz, names come in pairs, and in each name a maíz row comes first.
   */
  ghost predicate WellKept(c: Catalog)
  {
    && IdsAscending(c.rows)
    && (forall k :: 0 <= k < |c.rows| ==> c.rows[k].id < c.nextId)
    && TwoMasas(c.rows)
    && Paired(c.rows)
    && MaizFirst(c.rows)
  }

  /** The row with this id, if any: the lookup update and delete start from. */
  function FindRow(rows: seq<ProductRow>, id: int): (r: Option<ProductRow>)
    ensures r.Some? <==> exists k :: 0 <= k < |rows| && rows[k].id == id
    ensures r.Some? ==> r.value in rows && r.value.id == id
  {
    if rows == [] then None
    else if rows[0].id == id then Some(rows[0])
    else FindRow(rows[1..], id)
  }

  // ---------------------------------------------------------------------
  // Create
  // ---------------------------------------------------------------------

  /** POST /api/products: a maíz row and an arroz row with one name, price and flag; answers with the maíz row. */
  function CreateProduct(c: Catalog, name: string, price: int, isSmall: Option<bool>): (ProductRow, Catalog)
  {
    var flag := isSmall == Some(true);
    var maiz := ProductRow(c.nextId, name, Maiz, price, flag);
    var arroz := ProductRow(c.nextId + 1, name, Arroz, price, flag);
    (maiz, Catalog(c.rows + [maiz, arroz], c.nextId + 2))
  }

  /** Adding a maíz row and an arroz row of one name keeps names paired. */
  lemma PairedAppend(rows: seq<ProductRow>, m: ProductRow, a: ProductRow)
    requires Paired(rows)
    requires m.name == a.name && m.masa == Maiz && a.masa == Arroz
    ensures Paired(rows + [m, a])
  {
    var rows' := rows + [m, a];
    forall n | NameIn(rows', n) ensures HasRow(rows', n, Maiz) && HasRow(rows', n, Arroz) {
      var x :| x in rows' && x.name == n;
      if x in rows {
        assert NameIn(rows, n);
        var y :| y in rows && y.name == n && y.masa == Maiz;
        var z :| z in rows && z.name == n && z.masa == Arroz;
        assert y in rows' && z in rows';
      } else {
        assert m in rows' && a in rows';
      }
    }
  }

  /** Adding a maíz row before an arroz row of one name keeps maíz first. */
  lemma MaizFirstAppend(rows: seq<ProductRow>, m: ProductRow, a: ProductRow)
    requires MaizFirst(rows)
    requires m.name == a.name && m.masa == Maiz && a.masa == Arroz && m.id < a.id
    ensures MaizFirst(rows + [m, a])
  {
    var rows' := rows + [m, a];
    forall n ensures MaizBeforeArroz(rows', n) {
      forall x | x in rows' && x.name == n && x.masa == Arroz
        ensures exists y :: y in rows' && y.name == n && y.masa == Maiz && y.id < x.id
      {
        if x in rows {
          assert MaizBeforeArroz(rows, n);
          var y :| y in rows && y.name == n && y.masa == Maiz && y.id < x.id;
          assert y in rows';
        } else {
          assert x == a by { assert Maiz[0] != Arroz[0]; }
          assert m in rows';
        }
      }
    }
  }

  /** Create keeps the table well kept. */
  lemma CreateKeepsWellKept(c: Catalog, name: string, price: int, isSmall: Option<bool>)
    requires WellKept(c)
    ensures WellKept(CreateProduct(c, name, price, isSmall).1)
  {
    var (m, c') := CreateProduct(c, name, price, isSmall);
    var a := c'.rows[|c.rows| + 1];
    assert c'.rows == c.rows + [m, a];
    PairedAppend(c.rows, m, a);
    MaizFirstAppend(c.rows, m, a);
  }

  /**
   * Create adds exactly two rows after the existing ones, with fresh and
   * increasing ids, masas maíz then arroz, the same name, price and flag,
   * the flag false unless it was sent as true; it answers with the maíz row.
   */
  lemma CreateProductAddsPair(c: Catalog, name: string, price: int, isSmall: Option<bool>)
    requires WellKept(c)
    ensures var (row, c') := CreateProduct(c, name, price, isSmall);
      && |c'.rows| == |c.rows| + 2 && c'.rows[..|c.rows|] == c.rows
      && c'.rows[|c.rows|] == row
      && row.masa == Maiz && c'.rows[|c.rows| + 1].masa == Arroz
      && row.name == c'.rows[|c.rows| + 1].name == name
      && row.price == c'.rows[|c.rows| + 1].price == price
      && (row.isSmall <==> isSmall == Some(true)) && c'.rows[|c.rows| + 1].isSmall == row.isSmall
      && (forall k :: 0 <= k < |c.rows| ==> c.rows[k].id < row.id < c'.rows[|c.rows| + 1].id)
  {
  }

  // ---------------------------------------------------------------------
  // Update
  // ---------------------------------------------------------------------

  /** The update body: each field absent (JSON null or missing) keeps the stored value. */
  datatype Patch = Patch(name: Option<string>, price: Option<int>, isSmall: Option<bool>)

  /** The price the update sends: a missing price, and a price of 0 (falsy), are sent as NULL. */
  function PriceArgument(price: Option<int>): (r: Option<int>)
    ensures r.None? <==> price.None? || price == Some(0)
    ensures r.Some? ==> r == price
  {
    if price == Some(0) then None else price
  }

  /** One row updated: each field given replaces the stored one, each NULL keeps it. */
  function Apply(row: ProductRow, patch: Patch): ProductRow
  {
    row.(name := patch.name.GetOr(row.name),
         price := PriceArgument(patch.price).GetOr(row.price),
         isSmall := patch.isSmall.GetOr(row.isSmall))
  }

  /** The update applied to every row of one name, and to no other row. */
  function UpdateNamed(rows: seq<ProductRow>, name: string, patch: Patch): (r: seq<ProductRow>)
    ensures |r| == |rows|
  {
    seq(|rows|, k requires 0 <= k < |rows| => if rows[k].name == name then Apply(rows[k], patch) else rows[k])
  }

  /** PUT /api/products/:id: every row sharing the current name of row `id` takes the patch. */
  function UpdateProduct(c: Catalog, id: int, patch: Patch): (Outcome<CatalogueError>, Catalog)
  {
    match FindRow(c.rows, id)
    case None => (Fail(UnknownProduct), c)
    case Some(current) => (Pass, Catalog(UpdateNamed(c.rows, current.name, patch), c.nextId))
  }

  /** Renaming or repricing every row of one name keeps names paired. */
  lemma PairedUpdate(rows: seq<ProductRow>, name: string, patch: Patch)
    requires Paired(rows)
    ensures Paired(UpdateNamed(rows, name, patch))
  {
    var rows' := UpdateNamed(rows, name, patch);
    forall n | NameIn(rows', n) ensures HasRow(rows', n, Maiz) && HasRow(rows', n, Arroz) {
      var x :| x in rows' && x.name == n;
      var k :| 0 <= k < |rows'| && rows'[k] == x;
      assert rows[k] in rows;
      assert NameIn(rows, rows[k].name);
      var y :| y in rows && y.name == rows[k].name && y.masa == Maiz;
      var z :| z in rows && z.name == rows[k].name && z.masa == Arroz;
      var i :| 0 <= i < |rows| && rows[i] == y;
      var j :| 0 <= j < |rows| && rows[j] == z;
      assert rows'[i] in rows' && rows'[i].name == n && rows'[i].masa == Maiz;
      assert rows'[j] in rows' && rows'[j].name == n && rows'[j].masa == Arroz;
    }
  }

  /** Renaming every row of one name together keeps maíz first. */
  lemma MaizFirstUpdate(rows: seq<ProductRow>, name: string, patch: Patch)
    requires MaizFirst(rows)
    ensures MaizFirst(UpdateNamed(rows, name, patch))
  {
    var rows' := UpdateNamed(rows, name, patch);
    forall n ensures MaizBeforeArroz(rows', n) {
      forall x | x in rows' && x.name == n && x.masa == Arroz
        ensures exists y :: y in rows' && y.name == n && y.masa == Maiz && y.id < x.id
      {
        var k :| 0 <= k < |rows'| && rows'[k] == x;
        assert rows[k] in rows;
        assert MaizBeforeArroz(rows, rows[k].name);
        var y :| y in rows && y.name == rows[k].name && y.masa == Maiz && y.id < rows[k].id;
        var i :| 0 <= i < |rows| && rows[i] == y;
        assert rows'[i] in rows' && rows'[i].name == n && rows'[i].masa == Maiz && rows'[i].id < x.id;
      }
    }
  }

  /** Update keeps the table well kept. */
  lemma UpdateKeepsWellKept(c: Catalog, id: int, patch: Patch)
    requires WellKept(c)
    ensures WellKept(UpdateProduct(c, id, patch).1)
  {
    var current := FindRow(c.rows, id);
    if current.Some? {
      var rows' := UpdateNamed(c.rows, current.value.name, patch);
      PairedUpdate(c.rows, current.value.name, patch);
      MaizFirstUpdate(c.rows, current.value.name, patch);
      forall x | x in rows' ensures x.masa == Maiz || x.masa == Arroz {
        var k :| 0 <= k < |rows'| && rows'[k] == x;
        assert c.rows[k] in c.rows;
      }
    }
  }

  /**
   * An unknown id answers 404 and changes nothing. Otherwise every row keeps
   * its id and masa; rows with another name are untouched; the rows sharing
   * the name of row `id` all end with one name, each field being the patch's
   * value where one was sent (a price only when it is not 0) and the old
   * value elsewhere.
   */
  lemma UpdateProductOutcome(c: Catalog, id: int, patch: Patch)
    ensures var (outcome, c') := UpdateProduct(c, id, patch);
      && (outcome.Fail? <==> !exists k :: 0 <= k < |c.rows| && c.rows[k].id == id)
      && (outcome.Fail? ==> outcome.error == UnknownProduct && c' == c)
      && (outcome.Pass? ==>
            var current := FindRow(c.rows, id).value;
            && current in c.rows && current.id == id
            && c'.nextId == c.nextId && |c'.rows| == |c.rows|
            && (forall k :: 0 <= k < |c.rows| ==> c'.rows[k].id == c.rows[k].id && c'.rows[k].masa == c.rows[k].masa)
            && (forall k :: 0 <= k < |c.rows| && c.rows[k].name != current.name ==> c'.rows[k] == c.rows[k])
            && (forall k :: 0 <= k < |c.rows| && c.rows[k].name == current.name ==>
                  && c'.rows[k].name == (if patch.name.Some? then patch.name.value else current.name)
                  && c'.rows[k].price == (if patch.price.Some? && patch.price.value != 0 then patch.price.value else c.rows[k].price)
                  && c'.rows[k].isSmall == (if patch.isSmall.Some? then patch.isSmall.value else c.rows[k].isSmall)))
  {
  }

  // ---------------------------------------------------------------------
  // Delete
  // ---------------------------------------------------------------------

  /**
   * Some order line refers to a product row of this name: the in-use check
   * that refuses a delete.
   */
  predicate InUse(rows: seq<ProductRow>, items: seq<ItemRow>, name: string)
  {
    exists k, j :: 0 <= k < |items| && 0 <= j < |rows| && rows[j].id == items[k].line.productId && rows[j].name == name
  }

  /** The table once every row of one name is deleted. */
  function WithoutName(rows: seq<ProductRow>, name: string): (r: seq<ProductRow>)
    ensures forall x :: x in r <==> x in rows && x.name != name
  {
    if rows == [] then []
    else WithoutName(rows[..|rows| - 1], name) + (if rows[|rows| - 1].name == name then [] else [rows[|rows| - 1]])
  }

  /** DELETE /api/products/:id, given the order lines the in-use check looks at. */
  function DeleteProduct(c: Catalog, id: int, items: seq<ItemRow>): (Outcome<CatalogueError>, Catalog)
  {
    match FindRow(c.rows, id)
    case None => (Fail(UnknownProduct), c)
    case Some(product) =>
      if InUse(c.rows, items, product.name) then (Fail(ProductInUse), c)
      else (Pass, Catalog(WithoutName(c.rows, product.name), c.nextId))
  }

  lemma {:induction false} WithoutNameAscending(rows: seq<ProductRow>, name: string)
    requires IdsAscending(rows)
    ensures IdsAscending(WithoutName(rows, name))
  {
    if rows != [] {
      var init := rows[..|rows| - 1];
      var last := rows[|rows| - 1];
      WithoutNameAscending(init, name);
      var r0 := WithoutName(init, name);
      if last.name != name {
        var r := r0 + [last];
        forall i, j | 0 <= i < j < |r| ensures r[i].id < r[j].id {
          if j == |r| - 1 {
            assert r[i] in r0;
            var m :| 0 <= m < |init| && init[m] == r[i];
            assert rows[m] == init[m];
          } else {
            assert r[i] == r0[i] && r[j] == r0[j];
          }
        }
      }
    }
  }

  /** Removing rows keeps the ids below the sequence's next value and every masa maíz or arroz. */
  lemma WithoutNameBounded(c: Catalog, name: string)
    requires forall k :: 0 <= k < |c.rows| ==> c.rows[k].id < c.nextId
    ensures var rows' := WithoutName(c.rows, name); forall k :: 0 <= k < |rows'| ==> rows'[k].id < c.nextId
  {
    var rows' := WithoutName(c.rows, name);
    forall k | 0 <= k < |rows'| ensures rows'[k].id < c.nextId {
      assert rows'[k] in rows';
      var m :| 0 <= m < |c.rows| && c.rows[m] == rows'[k];
    }
  }

  /** Removing every row of one name keeps the other names paired. */
  lemma PairedWithout(rows: seq<ProductRow>, name: string)
    requires Paired(rows)
    ensures Paired(WithoutName(rows, name))
  {
    var rows' := WithoutName(rows, name);
    forall n | NameIn(rows', n) ensures HasRow(rows', n, Maiz) && HasRow(rows', n, Arroz) {
      var x :| x in rows' && x.name == n;
      assert NameIn(rows, n);
      var y :| y in rows && y.name == n && y.masa == Maiz;
      var z :| z in rows && z.name == n && z.masa == Arroz;
      assert y in rows' && z in rows';
    }
  }

  /** Removing every row of one name keeps maíz first in the others. */
  lemma MaizFirstWithout(rows: seq<ProductRow>, name: string)
    requires MaizFirst(rows)
    ensures MaizFirst(WithoutName(rows, name))
  {
    var rows' := WithoutName(rows, name);
    forall n ensures MaizBeforeArroz(rows', n) {
      forall x | x in rows' && x.name == n && x.masa == Arroz
        ensures exists y :: y in rows' && y.name == n && y.masa == Maiz && y.id < x.id
      {
        assert MaizBeforeArroz(rows, n);
        var y :| y in rows && y.name == n && y.masa == Maiz && y.id < x.id;
        assert y in rows';
      }
    }
  }

  /** Delete keeps the table well kept. */
  lemma DeleteKeepsWellKept(c: Catalog, id: int, items: seq<ItemRow>)
    requires WellKept(c)
    ensures WellKept(DeleteProduct(c, id, items).1)
  {
    var product := FindRow(c.rows, id);
    if product.Some? && !InUse(c.rows, items, product.value.name) {
      WithoutNameAscending(c.rows, product.value.name);
      WithoutNameBounded(c, product.value.name);
      PairedWithout(c.rows, product.value.name);
      MaizFirstWithout(c.rows, product.value.name);
    }
  }

  /**
   * Delete answers 404 for an unknown id and 400 when an order line uses a
   * product of that name, changing nothing in either case; otherwise exactly
   * the rows of that name are gone.
   */
  lemma DeleteProductOutcome(c: Catalog, id: int, items: seq<ItemRow>)
    ensures var (outcome, c') := DeleteProduct(c, id, items);
      && (outcome == Fail(UnknownProduct) <==> !exists k :: 0 <= k < |c.rows| && c.rows[k].id == id)
      && (outcome == Fail(ProductInUse) <==>
            FindRow(c.rows, id).Some? && InUse(c.rows, items, FindRow(c.rows, id).value.name))
      && (outcome.Fail? ==> c' == c)
      && (outcome.Pass? ==>
            && c'.nextId == c.nextId
            && forall x :: x in c'.rows <==> x in c.rows && x.name != FindRow(c.rows, id).value.name)
  {
  }

  // ---------------------------------------------------------------------
  // The price lookup the order routes query
  // ---------------------------------------------------------------------

  function Ids(rows: seq<ProductRow>): set<int>
  {
    set r | r in rows :: r.id
  }

  /** The price and promotion flag the order routes look up for each product id. */
  function PriceLookup(rows: seq<ProductRow>): (m: map<int, PriceInfo>)
    ensures m.Keys == Ids(rows)
  {
    map id | id in Ids(rows) :: var r := FindRow(rows, id).value; PriceInfo(r.price, r.isSmall)
  }

  /** With ascending ids, the lookup of a row's id gives that row's price and flag. */
  lemma PriceLookupFindsRow(rows: seq<ProductRow>, k: int)
    requires IdsAscending(rows)
    requires 0 <= k < |rows|
    ensures rows[k].id in PriceLookup(rows)
    ensures PriceLookup(rows)[rows[k].id] == PriceInfo(rows[k].price, rows[k].isSmall)
  {
    assert rows[k] in rows;
    var r := FindRow(rows, rows[k].id).value;
    var j :| 0 <= j < |rows| && rows[j] == r;
    assert j == k;
  }

  // ---------------------------------------------------------------------
  // The grouped listing
  // ---------------------------------------------------------------------

  /** One entry of GET /api/products. */
  datatype ListedProduct = ListedProduct(id: int, name: string, price: int, hasSmallVersion: bool, masas: nat)

  /** The distinct names, ascending: one listing entry per name, in name order. */
  function Names(rows: seq<ProductRow>): (r: seq<string>)
    ensures StrictlyAscending(r)
    ensures forall n :: n in r <==> exists k :: 0 <= k < |rows| && rows[k].name == n
  {
    if rows == [] then []
    else
      var init := rows[..|rows| - 1];
      var r := InsertName(Names(init), rows[|rows| - 1].name);
      assert forall k :: 0 <= k < |init| ==> init[k] == rows[k];
      r
  }

  /** The rows of one group. */
  function Group(rows: seq<ProductRow>, name: string): (r: seq<ProductRow>)
    ensures forall x :: x in r <==> x in rows && x.name == name
  {
    if rows == [] then []
    else Group(rows[..|rows| - 1], name) + (if rows[|rows| - 1].name == name then [rows[|rows| - 1]] else [])
  }

  /** `MIN(id)`. */
  function MinId(rows: seq<ProductRow>): (m: int)
    requires |rows| > 0
    ensures (exists k :: 0 <= k < |rows| && rows[k].id == m) && forall k :: 0 <= k < |rows| ==> m <= rows[k].id
  {
    if |rows| == 1 then rows[0].id
    else
      var rest := MinId(rows[1..]);
      assert forall k :: 1 <= k < |rows| ==> rows[k] == rows[1..][k - 1];
      if rows[0].id <= rest then rows[0].id else rest
  }

  /** `MIN(price)`. */
  function MinPrice(rows: seq<ProductRow>): (m: int)
    requires |rows| > 0
    ensures (exists k :: 0 <= k < |rows| && rows[k].price == m) && forall k :: 0 <= k < |rows| ==> m <= rows[k].price
  {
    if |rows| == 1 then rows[0].price
    else
      var rest := MinPrice(rows[1..]);
      assert forall k :: 1 <= k < |rows| ==> rows[k] == rows[1..][k - 1];
      if rows[0].price <= rest then rows[0].price else rest
  }

  /** `BOOL_OR(is_small)`. */
  predicate AnySmall(rows: seq<ProductRow>)
  {
    exists k :: 0 <= k < |rows| && rows[k].isSmall
  }

  /** `COUNT(DISTINCT masa)`. */
  function MasaCount(rows: seq<ProductRow>): nat
  {
    |set r | r in rows :: r.masa|
  }

  function Entry(rows: seq<ProductRow>, name: string): ListedProduct
    requires exists k :: 0 <= k < |rows| && rows[k].name == name
  {
    var group := Group(rows, name);
    var k :| 0 <= k < |rows| && rows[k].name == name;
    assert rows[k] in group;
    ListedProduct(MinId(group), name, MinPrice(group), AnySmall(group), MasaCount(group))
  }

  /** GET /api/products. */
  function Listing(rows: seq<ProductRow>): (r: seq<ListedProduct>)
    ensures |r| == |Names(rows)|
  {
    var names := Names(rows);
    seq(|names|, i requires 0 <= i < |names| => assert names[i] in names; Entry(rows, names[i]))
  }

  /** The listing is in strictly ascending name order, so names are not repeated. */
  lemma ListingOrdered(rows: seq<ProductRow>)
    ensures var l := Listing(rows); forall i, j :: 0 <= i < j < |l| ==> Less(l[i].name, l[j].name)
  {
  }

  /** Every name in the table is listed, and only those. */
  lemma ListingCoversNames(rows: seq<ProductRow>)
    ensures var l := Listing(rows);
      && (forall k :: 0 <= k < |rows| ==> exists i :: 0 <= i < |l| && l[i].name == rows[k].name)
      && (forall i :: 0 <= i < |l| ==> exists k :: 0 <= k < |rows| && rows[k].name == l[i].name)
  {
    var l := Listing(rows);
    var names := Names(rows);
    forall k | 0 <= k < |rows| ensures exists i :: 0 <= i < |l| && l[i].name == rows[k].name {
      assert rows[k].name in names;
      var i :| 0 <= i < |names| && names[i] == rows[k].name;
      assert l[i].name == rows[k].name;
    }
    forall i | 0 <= i < |l| ensures exists k :: 0 <= k < |rows| && rows[k].name == l[i].name {
      assert names[i] in names;
    }
  }

  /**
   * A listed product's id and price are the least among the rows of its name
   * and belong to such rows; it has a small version exactly when one of those
   * rows is small.
   */
  lemma ListingEntry(rows: seq<ProductRow>, i: int)
    requires 0 <= i < |Listing(rows)|
    ensures var e := Listing(rows)[i];
      && (exists k :: 0 <= k < |rows| && rows[k].name == e.name && rows[k].id == e.id)
      && (exists k :: 0 <= k < |rows| && rows[k].name == e.name && rows[k].price == e.price)
      && (forall k :: 0 <= k < |rows| && rows[k].name == e.name ==> e.id <= rows[k].id && e.price <= rows[k].price)
      && (e.hasSmallVersion <==> exists k :: 0 <= k < |rows| && rows[k].name == e.name && rows[k].isSmall)
  {
    var names := Names(rows);
    assert names[i] in names;
    var name := names[i];
    assert Listing(rows)[i] == Entry(rows, name);
    EntryLeast(rows, name);
    EntrySmall(rows, name);
  }

  /** The entry's id and price come from rows of its name and are the least among them. */
  lemma EntryLeast(rows: seq<ProductRow>, name: string)
    requires exists k :: 0 <= k < |rows| && rows[k].name == name
    ensures var e := Entry(rows, name);
      && e.name == name
      && (exists k :: 0 <= k < |rows| && rows[k].name == name && rows[k].id == e.id)
      && (exists k :: 0 <= k < |rows| && rows[k].name == name && rows[k].price == e.price)
      && (forall k :: 0 <= k < |rows| && rows[k].name == name ==> e.id <= rows[k].id && e.price <= rows[k].price)
  {
    var e := Entry(rows, name);
    var group := Group(rows, name);
    var a :| 0 <= a < |group| && group[a].id == e.id;
    assert group[a] in rows;
    var b :| 0 <= b < |group| && group[b].price == e.price;
    assert group[b] in rows;
    forall k | 0 <= k < |rows| && rows[k].name == name ensures e.id <= rows[k].id && e.price <= rows[k].price {
      assert rows[k] in group;
    }
  }

  /** The entry has a small version exactly when a row of its name is small. */
  lemma EntrySmall(rows: seq<ProductRow>, name: string)
    requires exists k :: 0 <= k < |rows| && rows[k].name == name
    ensures Entry(rows, name).hasSmallVersion <==> exists k :: 0 <= k < |rows| && rows[k].name == name && rows[k].isSmall
  {
    var group := Group(rows, name);
    if exists k :: 0 <= k < |rows| && rows[k].name == name && rows[k].isSmall {
      var k :| 0 <= k < |rows| && rows[k].name == name && rows[k].isSmall;
      assert rows[k] in group;
    }
    if Entry(rows, name).hasSmallVersion {
      var c :| 0 <= c < |group| && group[c].isSmall;
      assert group[c] in rows;
    }
  }

  /** With paired names and only two masas, every group holds exactly the two masas. */
  lemma GroupMasas(rows: seq<ProductRow>, name: string)
    requires Paired(rows) && TwoMasas(rows)
    requires exists k :: 0 <= k < |rows| && rows[k].name == name
    ensures MasaCount(Group(rows, name)) == 2
  {
    var group := Group(rows, name);
    var k :| 0 <= k < |rows| && rows[k].name == name;
    assert rows[k] in rows;
    assert NameIn(rows, name);
    var a :| a in rows && a.name == name && a.masa == Maiz;
    var b :| b in rows && b.name == name && b.masa == Arroz;
    assert a in group && b in group;
    var masas := set r | r in group :: r.masa;
    forall x | x in masas ensures x == Maiz || x == Arroz {
      var r :| r in group && r.masa == x;
    }
    assert masas == {Maiz, Arroz};
    assert Maiz != Arroz by { assert Maiz[0] != Arroz[0]; }
  }

  /** In a well-kept table every listed product is offered in exactly two masas. */
  lemma ListingHasBothMasas(c: Catalog, i: int)
    requires WellKept(c)
    requires 0 <= i < |Listing(c.rows)|
    ensures Listing(c.rows)[i].masas == 2
  {
    var names := Names(c.rows);
    assert names[i] in names;
    GroupMasas(c.rows, names[i]);
  }

  /**
   * In a well-kept table the id a listed product carries is the id of its
   * maíz row, so an order placed from the listing is priced on the maíz row.
   */
  lemma ListingIdIsMaiz(c: Catalog, i: int)
    requires WellKept(c)
    requires 0 <= i < |Listing(c.rows)|
    ensures exists k :: 0 <= k < |c.rows| && c.rows[k].id == Listing(c.rows)[i].id
                        && c.rows[k].name == Listing(c.rows)[i].name && c.rows[k].masa == Maiz
  {
    var e := Listing(c.rows)[i];
    ListingEntry(c.rows, i);
    var k :| 0 <= k < |c.rows| && c.rows[k].name == e.name && c.rows[k].id == e.id;
    assert c.rows[k] in c.rows;
    assert c.rows[k].masa == Maiz by {
      assert MaizBeforeArroz(c.rows, e.name);
    }
  }

  // ---------------------------------------------------------------------
  // One price and one flag per product
  // ---------------------------------------------------------------------

  /** All rows of one name carry the same price and the same promotion flag. */
  ghost predicate SameTerms(rows: seq<ProductRow>)
  {
    forall x, y :: x in rows && y in rows && x.name == y.name ==> x.price == y.price && x.isSmall == y.isSmall
  }

  /** Creating a product under a new name gives both of its rows one price and one flag. */
  lemma CreateKeepsSameTerms(c: Catalog, name: string, price: int, isSmall: Option<bool>)
    requires SameTerms(c.rows)
    requires !NameIn(c.rows, name)
    ensures SameTerms(CreateProduct(c, name, price, isSmall).1.rows)
  {
    var rows := CreateProduct(c, name, price, isSmall).1.rows;
    forall x, y | x in rows && y in rows && x.name == y.name
      ensures x.price == y.price && x.isSmall == y.isSmall
    {
      if x.name == name {
        assert x !in c.rows && y !in c.rows;
      }
    }
  }

  /**
   * The update changes every row of one name alike; unless it renames the
   * product onto the name of another one, each name keeps one price and one flag.
   */
  lemma UpdateKeepsSameTerms(c: Catalog, id: int, patch: Patch)
    requires SameTerms(c.rows)
    requires FindRow(c.rows, id).Some? && patch.name.Some? ==>
      patch.name.value == FindRow(c.rows, id).value.name || !NameIn(c.rows, patch.name.value)
    ensures SameTerms(UpdateProduct(c, id, patch).1.rows)
  {
    var found := FindRow(c.rows, id);
    if found.Some? {
      var current := found.value.name;
      var rows := UpdateNamed(c.rows, current, patch);
      forall x, y | x in rows && y in rows && x.name == y.name
        ensures x.price == y.price && x.isSmall == y.isSmall
      {
        var i :| 0 <= i < |rows| && rows[i] == x;
        var j :| 0 <= j < |rows| && rows[j] == y;
        UpdatedPair(c.rows, current, patch, i, j);
      }
    }
  }

  /** Two updated rows that end under one name end with one price and one flag. */
  lemma UpdatedPair(rows: seq<ProductRow>, current: string, patch: Patch, i: int, j: int)
    requires SameTerms(rows)
    requires patch.name.Some? ==> patch.name.value == current || !NameIn(rows, patch.name.value)
    requires 0 <= i < |rows| && 0 <= j < |rows|
    requires UpdateNamed(rows, current, patch)[i].name == UpdateNamed(rows, current, patch)[j].name
    ensures UpdateNamed(rows, current, patch)[i].price == UpdateNamed(rows, current, patch)[j].price
    ensures UpdateNamed(rows, current, patch)[i].isSmall == UpdateNamed(rows, current, patch)[j].isSmall
  {
    assert rows[i] in rows && rows[j] in rows;
    assert NameIn(rows, rows[i].name) && NameIn(rows, rows[j].name);
  }

  /** Deleting a product only removes rows, so the remaining names keep their terms. */
  lemma DeleteKeepsSameTerms(c: Catalog, id: int, items: seq<ItemRow>)
    requires SameTerms(c.rows)
    ensures SameTerms(DeleteProduct(c, id, items).1.rows)
  {
  }

  /** With ascending ids, two listed products never share an id. */
  lemma ListingIdsDistinct(rows: seq<ProductRow>, i: int, j: int)
    requires IdsAscending(rows)
    requires 0 <= i < |Listing(rows)| && 0 <= j < |Listing(rows)|
    requires Listing(rows)[i].id == Listing(rows)[j].id
    ensures i == j
  {
    var l := Listing(rows);
    ListingEntry(rows, i);
    ListingEntry(rows, j);
    var a :| 0 <= a < |rows| && rows[a].name == l[i].name && rows[a].id == l[i].id;
    var b :| 0 <= b < |rows| && rows[b].name == l[j].name && rows[b].id == l[j].id;
    assert a == b;
    ListingOrdered(rows);
    if i < j {
      LessIrreflexive(l[i].name);
    } else if j < i {
      LessIrreflexive(l[j].name);
    }
  }

  /**
   * When every name keeps one price and one flag, ordering a listed product by
   * its listed id is priced with exactly the price and the promotion flag the
   * listing shows.
   */
  lemma ListedTermsAreStored(c: Catalog, i: int)
    requires IdsAscending(c.rows) && SameTerms(c.rows)
    requires 0 <= i < |Listing(c.rows)|
    ensures Listing(c.rows)[i].id in PriceLookup(c.rows)
    ensures PriceLookup(c.rows)[Listing(c.rows)[i].id] == PriceInfo(Listing(c.rows)[i].price, Listing(c.rows)[i].hasSmallVersion)
    ensures exists k :: 0 <= k < |c.rows| && c.rows[k].id == Listing(c.rows)[i].id
  {
    var e := Listing(c.rows)[i];
    ListingEntry(c.rows, i);
    var k :| 0 <= k < |c.rows| && c.rows[k].name == e.name && c.rows[k].id == e.id;
    var p :| 0 <= p < |c.rows| && c.rows[p].name == e.name && c.rows[p].price == e.price;
    assert c.rows[k] in c.rows && c.rows[p] in c.rows;
    PriceLookupFindsRow(c.rows, k);
    if e.hasSmallVersion {
      var s :| 0 <= s < |c.rows| && c.rows[s].name == e.name && c.rows[s].isSmall;
      assert c.rows[s] in c.rows;
    }
  }

  // ---------------------------------------------------------------------
  // The table
  // ---------------------------------------------------------------------

  /** The `products` table the routes write to. */
  class ProductTable {
    var rows: seq<ProductRow>
    var nextId: int

    function State(): Catalog
      reads this
    {
      Catalog(rows, nextId)
    }

    ghost predicate Valid()
      reads this
    {
      WellKept(State())
    }

    constructor ()
      ensures Valid() && rows == []
    {
      rows, nextId := [], 1;
    }

    /** POST /api/products: BEGIN, two inserts, COMMIT. */
    method Create(name: string, price: int, isSmall: Option<bool>) returns (row: ProductRow)
      requires Valid()
      modifies this
      ensures Valid()
      ensures (row, State()) == CreateProduct(old(State()), name, price, isSmall)
    {
      ghost var before := State();
      CreateKeepsWellKept(before, name, price, isSmall);
      var flag := isSmall == Some(true);
      row := ProductRow(nextId, name, Maiz, price, flag);
      var arroz := ProductRow(nextId + 1, name, Arroz, price, flag);
      rows, nextId := rows + [row, arroz], nextId + 2;
      assert State() == CreateProduct(before, name, price, isSmall).1;
    }

    /** PUT /api/products/:id. */
    method Update(id: int, patch: Patch) returns (r: Outcome<CatalogueError>)
      requires Valid()
      modifies this
      ensures Valid()
      ensures (r, State()) == UpdateProduct(old(State()), id, patch)
    {
      UpdateKeepsWellKept(State(), id, patch);
      var current := FindRow(rows, id);
      if current.None? {
        return Fail(UnknownProduct);
      }
      rows := UpdateNamed(rows, current.value.name, patch);
      r := Pass;
    }

    /** DELETE /api/products/:id, given the `order_items` table. */
    method Delete(id: int, items: seq<ItemRow>) returns (r: Outcome<CatalogueError>)
      requires Valid()
      modifies this
      ensures Valid()
      ensures (r, State()) == DeleteProduct(old(State()), id, items)
    {
      DeleteKeepsWellKept(State(), id, items);
      var product := FindRow(rows, id);
      if product.None? {
        return Fail(UnknownProduct);
      }
      if InUse(rows, items, product.value.name) {
        return Fail(ProductInUse);
      }
      rows := WithoutName(rows, product.value.name);
      r := Pass;
    }
  }
}
