/**
 * The back-office product list: the search and category filter, the sort
 * comparator and its toggle, adding stock, the barcode scan dispatch and the
 * active-status toggle.
 */
module AdminProductos {
  import opened Wrappers
  import opened Types
  import Text
  import Seqs

  // ---------------------------------------------------------------------------
  // Filter

  /** `(x?.toLowerCase() || '')`: a missing text counts as "". */
  function TextoOVacio(s: Option<string>): string {
    match s
    case Some(t) => Text.Lower(t)
    case None => ""
  }

  function NombreCategoria(p: Producto): Option<string> {
    match p.categoria
    case Some(c) => Some(c.nombre)
    case None => None
  }

  /** `matchesSearch`: the term occurs in the name, the brand or the category name. */
  predicate CoincideBusqueda(p: Producto, term: string) {
    Text.Contains(Text.Lower(p.nombre), Text.Lower(term))
    || Text.Contains(TextoOVacio(p.marca), Text.Lower(term))
    || Text.Contains(TextoOVacio(NombreCategoria(p)), Text.Lower(term))
  }

  /** `matchesCategoria`. */
  predicate CoincideCategoria(p: Producto, categoria: string) {
    categoria == "all" || p.categoriaId == categoria
  }

  function Filtrados(productos: seq<Producto>, term: string, categoria: string): (r: seq<Producto>)
    ensures forall p :: p in r <==> p in productos && CoincideBusqueda(p, term) && CoincideCategoria(p, categoria)
  {
    Seqs.Filter(productos, (p: Producto) => CoincideBusqueda(p, term) && CoincideCategoria(p, categoria))
  }

  /** An empty term matches every product, even one without brand or category. */
  lemma EmptyTermMatchesAll(productos: seq<Producto>)
    ensures Filtrados(productos, "", "all") == productos
  {
    forall i | 0 <= i < |productos|
      ensures CoincideBusqueda(productos[i], "") && CoincideCategoria(productos[i], "all")
    {
      assert Text.Lower("") <= Text.Lower(productos[i].nombre);
    }
    Seqs.FilterKeepsAll(productos, (p: Producto) => CoincideBusqueda(p, "") && CoincideCategoria(p, "all"));
  }

  // ---------------------------------------------------------------------------
  // Sort

  datatype SortField = Nombre | Precio | Stock | Ganancia
  datatype SortDirection = Asc | Desc

  /** Profit per unit: sale price minus purchase price. */
  function GananciaDe(p: Producto): int {
    p.precioVenta - p.precioCompra
  }

  /** The numeric key of the price, stock and profit fields. */
  function Clave(field: SortField, p: Producto): int
    requires field != Nombre
  {
    match field
    case Precio => p.precioVenta
    case Stock => p.stock
    case Ganancia => GananciaDe(p)
  }

  /** The ascending comparison of one field. */
  function Base(field: SortField, a: Producto, b: Producto): int {
    if field == Nombre then Text.CompararTexto(a.nombre, b.nombre) else Clave(field, a) - Clave(field, b)
  }

  /** `direction` is 1 for 'asc' and -1 for 'desc'. */
  function Direccion(dir: SortDirection): int {
    if dir == Asc then 1 else -1
  }

  /** The comparator passed to `sort`: negative when `a` goes first. */
  function Comparar(field: SortField, dir: SortDirection, a: Producto, b: Producto): int {
    Direccion(dir) * Base(field, a, b)
  }

  /** Descending order is ascending order with the two products swapped, for names as for numbers. */
  lemma CompararDescInvierte(field: SortField, a: Producto, b: Producto)
    ensures Comparar(field, Desc, a, b) == Comparar(field, Asc, b, a)
    ensures Comparar(field, Asc, a, b) <= 0 <==>
      if field == Nombre then Text.CompararTexto(a.nombre, b.nombre) <= 0 else Clave(field, a) <= Clave(field, b)
  {
    Text.CompararTextoAntisym(a.nombre, b.nombre);
  }

  /** Of any two products one is not after the other. */
  lemma CompararTotal(field: SortField, dir: SortDirection, a: Producto, b: Producto)
    ensures Comparar(field, dir, a, b) <= 0 || Comparar(field, dir, b, a) <= 0
  {
    Text.CompararTextoAntisym(a.nombre, b.nombre);
  }

  /** "Not after" is transitive. */
  lemma CompararTrans(field: SortField, dir: SortDirection, a: Producto, b: Producto, c: Producto)
    requires Comparar(field, dir, a, b) <= 0 && Comparar(field, dir, b, c) <= 0
    ensures Comparar(field, dir, a, c) <= 0
  {
    if field == Nombre {
      if dir == Asc {
        Text.CompararTextoTrans(a.nombre, b.nombre, c.nombre);
      } else {
        Text.CompararTextoAntisym(a.nombre, b.nombre);
        Text.CompararTextoAntisym(b.nombre, c.nombre);
        Text.CompararTextoAntisym(a.nombre, c.nombre);
        Text.CompararTextoTrans(c.nombre, b.nombre, a.nombre);
      }
    }
  }

  /** No pair of the sequence is out of order under the comparator. */
  predicate Ordenado(s: seq<Producto>, field: SortField, dir: SortDirection) {
    forall i, j :: 0 <= i < j < |s| ==> Comparar(field, dir, s[i], s[j]) <= 0
  }

  /** Inserts `x` before the first element it is not after. */
  function Insertar(x: Producto, s: seq<Producto>, field: SortField, dir: SortDirection): (r: seq<Producto>)
    ensures multiset(r) == multiset(s) + multiset{x}
    decreases |s|
  {
    if |s| == 0 then [x]
    else if Comparar(field, dir, x, s[0]) <= 0 then [x] + s
    else
      assert s == [s[0]] + s[1..];
      [s[0]] + Insertar(x, s[1..], field, dir)
  }

  /** A sort of `s` by the comparator; equal elements keep their order. */
  function Ordenar(s: seq<Producto>, field: SortField, dir: SortDirection): (r: seq<Producto>)
    ensures multiset(r) == multiset(s)
    decreases |s|
  {
    if |s| == 0 then []
    else
      assert s == [s[0]] + s[1..];
      Insertar(s[0], Ordenar(s[1..], field, dir), field, dir)
  }

  /** An element not after any element of a sorted sequence can go in front of it. */
  lemma OrdenadoCons(y: Producto, s: seq<Producto>, field: SortField, dir: SortDirection)
    requires Ordenado(s, field, dir)
    requires forall k :: 0 <= k < |s| ==> Comparar(field, dir, y, s[k]) <= 0
    ensures Ordenado([y] + s, field, dir)
  {
    var r := [y] + s;
    forall i, j | 0 <= i < j < |r| ensures Comparar(field, dir, r[i], r[j]) <= 0 {
      assert r[j] == s[j - 1];
      if i > 0 { assert r[i] == s[i - 1]; }
    }
  }

  lemma {:induction false} InsertarOrdenado(x: Producto, s: seq<Producto>, field: SortField, dir: SortDirection)
    requires Ordenado(s, field, dir)
    ensures Ordenado(Insertar(x, s, field, dir), field, dir)
    decreases |s|
  {
    if |s| == 0 {
    } else if Comparar(field, dir, x, s[0]) <= 0 {
      forall j | 0 <= j < |s| ensures Comparar(field, dir, x, s[j]) <= 0 {
        if j > 0 { CompararTrans(field, dir, x, s[0], s[j]); }
      }
      OrdenadoCons(x, s, field, dir);
    } else {
      CompararTotal(field, dir, x, s[0]);
      var rest := Insertar(x, s[1..], field, dir);
      InsertarOrdenado(x, s[1..], field, dir);
      forall k | 0 <= k < |rest| ensures Comparar(field, dir, s[0], rest[k]) <= 0 {
        assert rest[k] in multiset(rest);
        if rest[k] != x {
          assert rest[k] in multiset(s[1..]);
          var j :| 0 <= j < |s[1..]| && s[1..][j] == rest[k];
          assert s[j + 1] == rest[k];
        }
      }
      OrdenadoCons(s[0], rest, field, dir);
    }
  }

  lemma {:induction false} OrdenarOrdenado(s: seq<Producto>, field: SortField, dir: SortDirection)
    ensures Ordenado(Ordenar(s, field, dir), field, dir)
    decreases |s|
  {
    if |s| > 0 {
      OrdenarOrdenado(s[1..], field, dir);
      InsertarOrdenado(s[0], Ordenar(s[1..], field, dir), field, dir);
    }
  }

  /**
   * What "sorted" means per field: by name in text order, and by sale price,
   * stock or profit non-decreasing for 'asc' and non-increasing for 'desc'.
   */
  lemma OrdenadoPorClave(s: seq<Producto>, field: SortField, dir: SortDirection, i: int, j: int)
    requires Ordenado(s, field, dir) && 0 <= i < j < |s|
    ensures field == Nombre && dir == Asc ==> Text.CompararTexto(s[i].nombre, s[j].nombre) <= 0
    ensures field == Nombre && dir == Desc ==> Text.CompararTexto(s[j].nombre, s[i].nombre) <= 0
    ensures field != Nombre && dir == Asc ==> Clave(field, s[i]) <= Clave(field, s[j])
    ensures field != Nombre && dir == Desc ==> Clave(field, s[i]) >= Clave(field, s[j])
  {
    Text.CompararTextoAntisym(s[i].nombre, s[j].nombre);
  }

  /** `filteredProductos`: the filtered products, sorted by the chosen field and direction. */
  function Vista(productos: seq<Producto>, term: string, categoria: string,
                 field: SortField, dir: SortDirection): seq<Producto> {
    Ordenar(Filtrados(productos, term, categoria), field, dir)
  }

  /** The shown list is a permutation of the filtered list, and in order. */
  lemma VistaProperties(productos: seq<Producto>, term: string, categoria: string,
                        field: SortField, dir: SortDirection)
    ensures multiset(Vista(productos, term, categoria, field, dir)) == multiset(Filtrados(productos, term, categoria))
    ensures Ordenado(Vista(productos, term, categoria, field, dir), field, dir)
    ensures forall p :: p in Vista(productos, term, categoria, field, dir) <==>
      p in productos && CoincideBusqueda(p, term) && CoincideCategoria(p, categoria)
  {
    var f := Filtrados(productos, term, categoria);
    OrdenarOrdenado(f, field, dir);
    forall p ensures p in Vista(productos, term, categoria, field, dir) <==> p in f {
      assert p in multiset(Vista(productos, term, categoria, field, dir)) <==> p in multiset(f);
    }
  }

  // ---------------------------------------------------------------------------
  // Sort toggle

  datatype OrdenVista = OrdenVista(field: SortField, dir: SortDirection)

  /** `toggleSort(field)` as a function of the current order. */
  function Toggled(o: OrdenVista, field: SortField): (r: OrdenVista)
    ensures r.field == field
  {
    if o.field == field then OrdenVista(field, if o.dir == Asc then Desc else Asc)
    else OrdenVista(field, Asc)
  }

  /**
   * On the current field the direction flips; on another field that field
   * becomes current with 'asc'; toggling the current field twice restores the order.
   */
  lemma ToggledProperties(o: OrdenVista, field: SortField)
    ensures field == o.field ==> Toggled(o, field).dir != o.dir
    ensures field != o.field ==> Toggled(o, field) == OrdenVista(field, Asc)
    ensures Toggled(Toggled(o, o.field), o.field) == o
  {
  }

  // ---------------------------------------------------------------------------
  // Stock, scanning and the active flag

  /** `PATCH /productos/:id { stock }`; an unparseable quantity makes the sum NaN, sent as null. */
  datatype PatchStock = PatchStock(id: string, stock: Option<int>)

  /** `PATCH /productos/:id { activo }`. */
  datatype PatchActivo = PatchActivo(id: string, activo: bool)

  /** `toggleActivo(id, activo)`: the request carries the negation of the current flag. */
  function ToggleActivo(id: string, activo: bool): (r: PatchActivo)
    ensures r.id == id && r.activo != activo
  {
    PatchActivo(id, !activo)
  }

  /** Two toggles send the original flag back. */
  lemma ToggleActivoTwice(id: string, activo: bool)
    ensures ToggleActivo(id, ToggleActivo(id, activo).activo).activo == activo
  {
  }

  datatype ScannerMode = Create | Edit | StockMode

  class ProductosPage {
    var sortField: SortField
    var sortDirection: SortDirection
    var scannerMode: ScannerMode
    var codigoBarras: string             // the form's barcode field
    var selectedProducto: Option<Producto>
    var isStockDialogOpen: bool

    /** The list starts sorted by name, ascending. */
    constructor ()
      ensures sortField == Nombre && sortDirection == Asc && scannerMode == Create
      ensures codigoBarras == "" && selectedProducto == None && !isStockDialogOpen
    {
      sortField := Nombre;
      sortDirection := Asc;
      scannerMode := Create;
      codigoBarras := "";
      selectedProducto := None;
      isStockDialogOpen := false;
    }

    method ToggleSort(field: SortField)
      modifies this`sortField, this`sortDirection
      ensures OrdenVista(sortField, sortDirection) == Toggled(old(OrdenVista(sortField, sortDirection)), field)
    {
      if sortField == field {
        sortDirection := if sortDirection == Asc then Desc else Asc;
      } else {
        sortField := field;
        sortDirection := Asc;
      }
    }

    /**
     * `handleBarcodeScanned`: in create or edit mode the code fills the form;
     * in stock mode it is looked up instead (the returned code).
     */
    method HandleBarcodeScanned(barcode: string) returns (buscar: Option<string>)
      modifies this`codigoBarras
      ensures scannerMode != StockMode ==> codigoBarras == barcode && buscar == None
      ensures scannerMode == StockMode ==> codigoBarras == old(codigoBarras) && buscar == Some(barcode)
    {
      if scannerMode == Create || scannerMode == Edit {
        codigoBarras := barcode;
        buscar := None;
      } else {
        buscar := Some(barcode);
      }
    }

    /**
     * `onAgregarStock`: nothing is sent without a selected product; otherwise
     * the new stock is the current stock plus the entered quantity (`cantidad`
     * is the parsed text, None when it is not a number). A successful request
     * clears the selection and closes the dialog.
     */
    method OnAgregarStock(cantidad: Option<int>, ok: bool) returns (req: Option<PatchStock>)
      modifies this`selectedProducto, this`isStockDialogOpen
      ensures old(selectedProducto).None? ==> (req == None
        && selectedProducto == old(selectedProducto) && isStockDialogOpen == old(isStockDialogOpen))
      ensures old(selectedProducto).Some? ==> req.Some? && req.value.id == old(selectedProducto).value.id
      ensures old(selectedProducto).Some? && cantidad.Some? ==>
        req.value.stock == Some(old(selectedProducto).value.stock + cantidad.value)
      ensures old(selectedProducto).Some? && cantidad.None? ==> req.value.stock == None
      ensures old(selectedProducto).Some? && ok ==> selectedProducto == None && !isStockDialogOpen
      ensures old(selectedProducto).Some? && !ok ==>
        selectedProducto == old(selectedProducto) && isStockDialogOpen == old(isStockDialogOpen)
    {
      if selectedProducto.None? {
        return None;
      }
      var p := selectedProducto.value;
      var nuevoStock := if cantidad.Some? then Some(p.stock + cantidad.value) else None;
      req := Some(PatchStock(p.id, nuevoStock));
      if ok {
        selectedProducto := None;
        isStockDialogOpen := false;
      }
    }
  }
}
