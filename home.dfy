/**
 * The storefront home page: which products are listed, the search and
 * category filters, the add-to-cart button and the hours banner.
 */
module Home {
  import opened Wrappers
  import opened Types
  import Text
  import Seqs
  import Cart
  import Schedule

  /** Listed at all: active, and with stock or open to backorder. */
  predicate Visible(p: Producto) {
    p.activo && (p.stock > 0 || p.permiteEncargo)
  }

  /** A non-empty term matches the lowercased name or the lowercased brand; a missing brand does not match. */
  predicate Busca(p: Producto, term: string) {
    Text.Contains(Text.Lower(p.nombre), Text.Lower(term))
    || (p.marca.Some? && Text.Contains(Text.Lower(p.marca.value), Text.Lower(term)))
  }

  function Visibles(productos: seq<Producto>): seq<Producto> {
    Seqs.Filter(productos, Visible)
  }

  function PorBusqueda(productos: seq<Producto>, term: string): seq<Producto> {
    Seqs.Filter(productos, (p: Producto) => Busca(p, term))
  }

  function PorCategoria(productos: seq<Producto>, categoria: string): seq<Producto> {
    Seqs.Filter(productos, (p: Producto) => p.categoriaId == categoria)
  }

  /**
   * The list `filterProductos` computes: visible products, then the search
   * (skipped for an empty term), then the category (skipped for 'all').
   */
  function Listado(productos: seq<Producto>, searchTerm: string, categoria: string): (r: seq<Producto>)
    ensures forall p :: p in r <==>
      p in productos && Visible(p)
      && (searchTerm == "" || Busca(p, searchTerm))
      && (categoria == "all" || p.categoriaId == categoria)
  {
    var visibles := Visibles(productos);
    var buscados := if searchTerm != "" then PorBusqueda(visibles, searchTerm) else visibles;
    if categoria != "all" then PorCategoria(buscados, categoria) else buscados
  }

  /** The listed products are the fetched ones, in their order, with some left out. */
  lemma ListadoIsSubsequence(productos: seq<Producto>, searchTerm: string, categoria: string)
    ensures Seqs.IsSubsequence(Listado(productos, searchTerm, categoria), productos)
  {
    var visibles := Visibles(productos);
    Seqs.FilterIsSubsequence(productos, Visible);
    var buscados := if searchTerm != "" then PorBusqueda(visibles, searchTerm) else visibles;
    if searchTerm != "" {
      Seqs.FilterIsSubsequence(visibles, (p: Producto) => Busca(p, searchTerm));
      Seqs.SubsequenceTransitive(buscados, visibles, productos);
    }
    if categoria != "all" {
      Seqs.FilterIsSubsequence(buscados, (p: Producto) => p.categoriaId == categoria);
      Seqs.SubsequenceTransitive(Listado(productos, searchTerm, categoria), buscados, productos);
    }
  }

  /** With an empty term and category 'all' the list is exactly the visible products. */
  lemma NoFilterListsAllVisible(productos: seq<Producto>)
    ensures Listado(productos, "", "all") == Visibles(productos)
  {
  }

  /**
   * A non-empty term whose lowercase form occurs in neither the name nor the
   * brand leaves the product out, whatever its category is called.
   */
  lemma CategoryNameNotSearched(productos: seq<Producto>, searchTerm: string, categoria: string, p: Producto)
    requires searchTerm != ""
    requires !Text.Contains(Text.Lower(p.nombre), Text.Lower(searchTerm))
    requires p.marca.None? || !Text.Contains(Text.Lower(p.marca.value), Text.Lower(searchTerm))
    ensures p !in Listado(productos, searchTerm, categoria)
  {
  }

  /** `disabled={Number(producto.stock) === 0 && !producto.permiteEncargo}`. */
  predicate AddButtonDisabled(p: Producto) {
    p.stock == 0 && !p.permiteEncargo
  }

  /** No listed product has a disabled add button. */
  lemma ListedProductsCanBeAdded(productos: seq<Producto>, searchTerm: string, categoria: string)
    ensures forall p :: p in Listado(productos, searchTerm, categoria) ==> !AddButtonDisabled(p)
  {
  }

  /** The cart badge is shown when `getItemCount() > 0`. */
  predicate BadgeShown(items: seq<CartItem>) {
    Cart.ItemCount(items) > 0
  }

  /** In a cart whose quantities are all positive the badge shows exactly when the cart is non-empty. */
  lemma BadgeIffNonEmpty(items: seq<CartItem>)
    requires Cart.PositiveQuantities(items)
    ensures BadgeShown(items) <==> |items| > 0
  {
    Cart.ItemCountAtLeastLength(items);
    if |items| == 0 {
      Cart.ItemCountAppend([], []);
    }
  }

  class HomePage {
    const cart: Cart.CartStore
    var productos: seq<Producto>
    var filteredProductos: seq<Producto>
    var searchTerm: string
    var selectedCategoria: string
    var horarioHoy: Option<HorarioAtencion>
    var dentroDeHorario: bool

    /** The page starts with category 'all', an empty search and the open flag set. */
    constructor (cart: Cart.CartStore)
      ensures this.cart == cart
      ensures productos == [] && filteredProductos == []
      ensures searchTerm == "" && selectedCategoria == "all"
      ensures horarioHoy == None && dentroDeHorario
    {
      this.cart := cart;
      productos := [];
      filteredProductos := [];
      searchTerm := "";
      selectedCategoria := "all";
      horarioHoy := None;
      dentroDeHorario := true;
    }

    /** `filterProductos`: narrows a local list step by step and stores it. */
    method FilterProductos()
      modifies this`filteredProductos
      ensures filteredProductos == Listado(productos, searchTerm, selectedCategoria)
    {
      var filtered := Visibles(productos);
      if searchTerm != "" {
        filtered := PorBusqueda(filtered, searchTerm);
      }
      if selectedCategoria != "all" {
        filtered := PorCategoria(filtered, selectedCategoria);
      }
      filteredProductos := filtered;
    }

    /** `handleAddToCart`: always one unit of the product. */
    method HandleAddToCart(producto: Producto)
      modifies cart
      ensures cart.items == Cart.Added(old(cart.items), producto, 1)
    {
      cart.AddItem(producto, 1);
    }

    /**
     * `cargarHorario`: a missing entry and a closed day both leave the page
     * not open; otherwise the inclusive window decides. A failed fetch
     * changes nothing.
     */
    method CargarHorario(respuesta: Option<seq<HorarioAtencion>>, diaIndice: int, minutoActual: int)
      requires 0 <= diaIndice < 7
      modifies this`horarioHoy, this`dentroDeHorario
      ensures respuesta.None? ==> (horarioHoy == old(horarioHoy) && dentroDeHorario == old(dentroDeHorario))
      ensures respuesta.Some? ==> (
        horarioHoy == Schedule.HorarioDelDia(respuesta.value, Schedule.DiaDeIndice(diaIndice))
        && dentroDeHorario == Schedule.DentroDeHorario(respuesta.value, Schedule.DiaDeIndice(diaIndice), minutoActual))
    {
      if respuesta.None? {
        return;
      }
      var diaActual := Schedule.DiaDeIndice(diaIndice);
      var horarioDelDia := Schedule.HorarioDelDia(respuesta.value, diaActual);
      if horarioDelDia.None? || horarioDelDia.value.cerrado {
        horarioHoy := horarioDelDia;
        dentroDeHorario := false;
        return;
      }
      horarioHoy := horarioDelDia;
      dentroDeHorario := Schedule.EnVentana(horarioDelDia.value, minutoActual);
    }
  }
}
