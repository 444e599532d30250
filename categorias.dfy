/** The back-office category list: its search, the create and edit payloads and the active toggle. */
module Categorias {
  import opened Wrappers
  import opened Types
  import Text
  import Seqs

  /** `filteredCategorias`: the categories whose lowercased name contains the lowercased term. */
  function FiltrarCategorias(categorias: seq<Categoria>, searchTerm: string): (r: seq<Categoria>)
    ensures forall c :: c in r <==> c in categorias && Text.Contains(Text.Lower(c.nombre), Text.Lower(searchTerm))
  {
    Seqs.Filter(categorias, (c: Categoria) => Text.Contains(Text.Lower(c.nombre), Text.Lower(searchTerm)))
  }

  /** An empty term keeps every category, and the order is always kept. */
  lemma FiltrarProperties(categorias: seq<Categoria>, searchTerm: string)
    ensures FiltrarCategorias(categorias, "") == categorias
    ensures Seqs.IsSubsequence(FiltrarCategorias(categorias, searchTerm), categorias)
  {
    forall i | 0 <= i < |categorias| ensures Text.Contains(Text.Lower(categorias[i].nombre), Text.Lower("")) {
      assert Text.Lower("") <= Text.Lower(categorias[i].nombre);
    }
    Seqs.FilterKeepsAll(categorias, (c: Categoria) => Text.Contains(Text.Lower(c.nombre), Text.Lower("")));
    Seqs.FilterIsSubsequence(categorias, (c: Categoria) => Text.Contains(Text.Lower(c.nombre), Text.Lower(searchTerm)));
  }

  /** `categoriaSchema`'s name rule: at least 2 characters. */
  predicate NombreValido(nombre: string) {
    |nombre| >= 2
  }

  datatype CategoriaForm = CategoriaForm(nombre: string, descripcion: Option<string>)

  /** The body of `POST /categorias`. */
  datatype CrearCategoria = CrearCategoria(nombre: string, descripcion: Option<string>, activo: bool)

  /** `onSubmitCategoria` behind its schema: a valid form is sent with `activo: true`. */
  function SolicitudCrear(data: CategoriaForm): (r: Option<CrearCategoria>)
    ensures r.Some? <==> NombreValido(data.nombre)
    ensures r.Some? ==> r.value.activo && r.value.nombre == data.nombre && r.value.descripcion == data.descripcion
  {
    if NombreValido(data.nombre) then Some(CrearCategoria(data.nombre, data.descripcion, true)) else None
  }

  /** `PATCH /categorias/:id` with its payload. */
  datatype PatchCategoria =
    | PatchActivo(id: string, activo: bool)
    | PatchDatos(id: string, data: CategoriaForm)

  /** `toggleActivo(id, activo)`: the request carries the negation of the current flag. */
  function ToggleActivo(id: string, activo: bool): (r: PatchCategoria)
    ensures r.PatchActivo? && r.id == id && r.activo != activo
  {
    PatchActivo(id, !activo)
  }

  /** `onEditCategoria` behind its schema: nothing without a selection or with a short name. */
  function SolicitudEditar(selected: Option<Categoria>, data: CategoriaForm): (r: Option<PatchCategoria>)
    ensures r.Some? <==> selected.Some? && NombreValido(data.nombre)
    ensures r.Some? ==> r.value == PatchDatos(selected.value.id, data)
  {
    if selected.None? || !NombreValido(data.nombre) then None else Some(PatchDatos(selected.value.id, data))
  }
}
