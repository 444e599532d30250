/**
 * The back-office user list: the search, the edit that renames and, when
 * needed, changes the role, and the rule that an admin cannot edit themself.
 */
module Usuarios {
  import opened Wrappers
  import opened Types
  import Text
  import Seqs

  /** A user matches when the lowercased name, or the phone, contains the lowercased term. */
  predicate Coincide(u: Usuario, term: string) {
    Text.Contains(Text.Lower(u.nombre), Text.Lower(term)) || Text.Contains(u.telefono, Text.Lower(term))
  }

  /**
   * The search effect: a blank term (empty or whitespace only) shows every
   * user; otherwise the matching users, the term itself left untrimmed.
   */
  function FiltrarUsuarios(usuarios: seq<Usuario>, searchTerm: string): (r: seq<Usuario>)
    ensures Text.AllWhitespace(searchTerm) ==> r == usuarios
    ensures !Text.AllWhitespace(searchTerm) ==> forall u :: u in r <==> u in usuarios && Coincide(u, searchTerm)
  {
    Text.TrimEmptyIff(searchTerm);
    if Text.Trim(searchTerm) == "" then usuarios
    else Seqs.Filter(usuarios, (u: Usuario) => Coincide(u, searchTerm))
  }

  /** The shown users keep the list's order. */
  lemma FiltrarIsSubsequence(usuarios: seq<Usuario>, searchTerm: string)
    ensures Seqs.IsSubsequence(FiltrarUsuarios(usuarios, searchTerm), usuarios)
  {
    Text.TrimEmptyIff(searchTerm);
    if Text.Trim(searchTerm) == "" {
      Seqs.FilterKeepsAll(usuarios, (u: Usuario) => true);
      Seqs.FilterIsSubsequence(usuarios, (u: Usuario) => true);
    } else {
      Seqs.FilterIsSubsequence(usuarios, (u: Usuario) => Coincide(u, searchTerm));
    }
  }

  /** `disabled={usuario.id === user?.id}`: the signed-in user's own row cannot be edited. */
  predicate EdicionBloqueada(u: Usuario, actual: Option<Usuario>) {
    actual.Some? && u.id == actual.value.id
  }

  /** `usuarioSchema`'s name rule. */
  predicate NombreValido(nombre: string) {
    |nombre| >= 2
  }

  /** The requests an edit sends. */
  datatype UsuarioRequest =
    | PatchNombre(id: string, nombre: string)   // PATCH /usuarios/:id
    | PatchRol(id: string, rol: RolUsuario)      // PATCH /usuarios/:id/rol

  class UsuariosPage {
    var usuarios: seq<Usuario>
    var filteredUsuarios: seq<Usuario>
    var searchTerm: string
    var selectedUsuario: Option<Usuario>
    var isEditDialogOpen: bool

    constructor ()
      ensures usuarios == [] && filteredUsuarios == [] && searchTerm == ""
      ensures selectedUsuario == None && !isEditDialogOpen
    {
      usuarios, filteredUsuarios, searchTerm := [], [], "";
      selectedUsuario, isEditDialogOpen := None, false;
    }

    /** The effect run when the term or the list changes. */
    method AplicarBusqueda()
      modifies this`filteredUsuarios
      ensures filteredUsuarios == FiltrarUsuarios(usuarios, searchTerm)
    {
      filteredUsuarios := FiltrarUsuarios(usuarios, searchTerm);
    }

    /**
     * The row's edit button followed by `openEditDialog`: the button is disabled
     * on the signed-in user's own row, so that row never reaches the dialog.
     */
    method AbrirEdicion(u: Usuario, actual: Option<Usuario>) returns (abierto: bool)
      modifies this`selectedUsuario, this`isEditDialogOpen
      ensures abierto <==> !(actual.Some? && actual.value.id == u.id)
      ensures abierto ==> selectedUsuario == Some(u) && isEditDialogOpen
      ensures !abierto ==> selectedUsuario == old(selectedUsuario) && isEditDialogOpen == old(isEditDialogOpen)
    {
      if EdicionBloqueada(u, actual) {
        return false;
      }
      selectedUsuario, isEditDialogOpen := Some(u), true;
      return true;
    }

    /**
     * `onEditUsuario` behind its schema. The rename is always sent first; the
     * role change follows only when the role differs and the rename
     * succeeded. Both succeeding closes the dialog and clears the selection.
     */
    method OnEditUsuario(nombre: string, rol: RolUsuario, nombreOk: bool, rolOk: bool)
      returns (enviados: seq<UsuarioRequest>)
      modifies this`selectedUsuario, this`isEditDialogOpen
      ensures !NombreValido(nombre) || old(selectedUsuario).None? ==> (enviados == []
        && selectedUsuario == old(selectedUsuario) && isEditDialogOpen == old(isEditDialogOpen))
      ensures NombreValido(nombre) && old(selectedUsuario).Some? ==>
        var u := old(selectedUsuario).value;
        && |enviados| >= 1 && enviados[0] == PatchNombre(u.id, nombre)
        && enviados[1..] == (if nombreOk && rol != u.rol then [PatchRol(u.id, rol)] else [])
        && (nombreOk && (rol == u.rol || rolOk) ==> selectedUsuario == None && !isEditDialogOpen)
        && (!(nombreOk && (rol == u.rol || rolOk)) ==>
              selectedUsuario == old(selectedUsuario) && isEditDialogOpen == old(isEditDialogOpen))
    {
      if !NombreValido(nombre) || selectedUsuario.None? {
        return [];
      }
      var u := selectedUsuario.value;
      enviados := [PatchNombre(u.id, nombre)];
      if !nombreOk {
        return;
      }
      if rol != u.rol {
        enviados := enviados + [PatchRol(u.id, rol)];
        if !rolOk {
          return;
        }
      }
      selectedUsuario := None;
      isEditDialogOpen := false;
    }
  }
}
