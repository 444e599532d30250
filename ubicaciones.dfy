/**
 * The shipping-locations admin screen: the form's validation, the choice
 * between updating and creating, and the edit and close actions.
 * Costs are whole numbers here; see the README for the fractional part.
 */
module Ubicaciones {
  import opened Wrappers
  import opened Types
  import Text

  // ---------------------------------------------------------------------------
  // Number reading and writing

  /** The length of the run of digits at the start of `s`. */
  function LeadingDigits(s: string): (k: nat)
    ensures k <= |s|
    ensures forall i :: 0 <= i < k ==> Text.IsDigit(s[i])
    ensures k < |s| ==> !Text.IsDigit(s[k])
    decreases |s|
  {
    if |s| > 0 && Text.IsDigit(s[0]) then 1 + LeadingDigits(s[1..]) else 0
  }

  /** The value of the leading digits, None when there are none. */
  function DigitPrefix(s: string): Option<int> {
    var k := LeadingDigits(s);
    if k == 0 then None else Some(Text.DigitsValue(s[..k]))
  }

  /**
   * `parseFloat` on whole numbers: leading whitespace is skipped, an optional
   * sign read, then the leading digits; None stands for NaN (no digits).
   */
  function ParseFloat(s: string): Option<int> {
    var t := Text.TrimStart(s);
    if |t| > 0 && t[0] == '-' then
      match DigitPrefix(t[1..])
      case Some(n) => Some(-n)
      case None => None
    else if |t| > 0 && t[0] == '+' then DigitPrefix(t[1..])
    else DigitPrefix(t)
  }

  /** `costo.toString()` for a whole number. */
  function CostoTexto(c: int): string {
    if c >= 0 then Text.NatToDigits(c) else "-" + Text.NatToDigits(-c)
  }

  lemma {:induction false} LeadingDigitsAll(s: string)
    requires forall i :: 0 <= i < |s| ==> Text.IsDigit(s[i])
    ensures LeadingDigits(s) == |s|
    decreases |s|
  {
    if |s| > 0 {
      LeadingDigitsAll(s[1..]);
    }
  }

  /** The text a cost is shown as reads back as that cost. */
  lemma ParseCostoTexto(c: int)
    ensures ParseFloat(CostoTexto(c)) == Some(c)
  {
    var n: nat := if c >= 0 then c else -c;
    var d := Text.NatToDigits(n);
    LeadingDigitsAll(d);
    Text.DigitsRoundTrip(n);
    assert d[..|d|] == d;
    assert !Text.IsWhitespace(d[0]);
    if c >= 0 {
      assert Text.TrimStart(d) == d;
    } else {
      var t := "-" + d;
      assert !Text.IsWhitespace(t[0]);
      assert Text.TrimStart(t) == t;
      assert t[1..] == d;
    }
  }

  // ---------------------------------------------------------------------------
  // Validation

  datatype Validacion =
    | NombreObligatorio   // "El nombre es obligatorio"
    | CostoInvalido       // "El costo debe ser un número válido mayor o igual a 0"
    | Valida(costo: int)

  /** `handleSubmit`'s checks: a blank name first, then a cost that is not a number or is negative. */
  function Validar(nombre: string, costo: string): (r: Validacion)
    ensures r == NombreObligatorio <==> Text.AllWhitespace(nombre)
    ensures r == CostoInvalido <==> (!Text.AllWhitespace(nombre)
      && (ParseFloat(costo).None? || ParseFloat(costo).value < 0))
    ensures r.Valida? ==> Some(r.costo) == ParseFloat(costo) && r.costo >= 0
  {
    Text.TrimEmptyIff(nombre);
    if Text.Trim(nombre) == "" then NombreObligatorio
    else
      var c := ParseFloat(costo);
      if c.None? || c.value < 0 then CostoInvalido
      else Valida(c.value)
  }

  /** A zero cost is accepted, a negative or non-numeric one is not, and the name is judged first. */
  lemma ValidarExamples(nombre: string)
    requires !Text.AllWhitespace(nombre)
    ensures Validar(nombre, "0") == Valida(0)
    ensures Validar(nombre, "-5") == CostoInvalido
    ensures Validar(nombre, "abc") == CostoInvalido
    ensures Validar("  ", "abc") == NombreObligatorio
  {
    ParseCostoTexto(0);
    assert CostoTexto(0) == "0";
    ParseCostoTexto(-5);
    assert CostoTexto(-5) == "-5";
    assert Text.TrimStart("abc") == "abc";
    assert Text.AllWhitespace("  ");
  }

  /**
   * Where the whole-number reading departs from `parseFloat`: a cost just
   * below zero loses its fraction, reads as 0 and is accepted, which the
   * code (reading -0.5) rejects.
   */
  lemma NegativeFractionReadAsZero(nombre: string)
    requires !Text.AllWhitespace(nombre)
    ensures Validar(nombre, "-0.5") == Valida(0)
  {
    var t := "-0.5";
    assert !Text.IsWhitespace(t[0]);
    assert Text.TrimStart(t) == t;
    assert t[1..] == "0.5";
    assert LeadingDigits("0.5") == 1 by {
      assert Text.IsDigit('0') && !Text.IsDigit('.');
      assert "0.5"[1..] == ".5";
    }
    assert "0.5"[..1] == "0";
    assert Text.DigitsValue("0") == 0 by {
      Text.DigitsRoundTrip(0);
      assert Text.NatToDigits(0) == "0";
    }
  }

  /** The request a valid form sends: the name as typed, not trimmed. */
  datatype UbicacionRequest =
    | Actualizar(id: string, nombre: string, costo: int)   // PATCH /ubicaciones/:id
    | Crear(nombre: string, costo: int)                    // POST /ubicaciones

  class UbicacionesPage {
    var editing: Option<Ubicacion>
    var formNombre: string
    var formCosto: string
    var isDialogOpen: bool

    constructor ()
      ensures editing == None && formNombre == "" && formCosto == "" && !isDialogOpen
    {
      editing := None;
      formNombre := "";
      formCosto := "";
      isDialogOpen := false;
    }

    /**
     * `handleSubmit`: a rejected form sends nothing and changes nothing; a
     * valid one updates the edited location or creates one, and a success
     * resets the form, clears the edited location and closes the dialog.
     */
    method HandleSubmit(ok: bool) returns (v: Validacion, req: Option<UbicacionRequest>)
      modifies this
      ensures v == Validar(old(formNombre), old(formCosto))
      ensures !v.Valida? ==> (req == None && editing == old(editing) && formNombre == old(formNombre)
        && formCosto == old(formCosto) && isDialogOpen == old(isDialogOpen))
      ensures v.Valida? && old(editing).Some? ==>
        req == Some(Actualizar(old(editing).value.id, old(formNombre), v.costo))
      ensures v.Valida? && old(editing).None? ==> req == Some(Crear(old(formNombre), v.costo))
      ensures v.Valida? && ok ==> formNombre == "" && formCosto == "" && editing == None && !isDialogOpen
      ensures v.Valida? && !ok ==> (editing == old(editing) && formNombre == old(formNombre)
        && formCosto == old(formCosto) && isDialogOpen == old(isDialogOpen))
    {
      v := Validar(formNombre, formCosto);
      if !v.Valida? {
        return v, None;
      }
      if editing.Some? {
        req := Some(Actualizar(editing.value.id, formNombre, v.costo));
      } else {
        req := Some(Crear(formNombre, v.costo));
      }
      if ok {
        formNombre, formCosto := "", "";
        editing := None;
        isDialogOpen := false;
      }
    }

    /** `handleEdit`: the location becomes the edited one and the form shows its name and cost. */
    method HandleEdit(u: Ubicacion)
      modifies this
      ensures editing == Some(u) && formNombre == u.nombre && formCosto == CostoTexto(u.costo) && isDialogOpen
      ensures !Text.AllWhitespace(u.nombre) && u.costo >= 0 ==> Validar(formNombre, formCosto) == Valida(u.costo)
    {
      editing := Some(u);
      formNombre := u.nombre;
      formCosto := CostoTexto(u.costo);
      isDialogOpen := true;
      ParseCostoTexto(u.costo);
    }

    /** `handleCloseDialog`: closes the dialog, clears the edited location and empties the form. */
    method HandleCloseDialog()
      modifies this
      ensures !isDialogOpen && editing == None && formNombre == "" && formCosto == ""
    {
      isDialogOpen := false;
      editing := None;
      formNombre, formCosto := "", "";
    }
  }
}
