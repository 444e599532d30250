/**
 * The back-office opening-hours screen: the day table, the editor's
 * pre-filled values and the choice between updating and creating an entry.
 */
module AdminHorarios {
  import opened Wrappers
  import opened Types
  import Text
  import Schedule

  /** `diasSemana`: the table's rows, Monday first. */
  const DiasSemana: seq<DiaSemana> := [LUNES, MARTES, MIERCOLES, JUEVES, VIERNES, SABADO, DOMINGO]

  /** Each of the seven days appears exactly once, Monday first and Sunday last. */
  lemma DiasSemanaOrder()
    ensures |DiasSemana| == 7 && DiasSemana[0] == LUNES && DiasSemana[6] == DOMINGO
    ensures forall d: DiaSemana :: d in DiasSemana
    ensures forall i, j :: 0 <= i < j < |DiasSemana| ==> DiasSemana[i] != DiasSemana[j]
  {
    forall d: DiaSemana ensures d in DiasSemana {
      match d
      case LUNES => assert DiasSemana[0] == d;
      case MARTES => assert DiasSemana[1] == d;
      case MIERCOLES => assert DiasSemana[2] == d;
      case JUEVES => assert DiasSemana[3] == d;
      case VIERNES => assert DiasSemana[4] == d;
      case SABADO => assert DiasSemana[5] == d;
      case DOMINGO => assert DiasSemana[6] == d;
    }
  }

  /** The editor's fields. */
  datatype FormData = FormData(horaApertura: string, horaCierre: string, cerrado: bool)

  /** An open day running from `ha:ma` to `hc:mc`. */
  function FormDeHoras(ha: nat, ma: nat, hc: nat, mc: nat): FormData
    requires ha < 24 && ma < 60 && hc < 24 && mc < 60
  {
    FormData(Schedule.FormatHora(ha, ma), Schedule.FormatHora(hc, mc), false)
  }

  /** The editor's values for a day without an entry. */
  const FormPorDefecto: FormData := FormDeHoras(9, 0, 18, 0)

  /** The defaults are the texts "09:00" and "18:00", not closed. */
  lemma FormPorDefectoTexts()
    ensures FormPorDefecto == FormData("09:00", "18:00", false)
  {
    assert Schedule.Pad2(9) == "09" by { assert Text.DigitChar(0) == '0' && Text.DigitChar(9) == '9'; }
    assert Schedule.Pad2(0) == "00" by { assert Text.DigitChar(0) == '0'; }
    assert Schedule.Pad2(18) == "18" by { assert Text.DigitChar(1) == '1' && Text.DigitChar(8) == '8'; }
  }

  /**
   * A form built from two times reads back as those times' minutes since
   * midnight; for the defaults, `FormDeHoras(9, 0, 18, 0)`, minute 540 to 1080.
   */
  lemma FormDeHorasWindow(ha: nat, ma: nat, hc: nat, mc: nat)
    requires ha < 24 && ma < 60 && hc < 24 && mc < 60
    ensures Schedule.ParseHora(FormDeHoras(ha, ma, hc, mc).horaApertura) == Some(ha * 60 + ma)
    ensures Schedule.ParseHora(FormDeHoras(ha, ma, hc, mc).horaCierre) == Some(hc * 60 + mc)
  {
    Schedule.ParseFormatHora(ha, ma);
    Schedule.ParseFormatHora(hc, mc);
  }

  /** The request `guardarHorario` sends. */
  datatype Guardado =
    | Actualizar(id: string, form: FormData)     // PATCH /horarios/:id
    | Crear(dia: DiaSemana, form: FormData)      // POST /horarios

  /** The update-or-create choice: the day's active entry is updated by its id, else a new entry is created. */
  function Solicitud(horarios: seq<HorarioAtencion>, dia: DiaSemana, form: FormData): (r: Guardado)
    ensures r.form == form
    ensures r.Actualizar? <==> Schedule.HorarioDelDia(horarios, dia).Some?
    ensures r.Actualizar? ==> exists k :: Schedule.FirstActive(horarios, dia, k) && horarios[k].id == r.id
    ensures r.Crear? ==> (r.dia == dia
      && forall j :: 0 <= j < |horarios| ==> !(horarios[j].dia == dia && horarios[j].activo))
  {
    match Schedule.HorarioDelDia(horarios, dia)
    case Some(h) => Actualizar(h.id, form)
    case None => Crear(dia, form)
  }

  /** An inactive entry for the day is never the one updated. */
  lemma InactiveNeverUpdated(horarios: seq<HorarioAtencion>, dia: DiaSemana, form: FormData, k: int)
    requires 0 <= k < |horarios| && !horarios[k].activo
    requires forall j :: 0 <= j < |horarios| && j != k ==> horarios[j].id != horarios[k].id
    ensures Solicitud(horarios, dia, form) != Actualizar(horarios[k].id, form)
  {
  }

  class HorariosPage {
    var horarios: seq<HorarioAtencion>
    var editando: Option<DiaSemana>
    var formData: FormData

    constructor ()
      ensures horarios == [] && editando == None && formData == FormData("", "", false)
    {
      horarios := [];
      editando := None;
      formData := FormData("", "", false);
    }

    /** `abrirEdicion`: pre-fills the day's active entry, or the defaults, and marks the day as edited. */
    method AbrirEdicion(dia: DiaSemana)
      modifies this`formData, this`editando
      ensures editando == Some(dia)
      ensures match Schedule.HorarioDelDia(horarios, dia)
        case Some(h) => formData == FormData(h.horaApertura, h.horaCierre, h.cerrado)
        case None => formData == FormPorDefecto
    {
      var horario := Schedule.HorarioDelDia(horarios, dia);
      if horario.Some? {
        formData := FormData(horario.value.horaApertura, horario.value.horaCierre, horario.value.cerrado);
      } else {
        formData := FormPorDefecto;
      }
      editando := Some(dia);
    }

    /**
     * `guardarHorario`: nothing happens when no day is being edited;
     * otherwise the update-or-create request is sent, and a success closes
     * the editor while a failure keeps it open.
     */
    method GuardarHorario(ok: bool) returns (req: Option<Guardado>)
      modifies this`editando
      ensures old(editando).None? ==> req == None && editando == None
      ensures old(editando).Some? ==> req == Some(Solicitud(horarios, old(editando).value, formData))
      ensures old(editando).Some? ==> editando == (if ok then None else old(editando))
    {
      if editando.None? {
        return None;
      }
      var horarioExistente := Schedule.HorarioDelDia(horarios, editando.value);
      if horarioExistente.Some? {
        req := Some(Actualizar(horarioExistente.value.id, formData));
      } else {
        req := Some(Crear(editando.value, formData));
      }
      if ok {
        editando := None;
      }
    }
  }
}
