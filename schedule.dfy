/**
 * The opening-hours window shared by the checkout page, the home page and the
 * hours admin page: the weekday map, the lookup of today's active entry, the
 * `HH:MM` to minutes conversion and the inclusive interval test.
 */
module Schedule {
  import opened Wrappers
  import opened Types
  import Text

  /** `diasSemanaMap`: the value of `Date.getDay()` (0 is Sunday) to a day label. */
  function DiaDeIndice(i: int): DiaSemana
    requires 0 <= i < 7
  {
    if i == 0 then DOMINGO
    else if i == 1 then LUNES
    else if i == 2 then MARTES
    else if i == 3 then MIERCOLES
    else if i == 4 then JUEVES
    else if i == 5 then VIERNES
    else SABADO
  }

  /** The inverse of `DiaDeIndice`: the `getDay()` value of a day label. */
  function IndiceDeDia(d: DiaSemana): int {
    match d
    case DOMINGO => 0
    case LUNES => 1
    case MARTES => 2
    case MIERCOLES => 3
    case JUEVES => 4
    case VIERNES => 5
    case SABADO => 6
  }

  /** The weekday map is a bijection between 0..6 and the seven labels, 0 being DOMINGO. */
  lemma DiaDeIndiceBijective()
    ensures DiaDeIndice(0) == DOMINGO && DiaDeIndice(6) == SABADO
    ensures forall i :: 0 <= i < 7 ==> IndiceDeDia(DiaDeIndice(i)) == i
    ensures forall d :: 0 <= IndiceDeDia(d) < 7 && DiaDeIndice(IndiceDeDia(d)) == d
  {
  }

  /** Position k holds the first active entry for that day. */
  predicate FirstActive(horarios: seq<HorarioAtencion>, dia: DiaSemana, k: int) {
    0 <= k < |horarios| && horarios[k].dia == dia && horarios[k].activo
    && forall j :: 0 <= j < k ==> !(horarios[j].dia == dia && horarios[j].activo)
  }

  /** `horarios.find(h => h.dia === dia && h.activo)`. */
  function HorarioDelDia(horarios: seq<HorarioAtencion>, dia: DiaSemana): (r: Option<HorarioAtencion>)
    ensures r.None? <==> forall j :: 0 <= j < |horarios| ==> !(horarios[j].dia == dia && horarios[j].activo)
    ensures r.Some? ==> exists k :: FirstActive(horarios, dia, k) && horarios[k] == r.value
    decreases |horarios|
  {
    if |horarios| == 0 then None
    else if horarios[0].dia == dia && horarios[0].activo then Some(horarios[0])
    else
      var r := HorarioDelDia(horarios[1..], dia);
      if r.Some? then
        var k :| FirstActive(horarios[1..], dia, k) && horarios[1..][k] == r.value;
        assert FirstActive(horarios, dia, k + 1);
        r
      else
        assert forall j :: 1 <= j < |horarios| ==> horarios[j] == horarios[1..][j - 1];
        r
  }

  /** The entry found for a day is active and for that day: inactive entries are never returned. */
  lemma HorarioDelDiaIsActive(horarios: seq<HorarioAtencion>, dia: DiaSemana)
    ensures HorarioDelDia(horarios, dia).Some? ==>
      HorarioDelDia(horarios, dia).value.activo && HorarioDelDia(horarios, dia).value.dia == dia
  {
  }

  /**
   * `Number(str)` for the strings a time field holds: surrounding whitespace is
   * ignored, a blank string reads as 0, a run of decimal digits reads as its value;
   * anything else reads as NaN (None).
   */
  function NumberOf(str: string): Option<int> {
    var t := Text.Trim(str);
    if t == "" then Some(0)
    else if Text.IsDigits(t) then Some(Text.DigitsValue(t))
    else None
  }

  /**
   * `const [h, m] = s.split(':').map(Number); h * 60 + m`: the minutes since
   * midnight of an `HH:MM` string, or None where the source computes NaN.
   */
  function ParseHora(s: string): Option<int> {
    match Text.IndexOf(s, ':')
    case None => None
    case Some(k) =>
      var rest := s[k + 1..];
      var minutos := match Text.IndexOf(rest, ':') case None => rest case Some(k2) => rest[..k2];
      var h := NumberOf(s[..k]);
      var m := NumberOf(minutos);
      if h.Some? && m.Some? then Some(h.value * 60 + m.value) else None
  }

  /** Two decimal digits, zero-padded, as a time field shows them. */
  function Pad2(n: nat): string
    requires n < 100
  {
    [Text.DigitChar(n / 10), Text.DigitChar(n % 10)]
  }

  /** The `HH:MM` text of an hour and a minute. */
  function FormatHora(h: nat, m: nat): string
    requires h < 100 && m < 100
  {
    Pad2(h) + ":" + Pad2(m)
  }

  lemma Pad2Number(n: nat)
    requires n < 100
    ensures NumberOf(Pad2(n)) == Some(n)
  {
    var t := Pad2(n);
    assert !Text.IsWhitespace(t[0]) && !Text.IsWhitespace(t[1]);
    assert Text.TrimStart(t) == t;
    assert Text.TrimEnd(t) == t;
    assert t[..1] == [t[0]];
    assert Text.DigitsValue(t[..1]) == n / 10;
  }

  /** An `HH:MM` text reads back as h * 60 + m minutes. */
  lemma ParseFormatHora(h: nat, m: nat)
    requires h < 100 && m < 100
    ensures ParseHora(FormatHora(h, m)) == Some(h * 60 + m)
  {
    var s, a, b := FormatHora(h, m), Pad2(h), Pad2(m);
    assert s == a + ":" + b;
    ColonAfterPad2(a, b);
    Pad2Number(h);
    Pad2Number(m);
  }

  /** In `aa:b` with no colon in b, the first colon is at 2 and the minutes run to the end. */
  lemma ColonAfterPad2(a: string, b: string)
    requires |a| == 2 && a[0] != ':' && a[1] != ':' && Text.IndexOf(b, ':') == None
    ensures Text.IndexOf(a + ":" + b, ':') == Some(2)
    ensures (a + ":" + b)[..2] == a && (a + ":" + b)[3..] == b
  {
    var s := a + ":" + b;
    assert s[0] == a[0] && s[1] == a[1] && s[2] == ':';
    assert s[..2] == a && s[3..] == b;
  }

  /**
   * `horaActual >= minutosApertura && horaActual <= minutosCierre`: both bounds
   * inclusive; a time that reads as NaN makes both comparisons false.
   */
  predicate EnVentana(h: HorarioAtencion, minutoActual: int) {
    var apertura := ParseHora(h.horaApertura);
    var cierre := ParseHora(h.horaCierre);
    apertura.Some? && cierre.Some? && apertura.value <= minutoActual && minutoActual <= cierre.value
  }

  /** The three states of a day, plus "no entry configured". */
  datatype EstadoHorario = SinHorario | CerradoTodoElDia | Abierto | FueraDeHorario

  /** The state of the shop on day `dia` at minute `minutoActual`. */
  function Evaluar(horarios: seq<HorarioAtencion>, dia: DiaSemana, minutoActual: int): EstadoHorario {
    match HorarioDelDia(horarios, dia)
    case None => SinHorario
    case Some(h) =>
      if h.cerrado then CerradoTodoElDia
      else if EnVentana(h, minutoActual) then Abierto
      else FueraDeHorario
  }

  /** The `dentroDeHorario` flag `verificarHorario` derives: open exactly in state Abierto. */
  predicate DentroDeHorario(horarios: seq<HorarioAtencion>, dia: DiaSemana, minutoActual: int) {
    Evaluar(horarios, dia, minutoActual) == Abierto
  }

  /**
   * With an active, non-closed entry for today whose times parse, the shop is
   * open iff opening <= now <= closing, both bounds included.
   */
  lemma OpenIffInWindow(horarios: seq<HorarioAtencion>, dia: DiaSemana, minutoActual: int, apertura: int, cierre: int)
    requires HorarioDelDia(horarios, dia).Some?
    requires !HorarioDelDia(horarios, dia).value.cerrado
    requires ParseHora(HorarioDelDia(horarios, dia).value.horaApertura) == Some(apertura)
    requires ParseHora(HorarioDelDia(horarios, dia).value.horaCierre) == Some(cierre)
    ensures DentroDeHorario(horarios, dia, minutoActual) <==> apertura <= minutoActual <= cierre
  {
  }

  /**
   * Not open: when no active entry exists for today, when today's entry is
   * closed, when a time does not parse, and when closing is before opening.
   */
  lemma NotOpenCases(horarios: seq<HorarioAtencion>, dia: DiaSemana, minutoActual: int)
    ensures (forall j :: 0 <= j < |horarios| ==> !(horarios[j].dia == dia && horarios[j].activo))
      ==> !DentroDeHorario(horarios, dia, minutoActual)
    ensures HorarioDelDia(horarios, dia).Some? && HorarioDelDia(horarios, dia).value.cerrado
      ==> !DentroDeHorario(horarios, dia, minutoActual)
    ensures HorarioDelDia(horarios, dia).Some?
      && (ParseHora(HorarioDelDia(horarios, dia).value.horaApertura).None?
          || ParseHora(HorarioDelDia(horarios, dia).value.horaCierre).None?)
      ==> !DentroDeHorario(horarios, dia, minutoActual)
    ensures HorarioDelDia(horarios, dia).Some?
      && ParseHora(HorarioDelDia(horarios, dia).value.horaApertura).Some?
      && ParseHora(HorarioDelDia(horarios, dia).value.horaCierre).Some?
      && ParseHora(HorarioDelDia(horarios, dia).value.horaCierre).value
         < ParseHora(HorarioDelDia(horarios, dia).value.horaApertura).value
      ==> !DentroDeHorario(horarios, dia, minutoActual)
  {
  }

  /** Only the first active entry for the day decides; later active entries for it are ignored. */
  lemma FirstActiveDecides(horarios: seq<HorarioAtencion>, dia: DiaSemana, minutoActual: int, k: int)
    requires FirstActive(horarios, dia, k)
    ensures Evaluar(horarios, dia, minutoActual)
      == Evaluar(horarios[..k + 1], dia, minutoActual)
  {
    var r := HorarioDelDia(horarios, dia);
    var k' :| FirstActive(horarios, dia, k') && horarios[k'] == r.value;
    assert k' == k;
    var r2 := HorarioDelDia(horarios[..k + 1], dia);
    assert FirstActive(horarios[..k + 1], dia, k);
    var k2 :| FirstActive(horarios[..k + 1], dia, k2) && horarios[..k + 1][k2] == r2.value;
    assert k2 == k;
  }

  /**
   * A day saved from the editor's `HH:MM` fields, e.g. 09:00-18:00: open at
   * the closing minute, outside the window one minute later, and not open at
   * any minute once the day is marked closed.
   */
  lemma FormattedWindowEdges(id: string, dia: DiaSemana, ha: nat, ma: nat, hc: nat, mc: nat, minutoActual: int)
    requires ha < 24 && ma < 60 && hc < 24 && mc < 60 && ha * 60 + ma <= hc * 60 + mc
    ensures var h := HorarioAtencion(id, dia, FormatHora(ha, ma), FormatHora(hc, mc), false, true);
      Evaluar([h], dia, hc * 60 + mc) == Abierto
      && Evaluar([h], dia, hc * 60 + mc + 1) == FueraDeHorario
      && Evaluar([h.(cerrado := true)], dia, minutoActual) == CerradoTodoElDia
  {
    ParseFormatHora(ha, ma);
    ParseFormatHora(hc, mc);
  }
}
