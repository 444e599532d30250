/**
 * The keyboard-wedge barcode field: keystrokes accumulate in a buffer and
 * Enter hands the buffered code on. Each appended key arms a 100 ms timer
 * meant to clear a stale buffer, but the buffer change re-runs the effect,
 * whose cleanup cancels that timer, so the buffer is never cleared by time.
 */
module BarcodeInput {
  import opened Wrappers

  /** The effect of one keypress on a focused field. */
  datatype Paso = Paso(buffer: string, emitido: Option<string>, timer: bool)

  /**
   * Enter with a non-empty buffer emits the buffer and empties it; a key whose
   * name is one character is appended and arms a new timer; any other key
   * (Enter on an empty buffer included) leaves the buffer as it is.
   */
  function KeyStep(buffer: string, key: string): (r: Paso)
    ensures r.emitido.Some? <==> key == "Enter" && |buffer| > 0
    ensures r.emitido.Some? ==> r.emitido.value == buffer && r.buffer == "" && !r.timer
    ensures r.emitido.None? && |key| == 1 ==> r.buffer == buffer + key && r.timer
    ensures r.emitido.None? && |key| != 1 ==> r.buffer == buffer && !r.timer
  {
    if key == "Enter" && |buffer| > 0 then Paso("", Some(buffer), false)
    else if |key| == 1 then Paso(buffer + key, None, true)
    else Paso(buffer, None, false)
  }

  /** The buffer after typing each character of `w` as its own key. */
  function Escribir(buffer: string, w: string): string
    decreases |w|
  {
    if |w| == 0 then buffer else Escribir(KeyStep(buffer, [w[0]]).buffer, w[1..])
  }

  /** Typing characters appends exactly them, in order. */
  lemma {:induction false} EscribirAppends(buffer: string, w: string)
    ensures Escribir(buffer, w) == buffer + w
    decreases |w|
  {
    if |w| > 0 {
      EscribirAppends(buffer + [w[0]], w[1..]);
      assert buffer + [w[0]] + w[1..] == buffer + w;
    }
  }

  /** A scanner typing a non-empty code and then Enter into an empty field emits exactly that code. */
  lemma ScanEmitsCode(w: string)
    requires |w| > 0
    ensures KeyStep(Escribir("", w), "Enter") == Paso("", Some(w), false)
  {
    var b := Escribir("", w);
    EscribirAppends("", w);
    assert b == w;
    var p := KeyStep(b, "Enter");
    assert p.emitido == Some(w);
  }

  /** The buffer after the focused keys `keys`, starting from an empty field. */
  function Buffer(keys: seq<string>): string
    decreases |keys|
  {
    if |keys| == 0 then "" else KeyStep(Buffer(keys[..|keys| - 1]), keys[|keys| - 1]).buffer
  }

  /** The keys typed after the last Enter (all of them when there was none). */
  function DesdeUltimoEnter(keys: seq<string>): (r: seq<string>)
    ensures |r| <= |keys| && r == keys[|keys| - |r|..]
    ensures forall i :: 0 <= i < |r| ==> r[i] != "Enter"
    ensures |r| < |keys| ==> keys[|keys| - |r| - 1] == "Enter"
    decreases |keys|
  {
    if |keys| == 0 then []
    else if keys[|keys| - 1] == "Enter" then []
    else DesdeUltimoEnter(keys[..|keys| - 1]) + [keys[|keys| - 1]]
  }

  /** The one-character keys of `keys`, concatenated in order. */
  function Caracteres(keys: seq<string>): string
    decreases |keys|
  {
    if |keys| == 0 then ""
    else Caracteres(keys[..|keys| - 1]) + (if |keys[|keys| - 1]| == 1 then keys[|keys| - 1] else "")
  }

  /** The buffer holds exactly the one-character keys typed since the last Enter. */
  lemma {:induction false} BufferPendiente(keys: seq<string>)
    ensures Buffer(keys) == Caracteres(DesdeUltimoEnter(keys))
    decreases |keys|
  {
    if |keys| > 0 {
      var previas, k := keys[..|keys| - 1], keys[|keys| - 1];
      var b := Buffer(previas);
      BufferPendiente(previas);
      assert Buffer(keys) == KeyStep(b, k).buffer;
      if k == "Enter" {
        assert DesdeUltimoEnter(keys) == [];
        assert |k| != 1;
      } else {
        var d := DesdeUltimoEnter(previas) + [k];
        assert DesdeUltimoEnter(keys) == d;
        assert d[..|d| - 1] == DesdeUltimoEnter(previas);
        assert Caracteres(d) == b + (if |k| == 1 then k else "");
      }
    }
  }

  /** Enter hands on exactly those keys, unless none was typed. */
  lemma EnterEmitePendiente(keys: seq<string>)
    ensures var pendiente := Caracteres(DesdeUltimoEnter(keys));
      KeyStep(Buffer(keys), "Enter").emitido == if pendiente == "" then None else Some(pendiente)
  {
    BufferPendiente(keys);
  }

  class BarcodeField {
    var buffer: string
    var timerPending: bool
    /** The keys the field has received while focused. */
    ghost var teclas: seq<string>

    /** The buffer is the fold of the received keys, and no reset timer survives a render. */
    ghost predicate Valid()
      reads this
    {
      buffer == Buffer(teclas) && !timerPending
    }

    constructor ()
      ensures Valid() && teclas == [] && buffer == "" && !timerPending
    {
      buffer := "";
      timerPending := false;
      teclas := [];
    }

    /**
     * `handleKeyPress`, then the render it causes. Ignored unless the field
     * has focus; otherwise the pending timer is cancelled and the key handled.
     * The code goes to `onChange` (`cambio`) and, when that callback is given,
     * to `onBarcodeScanned` (`escaneado`). A changed buffer re-runs the effect,
     * whose cleanup cancels the timer the handler has just armed.
     */
    method HandleKeyPress(key: string, enfocado: bool, conCallback: bool)
      returns (cambio: Option<string>, escaneado: Option<string>)
      requires Valid()
      modifies this
      ensures Valid() && !timerPending
      ensures !enfocado ==> buffer == old(buffer) && teclas == old(teclas) && cambio == None && escaneado == None
      ensures enfocado ==> var p := KeyStep(old(buffer), key);
        teclas == old(teclas) + [key] && buffer == p.buffer && cambio == p.emitido
        && escaneado == (if conCallback then p.emitido else None)
    {
      cambio, escaneado := None, None;
      if !enfocado {
        return;
      }
      var renderizado := buffer;
      ghost var p := KeyStep(buffer, key);
      assert (teclas + [key])[..|teclas|] == teclas;
      assert Buffer(teclas + [key]) == p.buffer;
      teclas := teclas + [key];
      timerPending := false;
      if key == "Enter" && |buffer| > 0 {
        var scannedCode := buffer;
        buffer := "";
        cambio := Some(scannedCode);
        if conCallback {
          escaneado := Some(scannedCode);
        }
      } else if |key| == 1 {
        buffer := buffer + key;
        timerPending := true;
        assert |buffer| == |renderizado| + 1;
      }
      if buffer != renderizado {
        EfectoLimpiado();
      }
    }

    /** Whatever keys and pauses came before, the field holds the one-character keys typed since the last Enter. */
    lemma PendienteTrasTeclas()
      requires Valid()
      ensures buffer == Caracteres(DesdeUltimoEnter(teclas))
    {
      BufferPendiente(teclas);
    }

    /** The effect's cleanup on a re-render: the listener is replaced and the pending timer cancelled. */
    method EfectoLimpiado()
      modifies this`timerPending
      ensures !timerPending
    {
      timerPending := false;
    }

    /**
     * The 100 ms timer firing: a pending timer empties the buffer; a cancelled
     * one does nothing. Between keypresses no timer is pending, so the buffer
     * survives any pause.
     */
    method Timeout()
      modifies this
      ensures old(timerPending) ==> buffer == "" && !timerPending && teclas == old(teclas)
      ensures !old(timerPending) ==> buffer == old(buffer) && timerPending == old(timerPending) && teclas == old(teclas)
      ensures old(Valid()) ==> Valid() && buffer == old(buffer)
    {
      if timerPending {
        buffer := "";
        timerPending := false;
      }
    }
  }
}
