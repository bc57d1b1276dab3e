/** The earlier pulse generator class, src/Pulser.py: one write per
    setter and no amplitude or output bookkeeping, the same 0.8 V ceiling,
    and a case-sensitive model check. */
module PulserLegacy {
  import opened Instrument
  import opened Text
  import opened PulserLink

  /** Every reply the case-sensitive Identificar of this class reads as RS
      ("RS" occurs in it) is read as RS by the case-insensitive Identificar
      of the Tools class ("rs" occurs in it once lower-cased). */
  lemma LegacyRsKept(idn: string)
    ensures Contains(idn, "RS") ==> Contains(Lower(idn), "rs")
  {
    if Contains(idn, "RS") {
      assert Lower("RS") == "rs";
      LowerKeepsContains(idn, "RS");
    }
  }

  class Pulser {
    var direccion: string
    var nCanales: int
    var modelo: Vendor
    /** `conexion` is not None. */
    var connected: bool
    /** The replies the instrument will give, in order. */
    var replies: seq<string>
    /** Every command sent over the link, in order. */
    ghost var log: seq<Command>
    const num: Numerics

    /** The object with the link open and the model unset. */
    constructor (direccion: string, nCanales: int, replies: seq<string>, num: Numerics)
      ensures this.direccion == direccion && this.nCanales == nCanales && modelo == NoModel && connected
      ensures this.replies == replies && log == [] && this.num == num
    {
      this.direccion, this.nCanales, modelo, connected := direccion, nCanales, NoModel, true;
      this.replies, log, this.num := replies, [], num;
    }

    /** __init__: connects and identifies. */
    static method Open(direccion: string, nCanales: int, replies: seq<string>, num: Numerics)
      returns (r: Result<Pulser>)
      ensures replies == [] <==> r == Failure(IdentifyFailed)
      ensures replies != [] <==> r.Success?
      ensures r.Success? ==>
        var p := r.value;
        fresh(p) && p.direccion == direccion && p.nCanales == nCanales && p.connected
        && p.modelo in {RS, Desconocido} && (p.modelo == RS <==> Contains(replies[0], "RS"))
        && p.replies == replies[1..] && p.log == [Identify]
    {
      var p := new Pulser(direccion, nCanales, replies, num);
      var id := p.Identificar();
      if id.Fail? {
        return Failure(id.error);
      }
      r := Success(p);
    }

    /** connect(): (re)opens the link. */
    method Connect()
      modifies this`connected
      ensures connected
    {
      connected := true;
    }

    /** conexion.write(c): with `conexion` set to None the attribute lookup raises. */
    method Write(c: Command) returns (r: Outcome)
      modifies this`log
      ensures connected ==> r == Pass && log == old(log) + [c]
      ensures !connected ==> r == Fail(NoAttribute) && log == old(log)
    {
      if !connected {
        return Fail(NoAttribute);
      }
      log := log + [c];
      r := Pass;
    }

    /** conexion.query(c). */
    method Query(c: Command) returns (r: Result<string>)
      modifies this`replies, this`log
      ensures !connected ==> r == Failure(NoAttribute) && replies == old(replies) && log == old(log)
      ensures connected ==> log == old(log) + [c]
      ensures connected && old(replies) == [] ==> r == Failure(NoReply) && replies == []
      ensures connected && old(replies) != [] ==> r == Success(old(replies)[0]) && replies == old(replies)[1..]
    {
      if !connected {
        return Failure(NoAttribute);
      }
      log := log + [c];
      if replies == [] {
        return Failure(NoReply);
      }
      r := Success(replies[0]);
      replies := replies[1..];
    }

    /** Identificar: the tests for "Keysight", "Siglent", "Tektronix" and
        "RS" in turn, with their capitalisation; the last decides. */
    method Identificar() returns (r: Outcome)
      modifies this`modelo, this`replies, this`log
      ensures !connected ==> r == Fail(NoAttribute) && modelo == old(modelo) && replies == old(replies) && log == old(log)
      ensures connected ==> log == old(log) + [Identify]
      ensures connected && old(replies) == [] ==> r == Fail(IdentifyFailed) && modelo == old(modelo) && replies == []
      ensures connected && old(replies) != [] ==>
        && r == Pass && replies == old(replies)[1..]
        && modelo in {RS, Desconocido}
        && (modelo == RS <==> Contains(old(replies)[0], "RS"))
    {
      var idn := Query(Identify);
      if idn.Failure? {
        return if idn.error == NoReply then Fail(IdentifyFailed) else Fail(idn.error);
      }
      if Contains(idn.value, "Keysight") {
        modelo := Keysight;
      }
      if Contains(idn.value, "Siglent") {
        modelo := Siglent;
      }
      if Contains(idn.value, "Tektronix") {
        modelo := Tektronix;
      }
      if Contains(idn.value, "RS") {
        modelo := RS;
      } else {
        modelo := Desconocido;
      }
      r := Pass;
    }

    /** set_frecuencia: one write. */
    method SetFrecuencia(frecuencia: real, canal: int) returns (r: Outcome)
      modifies this`log
      ensures connected ==> r == Pass && log == old(log) + [Set(Frequency, canal, frecuencia)]
      ensures !connected ==> r == Fail(NoAttribute) && log == old(log)
    {
      r := Write(Set(Frequency, canal, frecuencia));
    }

    /** set_amplitud: refuses anything above 0.8 V before writing, so a safe
        log stays safe. */
    method SetAmplitud(amplitud: real, canal: int) returns (r: Outcome)
      modifies this`log
      ensures amplitud > MaxAmplitude ==> r == Fail(AmplitudeTooHigh) && log == old(log)
      ensures amplitud <= MaxAmplitude && connected ==> r == Pass && log == old(log) + [Set(Amplitude, canal, amplitud)]
      ensures amplitud <= MaxAmplitude && !connected ==> r == Fail(NoAttribute) && log == old(log)
      ensures AmplitudesSafe(old(log)) ==> AmplitudesSafe(log)
    {
      if amplitud > MaxAmplitude {
        return Fail(AmplitudeTooHigh);
      }
      ghost var before := log;
      r := Write(Set(Amplitude, canal, amplitud));
      SafeAppend(before, [Set(Amplitude, canal, amplitud)]);
    }

    /** set_offset: one write. */
    method SetOffset(offset: real, canal: int) returns (r: Outcome)
      modifies this`log
      ensures connected ==> r == Pass && log == old(log) + [Set(Offset, canal, offset)]
      ensures !connected ==> r == Fail(NoAttribute) && log == old(log)
    {
      r := Write(Set(Offset, canal, offset));
    }

    /** enable_output: one write. */
    method EnableOutput(canal: int) returns (r: Outcome)
      modifies this`log
      ensures connected ==> r == Pass && log == old(log) + [Output(canal, true)]
      ensures !connected ==> r == Fail(NoAttribute) && log == old(log)
    {
      r := Write(Output(canal, true));
    }

    /** disable_output: one write. */
    method DisableOutput(canal: int) returns (r: Outcome)
      modifies this`log
      ensures connected ==> r == Pass && log == old(log) + [Output(canal, false)]
      ensures !connected ==> r == Fail(NoAttribute) && log == old(log)
    {
      r := Write(Output(canal, false));
    }

    /** output_impedance: one write. */
    method OutputImpedance(impedancia: real, canal: int) returns (r: Outcome)
      modifies this`log
      ensures connected ==> r == Pass && log == old(log) + [Set(Impedance, canal, impedancia)]
      ensures !connected ==> r == Fail(NoAttribute) && log == old(log)
    {
      r := Write(Set(Impedance, canal, impedancia));
    }

    /** get_frecuencia, get_amplitud, get_offset and get_output_impedance:
        one query, read as a number. */
    method Get(what: Setting, canal: int) returns (r: Result<real>)
      modifies this`replies, this`log
      ensures !connected ==> r == Failure(NoAttribute) && replies == old(replies) && log == old(log)
      ensures connected ==> log == old(log) + [Ask(what, canal)]
      ensures connected && old(replies) == [] ==> r == Failure(NoReply) && replies == []
      ensures connected && old(replies) != [] ==>
        r == ReadNumber(num, old(replies)[0]) && replies == old(replies)[1..]
    {
      var resultado := Query(Ask(what, canal));
      if resultado.Failure? {
        return Failure(resultado.error);
      }
      r := ReadNumber(num, resultado.value);
    }

    /** close(): closes an open link and sets `conexion` to None; otherwise
        it only prints. */
    method Close()
      modifies this`connected, this`log
      ensures !connected
      ensures log == old(log) + (if old(connected) then [CloseSession] else [])
    {
      if connected {
        log := log + [CloseSession];
        connected := false;
      }
    }
  }
}
