/** The pulse generator of src/Tools/Pulser.py: a connection that can be
    closed, the model read from the IDN reply, per-channel amplitude and
    output bookkeeping with a 0.8 V amplitude ceiling, and the cleanup done
    on leaving a `with` block or on destruction; plus the in-memory
    simulator SimulacionPulser. */
module PulserTools {
  import opened Instrument
  import opened Text
  import opened PulserLink

  class Pulser {
    var direccion: string
    var nCanales: int
    var modelo: Vendor
    /** `conexion` is not None. */
    var connected: bool
    var amp1: real
    var amp2: real
    var output1: bool
    var output2: bool
    /** The replies the instrument will give, in order. */
    var replies: seq<string>
    /** Every command sent over the link, in order. */
    ghost var log: seq<Command>
    const num: Numerics

    /** The amplitudes recorded and every amplitude written respect the ceiling. */
    ghost predicate Safe()
      reads this
    {
      amp1 <= MaxAmplitude && amp2 <= MaxAmplitude && AmplitudesSafe(log)
    }

    /** The object as __init__ leaves it apart from the model: link open,
        amplitudes 0.25 V, both outputs off. */
    constructor (direccion: string, nCanales: int, replies: seq<string>, num: Numerics)
      ensures this.direccion == direccion && this.nCanales == nCanales && modelo == NoModel && connected
      ensures amp1 == 0.25 && amp2 == 0.25 && !output1 && !output2
      ensures this.replies == replies && log == [] && this.num == num
      ensures Safe()
    {
      this.direccion, this.nCanales, modelo, connected := direccion, nCanales, NoModel, true;
      amp1, amp2, output1, output2 := 0.25, 0.25, false, false;
      this.replies, log, this.num := replies, [], num;
    }

    /** __init__: connects and identifies; identification raises when the
        instrument does not answer. */
    static method Open(direccion: string, nCanales: int, replies: seq<string>, num: Numerics)
      returns (r: Result<Pulser>)
      ensures replies == [] <==> r == Failure(IdentifyFailed)
      ensures replies != [] <==> r.Success?
      ensures r.Success? ==>
        var p := r.value;
        fresh(p) && p.direccion == direccion && p.nCanales == nCanales && p.connected
        && p.modelo in {RS, Desconocido} && (p.modelo == RS <==> Contains(Lower(replies[0]), "rs"))
        && p.amp1 == 0.25 && p.amp2 == 0.25 && !p.output1 && !p.output2
        && p.replies == replies[1..] && p.log == [Identify] && p.Safe()
    {
      var p := new Pulser(direccion, nCanales, replies, num);
      var id := p.Identificar();
      if id.Fail? {
        return Failure(id.error);
      }
      r := Success(p);
    }

    /** connect(): (re)opens the link. */
    method Connect()
      modifies this`connected
      ensures connected
    {
      connected := true;
    }

    /** conexion.write(c): with `conexion` set to None the attribute lookup raises. */
    method Write(c: Command) returns (r: Outcome)
      modifies this`log
      ensures connected ==> r == Pass && log == old(log) + [c]
      ensures !connected ==> r == Fail(NoAttribute) && log == old(log)
      ensures Safe() <==> old(Safe()) && (!connected || AmplitudesSafe([c]))
    {
      if !connected {
        return Fail(NoAttribute);
      }
      SafeAppend(log, [c]);
      log := log + [c];
      r := Pass;
    }

    /** conexion.query(c). */
    method Query(c: Command) returns (r: Result<string>)
      modifies this`replies, this`log
      ensures !connected ==> r == Failure(NoAttribute) && replies == old(replies) && log == old(log)
      ensures connected ==> log == old(log) + [c]
      ensures connected && old(replies) == [] ==> r == Failure(NoReply) && replies == []
      ensures connected && old(replies) != [] ==> r == Success(old(replies)[0]) && replies == old(replies)[1..]
      ensures Safe() <==> old(Safe()) && (!connected || AmplitudesSafe([c]))
    {
      if !connected {
        return Failure(NoAttribute);
      }
      SafeAppend(log, [c]);
      log := log + [c];
      if replies == [] {
        return Failure(NoReply);
      }
      r := Success(replies[0]);
      replies := replies[1..];
    }

    /** Identificar: asks for the IDN (a VISA failure becomes IdentifyFailed)
        and then tests for "keysight", "siglent", "tektronix" and "rs" in
        turn, the last test deciding between RS and Desconocido. */
    method Identificar() returns (r: Outcome)
      modifies this`modelo, this`replies, this`log
      ensures !connected ==> r == Fail(NoAttribute) && modelo == old(modelo) && replies == old(replies) && log == old(log)
      ensures connected ==> log == old(log) + [Identify]
      ensures connected && old(replies) == [] ==> r == Fail(IdentifyFailed) && modelo == old(modelo) && replies == []
      ensures connected && old(replies) != [] ==>
        && r == Pass && replies == old(replies)[1..]
        && modelo in {RS, Desconocido}
        && (modelo == RS <==> Contains(Lower(old(replies)[0]), "rs"))
      ensures old(Safe()) ==> Safe()
    {
      ghost var before := log;
      var idn := Query(Identify);
      SafeAppend(before, [Identify]);
      if idn.Failure? {
        return if idn.error == NoReply then Fail(IdentifyFailed) else Fail(idn.error);
      }
      var low := Lower(idn.value);
      if Contains(low, "keysight") {
        modelo := Keysight;
      }
      if Contains(low, "siglent") {
        modelo := Siglent;
      }
      if Contains(low, "tektronix") {
        modelo := Tektronix;
      }
      if Contains(low, "rs") {
        modelo := RS;
      } else {
        modelo := Desconocido;
      }
      r := Pass;
    }

    /** set_frecuencia: one write, no channel check, no local state. */
    method SetFrecuencia(frecuencia: real, canal: int) returns (r: Outcome)
      modifies this`log
      ensures connected ==> r == Pass && log == old(log) + [Set(Frequency, canal, frecuencia)]
      ensures !connected ==> r == Fail(NoAttribute) && log == old(log)
      ensures old(Safe()) ==> Safe()
    {
      ghost var before := log;
      r := Write(Set(Frequency, canal, frecuencia));
      SafeAppend(before, [Set(Frequency, canal, frecuencia)]);
    }

    /** set_amplitud: refuses anything above 0.8 V before writing; after a
        write records the amplitude of channel 1 or 2. */
    method SetAmplitud(amplitud: real, canal: int) returns (r: Outcome)
      modifies this`amp1, this`amp2, this`log
      ensures amplitud > MaxAmplitude ==>
        r == Fail(AmplitudeTooHigh) && log == old(log) && amp1 == old(amp1) && amp2 == old(amp2)
      ensures amplitud <= MaxAmplitude && !connected ==>
        r == Fail(NoAttribute) && log == old(log) && amp1 == old(amp1) && amp2 == old(amp2)
      ensures amplitud <= MaxAmplitude && connected ==>
        r == Pass && log == old(log) + [Set(Amplitude, canal, amplitud)]
        && amp1 == (if canal == 1 then amplitud else old(amp1))
        && amp2 == (if canal == 2 then amplitud else old(amp2))
      ensures old(Safe()) ==> Safe()
    {
      if amplitud > MaxAmplitude {
        return Fail(AmplitudeTooHigh);
      }
      ghost var before := log;
      r := Write(Set(Amplitude, canal, amplitud));
      SafeAppend(before, [Set(Amplitude, canal, amplitud)]);
      if r.Fail? {
        return;
      }
      if canal == 1 {
        amp1 := amplitud;
      }
      if canal == 2 {
        amp2 := amplitud;
      }
    }

    /** set_offset: one write. */
    method SetOffset(offset: real, canal: int) returns (r: Outcome)
      modifies this`log
      ensures connected ==> r == Pass && log == old(log) + [Set(Offset, canal, offset)]
      ensures !connected ==> r == Fail(NoAttribute) && log == old(log)
      ensures old(Safe()) ==> Safe()
    {
      ghost var before := log;
      r := Write(Set(Offset, canal, offset));
      SafeAppend(before, [Set(Offset, canal, offset)]);
    }

    /** enable_output / output_on: one write, then only that channel's flag is raised. */
    method EnableOutput(canal: int) returns (r: Outcome)
      modifies this`output1, this`output2, this`log
      ensures connected ==>
        r == Pass && log == old(log) + [Output(canal, true)]
        && output1 == (canal == 1 || old(output1)) && output2 == (canal == 2 || old(output2))
      ensures !connected ==>
        r == Fail(NoAttribute) && log == old(log) && output1 == old(output1) && output2 == old(output2)
      ensures old(Safe()) ==> Safe()
    {
      ghost var before := log;
      r := Write(Output(canal, true));
      SafeAppend(before, [Output(canal, true)]);
      if r.Fail? {
        return;
      }
      output1 := if canal == 1 then true else output1;
      output2 := if canal == 2 then true else output2;
    }

    /** disable_output / output_off: one write; the flags are left as they are. */
    method DisableOutput(canal: int) returns (r: Outcome)
      modifies this`log
      ensures connected ==> r == Pass && log == old(log) + [Output(canal, false)]
      ensures !connected ==> r == Fail(NoAttribute) && log == old(log)
      ensures old(Safe()) ==> Safe()
    {
      ghost var before := log;
      r := Write(Output(canal, false));
      SafeAppend(before, [Output(canal, false)]);
    }

    /** output_impedance: one write. */
    method OutputImpedance(impedancia: real, canal: int) returns (r: Outcome)
      modifies this`log
      ensures connected ==> r == Pass && log == old(log) + [Set(Impedance, canal, impedancia)]
      ensures !connected ==> r == Fail(NoAttribute) && log == old(log)
      ensures old(Safe()) ==> Safe()
    {
      ghost var before := log;
      r := Write(Set(Impedance, canal, impedancia));
      SafeAppend(before, [Set(Impedance, canal, impedancia)]);
    }

    /** get_frecuencia, get_amplitud, get_offset and get_output_impedance:
        one query for the quantity on the channel, read as a number. */
    method Get(what: Setting, canal: int) returns (r: Result<real>)
      modifies this`replies, this`log
      ensures !connected ==> r == Failure(NoAttribute) && replies == old(replies) && log == old(log)
      ensures connected ==> log == old(log) + [Ask(what, canal)]
      ensures connected && old(replies) == [] ==> r == Failure(NoReply) && replies == []
      ensures connected && old(replies) != [] ==>
        r == ReadNumber(num, old(replies)[0]) && replies == old(replies)[1..]
      ensures old(Safe()) ==> Safe()
    {
      ghost var before := log;
      var resultado := Query(Ask(what, canal));
      SafeAppend(before, [Ask(what, canal)]);
      if resultado.Failure? {
        return Failure(resultado.error);
      }
      r := ReadNumber(num, resultado.value);
    }

    /** close(): closes an open link and sets `conexion` to None; with none
        open it only prints, so a second close sends nothing. */
    method Close()
      modifies this`connected, this`log
      ensures !connected
      ensures log == old(log) + (if old(connected) then [CloseSession] else [])
      ensures old(Safe()) ==> Safe()
    {
      if connected {
        ghost var before := log;
        log := log + [CloseSession];
        SafeAppend(before, [CloseSession]);
        connected := false;
      }
    }

    /** __exit__: switches off channel 1 iff its flag is set, then channel 2
        iff its flag is set, then closes. On a closed link the first OFF
        raises and the close is not reached. The flags are not cleared. */
    method ExitContext() returns (r: Outcome)
      modifies this`connected, this`log
      ensures old(connected) ==>
        r == Pass && !connected && log == old(log) + Offs(output1, output2) + [CloseSession]
      ensures !old(connected) && (output1 || output2) ==> r == Fail(NoAttribute) && log == old(log)
      ensures !old(connected) && !output1 && !output2 ==> r == Pass && log == old(log)
      ensures !connected
      ensures old(Safe()) ==> Safe()
    {
      if output1 {
        r := DisableOutput(1);
        if r.Fail? {
          return;
        }
      }
      if output2 {
        r := DisableOutput(2);
        if r.Fail? {
          return;
        }
      }
      Close();
      r := Pass;
    }

    /** __del__: with an open link, switches off the flagged channels; then
        closes. Every error is swallowed. */
    method Finalize()
      modifies this`connected, this`log
      ensures !connected
      ensures log == old(log) + (if old(connected) then Offs(output1, output2) + [CloseSession] else [])
      ensures old(Safe()) ==> Safe()
    {
      if connected {
        if output1 {
          var _ := DisableOutput(1);
        }
        if output2 {
          var _ := DisableOutput(2);
        }
      }
      Close();
    }
  }

  /** SimulacionPulser: the pulse generator kept in memory. The module
      globals frec1/frec2, vPulser1/vPulser2 and output1/output2 are fields
      here. */
  class SimulacionPulser {
    var direccion: string
    var nCanales: int
    var modelo: Vendor
    /** `conexion` is not None. */
    var connected: bool
    var amp1: real
    var amp2: real
    var frec1: real
    var frec2: real
    var vPulser1: real
    var vPulser2: real
    var output1: bool
    var output2: bool

    /** What get_frecuencia returns for a channel: None for a channel other than 1 or 2. */
    function Frecuencia(canal: int): (f: Option<real>)
      reads this
      ensures f.Some? <==> canal == 1 || canal == 2
    {
      if canal == 1 then Some(frec1) else if canal == 2 then Some(frec2) else None
    }

    /** What get_amplitud returns for a channel: None for a channel other than 1 or 2. */
    function Amplitud(canal: int): (a: Option<real>)
      reads this
      ensures a.Some? <==> canal == 1 || canal == 2
    {
      if canal == 1 then Some(vPulser1) else if canal == 2 then Some(vPulser2) else None
    }

    /** __init__: no connection, model Simulacion, frequencies 0, amplitudes 0.25 V, outputs off. */
    constructor (direccion: string, nCanales: int)
      ensures this.direccion == direccion && this.nCanales == nCanales && !connected && modelo == Simulacion
      ensures amp1 == 0.25 && amp2 == 0.25
      ensures Frecuencia(1) == Some(0.0) && Frecuencia(2) == Some(0.0)
      ensures Amplitud(1) == Some(0.25) && Amplitud(2) == Some(0.25)
      ensures !output1 && !output2
    {
      this.direccion, this.nCanales, connected, modelo := direccion, nCanales, false, Simulacion;
      amp1, amp2 := 0.25, 0.25;
      frec1, frec2, vPulser1, vPulser2 := 0.0, 0.0, 0.25, 0.25;
      output1, output2 := false, false;
    }

    /** Identificar: always Simulacion. */
    method Identificar() returns (m: Vendor)
      modifies this`modelo
      ensures m == Simulacion && modelo == Simulacion
    {
      modelo := Simulacion;
      m := modelo;
    }

    /** connect(): sets a placeholder connection. */
    method Connect()
      modifies this`connected
      ensures connected
    {
      connected := true;
    }

    /** set_frecuencia: stores the frequency of channel 1 or 2; any other
        channel changes nothing. */
    method SetFrecuencia(frecuencia: real, canal: int)
      modifies this`frec1, this`frec2
      ensures canal == 1 || canal == 2 ==> Frecuencia(canal) == Some(frecuencia)
      ensures forall c :: c != canal ==> Frecuencia(c) == old(Frecuencia(c))
    {
      if canal == 1 {
        frec1 := frecuencia;
      }
      if canal == 2 {
        frec2 := frecuencia;
      }
    }

    /** set_amplitud: stores the amplitude of channel 1 or 2, with no ceiling;
        any other channel changes nothing. */
    method SetAmplitud(amplitud: real, canal: int)
      modifies this`vPulser1, this`vPulser2, this`amp1, this`amp2
      ensures canal == 1 || canal == 2 ==> Amplitud(canal) == Some(amplitud)
      ensures forall c :: c != canal ==> Amplitud(c) == old(Amplitud(c))
      ensures amp1 == (if canal == 1 then amplitud else old(amp1))
      ensures amp2 == (if canal == 2 then amplitud else old(amp2))
    {
      if canal == 1 {
        vPulser1 := amplitud;
        amp1 := amplitud;
      }
      if canal == 2 {
        vPulser2 := amplitud;
        amp2 := amplitud;
      }
    }

    /** enable_output: raises the flag of channel 1 or 2. */
    method EnableOutput(canal: int)
      modifies this`output1, this`output2
      ensures output1 == (canal == 1 || old(output1)) && output2 == (canal == 2 || old(output2))
    {
      if canal == 1 {
        output1 := true;
      }
      if canal == 2 {
        output2 := true;
      }
    }

    /** disable_output: lowers the flag of channel 1 or 2. */
    method DisableOutput(canal: int)
      modifies this`output1, this`output2
      ensures output1 == (canal != 1 && old(output1)) && output2 == (canal != 2 && old(output2))
    {
      if canal == 1 {
        output1 := false;
      }
      if canal == 2 {
        output2 := false;
      }
    }

    /** get_frecuencia: the stored frequency; None for another channel. */
    method GetFrecuencia(canal: int) returns (f: Option<real>)
      ensures f == Frecuencia(canal)
    {
      if canal == 1 {
        return Some(frec1);
      }
      if canal == 2 {
        return Some(frec2);
      }
      f := None;
    }

    /** get_amplitud: the stored amplitude; None for another channel. */
    method GetAmplitud(canal: int) returns (a: Option<real>)
      ensures a == Amplitud(canal)
    {
      if canal == 1 {
        return Some(vPulser1);
      }
      if canal == 2 {
        return Some(vPulser2);
      }
      a := None;
    }

    /** get_offset: the simulation keeps no offset and answers 0. */
    method GetOffset(canal: int) returns (o: real)
      ensures o == 0.0
    {
      o := 0.0;
    }

    /** get_output_impedance: the simulation answers 50 ohms. */
    method GetOutputImpedance(canal: int) returns (z: real)
      ensures z == 50.0
    {
      z := 50.0;
    }

    /** __exit__: reads the attribute output1, which the class never sets, and raises. */
    method ExitContext() returns (r: Outcome)
      ensures r == Fail(NoAttribute)
    {
      r := Fail(NoAttribute);
    }
  }

  /** The simulator's set/get round trip on channel 1 or 2, for any values,
      including an amplitude above the real generator's ceiling. */
  method SimulationRoundTrip(p: SimulacionPulser, frecuencia: real, amplitud: real, canal: int)
    returns (f: Option<real>, a: Option<real>)
    requires canal == 1 || canal == 2
    modifies p
    ensures f == Some(frecuencia) && a == Some(amplitud)
  {
    p.SetFrecuencia(frecuencia, canal);
    p.SetAmplitud(amplitud, canal);
    f := p.GetFrecuencia(canal);
    a := p.GetAmplitud(canal);
  }
}
