/** The earlier oscilloscope class, src/Osciloscopio.py: the same measurement
    surface as the Tools class without discovery or power, with a
    case-sensitive vendor check, and with Siglent paths that cannot return a
    value as written. */
module ScopeLegacy {
  import opened Instrument
  import opened Text
  import opened ScopeLink
  import ScopeTools

  /** The model Identificar stores: "Keysight" anywhere in the reply, with
      that capitalisation, wins over "Siglent"; otherwise an unset model
      becomes Desconocido and a set one is kept. */
  function LegacyVendorFromIdn(idn: string, previous: Vendor): (v: Vendor)
    ensures v != NoModel
    ensures Contains(idn, "Keysight") ==> v == Keysight
    ensures v == Keysight ==> Contains(idn, "Keysight") || previous == Keysight
    ensures v == Siglent ==> !Contains(idn, "Keysight")
    ensures v != previous ==> v in {Keysight, Siglent, Desconocido}
    ensures !Contains(idn, "Keysight") && Contains(idn, "Siglent") ==> v == Siglent
    ensures !Contains(idn, "Keysight") && !Contains(idn, "Siglent") ==>
      v == (if previous == NoModel then Desconocido else previous)
  {
    if Contains(idn, "Keysight") then Keysight
    else if Contains(idn, "Siglent") then Siglent
    else if previous == NoModel then Desconocido
    else previous
  }

  /** On a fresh object, every vendor the legacy check recognises is also
      recognised by the case-insensitive check of the Tools class. */
  lemma LegacyRecognitionKept(idn: string)
    ensures LegacyVendorFromIdn(idn, NoModel) == Keysight ==> ScopeTools.VendorFromIdn(idn, NoModel) == Keysight
    ensures LegacyVendorFromIdn(idn, NoModel) == Siglent ==>
      ScopeTools.VendorFromIdn(idn, NoModel) in {Siglent, Keysight}
  {
    assert Lower("Keysight") == "keysight";
    assert Lower("Siglent") == "siglent";
    if Contains(idn, "Keysight") {
      LowerKeepsContains(idn, "Keysight");
    }
    if Contains(idn, "Siglent") {
      LowerKeepsContains(idn, "Siglent");
    }
  }

  class Osciloscopio {
    var id: string
    var numcanales: int
    var modelo: Vendor
    /** The `conexion` attribute exists. */
    var connected: bool
    /** The replies the instrument will give, in order. */
    var replies: seq<string>
    /** Every request sent over the link, in order. */
    ghost var sent: seq<Request>
    const num: Numerics

    /** The object with the link open and the model unset, as __init__
        leaves it just before identifying. */
    constructor (id: string, numcanales: int, replies: seq<string>, num: Numerics)
      ensures this.id == id && this.numcanales == numcanales && modelo == NoModel && connected
      ensures this.replies == replies && sent == [] && this.num == num
    {
      this.id, this.numcanales, modelo, connected := id, numcanales, NoModel, true;
      this.replies, sent, this.num := replies, [], num;
    }

    /** __init__: opens the link and identifies; identification may raise. */
    static method Open(id: string, numcanales: int, replies: seq<string>, num: Numerics)
      returns (r: Result<Osciloscopio>)
      ensures replies == [] ==> r == Failure(IdentifyFailed)
      ensures |replies| == 1 ==> r == Failure(NoReply)
      ensures |replies| >= 2 <==> r.Success?
      ensures r.Success? ==>
        fresh(r.value) && r.value.id == id && r.value.numcanales == numcanales && r.value.connected
        && r.value.modelo == LegacyVendorFromIdn(replies[0], NoModel)
        && r.value.replies == replies[2..] && r.value.sent == [Identify, Identify]
    {
      var o := new Osciloscopio(id, numcanales, replies, num);
      var idn := o.Identificar();
      if idn.Failure? {
        return Failure(idn.error);
      }
      r := Success(o);
    }

    /** connect(): reopens the link and then returns an attribute the class
        never sets, so it always raises after the link is open. */
    method Connect() returns (r: Outcome)
      modifies this`connected
      ensures connected && r == Fail(NoAttribute)
    {
      connected := true;
      r := Fail(NoAttribute);
    }

    /** conexion.query(q). */
    method Query(q: Request) returns (r: Result<string>)
      modifies this`replies, this`sent
      ensures var a := Ask(connected, old(replies), q);
              r == a.result && replies == a.rest && sent == old(sent) + a.asked
    {
      if !connected {
        return Failure(NoAttribute);
      }
      sent := sent + [q];
      if replies == [] {
        return Failure(NoReply);
      }
      r := Success(replies[0]);
      replies := replies[1..];
    }

    /** Identificar: as in the Tools class, but matching "Siglent" and
        "Keysight" with their capitalisation. */
    method Identificar() returns (r: Result<string>)
      modifies this`modelo, this`replies, this`sent
      ensures !old(connected) ==>
        r == Failure(NotConnected) && modelo == old(modelo) && replies == old(replies) && sent == old(sent)
      ensures old(connected) && old(replies) == [] ==>
        r == Failure(IdentifyFailed) && modelo == old(modelo) && replies == [] && sent == old(sent) + [Identify]
      ensures old(connected) && old(replies) != [] ==>
        var second := Ask(true, old(replies)[1..], Identify);
        && modelo == LegacyVendorFromIdn(old(replies)[0], old(modelo))
        && replies == second.rest && sent == old(sent) + [Identify] + second.asked
        && r == (if second.result.Success? then Success(Strip(second.result.value, Whitespace))
                 else Failure(NoReply))
    {
      if !connected {
        return Failure(NotConnected);
      }
      var idn := Query(Identify);
      if idn.Failure? {
        return Failure(IdentifyFailed);
      }
      if Contains(idn.value, "Siglent") {
        modelo := Siglent;
      }
      if Contains(idn.value, "Keysight") {
        modelo := Keysight;
      }
      if modelo == NoModel {
        modelo := Desconocido;
      }
      var again := Query(Identify);
      if again.Failure? {
        return Failure(again.error);
      }
      r := Success(Strip(again.value, Whitespace));
    }

    /** One query and its decoding, after the caller's channel check. */
    method Measure(how: Decoding, q: Request) returns (r: Result<real>)
      modifies this`replies, this`sent
      ensures var e := Reading(num, how, true, connected, old(replies), q);
              r == e.result && replies == e.rest && sent == old(sent) + e.asked
    {
      var resultado := Query(q);
      if resultado.Failure? {
        return Failure(resultado.error);
      }
      r := Decode(num, how, resultado.value);
    }

    /** MedirVpp_Keysight: channel check, then one query read as a plain number. */
    method MedirVppKeysight(chan: int) returns (r: Result<real>)
      modifies this`replies, this`sent
      ensures var e := Reading(num, Plain, ChannelOk(numcanales, chan), connected, old(replies),
                               MeasureVpp(KeysightCommands, chan));
              r == e.result && replies == e.rest && sent == old(sent) + e.asked
    {
      if chan < 1 || chan > numcanales {
        return Failure(InvalidChannel);
      }
      r := Measure(Plain, MeasureVpp(KeysightCommands, chan));
    }

    /** MedirVpp_Siglent: channel check, one query, the field parsed, then
        .strip() called on the float, which always raises. */
    method MedirVppSiglent(chan: int) returns (r: Result<real>)
      modifies this`replies, this`sent
      ensures var e := Reading(num, FieldThenStrip(VoltChars), ChannelOk(numcanales, chan), connected,
                               old(replies), MeasureVpp(SiglentCommands, chan));
              r == e.result && replies == e.rest && sent == old(sent) + e.asked
      ensures r.Failure?
    {
      if chan < 1 || chan > numcanales {
        return Failure(InvalidChannel);
      }
      r := Measure(FieldThenStrip(VoltChars), MeasureVpp(SiglentCommands, chan));
    }

    /** MedirVpp: dispatches on the stored model. */
    method MedirVpp(chan: int) returns (r: Result<real>)
      modifies this`replies, this`sent
      ensures var e := Reading(num, if modelo == Siglent then FieldThenStrip(VoltChars) else Plain,
                               ChannelOk(numcanales, chan), connected, old(replies),
                               MeasureVpp(ScopeTools.DialectOf(modelo), chan));
              r == e.result && replies == e.rest && sent == old(sent) + e.asked
      ensures modelo == Siglent ==> r.Failure?
    {
      if modelo == Siglent {
        r := MedirVppSiglent(chan);
      } else {
        r := MedirVppKeysight(chan);
      }
    }

    /** MedirFase_Keysight: both channels checked, then one query. */
    method MedirFaseKeysight(chan1: int, chan2: int) returns (r: Result<real>)
      modifies this`replies, this`sent
      ensures var e := Reading(num, Plain, ChannelOk(numcanales, chan1) && ChannelOk(numcanales, chan2),
                               connected, old(replies), MeasurePhase(KeysightCommands, chan1, chan2));
              r == e.result && replies == e.rest && sent == old(sent) + e.asked
    {
      if chan1 < 1 || chan1 > numcanales || chan2 < 1 || chan2 > numcanales {
        return Failure(InvalidChannel);
      }
      r := Measure(Plain, MeasurePhase(KeysightCommands, chan1, chan2));
    }

    /** MedirFase_Siglent: after the channel check the loop reads its
        counter before the method ever assigns it, so it raises
        UnboundLocalError without sending anything. */
    method MedirFaseSiglent(chan1: int, chan2: int) returns (r: Result<real>)
      modifies this`replies, this`sent
      ensures !(ChannelOk(numcanales, chan1) && ChannelOk(numcanales, chan2)) ==> r == Failure(InvalidChannel)
      ensures ChannelOk(numcanales, chan1) && ChannelOk(numcanales, chan2) ==> r == Failure(UnboundLocal)
      ensures replies == old(replies) && sent == old(sent)
    {
      if chan1 < 1 || chan1 > numcanales || chan2 < 1 || chan2 > numcanales {
        return Failure(InvalidChannel);
      }
      r := Failure(UnboundLocal);
    }

    /** MedirFase: dispatches on the stored model. */
    method MedirFase(chan1: int, chan2: int) returns (r: Result<real>)
      modifies this`replies, this`sent
      ensures modelo == Siglent ==>
        r == Failure(if ChannelOk(numcanales, chan1) && ChannelOk(numcanales, chan2) then UnboundLocal
                     else InvalidChannel)
        && replies == old(replies) && sent == old(sent)
      ensures modelo != Siglent ==>
        var e := Reading(num, Plain, ChannelOk(numcanales, chan1) && ChannelOk(numcanales, chan2),
                         connected, old(replies), MeasurePhase(KeysightCommands, chan1, chan2));
        r == e.result && replies == e.rest && sent == old(sent) + e.asked
    {
      if modelo == Siglent {
        r := MedirFaseSiglent(chan1, chan2);
      } else {
        r := MedirFaseKeysight(chan1, chan2);
      }
    }

    /** MedirFrecuencia_Keysight: channel check, then one query. */
    method MedirFrecuenciaKeysight(chan: int) returns (r: Result<real>)
      modifies this`replies, this`sent
      ensures var e := Reading(num, Plain, ChannelOk(numcanales, chan), connected, old(replies),
                               MeasureFrequency(chan));
              r == e.result && replies == e.rest && sent == old(sent) + e.asked
    {
      if chan < 1 || chan > numcanales {
        return Failure(InvalidChannel);
      }
      r := Measure(Plain, MeasureFrequency(chan));
    }

    /** MedirVrms_Keysight: channel check, then one query. */
    method MedirVrmsKeysight(chan: int) returns (r: Result<real>)
      modifies this`replies, this`sent
      ensures var e := Reading(num, Plain, ChannelOk(numcanales, chan), connected, old(replies),
                               MeasureVrms(KeysightCommands, chan));
              r == e.result && replies == e.rest && sent == old(sent) + e.asked
    {
      if chan < 1 || chan > numcanales {
        return Failure(InvalidChannel);
      }
      r := Measure(Plain, MeasureVrms(KeysightCommands, chan));
    }

    /** MedirVrms_Siglent: like MedirVpp_Siglent, ends by calling .strip() on
        a float and so never returns a value. */
    method MedirVrmsSiglent(chan: int) returns (r: Result<real>)
      modifies this`replies, this`sent
      ensures var e := Reading(num, FieldThenStrip(VoltChars), ChannelOk(numcanales, chan), connected,
                               old(replies), MeasureVrms(SiglentCommands, chan));
              r == e.result && replies == e.rest && sent == old(sent) + e.asked
      ensures r.Failure?
    {
      if chan < 1 || chan > numcanales {
        return Failure(InvalidChannel);
      }
      r := Measure(FieldThenStrip(VoltChars), MeasureVrms(SiglentCommands, chan));
    }

    /** MedirVrms: dispatches on the stored model. */
    method MedirVrms(chan: int) returns (r: Result<real>)
      modifies this`replies, this`sent
      ensures var e := Reading(num, if modelo == Siglent then FieldThenStrip(VoltChars) else Plain,
                               ChannelOk(numcanales, chan), connected, old(replies),
                               MeasureVrms(ScopeTools.DialectOf(modelo), chan));
              r == e.result && replies == e.rest && sent == old(sent) + e.asked
      ensures modelo == Siglent ==> r.Failure?
    {
      if modelo == Siglent {
        r := MedirVrmsSiglent(chan);
      } else {
        r := MedirVrmsKeysight(chan);
      }
    }

    /** close(): closes and deletes an open connection; with none open it raises. */
    method Close() returns (r: Outcome)
      modifies this`connected, this`sent
      ensures !connected
      ensures old(connected) ==> r == Pass && sent == old(sent) + [CloseSession]
      ensures !old(connected) ==> r == Fail(NotConnected) && sent == old(sent)
    {
      if connected {
        sent := sent + [CloseSession];
        connected := false;
        r := Pass;
      } else {
        r := Fail(NotConnected);
      }
    }

    /** __del__: closes when a connection is open and swallows the error otherwise. */
    method Finalize()
      modifies this`connected, this`sent
      ensures !connected
      ensures sent == old(sent) + (if old(connected) then [CloseSession] else [])
    {
      var _ := Close();
    }
  }
}
