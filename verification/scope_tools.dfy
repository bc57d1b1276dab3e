/** The oscilloscope facade of src/Tools/Osciloscopio.py: discovery of a known
    scope among the connected devices, identification of its vendor, the
    per-vendor measurements with their channel checks, the Siglent phase
    retry loop, and the derived power reading. */
module ScopeTools {
  import opened Instrument
  import opened Text
  import opened ScopeLink

  /** One entry of the "osciloscopios" table of the equipment file, in file order. */
  datatype KnownScope = KnownScope(name: string, aliases: seq<string>, numCanales: int)

  /** A phase reading that arrives after this many '****' replies is refused. */
  const RetryBudget: nat := 20

  /** The calibration divisor of the current-sense path. */
  const ShuntFactor: real := 0.2

  /** What MedirPotenciaCompleta returns: (P, V, I, fase). */
  datatype PowerSample = PowerSample(power: real, voltage: real, current: real, phase: real)

  // ---------------------------------------------------------------------------
  // Discovery

  /** The first entry of the table whose aliases hold `dev`, if any. */
  function EntryFor(dev: string, known: seq<KnownScope>): (j: Option<nat>)
    ensures j.Some? ==>
      j.value < |known| && dev in known[j.value].aliases
      && forall k :: 0 <= k < j.value ==> dev !in known[k].aliases
    ensures j.None? ==> forall k :: 0 <= k < |known| ==> dev !in known[k].aliases
  {
    if known == [] then None
    else if dev in known[0].aliases then Some(0)
    else
      match EntryFor(dev, known[1..])
      case None => None
      case Some(k) => Some(k + 1)
  }

  /** The first connected device, in list order, that some table entry knows,
      paired with the first such entry. */
  function FirstKnown(devices: seq<string>, known: seq<KnownScope>): (m: Option<(nat, nat)>)
    ensures m.Some? ==>
      m.value.0 < |devices| && EntryFor(devices[m.value.0], known) == Some(m.value.1)
      && forall i :: 0 <= i < m.value.0 ==> EntryFor(devices[i], known).None?
    ensures m.None? ==> forall i :: 0 <= i < |devices| ==> EntryFor(devices[i], known).None?
  {
    if devices == [] then None
    else
      match EntryFor(devices[0], known)
      case Some(j) => Some((0, j))
      case None =>
        match FirstKnown(devices[1..], known)
        case None => None
        case Some(m) => Some((m.0 + 1, m.1))
  }

  // ---------------------------------------------------------------------------
  // Identification

  /** The model Identificar stores for an IDN reply, given the model already
      stored: "keysight" anywhere in the lower-cased reply wins, then
      "siglent"; otherwise an unset model becomes Desconocido and a set one
      is kept. */
  function VendorFromIdn(idn: string, previous: Vendor): (v: Vendor)
    ensures v != NoModel
    ensures Contains(Lower(idn), "keysight") ==> v == Keysight
    ensures v == Keysight ==> Contains(Lower(idn), "keysight") || previous == Keysight
    ensures v == Siglent ==> !Contains(Lower(idn), "keysight")
    ensures v != previous ==> v in {Keysight, Siglent, Desconocido}
    ensures !Contains(Lower(idn), "keysight") && Contains(Lower(idn), "siglent") ==> v == Siglent
    ensures !Contains(Lower(idn), "keysight") && !Contains(Lower(idn), "siglent") ==>
      v == (if previous == NoModel then Desconocido else previous)
  {
    var low := Lower(idn);
    if Contains(low, "keysight") then Keysight
    else if Contains(low, "siglent") then Siglent
    else if previous == NoModel then Desconocido
    else previous
  }

  // ---------------------------------------------------------------------------
  // The Siglent phase loop

  /** The reply's phase field reads '****'; such a reply has exactly one comma. */
  predicate IsSentinel(reply: string)
    ensures IsSentinel(reply) ==> CountChar(reply, ',') == 1
  {
    SiglentField(reply, PhaseChars) == Success(Sentinel)
  }

  /** How many replies at the front of the stream are '****'. */
  function LeadingSentinels(replies: seq<string>): (n: nat)
    ensures n <= |replies|
    ensures forall k :: 0 <= k < n ==> IsSentinel(replies[k])
    ensures n < |replies| ==> !IsSentinel(replies[n])
  {
    if replies != [] && IsSentinel(replies[0]) then 1 + LeadingSentinels(replies[1..]) else 0
  }

  function Repeat(q: Request, n: nat): (qs: seq<Request>)
    ensures |qs| == n && forall k :: 0 <= k < n ==> qs[k] == q
  {
    seq(n, _ => q)
  }

  /** What the loop makes of the first reply that is not '****', once
      `sentinels` of them came before it. */
  function PhaseVerdict(num: Numerics, reply: string, sentinels: nat): (r: Result<real>)
    ensures CountChar(reply, ',') != 1 ==> r == Failure(BadFieldCount)
    ensures CountChar(reply, ',') == 1 && sentinels >= RetryBudget ==> r == Failure(PhaseNotMeasured)
    ensures r.Success? ==> sentinels < RetryBudget && CountChar(reply, ',') == 1
  {
    match SiglentField(reply, PhaseChars)
    case Failure(e) => Failure(e)
    case Success(v) =>
      if sentinels >= RetryBudget then Failure(PhaseNotMeasured)
      else ToFloat(num, Strip(v, Whitespace))
  }

  /** MedirFase_Siglent as a function of the link: after the channel check it
      sends the phase query once per leading '****' reply and once more, and
      the reply after the '****' run decides. */
  function SiglentPhase(num: Numerics, numcanales: int, chan1: int, chan2: int,
                        connected: bool, replies: seq<string>): (e: Exchange<real>)
    ensures !(ChannelOk(numcanales, chan1) && ChannelOk(numcanales, chan2)) ==>
      e == Exchange(Failure(InvalidChannel), replies, [])
    ensures e.asked != [] ==>
      |e.asked| == LeadingSentinels(replies) + 1
      && forall k :: 0 <= k < |e.asked| ==> e.asked[k] == MeasurePhase(SiglentCommands, chan1, chan2)
    ensures e.result.Success? ==>
      connected && LeadingSentinels(replies) < RetryBudget && LeadingSentinels(replies) < |replies|
  {
    if !(ChannelOk(numcanales, chan1) && ChannelOk(numcanales, chan2)) then
      Exchange(Failure(InvalidChannel), replies, [])
    else if !connected then
      Exchange(Failure(NoAttribute), replies, [])
    else
      var n := LeadingSentinels(replies);
      var q := MeasurePhase(SiglentCommands, chan1, chan2);
      if n == |replies| then Exchange(Failure(NoReply), [], Repeat(q, n + 1))
      else Exchange(PhaseVerdict(num, replies[n], n), replies[n + 1..], Repeat(q, n + 1))
  }

  /** A run of '****' replies followed by one that is not is counted exactly. */
  lemma {:induction false} SentinelRun(pre: seq<string>, g: string, rest: seq<string>)
    requires forall k :: 0 <= k < |pre| ==> IsSentinel(pre[k])
    requires !IsSentinel(g)
    ensures LeadingSentinels(pre + [g] + rest) == |pre|
  {
    var s := pre + [g] + rest;
    assert s[|pre|] == g;
    assert forall k :: 0 <= k < |pre| ==> s[k] == pre[k];
  }

  /** Where the '****' run of the stream ends, SiglentPhase is decided: by
      the end of the stream, or by the verdict on the reply found there. */
  lemma SiglentPhaseAt(num: Numerics, numcanales: int, chan1: int, chan2: int,
                       replies: seq<string>, i: nat)
    requires ChannelOk(numcanales, chan1) && ChannelOk(numcanales, chan2)
    requires i <= |replies| && forall k :: 0 <= k < i ==> IsSentinel(replies[k])
    requires i < |replies| ==> !IsSentinel(replies[i])
    ensures var e := SiglentPhase(num, numcanales, chan1, chan2, true, replies);
            var q := MeasurePhase(SiglentCommands, chan1, chan2);
            && e.asked == Repeat(q, i + 1)
            && (i == |replies| ==> e.result == Failure(NoReply) && e.rest == [])
            && (i < |replies| ==> e.result == PhaseVerdict(num, replies[i], i) && e.rest == replies[i + 1..])
  {
  }

  /** The retry rule: after N '****' replies, a well-formed phase reply is
      returned when N < 20 and refused with PhaseNotMeasured when N >= 20;
      N + 1 queries are sent and exactly the replies read are consumed. */
  lemma PhaseRetryRule(num: Numerics, numcanales: int, chan1: int, chan2: int,
                       pre: seq<string>, g: string, rest: seq<string>)
    requires ChannelOk(numcanales, chan1) && ChannelOk(numcanales, chan2)
    requires forall k :: 0 <= k < |pre| ==> IsSentinel(pre[k])
    requires SiglentField(g, PhaseChars).Success? && !IsSentinel(g)
    ensures var e := SiglentPhase(num, numcanales, chan1, chan2, true, pre + [g] + rest);
            e.rest == rest && |e.asked| == |pre| + 1
            && (|pre| >= RetryBudget ==> e.result == Failure(PhaseNotMeasured))
            && (|pre| < RetryBudget ==>
                  e.result == ToFloat(num, Strip(SiglentField(g, PhaseChars).value, Whitespace)))
  {
    SentinelRun(pre, g, rest);
    assert (pre + [g] + rest)[|pre|] == g;
    assert (pre + [g] + rest)[|pre| + 1..] == rest;
  }

  /** A stream that only ever answers '****' is read to the end: the loop
      keeps querying and gives up only when the instrument stops answering. */
  lemma SentinelsOnly(num: Numerics, numcanales: int, chan1: int, chan2: int, replies: seq<string>)
    requires ChannelOk(numcanales, chan1) && ChannelOk(numcanales, chan2)
    requires forall k :: 0 <= k < |replies| ==> IsSentinel(replies[k])
    ensures var e := SiglentPhase(num, numcanales, chan1, chan2, true, replies);
            e.result == Failure(NoReply) && e.rest == [] && |e.asked| == |replies| + 1
  {
  }

  // ---------------------------------------------------------------------------
  // Dispatch and power

  function DialectOf(modelo: Vendor): Dialect {
    if modelo == Siglent then SiglentCommands else KeysightCommands
  }

  /** MedirVrms: the Siglent reading iff the model is Siglent, the Keysight one otherwise. */
  function VrmsReading(num: Numerics, modelo: Vendor, numcanales: int, chan: int,
                       connected: bool, replies: seq<string>): (e: Exchange<real>)
    ensures e.result.Success? ==>
      replies != [] && e.rest == replies[1..] && e.asked == [MeasureVrms(DialectOf(modelo), chan)]
  {
    if modelo == Siglent then
      Reading(num, Field(VoltChars), ChannelOk(numcanales, chan), connected, replies,
              MeasureVrms(SiglentCommands, chan))
    else
      Reading(num, Plain, ChannelOk(numcanales, chan), connected, replies,
              MeasureVrms(KeysightCommands, chan))
  }

  /** MedirFase: the Siglent retry loop iff the model is Siglent, the Keysight query otherwise. */
  function PhaseReading(num: Numerics, modelo: Vendor, numcanales: int, chan1: int, chan2: int,
                        connected: bool, replies: seq<string>): (e: Exchange<real>)
    ensures e.result.Success? ==>
      replies != [] && e.asked != [] && e.asked[0] == MeasurePhase(DialectOf(modelo), chan1, chan2)
  {
    if modelo == Siglent then SiglentPhase(num, numcanales, chan1, chan2, connected, replies)
    else
      Reading(num, Plain, ChannelOk(numcanales, chan1) && ChannelOk(numcanales, chan2),
              connected, replies, MeasurePhase(KeysightCommands, chan1, chan2))
  }

  predicate PowerChannelsOk(numcanales: int, chanV: int, chanI: int) {
    ChannelOk(numcanales, chanV) && ChannelOk(numcanales, chanI) && chanV != chanI
  }

  /** The power formula of MedirPotenciaCompleta: V*I/0.2 times the cosine of
      the phase in degrees. */
  function PowerOf(num: Numerics, v: real, i: real, fase: real): (p: real)
    ensures p * ShuntFactor == v * i * num.cosDegrees(fase)
    ensures v == 0.0 || i == 0.0 || num.cosDegrees(fase) == 0.0 ==> p == 0.0
  {
    v * i / ShuntFactor * num.cosDegrees(fase)
  }

  /** MedirPotenciaCompleta as a function of the link: V on chanV, then I on
      chanI, then the phase between them, the first failure propagating. */
  function PowerReading(num: Numerics, modelo: Vendor, numcanales: int, chanV: int, chanI: int,
                        connected: bool, replies: seq<string>): (e: Exchange<PowerSample>)
    ensures !PowerChannelsOk(numcanales, chanV, chanI) ==>
      e == Exchange(Failure(InvalidChannel), replies, [])
  {
    if !PowerChannelsOk(numcanales, chanV, chanI) then Exchange(Failure(InvalidChannel), replies, [])
    else
      var v := VrmsReading(num, modelo, numcanales, chanV, connected, replies);
      if v.result.Failure? then Exchange(Failure(v.result.error), v.rest, v.asked)
      else
        var i := VrmsReading(num, modelo, numcanales, chanI, connected, v.rest);
        if i.result.Failure? then Exchange(Failure(i.result.error), i.rest, v.asked + i.asked)
        else
          var p := PhaseReading(num, modelo, numcanales, chanV, chanI, connected, i.rest);
          if p.result.Failure? then Exchange(Failure(p.result.error), p.rest, v.asked + i.asked + p.asked)
          else
            var V, I, fase := v.result.value, i.result.value, p.result.value;
            Exchange(Success(PowerSample(PowerOf(num, V, I, fase), V, I, fase)),
                     p.rest, v.asked + i.asked + p.asked)
  }

  /** A power sample is made of a successful V reading on chanV, then an I
      reading on chanI, then a phase reading between them, in that order on
      the link, and its power is V*I/0.2*cos(fase); the two channels differ. */
  lemma PowerSampleParts(num: Numerics, modelo: Vendor, numcanales: int, chanV: int, chanI: int,
                         connected: bool, replies: seq<string>)
    requires PowerReading(num, modelo, numcanales, chanV, chanI, connected, replies).result.Success?
    ensures var e := PowerReading(num, modelo, numcanales, chanV, chanI, connected, replies);
            var s := e.result.value;
            var v := VrmsReading(num, modelo, numcanales, chanV, connected, replies);
            var i := VrmsReading(num, modelo, numcanales, chanI, connected, v.rest);
            var p := PhaseReading(num, modelo, numcanales, chanV, chanI, connected, i.rest);
            && chanV != chanI
            && s.power == PowerOf(num, s.voltage, s.current, s.phase)
            && v.result == Success(s.voltage) && i.result == Success(s.current)
            && p.result == Success(s.phase) && e.rest == p.rest
            && |replies| >= 3 && |e.asked| >= 3
            && e.asked[0] == MeasureVrms(DialectOf(modelo), chanV)
            && e.asked[1] == MeasureVrms(DialectOf(modelo), chanI)
            && e.asked[2] == MeasurePhase(DialectOf(modelo), chanV, chanI)
  {
  }

  /** The converse of PowerSampleParts, and how a failure propagates: with
      valid channels, the V reading on chanV comes first, the I reading on
      chanI only after V succeeded, and the phase reading only after both;
      the first failing reading's error is the result and no later query is
      sent; when all three succeed the sample is (V*I/0.2*cos(fase), V, I, fase). */
  lemma PowerReadingCases(num: Numerics, modelo: Vendor, numcanales: int, chanV: int, chanI: int,
                          connected: bool, replies: seq<string>)
    requires PowerChannelsOk(numcanales, chanV, chanI)
    ensures var e := PowerReading(num, modelo, numcanales, chanV, chanI, connected, replies);
            var v := VrmsReading(num, modelo, numcanales, chanV, connected, replies);
            var i := VrmsReading(num, modelo, numcanales, chanI, connected, v.rest);
            var p := PhaseReading(num, modelo, numcanales, chanV, chanI, connected, i.rest);
            && (v.result.Failure? ==>
                  e.result == Failure(v.result.error) && e.rest == v.rest && e.asked == v.asked)
            && (v.result.Success? && i.result.Failure? ==>
                  e.result == Failure(i.result.error) && e.rest == i.rest && e.asked == v.asked + i.asked)
            && (v.result.Success? && i.result.Success? && p.result.Failure? ==>
                  e.result == Failure(p.result.error) && e.rest == p.rest
                  && e.asked == v.asked + i.asked + p.asked)
            && (v.result.Success? && i.result.Success? && p.result.Success? ==>
                  var V, I, fase := v.result.value, i.result.value, p.result.value;
                  e.result == Success(PowerSample(PowerOf(num, V, I, fase), V, I, fase))
                  && e.rest == p.rest && e.asked == v.asked + i.asked + p.asked)
  {
  }

  // ---------------------------------------------------------------------------
  // The instrument object

  class Osciloscopio {
    var id: string
    var numcanales: int
    var modelo: Vendor
    /** The `conexion` attribute exists. */
    var connected: bool
    /** The replies the instrument will give, in order. */
    var replies: seq<string>
    /** Every request sent over the link, in order. */
    ghost var sent: seq<Request>
    const num: Numerics

    /** The object before __init__ fills it in. */
    constructor (replies: seq<string>, num: Numerics)
      ensures id == "" && numcanales == 0 && modelo == NoModel && !connected
      ensures this.replies == replies && sent == [] && this.num == num
    {
      id, numcanales, modelo, connected := "", 0, NoModel, false;
      this.replies, sent, this.num := replies, [], num;
    }

    /** __init__: an empty id means auto-discovery, then the link is opened and
        the scope identified; either step may raise. */
    static method Open(id: string, numcanales: int, devices: seq<string>, known: seq<KnownScope>,
                       replies: seq<string>, num: Numerics) returns (r: Result<Osciloscopio>)
      ensures id == "" && FirstKnown(devices, known).None? ==> r == Failure(NoKnownScope)
      ensures (id != "" || FirstKnown(devices, known).Some?) && |replies| >= 2 ==> r.Success?
      ensures (id != "" || FirstKnown(devices, known).Some?) && replies == [] ==> r == Failure(IdentifyFailed)
      ensures (id != "" || FirstKnown(devices, known).Some?) && |replies| == 1 ==> r == Failure(NoReply)
      ensures r.Success? ==> fresh(r.value) && r.value.connected && r.value.num == num
      ensures r.Success? && id != "" ==> r.value.id == id && r.value.numcanales == numcanales
      ensures r.Success? && id == "" ==>
        FirstKnown(devices, known).Some?
        && r.value.id == devices[FirstKnown(devices, known).value.0]
        && r.value.numcanales == known[FirstKnown(devices, known).value.1].numCanales
      ensures r.Success? ==>
        |replies| >= 2 && r.value.modelo == VendorFromIdn(replies[0], NoModel)
        && r.value.replies == replies[2..] && r.value.sent == [Identify, Identify]
    {
      var o := new Osciloscopio(replies, num);
      if id == "" {
        var found := o.AutoConnect(devices, known);
        if found.Fail? {
          return Failure(found.error);
        }
      } else {
        o.id, o.numcanales := id, numcanales;
      }
      o.Connect();
      var idn := o.Identificar();
      if idn.Failure? {
        return Failure(idn.error);
      }
      r := Success(o);
    }

    /** connect(): opens the resource. */
    method Connect()
      modifies this`connected
      ensures connected
    {
      connected := true;
    }

    /** conexion.query(q). */
    method Query(q: Request) returns (r: Result<string>)
      modifies this`replies, this`sent
      ensures var a := Ask(connected, old(replies), q);
              r == a.result && replies == a.rest && sent == old(sent) + a.asked
    {
      if !connected {
        return Failure(NoAttribute);
      }
      sent := sent + [q];
      if replies == [] {
        return Failure(NoReply);
      }
      r := Success(replies[0]);
      replies := replies[1..];
    }

    /** AutoConnect: scans the connected devices in order and, for each, the
        table in order; the first device some entry lists among its aliases
        sets `id` and takes that entry's channel count. */
    method AutoConnect(devices: seq<string>, known: seq<KnownScope>) returns (r: Outcome)
      modifies this`id, this`numcanales
      ensures FirstKnown(devices, known).None? ==>
        r == Fail(NoKnownScope) && id == old(id) && numcanales == old(numcanales)
      ensures FirstKnown(devices, known).Some? ==>
        r == Pass && id == devices[FirstKnown(devices, known).value.0]
        && numcanales == known[FirstKnown(devices, known).value.1].numCanales
    {
      var i := 0;
      while i < |devices|
        invariant 0 <= i <= |devices|
        invariant forall i' :: 0 <= i' < i ==> EntryFor(devices[i'], known).None?
        invariant id == old(id) && numcanales == old(numcanales)
      {
        var j := 0;
        while j < |known|
          invariant 0 <= j <= |known|
          invariant forall k :: 0 <= k < j ==> devices[i] !in known[k].aliases
          invariant id == old(id) && numcanales == old(numcanales)
        {
          if devices[i] in known[j].aliases {
            assert EntryFor(devices[i], known) == Some(j);
            assert FirstKnown(devices, known) == Some((i, j));
            id := devices[i];
            numcanales := known[j].numCanales;
            return Pass;
          }
          j := j + 1;
        }
        i := i + 1;
      }
      r := Fail(NoKnownScope);
    }

    /** Identificar: raises NotConnected without a connection; asks for the
        IDN (a failure there becomes IdentifyFailed), sets the model from it,
        then asks again and returns the second reply stripped. */
    method Identificar() returns (r: Result<string>)
      modifies this`modelo, this`replies, this`sent
      ensures !old(connected) ==>
        r == Failure(NotConnected) && modelo == old(modelo) && replies == old(replies) && sent == old(sent)
      ensures old(connected) && old(replies) == [] ==>
        r == Failure(IdentifyFailed) && modelo == old(modelo) && replies == [] && sent == old(sent) + [Identify]
      ensures old(connected) && old(replies) != [] ==>
        var second := Ask(true, old(replies)[1..], Identify);
        && modelo == VendorFromIdn(old(replies)[0], old(modelo))
        && replies == second.rest && sent == old(sent) + [Identify] + second.asked
        && r == (if second.result.Success? then Success(Strip(second.result.value, Whitespace))
                 else Failure(NoReply))
    {
      if !connected {
        return Failure(NotConnected);
      }
      var idn := Query(Identify);
      if idn.Failure? {
        return Failure(IdentifyFailed);
      }
      var low := Lower(idn.value);
      if Contains(low, "siglent") {
        modelo := Siglent;
      }
      if Contains(low, "keysight") {
        modelo := Keysight;
      }
      if modelo == NoModel {
        modelo := Desconocido;
      }
      var again := Query(Identify);
      if again.Failure? {
        return Failure(again.error);
      }
      r := Success(Strip(again.value, Whitespace));
    }

    /** One query and its decoding, after the caller's channel check. */
    method Measure(how: Decoding, q: Request) returns (r: Result<real>)
      modifies this`replies, this`sent
      ensures var e := Reading(num, how, true, connected, old(replies), q);
              r == e.result && replies == e.rest && sent == old(sent) + e.asked
    {
      var resultado := Query(q);
      if resultado.Failure? {
        return Failure(resultado.error);
      }
      r := Decode(num, how, resultado.value);
    }

    /** MedirVpp_Keysight: channel check, then one query read as a plain number. */
    method MedirVppKeysight(chan: int) returns (r: Result<real>)
      modifies this`replies, this`sent
      ensures var e := Reading(num, Plain, ChannelOk(numcanales, chan), connected, old(replies),
                               MeasureVpp(KeysightCommands, chan));
              r == e.result && replies == e.rest && sent == old(sent) + e.asked
    {
      if chan < 1 || chan > numcanales {
        return Failure(InvalidChannel);
      }
      r := Measure(Plain, MeasureVpp(KeysightCommands, chan));
    }

    /** MedirVpp_Siglent: channel check, one query, the field parsed, and then
        .strip() called on the parsed float, which always raises. */
    method MedirVppSiglent(chan: int) returns (r: Result<real>)
      modifies this`replies, this`sent
      ensures var e := Reading(num, FieldThenStrip(VoltChars), ChannelOk(numcanales, chan), connected,
                               old(replies), MeasureVpp(SiglentCommands, chan));
              r == e.result && replies == e.rest && sent == old(sent) + e.asked
      ensures r.Failure?
    {
      if chan < 1 || chan > numcanales {
        return Failure(InvalidChannel);
      }
      r := Measure(FieldThenStrip(VoltChars), MeasureVpp(SiglentCommands, chan));
    }

    /** MedirFase_Keysight: both channels checked, then one query. Equal
        channels are not rejected. */
    method MedirFaseKeysight(chan1: int, chan2: int) returns (r: Result<real>)
      modifies this`replies, this`sent
      ensures var e := Reading(num, Plain, ChannelOk(numcanales, chan1) && ChannelOk(numcanales, chan2),
                               connected, old(replies), MeasurePhase(KeysightCommands, chan1, chan2));
              r == e.result && replies == e.rest && sent == old(sent) + e.asked
    {
      if chan1 < 1 || chan1 > numcanales || chan2 < 1 || chan2 > numcanales {
        return Failure(InvalidChannel);
      }
      r := Measure(Plain, MeasurePhase(KeysightCommands, chan1, chan2));
    }

    /** MedirFase_Siglent: both channels checked, then the query is repeated
        while the reply is '****', counting the repeats; the first other reply
        is refused if 20 or more '****' came before it. */
    method MedirFaseSiglent(chan1: int, chan2: int) returns (r: Result<real>)
      modifies this`replies, this`sent
      ensures var e := SiglentPhase(num, numcanales, chan1, chan2, connected, old(replies));
              r == e.result && replies == e.rest && sent == old(sent) + e.asked
    {
      var mok := 0;
      var i: nat := 0;
      if chan1 < 1 || chan1 > numcanales || chan2 < 1 || chan2 > numcanales {
        return Failure(InvalidChannel);
      }
      ghost var r0, s0 := replies, sent;
      var q := MeasurePhase(SiglentCommands, chan1, chan2);
      var resultado: string := "";
      while mok == 0
        invariant mok == 0 || mok == 1
        invariant i <= |r0|
        invariant forall k :: 0 <= k < i ==> IsSentinel(r0[k])
        invariant i > 0 ==> connected
        invariant mok == 0 ==> replies == r0[i..] && sent == s0 + Repeat(q, i)
        invariant mok == 1 ==>
          connected && i < |r0| && !IsSentinel(r0[i])
          && PhaseVerdict(num, r0[i], i) == ToFloat(num, Strip(resultado, Whitespace))
          && replies == r0[i + 1..] && sent == s0 + Repeat(q, i + 1)
        decreases |replies|
      {
        var val := Query(q);
        assert Repeat(q, i) + [q] == Repeat(q, i + 1);
        if val.Failure? {
          if connected {
            SiglentPhaseAt(num, numcanales, chan1, chan2, r0, i);
          }
          return Failure(val.error);
        }
        assert val.value == r0[i];
        var field := SiglentField(val.value, PhaseChars);
        if field.Failure? {
          SiglentPhaseAt(num, numcanales, chan1, chan2, r0, i);
          return Failure(field.error);
        }
        resultado := field.value;
        if resultado == Sentinel {
          i := i + 1;
        } else {
          if i >= RetryBudget {
            SiglentPhaseAt(num, numcanales, chan1, chan2, r0, i);
            return Failure(PhaseNotMeasured);
          } else {
            mok := 1;
          }
        }
      }
      SiglentPhaseAt(num, numcanales, chan1, chan2, r0, i);
      r := ToFloat(num, Strip(resultado, Whitespace));
    }

    /** MedirFase: dispatches on the stored model. */
    method MedirFase(chan1: int, chan2: int) returns (r: Result<real>)
      modifies this`replies, this`sent
      ensures var e := PhaseReading(num, modelo, numcanales, chan1, chan2, connected, old(replies));
              r == e.result && replies == e.rest && sent == old(sent) + e.asked
    {
      if modelo == Siglent {
        r := MedirFaseSiglent(chan1, chan2);
      } else {
        r := MedirFaseKeysight(chan1, chan2);
      }
    }

    /** MedirFrecuencia_Keysight: channel check, then one query. */
    method MedirFrecuenciaKeysight(chan: int) returns (r: Result<real>)
      modifies this`replies, this`sent
      ensures var e := Reading(num, Plain, ChannelOk(numcanales, chan), connected, old(replies),
                               MeasureFrequency(chan));
              r == e.result && replies == e.rest && sent == old(sent) + e.asked
    {
      if chan < 1 || chan > numcanales {
        return Failure(InvalidChannel);
      }
      r := Measure(Plain, MeasureFrequency(chan));
    }

    /** MedirVrms_Keysight: channel check, then one query. */
    method MedirVrmsKeysight(chan: int) returns (r: Result<real>)
      modifies this`replies, this`sent
      ensures var e := Reading(num, Plain, ChannelOk(numcanales, chan), connected, old(replies),
                               MeasureVrms(KeysightCommands, chan));
              r == e.result && replies == e.rest && sent == old(sent) + e.asked
    {
      if chan < 1 || chan > numcanales {
        return Failure(InvalidChannel);
      }
      r := Measure(Plain, MeasureVrms(KeysightCommands, chan));
    }

    /** MedirVrms_Siglent: channel check, one query, the second field parsed. */
    method MedirVrmsSiglent(chan: int) returns (r: Result<real>)
      modifies this`replies, this`sent
      ensures var e := Reading(num, Field(VoltChars), ChannelOk(numcanales, chan), connected,
                               old(replies), MeasureVrms(SiglentCommands, chan));
              r == e.result && replies == e.rest && sent == old(sent) + e.asked
    {
      if chan < 1 || chan > numcanales {
        return Failure(InvalidChannel);
      }
      r := Measure(Field(VoltChars), MeasureVrms(SiglentCommands, chan));
    }

    /** MedirVrms: dispatches on the stored model. */
    method MedirVrms(chan: int) returns (r: Result<real>)
      modifies this`replies, this`sent
      ensures var e := VrmsReading(num, modelo, numcanales, chan, connected, old(replies));
              r == e.result && replies == e.rest && sent == old(sent) + e.asked
    {
      if modelo == Siglent {
        r := MedirVrmsSiglent(chan);
      } else {
        r := MedirVrmsKeysight(chan);
      }
    }

    /** MedirPotenciaCompleta: rejects out-of-range or equal channels before
        measuring, then returns (V*I/0.2*cos(fase), V, I, fase). */
    method MedirPotenciaCompleta(chanV: int, chanI: int) returns (r: Result<PowerSample>)
      modifies this`replies, this`sent
      ensures var e := PowerReading(num, modelo, numcanales, chanV, chanI, connected, old(replies));
              r == e.result && replies == e.rest && sent == old(sent) + e.asked
    {
      if chanV < 1 || chanV > numcanales || chanI < 1 || chanI > numcanales || chanV == chanI {
        return Failure(InvalidChannel);
      }
      ghost var r0, s0 := replies, sent;
      ghost var e := PowerReading(num, modelo, numcanales, chanV, chanI, connected, r0);
      ghost var v := VrmsReading(num, modelo, numcanales, chanV, connected, r0);
      var V := MedirVrms(chanV);
      if V.Failure? {
        assert e == Exchange(Failure(V.error), v.rest, v.asked);
        return Failure(V.error);
      }
      ghost var i := VrmsReading(num, modelo, numcanales, chanI, connected, v.rest);
      var I := MedirVrms(chanI);
      if I.Failure? {
        assert e == Exchange(Failure(I.error), i.rest, v.asked + i.asked);
        assert sent == s0 + (v.asked + i.asked);
        return Failure(I.error);
      }
      ghost var p := PhaseReading(num, modelo, numcanales, chanV, chanI, connected, i.rest);
      ghost var s1 := sent;
      assert replies == i.rest && s1 == s0 + (v.asked + i.asked);
      var fase := MedirFase(chanV, chanI);
      assert sent == s1 + p.asked;
      assert sent == s0 + (v.asked + i.asked + p.asked);
      if fase.Failure? {
        assert e == Exchange(Failure(fase.error), p.rest, v.asked + i.asked + p.asked);
        return Failure(fase.error);
      }
      var P := PowerOf(num, V.value, I.value, fase.value);
      assert e == Exchange(Success(PowerSample(P, V.value, I.value, fase.value)), p.rest, v.asked + i.asked + p.asked);
      r := Success(PowerSample(P, V.value, I.value, fase.value));
    }

    /** MedirPotencia: the first component of MedirPotenciaCompleta. */
    method MedirPotencia(chanV: int, chanI: int) returns (r: Result<real>)
      modifies this`replies, this`sent
      ensures var e := PowerReading(num, modelo, numcanales, chanV, chanI, connected, old(replies));
              replies == e.rest && sent == old(sent) + e.asked
              && r == (if e.result.Success? then Success(e.result.value.power) else Failure(e.result.error))
    {
      var t := MedirPotenciaCompleta(chanV, chanI);
      if t.Failure? {
        return Failure(t.error);
      }
      r := Success(t.value.power);
    }

    /** close(): closes and deletes an open connection; with none open it
        raises, so a second close fails. */
    method Close() returns (r: Outcome)
      modifies this`connected, this`sent
      ensures !connected
      ensures old(connected) ==> r == Pass && sent == old(sent) + [CloseSession]
      ensures !old(connected) ==> r == Fail(NotConnected) && sent == old(sent)
    {
      if connected {
        sent := sent + [CloseSession];
        connected := false;
        r := Pass;
      } else {
        r := Fail(NotConnected);
      }
    }

    /** __del__: closes when a connection is open and swallows the error otherwise. */
    method Finalize()
      modifies this`connected, this`sent
      ensures !connected
      ensures sent == old(sent) + (if old(connected) then [CloseSession] else [])
    {
      var _ := Close();
    }
  }
}
