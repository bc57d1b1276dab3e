/** What the two pulse-generator classes share: the commands written to the
    instrument, the amplitude ceiling, and the safety property of a command
    log. */
module PulserLink {
  import opened Instrument
  import opened Text

  /** The quantities a channel can be set to and asked about. */
  datatype Setting = Frequency | Amplitude | Offset | Impedance

  /** An abstract command sent over the link; the command strings themselves
      are not modelled. */
  datatype Command =
    | Identify                                        // *IDN?
    | Set(what: Setting, canal: int, value: real)     // C<canal>:BSWV FRQ/AMP/OFS or OUTP Z
    | Output(canal: int, on: bool)                    // C<canal>:OUTP ON / OFF
    | Ask(what: Setting, canal: int)                  // the matching query
    | CloseSession

  /** The largest amplitude, in volts, set_amplitud lets through. */
  const MaxAmplitude: real := 0.8

  /** No amplitude above the ceiling was ever written. */
  predicate AmplitudesSafe(log: seq<Command>) {
    forall k :: 0 <= k < |log| && log[k].Set? && log[k].what == Amplitude ==> log[k].value <= MaxAmplitude
  }

  /** A log is safe exactly when both of its pieces are. */
  lemma {:induction false} SafeAppend(log: seq<Command>, more: seq<Command>)
    ensures AmplitudesSafe(log + more) <==> AmplitudesSafe(log) && AmplitudesSafe(more)
  {
    var all := log + more;
    assert forall k :: 0 <= k < |log| ==> all[k] == log[k];
    assert forall k :: 0 <= k < |more| ==> all[|log| + k] == more[k];
    if AmplitudesSafe(log) && AmplitudesSafe(more) {
      forall k | 0 <= k < |all| && all[k].Set? && all[k].what == Amplitude
        ensures all[k].value <= MaxAmplitude
      {
        if k >= |log| {
          assert all[k] == more[k - |log|];
        }
      }
    }
  }

  /** The OFF commands the cleanup paths send: channel 1 iff its flag is set,
      then channel 2 iff its flag is set. */
  function Offs(output1: bool, output2: bool): (cs: seq<Command>)
    ensures |cs| == (if output1 then 1 else 0) + (if output2 then 1 else 0)
    ensures Output(1, false) in cs <==> output1
    ensures Output(2, false) in cs <==> output2
    ensures forall k :: 0 <= k < |cs| ==> cs[k].Output? && !cs[k].on
    ensures output1 ==> cs[0] == Output(1, false)
  {
    (if output1 then [Output(1, false)] else []) + (if output2 then [Output(2, false)] else [])
  }

  /** A numeric reply: float(resultado.strip()). Only a reply that does
      not parse fails, with ValueError. */
  function ReadNumber(num: Numerics, reply: string): (r: Result<real>)
    ensures r.Failure? ==> r.error == NotANumber
  {
    ToFloat(num, Strip(reply, Whitespace))
  }

  /** Whitespace around a reply, such as the instrument's line terminator,
      never changes the number read from it. */
  lemma ReadNumberIgnoresPadding(num: Numerics, reply: string, c: char)
    requires c in Whitespace
    ensures ReadNumber(num, [c] + reply) == ReadNumber(num, reply)
    ensures ReadNumber(num, reply + [c]) == ReadNumber(num, reply)
  {
    assert ([c] + reply)[1..] == reply;
    StripDropsTrailing(reply, c, Whitespace);
  }
}
