# Laboratory instrument control: PID loop, oscilloscope and pulse generator

This project models in Dafny the logic of a small laboratory-automation
package. The package drives a pulse generator and an oscilloscope over VISA
and closes a power-feedback loop with a PID controller. Three pieces are
modelled, each with its legacy copy where one exists:

- **The PID controller** (`PidControl`, from `src/PID.py`) is a class with
  gains, a setpoint, an output bound, the accumulated integral and the
  previous error. One `Update` step computes the error and accumulates
  `error*dt` into the integral. It takes a derivative that is 0 unless
  `dt > 0`, and clamps the output symmetrically. `max_output` is the
  datatype `Unbounded | Bounded(b)`, because the source's default is
  `float('inf')`.
- **The oscilloscope adapter** (`ScopeLink`, `ScopeTools` and `ScopeLegacy`,
  from `src/Tools/Osciloscopio.py` and `src/Osciloscopio.py`). It covers:
  - channel checks made before any query;
  - parsing of Siglent replies `"<header>,<value>"` with Python's
    `split(",")` and `strip(chars)`;
  - the Siglent phase loop, which re-queries while the scope answers `****`;
  - vendor identification from the `*IDN?` reply;
  - `AutoConnect`'s first-match rule over the connected devices and the
    known-scope table;
  - the power formula `V*I/0.2*cos(fase)`.
- **The pulse generator** (`PulserLink`, `PulserTools` and `PulserLegacy`,
  from `src/Tools/Pulser.py` and `src/Pulser.py`). It covers:
  - per-channel amplitude and output flags;
  - the 0.8 V amplitude ceiling;
  - identification;
  - closing, and the cleanup on leaving a `with` block or on destruction;
  - the in-memory `SimulacionPulser` and its set/get round trip.

Shared pieces:

- **The instrument link** is the sequence of replies the instrument will
  give, in order. Each query consumes one reply. A query made after the
  replies run out fails with `NoReply`, which stands for the VISA timeout of
  a silent instrument.
- **What was sent** is kept in a ghost log of abstract requests or
  commands: `MeasureVrms(dialect, chan)`, `Set(Amplitude, canal, v)`,
  `Output(canal, on)`, and so on.
- **Errors.** Every Python exception modelled here becomes a
  `Failure(...)`/`Fail(...)` value, named after the exception it stands
  for; the exceptions that are not modelled are listed under "Left out".
  The modelled ones include:
  - the crash paths of the source: `.strip()` called on a float, a loop
    counter read before assignment, an attribute the class never sets;
  - calls on a connection that was closed.
- **Python text operations** are in `Text`: `lower()` on ASCII letters,
  `in`, `strip`/`strip(chars)` and `split(sep)`.
- **Numbers.** `float()` and `cos(deg2rad(·))` are left uninterpreted: they
  are function-valued fields of a `Numerics` value. Arithmetic is done over
  `real`.

Some properties proved:

- **The phase loop** is proved against a closed form, `SiglentPhase`:
  - it queries once per leading `****` reply, and once more;
  - it returns the first other reply if fewer than 20 `****` came before
    it;
  - it raises if 20 or more came before it;
  - an all-`****` stream is read to the end (`PhaseRetryRule`,
    `SentinelsOnly`).
- **`AutoConnect`** is a nested loop proved to pick the first connected
  device, in list order, that some table entry lists among its aliases.
  It also takes the first such entry's channel count.
- **Every method of `PulserTools.Pulser` that models a Python method**
  keeps the invariant `Safe`: no amplitude above 0.8 V was ever written and
  none is recorded in `amp1` or `amp2`. The raw link operations `Write` and
  `Query` can send any command; their contracts say exactly when they keep
  `Safe`: when the link is closed, or when the command is not an amplitude
  above 0.8 V. `PulserLegacy.Pulser` records no amplitudes; its `SetAmplitud`
  keeps the written log free of amplitudes above 0.8 V.
- **`Update`** returns a value in `[-b, b]` whenever the bound `b` is not
  negative.

## Model

| member | source | states |
|---|---|---|
| `Text.Strip` | src/Tools/Osciloscopio.py:141-142 | `s.strip(chars)`: the result neither starts nor ends with a character of the set, and is empty exactly when every character of the input is in the set |
| `Text.StripIsTrimBoth` | src/Tools/Osciloscopio.py:141-142 | stripping equals removing the set's characters from the front and then from the back |
| `Text.TrimStart` | src/Tools/Osciloscopio.py:141-142 | the front half of `strip`: the result is a suffix of the input, everything cut off is in the set, and the result does not start with a character of the set |
| `Text.TrimEnd` | src/Tools/Osciloscopio.py:141-142 | the back half of `strip`: the result is a prefix of the input, everything cut off is in the set, and the result does not end with a character of the set |
| `Text.StripIsInfix` | src/Tools/Osciloscopio.py:141-142 | the stripped value is the infix of the input that starts right after the leading characters of the set |
| `Text.Leading` | src/Tools/Osciloscopio.py:141-142 | how far `strip` cuts at the front: every character before that position is in the set, and the one at it is not |
| `Text.StripDropsTrailing` | src/Tools/Osciloscopio.py:84 | a character of the set appended at the end is stripped away again |
| `Text.StripIdempotent` | src/Tools/Osciloscopio.py:141-142 | stripping twice removes nothing more |
| `Text.Join` | src/Tools/Osciloscopio.py:141 | the partner of `split`: the joined text starts with the first part and, when no part holds the separator, holds exactly one separator per gap between parts |
| `Text.Split` | src/Tools/Osciloscopio.py:141 | `s.split(",")` has one more part than there are commas, no part holds a comma, and joining the parts with commas gives back `s` |
| `Text.CountChar` | src/Tools/Osciloscopio.py:141 | the count of a character is positive iff the character occurs |
| `Text.IndexOf` | src/Tools/Osciloscopio.py:141 | the first index holding the character, or the length when it does not occur; no earlier index holds it |
| `Text.Lower` | src/Tools/Osciloscopio.py:57 | `lower()`: same length, each ASCII capital becomes its own small letter, and every other character is kept |
| `Text.Contains` | src/Tools/Osciloscopio.py:57-60 | `t in s`: an occurrence is never longer than the text |
| `Text.ContainsIff` | src/Tools/Osciloscopio.py:57-60 | `t in s` holds exactly when `t` occurs in `s` at some index |
| `Text.ContainsAt` | src/Tools/Osciloscopio.py:57-60 | `t in s` holds wherever in `s` the occurrence starts |
| `Text.LowerKeepsContains` | src/Tools/Osciloscopio.py:57-60 | if `t` occurs in `s`, then lower-cased `t` occurs in lower-cased `s` |
| `Instrument.ToFloat` | src/Tools/Osciloscopio.py:84 | `float(text)`: a value exactly when the text parses, and then the parsed value; otherwise ValueError |
| `ScopeLink.SiglentField` | src/Tools/Osciloscopio.py:141-142 | unpacking `_, valor_str = val.split(",")` succeeds iff the reply holds exactly one comma; failure is the unpacking error |
| `ScopeLink.SiglentFieldIsSplit` | src/Tools/Osciloscopio.py:141-142 | `SiglentField` agrees with `split(",")`: it succeeds iff the split has exactly two parts, and its value is then the second part, stripped |
| `ScopeLink.Decode` | src/Tools/Osciloscopio.py:99-103 | a decoding that ends in `.strip()` on a float never yields a value; a field decoding fails with the unpacking error unless there is exactly one comma |
| `ScopeLink.Reading` | src/Tools/Osciloscopio.py:80-84 | a failed channel check raises before anything is sent and consumes nothing; otherwise exactly the one query is sent and one reply consumed, and the result is the decoding of that reply (NoReply when none is left) |
| `ScopeTools.EntryFor` | src/Tools/Osciloscopio.py:38-39 | the first table entry whose aliases contain the device, with no earlier entry containing it; none iff no entry contains it |
| `ScopeTools.FirstKnown` | src/Tools/Osciloscopio.py:37-44 | the first connected device, in list order, that some entry knows, with every earlier device unknown to all entries; none iff no device is known |
| `ScopeTools.Osciloscopio.AutoConnect` | src/Tools/Osciloscopio.py:23-44 | sets `id` to the first known connected device and `numcanales` to its first entry's `numCanales`; raises LookupError and changes nothing when no device is known |
| `ScopeTools.VendorFromIdn` | src/Tools/Osciloscopio.py:57-62 | the model after identification is never unset; "keysight" in the lower-cased reply always gives Keysight; Keysight comes only from such a reply or is kept; otherwise "siglent" gives Siglent; with neither, an unset model becomes Desconocido and a set one is kept |
| `ScopeTools.IsSentinel` | src/Tools/Osciloscopio.py:140-143 | the reply's phase field is `****`; such a reply holds exactly one comma |
| `ScopeTools.PhaseVerdict` | src/Tools/Osciloscopio.py:141-151 | a reply without exactly one comma fails to unpack, whatever the count; a well-formed reply after 20 or more `****` raises RuntimeError; a value needs fewer than 20 and a well-formed reply |
| `ScopeTools.LeadingSentinels` | src/Tools/Osciloscopio.py:138-146 | the number of replies before the first one that is not `****`: every earlier reply is `****`, and the one at that index, if any, is not |
| `ScopeTools.SiglentPhase` | src/Tools/Osciloscopio.py:123-151 | bad channels raise before any query; otherwise the phase query is sent once per leading `****` reply plus once; a value is returned only if fewer than 20 `****` came first |
| `ScopeTools.SiglentPhaseAt` | src/Tools/Osciloscopio.py:138-151 | at the end of the leading `****` run, the outcome is decided: no reply if the stream ended there, otherwise the verdict on the reply found there, with the replies after it left and one query per reply read |
| `ScopeTools.SentinelRun` | src/Tools/Osciloscopio.py:138-146 | a run of `****` replies followed by a reply that is not `****` is counted exactly |
| `ScopeTools.PhaseRetryRule` | src/Tools/Osciloscopio.py:138-151 | after N `****` replies, a well-formed reply is returned, stripped and parsed, when N < 20, and refused with RuntimeError when N >= 20; N+1 queries are sent and exactly the replies read are consumed |
| `ScopeTools.SentinelsOnly` | src/Tools/Osciloscopio.py:138-146 | a stream of only `****` replies is read to its end and the next query finds no reply |
| `ScopeTools.VrmsReading` | src/Tools/Osciloscopio.py:222-235 | a successful Vrms reading consumed one reply and sent exactly one Vrms query, in the dialect of the stored model |
| `ScopeTools.PhaseReading` | src/Tools/Osciloscopio.py:153-167 | a successful phase reading consumed a reply, and its first query is a phase query in the dialect of the stored model |
| `ScopeTools.PowerOf` | src/Tools/Osciloscopio.py:254 | `P*0.2 == V*I*cos(fase)`, and `P` is 0 when `V`, `I` or the cosine is 0 |
| `ScopeTools.PowerReading` | src/Tools/Osciloscopio.py:248-249 | out-of-range or equal channels raise before anything is measured or sent |
| `ScopeTools.PowerSampleParts` | src/Tools/Osciloscopio.py:251-255 | a power sample is V from `chanV`, then I from `chanI`, then the phase between them, queried in that order; its power is `V*I/0.2*cos(fase)` and the channels differ |
| `ScopeTools.PowerReadingCases` | src/Tools/Osciloscopio.py:250-255 | with valid channels: a failing V reading is the result and nothing more is asked; a failing I reading likewise after V; a failing phase reading after both; three successful readings give `(V*I/0.2*cos(fase), V, I, fase)`, with the three queries in that order |
| `ScopeTools.Osciloscopio.constructor` | src/Tools/Osciloscopio.py:9-15 | the object before `__init__` fills it in: no id, no channels, no model (`None`), no connection, and nothing sent |
| `ScopeTools.Osciloscopio.Open` | src/Tools/Osciloscopio.py:9-17 | an empty id runs discovery, which raises when no device is known; otherwise the link is opened and two IDN queries set the model from the first reply; with two replies available it succeeds, with none it raises RuntimeError, and with one the second query times out |
| `ScopeTools.Osciloscopio.Connect` | src/Tools/Osciloscopio.py:19-21 | the connection exists afterwards |
| `ScopeTools.Osciloscopio.Query` | src/Tools/Osciloscopio.py:83 | `conexion.query`: without a connection it raises and sends nothing; otherwise the request is sent and the next reply consumed and returned, or NoReply when none is left |
| `ScopeTools.Osciloscopio.Measure` | src/Tools/Osciloscopio.py:83-84 | one query and the decoding of its reply: exactly `Reading` with the channel check passed |
| `ScopeTools.Osciloscopio.Identificar` | src/Tools/Osciloscopio.py:46-68 | raises without a connection; a failed IDN query becomes RuntimeError with the model unchanged; otherwise the model is Keysight if the lower-cased reply contains "keysight", else Siglent if it contains "siglent", else the previous model or Desconocido; returns the stripped second IDN reply |
| `ScopeTools.Osciloscopio.MedirVppKeysight` | src/Tools/Osciloscopio.py:70-84 | channel check before any query, then one query parsed as a number |
| `ScopeTools.Osciloscopio.MedirVppSiglent` | src/Tools/Osciloscopio.py:86-103 | channel check before any query, then one query; never returns a value, because it calls `.strip()` on the parsed float |
| `ScopeTools.Osciloscopio.MedirFaseKeysight` | src/Tools/Osciloscopio.py:105-121 | both channels checked before any query; equal channels are accepted |
| `ScopeTools.Osciloscopio.MedirFaseSiglent` | src/Tools/Osciloscopio.py:123-151 | the retry loop computes exactly the closed form `SiglentPhase`: result, replies left and queries sent |
| `ScopeTools.Osciloscopio.MedirFase` | src/Tools/Osciloscopio.py:153-167 | the Siglent loop iff the model is Siglent, the Keysight query otherwise |
| `ScopeTools.Osciloscopio.MedirFrecuenciaKeysight` | src/Tools/Osciloscopio.py:169-184 | channel check before any query, then one query parsed as a number |
| `ScopeTools.Osciloscopio.MedirVrmsKeysight` | src/Tools/Osciloscopio.py:186-201 | channel check before any query, then one query parsed as a number |
| `ScopeTools.Osciloscopio.MedirVrmsSiglent` | src/Tools/Osciloscopio.py:203-220 | channel check before any query, then one query whose field after the comma is parsed |
| `ScopeTools.Osciloscopio.MedirVrms` | src/Tools/Osciloscopio.py:222-235 | the Siglent variant iff the model is Siglent, the Keysight one otherwise |
| `ScopeTools.Osciloscopio.MedirPotenciaCompleta` | src/Tools/Osciloscopio.py:237-255 | computes exactly `PowerReading`: the tuple `(P, V, I, fase)`, or the first failure, with the replies consumed and the queries sent |
| `ScopeTools.Osciloscopio.MedirPotencia` | src/Tools/Osciloscopio.py:257-269 | the first component of `MedirPotenciaCompleta`, or its failure |
| `ScopeTools.Osciloscopio.Close` | src/Tools/Osciloscopio.py:283-291 | closes and removes an open connection; with none open it raises, so a second close fails |
| `ScopeTools.Osciloscopio.Finalize` | src/Tools/Osciloscopio.py:293-301 | the connection is gone afterwards; a close is sent only if one was open, and no error escapes |
| `ScopeLegacy.LegacyVendorFromIdn` | src/Osciloscopio.py:29-34 | as `ScopeTools.VendorFromIdn`, with "Keysight" and "Siglent" matched with their capitalisation in the reply as received |
| `ScopeLegacy.LegacyRecognitionKept` | src/Osciloscopio.py:29-34 | on a fresh object, a reply the case-sensitive check reads as Keysight is read as Keysight by the Tools check, and one read as Siglent is read as Siglent or Keysight |
| `ScopeLegacy.Osciloscopio.constructor` | src/Osciloscopio.py:4-9 | the given id and channel count, no model (`None`), the link opened, and nothing sent |
| `ScopeLegacy.Osciloscopio.Open` | src/Osciloscopio.py:4-10 | opens the link and identifies; fails as Identificar does and succeeds iff two replies are available; the model comes from the first reply, matched with its capitalisation |
| `ScopeLegacy.Osciloscopio.Connect` | src/Osciloscopio.py:13-16 | reopens the link and then always raises, because it returns an attribute the class never sets |
| `ScopeLegacy.Osciloscopio.Query` | src/Osciloscopio.py:55 | `conexion.query`: without a connection it raises and sends nothing; otherwise the request is sent and the next reply consumed and returned, or NoReply when none is left |
| `ScopeLegacy.Osciloscopio.Measure` | src/Osciloscopio.py:55-56 | one query and the decoding of its reply: exactly `Reading` with the channel check passed |
| `ScopeLegacy.Osciloscopio.Identificar` | src/Osciloscopio.py:18-40 | as in the Tools class, but "Keysight" and "Siglent" are matched with their capitalisation |
| `ScopeLegacy.Osciloscopio.MedirVppKeysight` | src/Osciloscopio.py:42-56 | channel check before any query, then one query parsed as a number |
| `ScopeLegacy.Osciloscopio.MedirVppSiglent` | src/Osciloscopio.py:58-75 | channel check before any query; never returns a value |
| `ScopeLegacy.Osciloscopio.MedirVpp` | src/Osciloscopio.py:77-90 | the Siglent variant iff the model is Siglent, which never returns a value; the Keysight variant otherwise |
| `ScopeLegacy.Osciloscopio.MedirFaseKeysight` | src/Osciloscopio.py:92-108 | both channels checked before any query, then one query |
| `ScopeLegacy.Osciloscopio.MedirFaseSiglent` | src/Osciloscopio.py:110-135 | bad channels raise ValueError; good ones raise UnboundLocalError; nothing is ever sent |
| `ScopeLegacy.Osciloscopio.MedirFase` | src/Osciloscopio.py:137-151 | for a Siglent model, one of those two errors with nothing sent; otherwise the Keysight query |
| `ScopeLegacy.Osciloscopio.MedirFrecuenciaKeysight` | src/Osciloscopio.py:153-168 | channel check before any query, then one query |
| `ScopeLegacy.Osciloscopio.MedirVrmsKeysight` | src/Osciloscopio.py:170-185 | channel check before any query, then one query |
| `ScopeLegacy.Osciloscopio.MedirVrmsSiglent` | src/Osciloscopio.py:187-204 | channel check before any query; never returns a value |
| `ScopeLegacy.Osciloscopio.MedirVrms` | src/Osciloscopio.py:206-219 | the Siglent variant iff the model is Siglent, which never returns a value; the Keysight variant otherwise |
| `ScopeLegacy.Osciloscopio.Close` | src/Osciloscopio.py:233-241 | closes and removes an open connection; with none open it raises |
| `ScopeLegacy.Osciloscopio.Finalize` | src/Osciloscopio.py:243-250 | the connection is gone afterwards; a close is sent only if one was open, and no error escapes |
| `PulserLink.AmplitudesSafe` | src/Tools/Pulser.py:74-78 | defines the safety of a command log: no amplitude above 0.8 V was written |
| `PulserLink.SafeAppend` | src/Tools/Pulser.py:74-78 | a command log contains no amplitude above 0.8 V exactly when neither of its two pieces does |
| `PulserLink.ReadNumber` | src/Tools/Pulser.py:134-135 | `float(resultado.strip())`: only a reply that does not parse fails, with ValueError |
| `PulserLink.ReadNumberIgnoresPadding` | src/Tools/Pulser.py:134-135 | a whitespace character before or after a reply, such as the line terminator, does not change the number read |
| `PulserLink.Offs` | src/Tools/Pulser.py:200-203 | the cleanup sends an OFF for channel 1 iff its flag is set, then for channel 2 iff its flag is set, and nothing else |
| `PulserTools.Pulser.Safe` | src/Tools/Pulser.py:68-83 | defines the invariant every method modelling a Python method keeps: `amp1` and `amp2` are at most 0.8 V and the written log holds no amplitude above 0.8 V |
| `PulserTools.Pulser.constructor` | src/Tools/Pulser.py:11-25 | the object as `__init__` leaves it apart from the model, which is still unset: link open, amplitudes 0.25 V, outputs off, nothing sent |
| `PulserTools.Pulser.Open` | src/Tools/Pulser.py:11-25 | connects and identifies, failing iff the IDN query gets no reply; then amplitudes are 0.25 V, both outputs are off, and the safety invariant holds |
| `PulserTools.Pulser.Connect` | src/Tools/Pulser.py:49-57 | the connection is open afterwards |
| `PulserTools.Pulser.Write` | src/Tools/Pulser.py:66 | `conexion.write`: on an open link the command is appended to the log; on a closed one it raises and nothing is written; afterwards `Safe` holds iff it held before and the link was closed or the command is not an amplitude above 0.8 V |
| `PulserTools.Pulser.Query` | src/Tools/Pulser.py:134 | `conexion.query`: on a closed link it raises and sends nothing; otherwise the command is sent and the next reply consumed and returned, or NoReply when none is left; `Safe` changes as for `Write` |
| `PulserTools.Pulser.Identificar` | src/Tools/Pulser.py:27-47 | one IDN query; no reply becomes RuntimeError and a closed link raises, both with the model unchanged; otherwise the model is only ever RS or Desconocido (Keysight, Siglent and Tektronix are always overwritten), and RS iff the lower-cased reply contains "rs" |
| `PulserTools.Pulser.SetFrecuencia` | src/Tools/Pulser.py:59-66 | exactly one write of the frequency to the given channel; a closed link raises and writes nothing |
| `PulserTools.Pulser.SetAmplitud` | src/Tools/Pulser.py:68-83 | above 0.8 V, raises with no write and no state change, while exactly 0.8 is accepted; otherwise one write, then `amp1` is updated for channel 1 or `amp2` for channel 2 and any other channel changes neither; keeps the safety invariant |
| `PulserTools.Pulser.SetOffset` | src/Tools/Pulser.py:85-92 | exactly one write of the offset to the given channel |
| `PulserTools.Pulser.EnableOutput` | src/Tools/Pulser.py:94-104 | one ON write, after which only that channel's flag is raised |
| `PulserTools.Pulser.DisableOutput` | src/Tools/Pulser.py:106-114 | one OFF write; the flags are left as they are |
| `PulserTools.Pulser.OutputImpedance` | src/Tools/Pulser.py:116-123 | exactly one write of the impedance to the given channel |
| `PulserTools.Pulser.Get` | src/Tools/Pulser.py:125-171 | the four getters: one query for the quantity on the channel, with the reply stripped and parsed as a number |
| `PulserTools.Pulser.Close` | src/Tools/Pulser.py:173-182 | closes an open link and leaves it closed; a second close sends nothing and does not raise |
| `PulserTools.Pulser.ExitContext` | src/Tools/Pulser.py:192-204 | on an open link, OFF for channel 1 iff flagged, then channel 2 iff flagged, then close; on a closed link with a flag set, the first OFF raises; the flags are never cleared |
| `PulserTools.Pulser.Finalize` | src/Tools/Pulser.py:218-232 | the same OFF writes and close when the link is open, only the close when it is not, and no error escapes |
| `PulserTools.SimulacionPulser.constructor` | src/Tools/Pulser.py:242-264 | no connection, model Simulacion, frequencies 0, amplitudes 0.25 V, outputs off |
| `PulserTools.SimulacionPulser.Frecuencia` | src/Tools/Pulser.py:351-365 | a frequency exists for channels 1 and 2 and for no other channel |
| `PulserTools.SimulacionPulser.Amplitud` | src/Tools/Pulser.py:367-381 | an amplitude exists for channels 1 and 2 and for no other channel |
| `PulserTools.SimulacionPulser.Identificar` | src/Tools/Pulser.py:266-273 | the model is always Simulacion |
| `PulserTools.SimulacionPulser.Connect` | src/Tools/Pulser.py:275-282 | the placeholder connection exists afterwards |
| `PulserTools.SimulacionPulser.SetFrecuencia` | src/Tools/Pulser.py:284-296 | channel 1 or 2 then reads back the value set; every other channel reads as before |
| `PulserTools.SimulacionPulser.SetAmplitud` | src/Tools/Pulser.py:298-312 | channel 1 or 2 then reads back the value set, with no ceiling; every other channel reads as before |
| `PulserTools.SimulacionPulser.EnableOutput` | src/Tools/Pulser.py:323-335 | raises only that channel's flag |
| `PulserTools.SimulacionPulser.DisableOutput` | src/Tools/Pulser.py:337-349 | lowers only that channel's flag |
| `PulserTools.SimulacionPulser.GetFrecuencia` | src/Tools/Pulser.py:351-365 | the stored frequency of channel 1 or 2, and None for any other channel |
| `PulserTools.SimulacionPulser.GetAmplitud` | src/Tools/Pulser.py:367-381 | the stored amplitude of channel 1 or 2, and None for any other channel |
| `PulserTools.SimulacionPulser.GetOffset` | src/Tools/Pulser.py:383-392 | always 0 |
| `PulserTools.SimulacionPulser.GetOutputImpedance` | src/Tools/Pulser.py:394-403 | always 50 ohms |
| `PulserTools.SimulacionPulser.ExitContext` | src/Tools/Pulser.py:413-425 | always raises AttributeError, because `output1` is never an attribute |
| `PulserTools.SimulationRoundTrip` | src/Tools/Pulser.py:290-381 | setting a frequency and an amplitude on channel 1 or 2 and reading them back gives the values set, including amplitudes above 0.8 V |
| `PulserLegacy.LegacyRsKept` | src/Pulser.py:37-40 | a reply holding "RS" holds "rs" once lower-cased, so every reply the legacy `Identificar` reads as RS is read as RS by the Tools `Identificar` |
| `PulserLegacy.Pulser.constructor` | src/Pulser.py:11-21 | the object as `__init__` builds it before identification: link open, no model, nothing sent |
| `PulserLegacy.Pulser.Open` | src/Pulser.py:11-21 | connects and identifies, failing iff the IDN query gets no reply |
| `PulserLegacy.Pulser.Connect` | src/Pulser.py:45-53 | the connection is open afterwards |
| `PulserLegacy.Pulser.Write` | src/Pulser.py:62 | `conexion.write`: on an open link the command is appended to the log; on a closed one it raises and nothing is written |
| `PulserLegacy.Pulser.Query` | src/Pulser.py:121 | `conexion.query`: on a closed link it raises and sends nothing; otherwise the command is sent and the next reply consumed and returned, or NoReply when none is left |
| `PulserLegacy.Pulser.Identificar` | src/Pulser.py:23-43 | one IDN query; the model is only ever RS or Desconocido, and RS iff the reply contains "RS" with that capitalisation |
| `PulserLegacy.Pulser.SetFrecuencia` | src/Pulser.py:55-62 | exactly one write addressed to the given channel, and no local state |
| `PulserLegacy.Pulser.SetAmplitud` | src/Pulser.py:64-74 | above 0.8 V, raises before any write; otherwise exactly one write; a log with no amplitude above 0.8 V keeps that property |
| `PulserLegacy.Pulser.SetOffset` | src/Pulser.py:76-83 | exactly one write addressed to the given channel |
| `PulserLegacy.Pulser.EnableOutput` | src/Pulser.py:85-92 | exactly one ON write addressed to the given channel |
| `PulserLegacy.Pulser.DisableOutput` | src/Pulser.py:94-101 | exactly one OFF write addressed to the given channel |
| `PulserLegacy.Pulser.OutputImpedance` | src/Pulser.py:103-110 | exactly one write addressed to the given channel |
| `PulserLegacy.Pulser.Get` | src/Pulser.py:112-158 | the four getters: one query, with the reply stripped and parsed as a number |
| `PulserLegacy.Pulser.Close` | src/Pulser.py:160-169 | closes an open link; a second close sends nothing and does not raise |
| `PidControl.Clamp` | src/PID.py:37-40 | for a non-negative bound the output lies in `[-b, b]`: an in-range value is kept, a value above is cut to `b` and one below is raised to `-b`; a negative bound always gives `-b`; no bound leaves the value alone |
| `PidControl.ClampIdempotent` | src/PID.py:37-40 | clamping a clamped value changes nothing |
| `PidControl.ClampMonotone` | src/PID.py:37-40 | clamping keeps the order of its inputs |
| `PidControl.Derivative` | src/PID.py:33 | 0 when `dt <= 0`, otherwise the change of the error divided by `dt` |
| `PidControl.Pid.constructor` | src/PID.py:4-20 | the given gains, setpoint and bound, with previous error and integral 0 |
| `PidControl.Pid.Update` | src/PID.py:22-44 | the integral grows by `error*dt`; the output is the clamp of `Kp*error + Ki*integral' + Kd*derivative` with the updated integral, and lies in `[-b, b]` for a bound `b >= 0`; the previous error becomes the error; at rest and at the setpoint the output and integral stay 0; gains, setpoint and bound are untouched |
| `PidControl.Pid.SetSetpoint` | src/PID.py:46-52 | changes the setpoint and nothing else |
| `PidControl.Pid.SetGains` | src/PID.py:54-64 | changes the three gains and nothing else |
| `PidControl.Pid.SetMaxOutput` | src/PID.py:66-72 | changes the bound and nothing else |
| `PidControl.Pid.GetGains` | src/PID.py:74-80 | the current `(Kp, Ki, Kd)` |
| `PidControl.Pid.GetSetpoint` | src/PID.py:82-88 | the current setpoint |
| `PidControl.Pid.GetMaxOutput` | src/PID.py:90-96 | the current bound |
| `PidControl.Pid.GetPreviousError` | src/PID.py:98-104 | the current previous error |
| `PidControl.Pid.GetIntegral` | src/PID.py:106-112 | the current integral |
| `PidControl.Pid.Reset` | src/PID.py:114-119 | previous error and integral become 0; gains, setpoint and bound are untouched |
| `PidControl.ProportionalExample` | src/PID.py:22-44 | with `Kp = 1` and setpoint 2, measuring 1 gives 1; then measuring 3 gives -1; after a reset, measuring 2 gives 0 |

## Left out

- VISA I/O: `ResourceManager`, `open_resource` and `list_resources` are
  replaced by data. The list of connected devices and the reply sequence are
  parameters, and a write never fails on an open link. The only VISA error
  modelled is the timeout of a query that gets no reply (`NoReply`).
- Command strings and the text of error messages: requests and commands
  are abstract values that carry the channel and the value, but not the
  SCPI text or the Python float formatting in it.
- `float()` and `np.cos(np.deg2rad(·))` are uninterpreted functions.
  Arithmetic is over `real`, not IEEE doubles, so `0.8`, `0.2` and the
  PID's sums are exact. `max_output` is either no bound (`float('inf')`)
  or a finite real; `-inf` and NaN bounds are not modelled.
- `str.lower()` is modelled on ASCII letters only; other Unicode case
  mappings are not.
- `time.sleep` in the phase loop has no logical effect and is not modelled.
- An endless stream of `****` replies would make the phase loop run
  forever. The model's reply sequence is finite, so such a stream ends
  with `NoReply`.
- The JSON equipment file is not read; `AutoConnect` takes the table as
  data in file order. A table entry without `numCanales`, which makes the
  source store `None`, is not modelled.
- Default arguments (`canal=1` on the pulser methods, `setpoint=0.0` and
  `max_output=float('inf')` of the PID, `id=""` and `numcanales=0` of the
  Tools oscilloscope) are not modelled: every call passes every argument.
- `__init__` is modelled by `Open`, which returns the object or the error.
  An object left half-built by a failing `__init__` is not modelled.
- `__str__`, `__repr__`, `__enter__` (returns `self`) and every `print` are
  not modelled.
- `SimulacionPulser`: the module globals (`frec1`, `vPulser1`, …) are fields
  of the object. Their sharing between instances is not modelled.
  `set_offset` and `__del__` do nothing and are not modelled.
- The legacy `Pulser.__del__` only calls `close` and is not modelled
  separately.
- `SimulacionOsciloscopio` (src/Tools/Osciloscopio.py) is not part of this
  model: it calls a base class it does not have, reads undefined names, and
  draws random numbers.
- src/PowerFeedback.py, src/frecResonancia.py and src/Tools/findResources.py
  are not part of this model. They are threads, plotting, numpy sweeps and
  resource listing built on the pieces modelled here.
