/** What the two oscilloscope classes share: the requests they send over the
    instrument link, how a reply is turned into a number, and how a Siglent
    reply of the form "<header>,<value>" is taken apart.

    The link is modelled by the replies the instrument will give, in order:
    every query consumes the next reply, and a query issued when no reply is
    left fails with NoReply (the VISA timeout of a silent instrument). */
module ScopeLink {
  import opened Instrument
  import opened Text

  /** Which vendor's command set a request is written in; the command strings
      themselves are not modelled. */
  datatype Dialect = KeysightCommands | SiglentCommands

  /** An abstract request sent over the link. */
  datatype Request =
    | Identify
    | MeasureVpp(dialect: Dialect, chan: int)
    | MeasurePhase(dialect: Dialect, chan1: int, chan2: int)
    | MeasureFrequency(chan: int)
    | MeasureVrms(dialect: Dialect, chan: int)
    | CloseSession

  /** The effect of some work on the link: what it returns or raises, the
      replies still to come afterwards, and the requests it sent, in order. */
  datatype Exchange<T> = Exchange(result: Result<T>, rest: seq<string>, asked: seq<Request>)

  /** The characters stripped from a Siglent voltage field, "()V \n\r\t". */
  const VoltChars: set<char> := {'(', ')', 'V', ' ', '\n', '\r', '\t'}

  /** The characters stripped from a Siglent phase field, "()degree \n\r\t". */
  const PhaseChars: set<char> := {'(', ')', 'd', 'e', 'g', 'r', ' ', '\n', '\r', '\t'}

  /** What a Siglent scope answers instead of a phase it could not measure. */
  const Sentinel: string := "****"

  predicate ChannelOk(numcanales: int, chan: int) {
    1 <= chan <= numcanales
  }

  /** One `conexion.query(q)`: without a connection the attribute lookup
      raises before anything is sent. */
  function Ask(connected: bool, replies: seq<string>, q: Request): Exchange<string> {
    if !connected then Exchange(Failure(NoAttribute), replies, [])
    else if replies == [] then Exchange(Failure(NoReply), [], [q])
    else Exchange(Success(replies[0]), replies[1..], [q])
  }

  /** `_, valor_str = val.split(",")` followed by `valor_str.strip(chars)`:
      the unpacking fails unless the reply holds exactly one comma, and the
      field is what follows the comma, stripped. */
  function SiglentField(reply: string, cs: set<char>): (r: Result<string>)
    ensures r.Success? <==> CountChar(reply, ',') == 1
    ensures r.Failure? ==> r.error == BadFieldCount
  {
    if CountChar(reply, ',') != 1 then Failure(BadFieldCount)
    else Success(Strip(After(reply, ','), cs))
  }

  /** SiglentField is Python's unpacking of `split(",")` into two names:
      it succeeds exactly when the split has two parts, and its field is the
      second part, stripped. */
  lemma SiglentFieldIsSplit(reply: string, cs: set<char>)
    ensures var parts := Split(reply, ',');
            && (SiglentField(reply, cs).Success? <==> |parts| == 2)
            && (|parts| == 2 ==> SiglentField(reply, cs).value == Strip(parts[1], cs))
  {
    var parts := Split(reply, ',');
    if |parts| == 2 {
      assert Join(parts[1..], ',') == parts[1];
      assert reply == parts[0] + [','] + parts[1];
      var n := |parts[0]|;
      assert reply[n] == ',';
      assert forall j :: 0 <= j < n ==> reply[j] == parts[0][j];
      assert IndexOf(reply, ',') == n;
      AfterFirst(reply, ',');
      assert reply[n + 1..] == parts[1];
    }
  }

  /** How a measurement turns its reply into a number. */
  datatype Decoding =
    | Plain                            // float(resultado.strip())
    | Field(chars: set<char>)          // float(valor_str.strip(chars))
    | FieldThenStrip(chars: set<char>) // the same, then .strip() called on the float

  /** The number a reply decodes to. A decoding that ends by calling .strip()
      on a float can only raise; a field decoding needs exactly one comma. */
  function Decode(num: Numerics, how: Decoding, reply: string): (r: Result<real>)
    ensures how.FieldThenStrip? ==> r.Failure?
    ensures !how.Plain? && CountChar(reply, ',') != 1 ==> r == Failure(BadFieldCount)
    ensures r.Success? && how.Field? ==> CountChar(reply, ',') == 1
  {
    match how
    case Plain => ToFloat(num, Strip(reply, Whitespace))
    case Field(cs) =>
      (match SiglentField(reply, cs)
       case Failure(e) => Failure(e)
       case Success(v) => ToFloat(num, v))
    case FieldThenStrip(cs) =>
      (match SiglentField(reply, cs)
       case Failure(e) => Failure(e)
       case Success(v) => if ToFloat(num, v).Success? then Failure(NoAttribute) else Failure(NotANumber))
  }

  /** A measurement made of one channel check (`valid`) and one query `q`.
      A failed check raises InvalidChannel before anything is sent; otherwise
      exactly `q` is sent, one reply is consumed, and only a decoded reply
      makes a result. */
  function Reading(num: Numerics, how: Decoding, valid: bool, connected: bool,
                   replies: seq<string>, q: Request): (e: Exchange<real>)
    ensures !valid ==> e == Exchange(Failure(InvalidChannel), replies, [])
    ensures valid && !connected ==> e == Exchange(Failure(NoAttribute), replies, [])
    ensures valid && connected ==> e.asked == [q] && e.rest == (if replies == [] then [] else replies[1..])
    ensures valid && connected && replies == [] ==> e.result == Failure(NoReply)
    ensures valid && connected && replies != [] ==> e.result == Decode(num, how, replies[0])
    ensures e.result.Success? ==>
      valid && connected && replies != [] && e.result == Decode(num, how, replies[0])
  {
    if !valid then Exchange(Failure(InvalidChannel), replies, [])
    else
      var a := Ask(connected, replies, q);
      match a.result
      case Failure(err) => Exchange(Failure(err), a.rest, a.asked)
      case Success(reply) => Exchange(Decode(num, how, reply), a.rest, a.asked)
  }
}
