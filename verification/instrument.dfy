/** Values shared by every instrument model: results, the exceptions the
    instrument classes raise, vendor names and the numeric primitives that
    are kept uninterpreted. */
module Instrument {

  datatype Option<T> = None | Some(value: T)

  /** A call that either returns a value or raises one of the source's exceptions. */
  datatype Result<T> = Success(value: T) | Failure(error: Error)

  /** A call that returns nothing or raises. */
  datatype Outcome = Pass | Fail(error: Error)

  /** The exceptions raised by the instrument classes, by cause. */
  datatype Error =
    | InvalidChannel      // ValueError: channel index outside 1..numcanales (or equal channels for power)
    | AmplitudeTooHigh    // ValueError: generator amplitude above the 0.8 V ceiling
    | BadFieldCount       // ValueError: a reply that does not split into exactly two fields
    | NotANumber          // ValueError: float() refused the text
    | PhaseNotMeasured    // RuntimeError: a phase reading after too many '****' replies
    | IdentifyFailed      // RuntimeError: the identification query raised a VISA error
    | NotConnected        // RuntimeError: no open connection to identify or close
    | NoKnownScope        // LookupError: no connected device is a known oscilloscope
    | NoReply             // VISA error: the instrument gave no (further) reply
    | NoAttribute         // AttributeError: a missing or None connection, or .strip() on a float
    | UnboundLocal        // UnboundLocalError: a loop variable read before assignment

  /** The model name an instrument object stores in `modelo`; NoModel is Python's None. */
  datatype Vendor = NoModel | Keysight | Siglent | Tektronix | RS | Desconocido | Simulacion

  /** The numeric primitives the source calls and this model leaves uninterpreted:
      Python's float() on a reply text, and cos(deg2rad(x)) from numpy. */
  datatype Numerics = Numerics(toFloat: string -> Option<real>, cosDegrees: real -> real)

  /** float(text): the parsed value, or ValueError. */
  function ToFloat(num: Numerics, text: string): (r: Result<real>)
    ensures r.Success? <==> num.toFloat(text).Some?
    ensures r.Success? ==> Some(r.value) == num.toFloat(text)
    ensures r.Failure? ==> r.error == NotANumber
  {
    match num.toFloat(text)
    case Some(x) => Success(x)
    case None => Failure(NotANumber)
  }
}
