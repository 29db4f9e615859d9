/**
 * The few Python 2 values and outcomes the test-bench scripts need: the scripts run
 * under Python 2 (their mixed tab/space indentation is rejected by Python 3).
 */
module PyRuntime {

  /** A value held in one of the scripts' force lists: an `int` or a `str` (CSV cells). */
  datatype PyValue = PyInt(i: int) | PyStr(s: string)

  /** The exceptions the modelled code can raise without catching them. */
  datatype PyError = IndexError | AttributeError

  /**
   * How a call ends: it returns a value, `quit()` ends the program (SystemExit), or an
   * uncaught exception ends it.
   */
  datatype Outcome<T> = Return(value: T) | Quit | Raise(error: PyError)

  /**
   * Python 2's `a > b` for an `int` on the right: a `str` compares greater than every
   * number (numbers order before all other types).
   */
  predicate Greater(a: PyValue, b: int) {
    match a
    case PyInt(i) => i > b
    case PyStr(_) => true
  }
}
