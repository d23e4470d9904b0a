/**
 * The exceptions of the field layer, and the result types that carry them.
 *
 * Java signals an error by throwing; the model returns `Err` (for
 * operations that compute a value) or `Fehlschlag` (for operations that
 * only change state) and names the exception that would have been thrown.
 */
module Ausnahmen {

  datatype Ausnahme =
    | NullWert                     // ValidationException: null is not allowed
    | UngueltigesZeichen(c: char)  // ValidationException: character not allowed
    | KeineZahl                    // ValidationException / NumberFormatException: not an integer
    | Negativ                      // ValidationException: number must not be negative
    | Leerzeichen                  // ValidationException: number missing or padded with blanks
    | NullZeiger                   // NullPointerException
    | ZuLang(laenge: nat)          // IllegalArgumentException: value longer than the field
    | NichtInitialisiert           // IllegalStateException: alignment UNKNOWN
    | IndexAusserhalb              // StringIndexOutOfBoundsException
    | ZuvieleNachkommastellen      // IllegalArgumentException: scale larger than the field
    | FeldFehlt                    // IllegalArgumentException: no field with that identifier
    | Zusicherung                  // AssertionError of a Java `assert`

  datatype Option<T> = None | Some(value: T)

  datatype Result<T> = Ok(value: T) | Err(error: Ausnahme)
  {
    predicate IsFailure() { Err? }

    function PropagateFailure<U>(): Result<U>
      requires Err?
    {
      Err(error)
    }

    function Extract(): T
      requires Ok?
    {
      value
    }
  }

  /** The outcome of an operation that only changes state. */
  datatype Ausgang = Erfolg | Fehlschlag(grund: Ausnahme)
}
