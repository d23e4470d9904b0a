/**
 * The options of the global configuration that the field layer reads.
 * They are explicit values here; where the Java code asks the global
 * configuration instance, the model takes a `Config` parameter.
 */
module Konfiguration {

  /**
   * `validate` is the value of "gdv.feld.validate", `truncate` of
   * "gdv.feld.truncate" and `fillBlanks` of "gdv.numfeld.fill-blanks".
   */
  datatype Config = Config(validate: string, truncate: bool, fillBlanks: bool)

  /** The lax configuration, the one `Feld.validate()` and `isValid` validate with. */
  const LAX: Config := Config("lax", false, false)

  /** The strict configuration, the default of the import validator. */
  const STRICT: Config := Config("strict", false, false)
}
