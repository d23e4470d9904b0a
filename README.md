# GDV field layer, modelled and proved in Dafny

This project models the field layer of gdv.xport, a Java library for the
fixed-width, byte-addressed records of the GDV insurance data interchange
format, and proves properties of that model with Dafny.

What is modelled:

- **Feld** (`feld.dfy`). A field is a cell with an identifier, a 1-based
  byte address, an alignment (LEFT/RIGHT/UNKNOWN) and a content whose
  length is the field length.
  - The value `Feld.FeldWert` has functions that specify every content
    operation: `Gesetzt` is `setInhalt(String)`, `Zurueckgesetzt` is
    `resetInhalt`, and `MitAnzahlBytes` is `setAnzahlBytes`. The same
    functions give the end address, `overlapsWith`, `isEmpty`,
    `hasValue`, `validate`/`isValid`, `equals` and `compareTo`.
  - The class `Feld.Feld` keeps the content in an `array<char>` (the
    `StringBuilder`) and changes it in place. Each of its methods is
    proved against the function that specifies it.
  - `feld_beispiele.dfy` holds worked examples of `setInhalt` on a
    numeric field with `gdv.numfeld.fill-blanks` on and off.
  - The subclasses `NumFeld`, `Betrag`, `AlphaNumFeld` and `Datum` are a
    tag `FeldArt`. The validator class is a separate tag `ValidatorArt`.
- **Validators** (`validator.dfy`). This covers `Feld.Validator`,
  `NumFeld.Validator` and `AlphaNumFeld.Validator`. The value of
  `gdv.feld.validate` picks the mode: off, lax or strict.
- **NumFeld and Betrag** (`numfeld.dfy`, `betrag.dfy`). These cover the
  left truncation with saturation to nines, the zero-pattern rendering of
  `setInhalt(long)`, `toLong`/`toInt` and `hasValue`. `hasValue` reads
  the content as a `BigDecimal` (an unscaled value and a scale), with
  worked examples in `dezimal_beispiele.dfy`. A `Betrag` stores
  hundredths.
- **Copies** (`feldvarianten.dfy`). This covers `clone`, `mitConfig`,
  `mitNachkommastellen`, the `NumFeld` and `Betrag` constructors, and
  `Betrag.of`.
- **Vorsatz** (`vorsatz.dfy`). The leading record stores its creation
  period in one 16-byte field and shows it as two 8-byte dates.
  - The model covers reading and setting the start and the end, `getFeld`,
    `getFelder`, the version identifiers and `setVersion`.
  - The record's field list is a `seq` in the class `Vorsatz.Vorsatz`,
    whose methods reassign it.
- **Importer.readSatzTyp** (`importer.dfy`). This is the decision table
  that says which extra discriminators are read after the branch (Sparte)
  and what the record-type key looks like.
- **SatzValidator** (`satzvalidator.dfy`). This is the observer that
  validates each imported record and counts records and sub-records. It
  is a class whose `Notice` is proved against a fold over the records
  seen so far.
- **Layout tables** (`layout.dfy`). These are the sub-record 1 layouts of
  life insurance types 5 and 9 as constant sequences. They tile bytes 43
  to 255 with no gaps and no overlaps.
- **Supporting modules.**
  - `zahlen.dfy`: Java `int`/`long` semantics, meaning wrap-around,
    truncating division, `Long.toString`, `%0Nd`, `BigInteger`,
    `Long.parseLong` and `Integer.parseInt`.
  - `zeichenketten.dfy`: the `StringUtils` and `String` operations in use.
  - `ausnahmen.dfy`: the exceptions, carried as `Result` and `Ausgang`.
  - `konfiguration.dfy`: the configuration options, passed as parameters.

The code and the documented behaviour differ in three places:

- `Betrag.setInhalt(int)` forms `n * 100` in `int` arithmetic, which can
  overflow.
- `getEndAdresse` can wrap around, so `isValid` can accept a field that
  lies beyond byte 256.
- For the same reason `overlapsWith` can miss an overlap near the end of
  the `int` range.

All three are under "Findings". The model follows the intended behaviour and
keeps the code as written beside it.

## Model

| member | source | states |
|---|---|---|
| Feld.EndAdresseGenau | lib/src/main/java/gdv/xport/feld/Feld.java:561-563 | A byte lies in the field iff its offset from the start address is below the length, so the end address is start + length - 1. |
| Feld.FeldWert.EndAdresseAsWritten | lib/src/main/java/gdv/xport/feld/Feld.java:561-563 | The end address in `int` arithmetic; where the exact sum fits an `int` it equals it. |
| Feld.FeldWert.VerstoesseBei | lib/src/main/java/gdv/xport/feld/Feld.java:660-675 | `validate` reports a too-small address iff the address is below 1, an unknown alignment iff UNKNOWN, an exceeded end iff the end is beyond 256, and the validator's error iff the content fails validation. |
| Feld.Leer | lib/src/main/java/gdv/xport/feld/Feld.java:161-168 | The layout constructor makes a field of the given length holding only blanks. |
| Feld.KuerzeFeld | lib/src/main/java/gdv/xport/feld/Feld.java:426-431 | Truncation never exceeds the field; for a non-numeric field it keeps the first characters, whatever the alignment. |
| Feld.Vorbereitet | lib/src/main/java/gdv/xport/feld/Feld.java:397-400 | With truncation on, the prepared value fits the field; a value the validator refuses fails the preparation. |
| Feld.Zurueckgesetzt | lib/src/main/java/gdv/xport/feld/Feld.java:517-522 | `resetInhalt` keeps the length and puts the fill character at every position. |
| Feld.Platziert | lib/src/main/java/gdv/xport/feld/Feld.java:405-414 | A value that fits is written from the first byte (LEFT) or ending at the last byte (RIGHT); the length is kept. |
| Feld.Gesetzt | lib/src/main/java/gdv/xport/feld/Feld.java:397-418 | `setInhalt(String)` never changes the field length. |
| Feld.GesetztZeichen | lib/src/main/java/gdv/xport/feld/Feld.java:476-491 | `setInhalt(char)` on a non-numeric field holds the character followed by blanks; on a field of 0 bytes it fails with an index error. |
| Feld.GesetztLong | lib/src/main/java/gdv/xport/feld/Feld.java:466-468 | `setInhalt(long)` never changes the field length. |
| Feld.GesetztInt | lib/src/main/java/gdv/xport/feld/Betrag.java:135-138 | `setInhalt(int)` keeps the length; in a `Betrag` a negative number fails the assertion and leaves the content unchanged. |
| Feld.GesetztIntAsWritten | lib/src/main/java/gdv/xport/feld/Betrag.java:135-138 | `Betrag.setInhalt(int)` as written, with the product in `int` arithmetic; the length is kept. |
| Feld.MitAnzahlBytes | lib/src/main/java/gdv/xport/feld/Feld.java:531-536 | `setAnzahlBytes(n)` keeps the content and appends blanks up to `n`; a smaller `n` fails the assertion and changes nothing. |
| Feld.GesetztGenau | lib/src/main/java/gdv/xport/feld/Feld.java:397-418 | `setInhalt` succeeds iff the prepared value fits and the alignment is known. A failure keeps the content, except that an unknown alignment leaves the reset content; a value still too long raises the length error. |
| Feld.VorbereitetText | lib/src/main/java/gdv/xport/feld/Feld.java:397-400 | For a non-numeric field the preparation is the validator, then the cut to the field length when truncation is on. |
| Feld.GesetztPlatziert | lib/src/main/java/gdv/xport/feld/Feld.java:401-414 | Once the prepared value fits and the alignment is known, `setInhalt` succeeds and writes it by alignment. |
| Feld.TextPlatziert | lib/src/main/java/gdv/xport/feld/Feld.java:405-414 | A value that fits is stored LEFT as the value followed by blanks and RIGHT as blanks followed by the value. |
| Feld.PlatziertZerlegt | lib/src/main/java/gdv/xport/feld/Feld.java:408-413 | The write is the `StringBuilder.replace` of the reset content at offset 0 (LEFT) or at length minus value length (RIGHT). |
| Feld.PlatziertLeerzeichen | lib/src/main/java/gdv/xport/feld/Feld.java:405-414 | In a non-numeric field the free side is padded with blanks. |
| Feld.TextGekuerzt | lib/src/main/java/gdv/xport/feld/Feld.java:426-431 | With truncation on, an over-long value keeps its first length characters in LEFT and RIGHT fields alike. |
| Feld.Abgelehnt | lib/src/main/java/gdv/xport/feld/Feld.java:399 | A value the validator refuses raises the validator's error and leaves the content unchanged. |
| Feld.ZuLangAbgelehnt | lib/src/main/java/gdv/xport/feld/Feld.java:401-404 | With truncation off, a prepared value longer than the field raises the length error and leaves the content unchanged. |
| Feld.TextZuLang | lib/src/main/java/gdv/xport/feld/Feld.java:400-404 | With truncation off, a valid value longer than a non-numeric field is refused and the content is kept. |
| Feld.Verbatim | lib/src/main/java/gdv/xport/feld/Feld.java:397-418 | A value of exactly the field length that the preparation passes unchanged is stored verbatim. |
| Feld.TextVerbatim | lib/src/main/java/gdv/xport/feld/Feld.java:397-418 | A valid value of exactly the field length is stored verbatim in a non-numeric field. |
| Feld.VorbereitetZiffern | lib/src/main/java/gdv/xport/feld/NumFeld.java:253-260 | A digit string passes the numeric preparation unchanged, up to the truncation. |
| FeldBeispiele.FuellBlanksAn | lib/src/main/java/gdv/xport/feld/NumFeld.java:253-260 | With `gdv.numfeld.fill-blanks` on, " 12" set into a 3-byte numeric field is trimmed before it is stored and gives "012". |
| FeldBeispiele.FuellBlanksAus | lib/src/main/java/gdv/xport/feld/NumFeld.java:253-260 | With fill-blanks off, the same " 12" passes lax validation and is stored as given, blank included. |
| Feld.GesetztLongNum | lib/src/main/java/gdv/xport/feld/NumFeld.java:235-240 | A numeric field sets a non-negative `long` as the string of its digits zero-padded to the pattern width. |
| Feld.KuerzeZahl | lib/src/main/java/gdv/xport/feld/NumFeld.java:274-282 | Numeric truncation of the padded digits of a number that fits yields its bare digits. |
| Feld.ZahlPlatziert | lib/src/main/java/gdv/xport/feld/NumFeld.java:235-240 | A right-aligned numeric field writes the padded digits, or with truncation on the bare digits, successfully. |
| Feld.PlatziertAufgefuellt | lib/src/main/java/gdv/xport/feld/NumFeld.java:266-271 | Digits written right into a zero-filled field give the digits zero-padded to the field length. |
| Feld.ZahlRechts | lib/src/main/java/gdv/xport/feld/NumFeld.java:235-240 | `setInhalt(n)` on a right-aligned numeric field stores the digits of any fitting `n`, zero-padded to the field length ("00099"). |
| Feld.ZiffernVerbatim | lib/src/main/java/gdv/xport/feld/NumFeld.java:253-260 | A digit string of the field length is stored verbatim in a right-aligned numeric field. |
| Feld.ZurueckgesetztOhneWert | lib/src/main/java/gdv/xport/feld/Feld.java:612-615 | After a reset a non-numeric field is empty, and a right-aligned or non-numeric field has no value. |
| Feld.OhneWert | lib/src/main/java/gdv/xport/feld/Feld.java:612-615 | Blank content has no value, and in a right-aligned field content made of blanks and zeros has none either. |
| Feld.TextHatWert | lib/src/main/java/gdv/xport/feld/Feld.java:612-615 | A non-numeric field has a value iff some character is not whitespace and, when right-aligned, is not '0'. |
| Feld.ZeichenGenau | lib/src/main/java/gdv/xport/feld/Feld.java:612-615 | `Feld.hasValue` holds iff some character is not whitespace and, when right-aligned, is not '0'. |
| Feld.NumHatWert | lib/src/main/java/gdv/xport/feld/NumFeld.java:368-375 | A numeric field has a value iff `Feld.hasValue` holds and the content is a decimal that is not `BigDecimal.ZERO` after moving the point by the decimal places. |
| Feld.OverlapSymmetrisch | lib/src/main/java/gdv/xport/feld/Feld.java:572-580 | `overlapsWith` is symmetric. |
| Feld.OverlapGenau | lib/src/main/java/gdv/xport/feld/Feld.java:572-580 | Fields at the same address never overlap; fields at different addresses overlap iff some byte lies in both. |
| Feld.BeispielOverlap | lib/src/main/java/gdv/xport/feld/Feld.java:572-580 | Bytes 1-2 and 3-4 do not overlap, and bytes 2-3 overlap both. |
| Feld.OverlapLeer | lib/src/main/java/gdv/xport/feld/Feld.java:572-580 | A field of 0 bytes that starts inside another overlaps it, though no byte lies in both. |
| Feld.OverlapUeberlauf | lib/src/main/java/gdv/xport/feld/Feld.java:560-580 | Ten bytes at 2147483640 and one byte at 2147483645 share a byte, but `overlapsWith` as written says they do not overlap. |
| Feld.OverlapOhneUeberlauf | lib/src/main/java/gdv/xport/feld/Feld.java:572-580 | Wherever both end addresses fit an `int`, `overlapsWith` as written and as intended agree. |
| Feld.IsValidGenau | lib/src/main/java/gdv/xport/feld/Feld.java:629-640 | `isValid` holds iff the address is at least 1, the end is at most 256, the alignment is known and the content passes lax validation; equivalently iff `validate(LAX)` reports nothing. |
| Feld.BeispielUngueltig | lib/src/main/java/gdv/xport/feld/Feld.java:629-640 | Two bytes at 256, an address of 0 and an unknown alignment each make a field invalid. |
| Feld.IsValidAsWrittenGenau | lib/src/main/java/gdv/xport/feld/Feld.java:629-640 | `isValid` as written holds iff the address is at least 1, the `int` end is at most 256, the alignment is known and the content is valid. |
| Feld.LeerzeichenGueltig | lib/src/main/java/gdv/xport/feld/Feld.java:924-933 | Blank content passes lax validation. |
| Feld.IsValidUeberlauf | lib/src/main/java/gdv/xport/feld/Feld.java:561-563 | Two bytes at the largest `int` address pass `isValid` as written but are invalid by the intended rule. |
| Feld.IsValidOhneUeberlauf | lib/src/main/java/gdv/xport/feld/Feld.java:629-640 | Wherever the end address fits an `int`, `isValid` as written and as intended agree. |
| Feld.GleichOhneAusrichtung | lib/src/main/java/gdv/xport/feld/Feld.java:716-723 | `equals` ignores the alignment and is reflexive, symmetric and transitive. |
| Feld.CompareToOrdnet | lib/src/main/java/gdv/xport/feld/Feld.java:743-745 | For non-negative addresses `compareTo` is negative iff the start is smaller, zero iff equal, and antisymmetric. |
| Feld.Feld.Layout | lib/src/main/java/gdv/xport/feld/Feld.java:161-168 | The constructed field is the blank field of the given layout, in a fresh buffer. |
| Feld.Feld.Standard | lib/src/main/java/gdv/xport/feld/Feld.java:77-79 | `Feld()` is an unnamed LEFT field of 213 blanks at 43. |
| Feld.Feld.NeuesNumFeld | lib/src/main/java/gdv/xport/feld/NumFeld.java:138-143 | A new `NumFeld` is right-aligned and holds only '0'. |
| Feld.Feld.NeuesAlphaNumFeld | lib/src/main/java/gdv/xport/feld/AlphaNumFeld.java:77-80 | A new `AlphaNumFeld` is blank with the alignment given (LEFT for the three-argument constructor). |
| Feld.Feld.ResetInhalt | lib/src/main/java/gdv/xport/feld/Feld.java:517-522 | The buffer becomes the reset content; nothing else changes. |
| Feld.Feld.SetInhalt | lib/src/main/java/gdv/xport/feld/Feld.java:397-418 | The buffer and the outcome are those of `Gesetzt` on the old field. |
| Feld.Feld.SetInhaltZeichen | lib/src/main/java/gdv/xport/feld/Feld.java:476-479 | The buffer and the outcome are those of `GesetztZeichen`. |
| Feld.Feld.SetInhaltLong | lib/src/main/java/gdv/xport/feld/Feld.java:466-468 | The buffer and the outcome are those of `GesetztLong`. |
| Feld.Feld.SetInhaltInt | lib/src/main/java/gdv/xport/feld/Feld.java:457-459 | The buffer and the outcome are those of `GesetztInt`. |
| Feld.Feld.SetAnzahlBytes | lib/src/main/java/gdv/xport/feld/Feld.java:531-536 | The buffer and the outcome are those of `MitAnzahlBytes`; the buffer is either the old array or a fresh one. |
| NumFeld.OhneFuehrendeNullen | lib/src/main/java/gdv/xport/feld/NumFeld.java:274-276 | Only leading '0's are removed, every removed character is '0', and a result longer than 1 does not start with '0'. |
| NumFeld.KuerzeSaettigt | lib/src/main/java/gdv/xport/feld/NumFeld.java:274-282 | Truncation strips leading zeros, then saturates to all nines if still too long; the result never exceeds the field. |
| NumFeld.OhneNullenZeroPad | lib/src/main/java/gdv/xport/feld/NumFeld.java:274-276 | Stripping the zeros of a zero-padded number gives back its digits. |
| NumFeld.DarstellungLaenge | lib/src/main/java/gdv/xport/feld/NumFeld.java:235-240 | The zero pattern pads the digits of the magnitude to at least the field length, but to no more than 309, and puts one '-' in front of a negative number. |
| NumFeld.DarstellungRundreise | lib/src/main/java/gdv/xport/feld/NumFeld.java:235-240 | `toLong` reads every formatted `long` back, and `toInt` every formatted `int`. |
| NumFeld.ToLongNegativ | lib/src/main/java/gdv/xport/feld/NumFeld.java:304-310 | A '-' before zero-padded digits reads back as the negative number through `toLong`, and through `toInt` where that fits. |
| NumFeld.ToLong | lib/src/main/java/gdv/xport/feld/NumFeld.java:304-310 | `toLong` succeeds iff the trimmed content without a leading '+' parses as a `long`; otherwise it fails as no number. |
| NumFeld.ToInt | lib/src/main/java/gdv/xport/feld/NumFeld.java:290-296 | `toInt` succeeds iff the trimmed content without a leading '+' parses as an `int`; otherwise it fails as no number. |
| NumFeld.HatZahlwert | lib/src/main/java/gdv/xport/feld/NumFeld.java:368-375 | The numeric part of `hasValue` needs content that `new BigDecimal` accepts after trimming. Every non-zero number is a value, and a zero is one iff its scale plus the decimal places is positive. |
| NumFeld.PunktNachLinks | lib/src/main/java/gdv/xport/feld/NumFeld.java:341-344 | `movePointLeft(n)` keeps zero and non-zero apart and never gives a negative scale. Where the scale plus `n` is non-negative, it keeps the unscaled value and adds `n` to the scale. |
| NumFeld.DezimalGanzzahl | lib/src/main/java/gdv/xport/feld/NumFeld.java:341-344 | An integer in the `BigInteger` syntax is the `BigDecimal` of that value with scale 0. |
| NumFeld.HatZahlwertGanzzahl | lib/src/main/java/gdv/xport/feld/NumFeld.java:368-375 | For integer content, the numeric part of `hasValue` holds iff the number is not zero or there are decimal places. |
| NumFeld.HatZahlwertVon | lib/src/main/java/gdv/xport/feld/NumFeld.java:368-375 | Content whose trimmed form is a non-zero decimal has a value. |
| DezimalBeispiele.BeispielDezimalBruch | lib/src/main/java/gdv/xport/feld/NumFeld.java:341-344 | "01.5" is the unscaled value 15 with scale 1. |
| DezimalBeispiele.BeispielDezimalNull | lib/src/main/java/gdv/xport/feld/NumFeld.java:341-344 | "00.0" is zero with scale 1. |
| DezimalBeispiele.BeispielDezimalExponent | lib/src/main/java/gdv/xport/feld/NumFeld.java:341-344 | In "1.5e1" the exponent lowers the scale: it is 15 with scale 0. |
| DezimalBeispiele.BeispielDezimalUngueltig | lib/src/main/java/gdv/xport/feld/NumFeld.java:341-344 | "1.5.0", with a second '.', is no number. |
| DezimalBeispiele.HatZahlwertBruch | lib/src/main/java/gdv/xport/feld/NumFeld.java:368-375 | "01.5" has a value. |
| DezimalBeispiele.HatZahlwertNull | lib/src/main/java/gdv/xport/feld/NumFeld.java:368-375 | "00.0" has a value, because its zero has scale 1 and so is not `BigDecimal.ZERO`. |
| DezimalBeispiele.HatZahlwertNullen | lib/src/main/java/gdv/xport/feld/NumFeld.java:368-375 | "0000" without decimal places has no value. |
| DezimalBeispiele.HatZahlwertUngueltig | lib/src/main/java/gdv/xport/feld/NumFeld.java:368-375 | "1.5.0" has no value, because it is no number. |
| NumFeld.ToLongZiffern | lib/src/main/java/gdv/xport/feld/NumFeld.java:304-310 | A digit string reads back as its value through `toLong`, and through `toInt` where that fits. |
| NumFeld.ToLongZeroPad | lib/src/main/java/gdv/xport/feld/NumFeld.java:290-310 | Any zero-padded rendering of a `long` reads back as that number. |
| NumFeld.BeispielKuerze | lib/src/main/java/gdv/xport/feld/NumFeld.java:274-282 | "100000" and "123000" saturate to "99999" in 5 bytes and "00099" becomes "99". |
| Validator.ModusVon | lib/src/main/java/gdv/xport/feld/Feld.java:903-915 | "true", "on" and "lax", in any case, select lax; "strict" selects strict; anything else turns validation off. |
| Validator.BasisLax | lib/src/main/java/gdv/xport/feld/Feld.java:924-946 | Lax validation passes a value unchanged iff every character is allowed; else it names an offending character of the value. |
| Validator.NumLax | lib/src/main/java/gdv/xport/feld/NumFeld.java:420-434 | Numeric lax validation passes iff the characters are allowed and the value is blank or a non-negative integer; it fails with no number or negative. |
| Validator.NumStrikt | lib/src/main/java/gdv/xport/feld/NumFeld.java:437-443 | Numeric strict validation refuses blank values and surrounding blanks, then applies the lax check. |
| Validator.AlphaNumStrikt | lib/src/main/java/gdv/xport/feld/AlphaNumFeld.java:187-193 | Alphanumeric strict validation passes iff lax does and yields the trimmed value. |
| Validator.ValidateLax | lib/src/main/java/gdv/xport/feld/NumFeld.java:420-434 | The lax check of either class returns the value unchanged, and only for allowed characters. |
| Validator.ValidateStrikt | lib/src/main/java/gdv/xport/feld/Feld.java:955-957 | The strict checks pass only allowed characters and return the value, trimmed only by the alphanumeric validator. |
| Validator.Validate | lib/src/main/java/gdv/xport/feld/Feld.java:903-915 | With validation off the value passes unchanged; any passed value is the input (or its trimmed form in strict alphanumeric mode) and has only allowed characters when validation is on. |
| Validator.ValidateNullable | lib/src/main/java/gdv/xport/feld/Feld.java:924-928 | A null value passes iff validation is off; a non-null value passes iff `Validate` does, with its result. |
| Validator.ZiffernAkzeptiert | lib/src/main/java/gdv/xport/feld/NumFeld.java:420-443 | A non-empty digit string passes every validator in every mode unchanged. |
| Validator.BasisLaxGenau | lib/src/main/java/gdv/xport/feld/Feld.java:935-946 | Lax validation accepts exactly the strings each of whose characters is '§' or allowed. |
| Validator.NumLaxLeer | lib/src/main/java/gdv/xport/feld/NumFeld.java:423 | Numeric lax validation accepts blank values. |
| Validator.BeispielKeineZahl | lib/src/main/java/gdv/xport/feld/NumFeld.java:429-431 | "AA" fails as no number. |
| Validator.BeispielNegativ | lib/src/main/java/gdv/xport/feld/NumFeld.java:426-428 | "-1" fails as negative. |
| Validator.BeispielLeerzeichen | lib/src/main/java/gdv/xport/feld/NumFeld.java:438-439 | " 1" fails numeric strict validation for its blank. |
| Validator.BeispielZeichen | lib/src/main/java/gdv/xport/feld/Feld.java:935-946 | '§' and the umlauts are allowed, a control character is not. |
| Validator.BeispielModus | lib/src/main/java/gdv/xport/feld/Feld.java:904 | The mode names are compared ignoring case. |
| Betrag.CentAlsInt | lib/src/main/java/gdv/xport/feld/Betrag.java:137 | `n * 100` in `int` arithmetic, equal to the exact product where that fits. |
| Betrag.Cent | lib/src/main/java/gdv/xport/feld/Betrag.java:137 | The stored hundredths divided by 100 give back `n`, and they are non-negative iff `n` is. |
| Betrag.ToLong | lib/src/main/java/gdv/xport/feld/Betrag.java:159-161 | `toLong` succeeds iff `NumFeld.toLong` does. It is the stored value divided by 100 and rounded toward zero, from below for a non-negative value and from above for a negative one. |
| Betrag.ToInt | lib/src/main/java/gdv/xport/feld/Betrag.java:154-156 | `toInt` succeeds iff `NumFeld.toInt` does. It is the stored `int` divided by 100 and rounded toward zero, from below for a non-negative value and from above for a negative one. |
| Betrag.CentAlsIntUeberlauf | lib/src/main/java/gdv/xport/feld/Betrag.java:137 | 21474837 * 100 wraps to -2147483596 in `int` arithmetic but is 2147483700 as intended. |
| Betrag.CentVergleich | lib/src/main/java/gdv/xport/feld/Betrag.java:137 | The `int` product and the intended one agree exactly when the product fits an `int`. |
| Feldvarianten.Kopie | lib/src/main/java/gdv/xport/feld/Feld.java:288-291 | A copy keeps identifier, address, alignment and length and takes the new class, validator and configuration. |
| Feldvarianten.BetragMitInhalt | lib/src/main/java/gdv/xport/feld/Betrag.java:88-91 | A `Betrag` built from a value is right-aligned with 2 decimal places and the value's length. |
| Feldvarianten.MitNachkommastellen | lib/src/main/java/gdv/xport/feld/NumFeld.java:181-187 | More decimal places than bytes raise the exception. |
| Feldvarianten.BetragVon | lib/src/main/java/gdv/xport/feld/Betrag.java:177-181 | `Betrag.of` yields a `Betrag` with 2 decimal places of the field's length. |
| Feldvarianten.NumFeldNeuNullen | lib/src/main/java/gdv/xport/feld/NumFeld.java:138-143 | A new numeric field of at least one byte is right-aligned and holds only zeros. |
| Feldvarianten.NumFeldNeuLeer | lib/src/main/java/gdv/xport/feld/NumFeld.java:138-143 | A new numeric field of 0 bytes can be created iff truncation is on. |
| Feldvarianten.KlonText | lib/src/main/java/gdv/xport/feld/Feld.java:843-845 | A valid non-numeric field clones to the same field with the base validator, and the clone equals the original. |
| Feldvarianten.KlonZiffern | lib/src/main/java/gdv/xport/feld/NumFeld.java:396-398 | A right-aligned numeric field of digits clones to the same field with the numeric validator, equal to the original. |
| Feldvarianten.MitConfigText | lib/src/main/java/gdv/xport/feld/Feld.java:127-129 | `mitConfig` of a valid text or date field keeps everything but validator configuration. |
| Feldvarianten.MitConfigAlphaNum | lib/src/main/java/gdv/xport/feld/AlphaNumFeld.java:123-125 | `mitConfig` of an alphanumeric field its validator passes unchanged keeps everything but the configuration. |
| Feldvarianten.MitConfigNum | lib/src/main/java/gdv/xport/feld/NumFeld.java:197-199 | `mitConfig` of a numeric field of digits keeps everything, the decimal places included, but the configuration. |
| Feldvarianten.BetragMitZiffern | lib/src/main/java/gdv/xport/feld/Betrag.java:88-91 | A `Betrag` built from a digit string holds exactly that string, right-aligned. |
| Feldvarianten.BetragVonKopiert | lib/src/main/java/gdv/xport/feld/Betrag.java:177-181 | `Betrag.of` copies identifier, length, address and a digit content, and the result equals the field. |
| Feldvarianten.MitConfigBetrag | lib/src/main/java/gdv/xport/feld/Betrag.java:127-129 | `mitConfig` of a `Betrag` of digits is the same amount under the new configuration. |
| Feldvarianten.MitConfigIstBetrag | lib/src/main/java/gdv/xport/feld/Betrag.java:80-82 | `Betrag.mitConfig` rebuilds the amount from identifier, address and content. |
| Feldvarianten.MitNachkommastellenKopiert | lib/src/main/java/gdv/xport/feld/NumFeld.java:181-187 | Within the limit `mitNachkommastellen` keeps identifier, address and a digit content and sets the decimal places. |
| Feldvarianten.LongRundreise | lib/src/main/java/gdv/xport/feld/NumFeld.java:235-240 | After `setInhalt(n)` for a fitting `n`, `toLong` reads back `n` (and `toInt` where it fits). |
| Feldvarianten.BetragAlsLong | lib/src/main/java/gdv/xport/feld/Betrag.java:135-138 | `Betrag.setInhalt(n)` for `n >= 0` is `setInhalt` of the `long` hundredths. |
| Feldvarianten.BetragCent | lib/src/main/java/gdv/xport/feld/Betrag.java:137 | The hundredths of a non-negative `int` fit a `long` and divide back to it. |
| Feldvarianten.BetragRundreise | lib/src/main/java/gdv/xport/feld/Betrag.java:159-161 | After `Betrag.setInhalt(n)` for a fitting `n >= 0`, `toLong` reads back `n`. |
| Feldvarianten.Saettigung | lib/src/main/java/gdv/xport/feld/NumFeld.java:274-282 | With truncation on, a number with more digits than bytes is stored as all nines. |
| Feldvarianten.ZahlZuLang | lib/src/main/java/gdv/xport/feld/Feld.java:401-404 | With truncation off, a number with more digits than bytes is refused and the content kept. |
| Feldvarianten.NegativGeprueft | lib/src/main/java/gdv/xport/feld/NumFeld.java:426-428 | With validation on, the numeric validator refuses a negative number. |
| Feldvarianten.GesetztLongNegativ | lib/src/main/java/gdv/xport/feld/NumFeld.java:235-240 | A negative `long` is rendered as '-' followed by its zero-padded digits. |
| Feldvarianten.NegativAbgelehnt | lib/src/main/java/gdv/xport/feld/NumFeld.java:420-434 | With validation on, `setInhalt` of a negative `long` in a numeric field fails as negative and keeps the content. |
| Feldvarianten.MinusAbgelehnt | lib/src/main/java/gdv/xport/feld/NumFeld.java:426-428 | A '-' followed by non-zero digits is refused as negative and the content is kept. |
| Feldvarianten.BetragUeberlauf | lib/src/main/java/gdv/xport/feld/Betrag.java:135-138 | As written, `setInhalt(21474837)` on a validating `Betrag` fails as negative because the product wraps. |
| Feldvarianten.BetragOhneUeberlauf | lib/src/main/java/gdv/xport/feld/Betrag.java:135-138 | As intended, `setInhalt(21474837)` on a 10-byte `Betrag` succeeds and reads back 21474837. |
| Zahlen.Wrap32 | lib/src/main/java/gdv/xport/event/SatzValidator.java:52-53 | `int` arithmetic yields the `int` congruent to the exact result modulo 2^32, the result itself where it fits. |
| Zahlen.JavaDiv | lib/src/main/java/gdv/xport/feld/Betrag.java:154-161 | Java division rounds toward zero: the remainder has the sign of the dividend and is smaller than the divisor. |
| Zahlen.ParseLongToString | lib/src/main/java/gdv/xport/feld/Feld.java:466-468 | `Long.toString(n)` parses back to `n`. |
| Zahlen.FormatDRundreise | lib/src/main/java/gdv/xport/satz/Vorsatz.java:92 | "%0wd" output parses back to its number, holds no blank and is at least `w` characters long. |
| Zeichenketten.Trim | lib/src/main/java/gdv/xport/feld/NumFeld.java:291 | The trimmed string has no trimmable character at either end, and is empty iff every character is trimmable. |
| Zeichenketten.ReplaceChars | lib/src/main/java/gdv/xport/feld/Feld.java:614 | `replaceChars` keeps the length and replaces exactly the given character. |
| Zeichenketten.ToLower | lib/src/main/java/gdv/xport/feld/Feld.java:904 | Lower-casing keeps the length and maps each character on its own. |
| Zeichenketten.ErstesUngueltiges | lib/src/main/java/gdv/xport/feld/Feld.java:929-943 | The reported character is not allowed and is the first such character of the value. |
| Zeichenketten.Split | lib/src/main/java/gdv/xport/satz/Vorsatz.java:341 | `StringUtils.split` yields non-empty parts without the separator. |
| Importer.ReadSatzTyp | lib/src/main/java/gdv/xport/io/Importer.java:60-84 | The key starts with the record kind and the branch, and the branch is always read first. |
| Importer.ReadSatzTypTabelle | lib/src/main/java/gdv/xport/io/Importer.java:60-84 | The reads are the branch followed by the extra discriminators of the table, and the key is the record kind followed by the values read. |
| Importer.AusserhalbBereich | lib/src/main/java/gdv/xport/io/Importer.java:60-63 | Outside [210, 300) the key is exactly (record kind, branch) and only the branch is read. |
| Importer.LebenVierteilig | lib/src/main/java/gdv/xport/io/Importer.java:64-69 | For 220 or 221 with branch 10 the type of life insurance and the sub-record number are read, giving a four-part key. |
| Importer.Schluessellaenge | lib/src/main/java/gdv/xport/io/Importer.java:63-83 | The key has 4 parts iff 220/221 with branch 10, 3 iff 220 with branch 20 or 580, and 2 iff nothing beyond the branch is read. |
| Importer.Exklusiv | lib/src/main/java/gdv/xport/io/Importer.java:64-81 | At most one extra-discriminator path is taken; the follow-up number only for branch 20, the building-society kind only for branch 580. |
| Importer.NurGeleseneWerte | lib/src/main/java/gdv/xport/io/Importer.java:60-84 | The key depends only on the values actually read. |
| Importer.BeispielZweiteilig | lib/src/main/java/gdv/xport/io/Importer.java:70-80 | 221/20 and 230/10 give two-part keys; 220/580 adds the building-society kind. |
| SatzValidator.VerletzungenVerkettet | lib/src/main/java/gdv/xport/event/SatzValidator.java:41-55 | The violations and the sub-record counts of two runs concatenate. |
| SatzValidator.LaufVerletzungen | lib/src/main/java/gdv/xport/event/SatzValidator.java:54 | The accumulated violations are the in-order concatenation of each record's validation result. |
| SatzValidator.LaufSatzNr | lib/src/main/java/gdv/xport/event/SatzValidator.java:52 | After `n` records the record number is 1 + n in `int` arithmetic. |
| SatzValidator.LaufTdsNr | lib/src/main/java/gdv/xport/event/SatzValidator.java:53 | The sub-record number is 1 + the sum of the records' sub-record counts in `int` arithmetic. |
| SatzValidator.LaufGeschlossen | lib/src/main/java/gdv/xport/event/SatzValidator.java:27-55 | The state after a run is the concatenated violations with both counters in closed form. |
| SatzValidator.LaufPraefix | lib/src/main/java/gdv/xport/event/SatzValidator.java:54 | Violations are never removed: a run's violations are a prefix of any longer run's. |
| SatzValidator.SatzNrZaehlt | lib/src/main/java/gdv/xport/event/SatzValidator.java:52 | Below 2^31 - 1 records the record number counts exactly. |
| SatzValidator.SatzValidator.Standard | lib/src/main/java/gdv/xport/event/SatzValidator.java:32-34 | The default validator uses STRICT, with no violations and both counters at 1. |
| SatzValidator.SatzValidator.constructor | lib/src/main/java/gdv/xport/event/SatzValidator.java:36-38 | The validator takes the configuration, with no violations and both counters at 1. |
| SatzValidator.SatzValidator.Notice | lib/src/main/java/gdv/xport/event/SatzValidator.java:41-55 | Appends the record's violations, increments the record number by 1 and the sub-record number by the record's count, and keeps the state equal to the fold over the records seen. |
| SatzValidator.SatzValidator.GetViolations | lib/src/main/java/gdv/xport/event/SatzValidator.java:63-65 | Returns the violations of all records noticed, in order. |
| Layout.KeineUeberlappung | lib/src/main/java/gdv/xport/feld/Feld.java:572-580 | In a gapless table, fields occupying two different entries never overlap, in either direction. |
| Layout.AdressenGueltig | lib/src/main/java/gdv/xport/feld/Feld.java:629-640 | A field occupying an entry of a table tiling a range within 1..256 raises neither the address nor the end violation. |
| Wagnis5.Lueckenlos5 | deprecated/src/main/java/gdv/xport/satz/feld/sparte10/wagnisart5/Feld220Wagnis5Wertungssummen.java:49-207 | The type-5 table tiles bytes 43 to 255, each entry starting right after the previous one. |
| Wagnis5.Laengen5 | deprecated/src/main/java/gdv/xport/satz/feld/sparte10/wagnisart5/Feld220Wagnis5Wertungssummen.java:78-184 | Every amount entry is 12 bytes and every character entry 1 byte. |
| Wagnis5.Einzelfelder5 | deprecated/src/main/java/gdv/xport/satz/feld/sparte10/wagnisart5/Feld220Wagnis5Wertungssummen.java:49-207 | The table has 22 entries; `WAGNISART` is 1 byte at 60 with value "5"; `LEERSTELLEN` is 70 bytes at 186 ending at 255. |
| Wagnis5.KeineUeberlappung5 | deprecated/src/main/java/gdv/xport/satz/feld/sparte10/wagnisart5/Feld220Wagnis5Wertungssummen.java:49-207 | No two fields of the type-5 table overlap. |
| Wagnis5.AdressenGueltig5 | deprecated/src/main/java/gdv/xport/satz/feld/sparte10/wagnisart5/Feld220Wagnis5Wertungssummen.java:206-207 | Every field of the type-5 table has valid start and end addresses. |
| Wagnis9.Lueckenlos9 | deprecated/src/main/java/gdv/xport/satz/feld/sparte10/wagnisart9/Feld220Wagnis9Auszahlungen.java:46-110 | The type-9 table tiles bytes 43 to 255 without gaps. |
| Wagnis9.Einzelfelder9 | deprecated/src/main/java/gdv/xport/satz/feld/sparte10/wagnisart9/Feld220Wagnis9Auszahlungen.java:52-110 | `WAGNISART` is 1 byte at 60 with value "9"; the numeric entries are exactly 9 bytes at 64, 3 at 81 and 2 at 84; `LEERSTELLEN` is 170 bytes ending at 255. |
| Wagnis9.KeineUeberlappung9 | deprecated/src/main/java/gdv/xport/satz/feld/sparte10/wagnisart9/Feld220Wagnis9Auszahlungen.java:46-110 | No two fields of the type-9 table overlap. |
| Wagnis9.AdressenGueltig9 | deprecated/src/main/java/gdv/xport/satz/feld/sparte10/wagnisart9/Feld220Wagnis9Auszahlungen.java:109-110 | Every field of the type-9 table has valid start and end addresses. |
| Vorsatz.SuperFeld | lib/src/main/java/gdv/xport/satz/Vorsatz.java:207 | `super.getFeld` finds the first field with the identifier, and fails iff there is none. |
| Vorsatz.GesetztFeld | lib/src/main/java/gdv/xport/satz/Vorsatz.java:209 | Setting a content in one field succeeds iff `setInhalt` does, and then yields the field with the new content. |
| Vorsatz.AlleGesetzt | lib/src/main/java/gdv/xport/satz/Vorsatz.java:189-190 | Setting a value in every field of an identifier keeps the number of fields, their identifiers and every other field. |
| Vorsatz.AlleGesetztWerte | lib/src/main/java/gdv/xport/satz/Vorsatz.java:189-190 | After setting, each field of the identifier holds what `setInhalt` of the value yields there. |
| Vorsatz.Setze | lib/src/main/java/gdv/xport/satz/Vorsatz.java:189-190 | Setting an identifier that no field has fails. |
| Vorsatz.AlleGesetztOk | lib/src/main/java/gdv/xport/satz/Vorsatz.java:189-190 | Setting succeeds when every field of the identifier accepts the value. |
| Vorsatz.AlleGesetztFehler | lib/src/main/java/gdv/xport/satz/Vorsatz.java:189-190 | Setting fails when some field of the identifier refuses the value. |
| Vorsatz.SetzeFinden | lib/src/main/java/gdv/xport/satz/Vorsatz.java:189-190 | After setting, looking the identifier up yields its first field with the value set. |
| Vorsatz.DatumLeer | lib/src/main/java/gdv/xport/satz/Vorsatz.java:208 | A new date sub-field is 8 bytes at the given address under the given identifier. |
| Vorsatz.Von | lib/src/main/java/gdv/xport/satz/Vorsatz.java:206-211 | The start is an 8-byte date named `ERSTELLUNGSDAT_ZEITRAUM_VOM`; without the combined field it fails. |
| Vorsatz.BisAdresse | lib/src/main/java/gdv/xport/satz/Vorsatz.java:219 | The end date's address is 8 bytes behind the combined field's, in `int` arithmetic. |
| Vorsatz.Bis | lib/src/main/java/gdv/xport/satz/Vorsatz.java:217-222 | The end is an 8-byte date named `ERSTELLUNGSDAT_ZEITRAUM_BIS`; without the combined field it fails. |
| Vorsatz.GetFeld | lib/src/main/java/gdv/xport/satz/Vorsatz.java:385-392 | The two synthetic identifiers yield 8-byte dates of that name; every other identifier is looked up unchanged. |
| Vorsatz.DatumUebernimmt | lib/src/main/java/gdv/xport/satz/Vorsatz.java:208-209 | A date field stores a valid 8-character value exactly as given. |
| Vorsatz.ZeitraumGesetzt | lib/src/main/java/gdv/xport/satz/Vorsatz.java:187-191 | Setting 16 characters the combined field takes unchanged makes its first field hold exactly them. |
| Vorsatz.ZeitraumRundreise | lib/src/main/java/gdv/xport/satz/Vorsatz.java:187-191 | After setting two valid 8-character dates, the start reads back as the first at the combined field's address and the end as the second 8 bytes behind it. |
| Vorsatz.ZeitraumGelesen | lib/src/main/java/gdv/xport/satz/Vorsatz.java:206-222 | A combined field holding two valid halves reads as those two dates. |
| Vorsatz.VonLaesstBis | lib/src/main/java/gdv/xport/satz/Vorsatz.java:202-204 | Setting the start leaves the end as it was and reads back the new start. |
| Vorsatz.BisLaesstVon | lib/src/main/java/gdv/xport/satz/Vorsatz.java:213-215 | Setting the end leaves the start as it was and reads back the new end. |
| Vorsatz.Aufgeteilt | lib/src/main/java/gdv/xport/satz/Vorsatz.java:404-415 | The split fails only if a date cannot be read, with the start's exception first. |
| Vorsatz.AufgeteiltSchritt | lib/src/main/java/gdv/xport/satz/Vorsatz.java:406-412 | One loop step appends start and end for the combined field and the field itself otherwise. |
| Vorsatz.AufgeteiltLaenge | lib/src/main/java/gdv/xport/satz/Vorsatz.java:404-415 | The split list has one more field per combined field. |
| Vorsatz.AufgeteiltErhaelt | lib/src/main/java/gdv/xport/satz/Vorsatz.java:404-415 | Leaving out the dates and the combined fields, the other fields keep their order. |
| Vorsatz.OhneZeitraumUnveraendert | lib/src/main/java/gdv/xport/satz/Vorsatz.java:404-415 | Without a combined field the list is returned unchanged. |
| Vorsatz.AufgeteiltFehler | lib/src/main/java/gdv/xport/satz/Vorsatz.java:406-409 | A combined field whose start or end cannot be read makes the whole split fail with that exception. |
| Vorsatz.VersionBezeichnungRundreise | lib/src/main/java/gdv/xport/satz/Vorsatz.java:89-96 | The version identifier is at least 20 characters long and its number reads back as the record kind. |
| Vorsatz.VersionBezeichnungEindeutig | lib/src/main/java/gdv/xport/satz/Vorsatz.java:89-96 | Different record kinds have different version identifiers. |
| Vorsatz.VersionBezeichnungSparteEindeutig | lib/src/main/java/gdv/xport/satz/Vorsatz.java:98-105 | Different pairs of record kind and branch have different version identifiers. |
| Vorsatz.VersionsName | lib/src/main/java/gdv/xport/satz/Vorsatz.java:341-349 | The looked-up identifier starts with "Satzart"; it fails iff the record type has no part. |
| Vorsatz.SplitTeile | lib/src/main/java/gdv/xport/satz/Vorsatz.java:341 | A dot-free part alone, or before a dot, is the first part of the split. |
| Vorsatz.VersionsNameTeile | lib/src/main/java/gdv/xport/satz/Vorsatz.java:341-349 | For "a", "a.b" and "a.b.rest" the identifier is "Satzart" + a, + a + b and + a + b. |
| Vorsatz.Versioniert | lib/src/main/java/gdv/xport/satz/Vorsatz.java:338-359 | The result is true iff the identifier exists; then the version is set, otherwise nothing changes. |
| Vorsatz.Vorsatz.SetErstellungsZeitraum | lib/src/main/java/gdv/xport/satz/Vorsatz.java:187-191 | The fields become the stored period, or stay as they were when setting fails. |
| Vorsatz.Vorsatz.SetErstellungsZeitraumVon | lib/src/main/java/gdv/xport/satz/Vorsatz.java:202-204 | The fields become those of the new start with the current end, or stay as they were. |
| Vorsatz.Vorsatz.SetErstellungsZeitraumBis | lib/src/main/java/gdv/xport/satz/Vorsatz.java:213-215 | The fields become those of the current start with the new end, or stay as they were. |
| Vorsatz.Vorsatz.SetVersion | lib/src/main/java/gdv/xport/satz/Vorsatz.java:338-359 | Returns whether the identifier exists and sets the version then; the fields are otherwise unchanged. |
| Vorsatz.Vorsatz.GetFelder | lib/src/main/java/gdv/xport/satz/Vorsatz.java:404-415 | Returns the split list of the fields. |
| Feld.FeldWert.EndAdresse | lib/src/main/java/gdv/xport/feld/Feld.java:561-563 | The exact end address: the field covers `AnzahlBytes()` bytes from its start up to and including it. |
| Zahlen.LongToString | lib/src/main/java/gdv/xport/feld/Feld.java:466-468 | `Long.toString` yields a non-empty string. |
| Zahlen.ParseLong | lib/src/main/java/gdv/xport/feld/NumFeld.java:304-310 | `Long.parseLong` succeeds iff the text is an integer within the `long` range, and yields that integer. |
| Zahlen.ParseInt | lib/src/main/java/gdv/xport/feld/NumFeld.java:290-296 | `Integer.parseInt` succeeds iff the text is an integer within the `int` range, and yields that integer. |
| Zahlen.ParseInteger | lib/src/main/java/gdv/xport/feld/NumFeld.java:429-431 | An integer is an optional sign followed by at least one digit; without '-' it is non-negative. |
| Zahlen.ZeroPad | lib/src/main/java/gdv/xport/feld/NumFeld.java:235-240 | Zero-padding keeps the digits at the end and fills with '0' in front up to the width. |

## Left out

- `Datum`, `Satz`, `Bezeichner`, `SatzFactory`, `Teildatensatz` and `Datensatz` are not part of this model. Identifiers are compared as text.
- `Datum` is assumed to behave as follows. `new Datum(bezeichner, 8, adresse)` is a blank, right-aligned 8-byte field with the base validator (`Vorsatz.DatumLeer`). `Datum.setInhalt(String)` is the inherited `Feld.setInhalt`. `Datum.clone()` is assumed to yield a `Datum` with the base validator (`Feldvarianten.Klon`), as the model's base case does, whereas the inherited `Feld.clone()` (Feld.java:843-845) yields a plain `Feld`; the two behave the same in the model.
- Vorsatz.VonGelesen, Vorsatz.BisGelesen, Vorsatz.ZeitraumRundreise, Vorsatz.VonLaesstBis and Vorsatz.BisLaesstVon rest on these `Datum` assumptions; a `Datum` that validates or formats differently is not covered.
- `Satz.getFeld`, `Satz.hasFeld` and `Satz.setFeld` are modelled by their documented effect. `getFeld` finds the first field with the identifier. `set` writes every such field, and on failure the record keeps its old fields.
- The lines a reader delivers to `readSatzTyp` are a record `Importer.Zeile` of already-read numbers. Reading the input stream and logging are not modelled.
- The version text `setVersion` writes comes from `SatzFactory` and is a parameter of `Vorsatz.Vorsatz.SetVersion`.
- `setInhalt(BigDecimal)`, `add`, `toDouble` and `format` are not modelled, because `BigDecimal` arithmetic and floating point are out of scope. Only the parse behind `toBigDecimal` and `movePointLeft` are modelled.
- NumFeld.ParseDezimal: it does not model the `int` overflow of an exponent or scale, which `BigDecimal` refuses. It also does not model non-ASCII digits, which `BigDecimal` accepts.
- `DecimalFormat` and `Formatter` use the default locale. The model assumes a locale with ASCII digits, the minus sign '-' and no grouping.
- Zeichenketten.ToLower: `toLowerCase()` (Feld.java:904) also uses the default locale and lowercases every Unicode letter. The model lowercases only 'A' to 'Z', as in a locale without special rules. In a Turkish or Azeri locale "STRICT" becomes "strıct", so Java switches validation off where `Validator.ModusVon` selects strict; a mode value with non-ASCII capitals is not covered either.
- Zahlen.ParseInteger: reads only the ASCII digits '0' to '9'. `new BigInteger`, `Long.parseLong` and `Integer.parseInt` use `Character.digit` and so also read other Unicode decimal digits, such as Arabic-Indic "١٢".
- Zahlen.ParseLong: the same gap as `ParseInteger`: content in other Unicode decimal digits is refused where `Long.parseLong` reads it.
- Zahlen.ParseInt: the same gap as `ParseInteger`, for `Integer.parseInt`.
- NumFeld.ToLong: with validation off, `setInhalt` stores non-ASCII digits unchecked, and `toLong` as written reads them, where the model fails with no number. With validation on (lax or strict) the model is exact, because the lax character check (`Validator.BasisLax`, Feld.java:929-943) refuses those characters before they are stored.
- NumFeld.ToInt: the same gap as `NumFeld.ToLong`, for `toInt`.
- `AlphaNumFeld`'s constructors (AlphaNumFeld.java:79 and 111) call a `Feld` constructor that takes a `Config` and is not part of this model. `Feld.Feld.NeuesAlphaNumFeld` and the alphanumeric case of `Feldvarianten.MitConfig` assume that it installs the `AlphaNumFeld` validator, whereas `Feld.mitConfig` (Feld.java:128) installs the base validator.
- Feld.GesetztGenau: a Dafny `string` counts Unicode scalar values, whereas the length check (Feld.java:401) and the RIGHT offset (Feld.java:411) count UTF-16 code units. This matters only with validation off, since the lax character check refuses every character above U+FFFF. With validation off, truncation off and a 1-byte field, `setInhalt("😀")` throws `IllegalArgumentException` in Java (2 code units), while the model stores "😀" with outcome `Erfolg`. The characters of `Feld.GesetztZeichen` can likewise lie above U+FFFF, which a Java `char` cannot.
- Feld.KuerzeFeld: counts Unicode scalar values, whereas `substring(0, n)` (Feld.java:430) counts UTF-16 code units. This matters only with validation off. With truncation on and a 1-byte field, Java keeps the lone high surrogate U+D83D of "😀", while the model keeps "😀" whole.
- SatzValidator.SatzValidator.GetViolations: returns the list of violations as a value. SatzValidator.java:63-65 hands out the live `ArrayList`, so a caller's `clear()` or `add(...)` on it changes what later `notice` calls extend; that external mutation and aliasing are not modelled, and `Valid()` and `SatzValidator.LaufPraefix` assume no caller changes the list.
- Feld.OverlapGenau: requires both fields to have at least one byte. A field of 0 bytes that starts inside another overlaps it without sharing a byte (`Feld.OverlapLeer`). It states the intended overlap on exact end addresses; `Feld.OverlapUeberlauf` shows the `int` end addresses.
- `write(Writer)` is not modelled, because it is I/O.
- The null arguments of the setters are not modelled. Only the validator's null handling is modelled (`Validator.ValidateNullable`).
- `Feld.Feld.NeuesNumFeld` requires at least one byte. `Feldvarianten.NumFeldNeu` models the zero-byte case on values.
- A Java `assert` is modelled as the failure `Zusicherung`, as if assertions were enabled.
- The `Config` constructors and the system properties behind them are not shown. A configuration is a value with its three switches.
- `AlphaNumFeld.validate` (which goes through `FachwertFactory`) and the OVal annotations are not modelled.
- `Vorsatz.getErstellungsZeitraum` is not part of this model; the period is read through `getFeld` and the two date sub-fields instead.
- `UmlautMapper` (from jfachwert) is not part of this model. `Zeichenketten.Umlaut` assumes that it maps exactly the seven characters ä, ö, ü, Ä, Ö, Ü and ß to printable ASCII.
- The `createFeld` and enum-based constructors are not modelled, because they need annotation reflection.
- Vorsatz.VonLaesstBis: states the result only when the stored end passes validation as well. Otherwise re-setting it fails as the source does, and that case is not stated separately.
- Vorsatz.BisLaesstVon: as for `VonLaesstBis`, the stored start must pass validation.
- Feld.Gesetzt: its own contract states only that the length is kept. The outcome is stated by `GesetztGenau` and the lemmas beside it.
- Concurrency and the thread-safety of `SatzValidator` are not modelled.

## Findings

| source | as written | input that shows it | evidently intended | confidence | as-written member | corrected member |
|---|---|---|---|---|---|---|
| lib/src/main/java/gdv/xport/feld/Feld.java:561-563 | `getEndAdresse` adds start and length in `int` arithmetic, so `isValid` compares a wrapped-around end with 256 | a field of 2 bytes at address 2147483647: the end wraps to -2147483648, so `isValid` is true | a field whose last byte lies beyond 256 is invalid | not executed | Feld.IsValidUeberlauf (with Feld.FeldWert.EndAdresseAsWritten, Feld.IsValidAsWrittenGenau) | Feld.IsValidGenau (with Feld.IsValidOhneUeberlauf) |
| lib/src/main/java/gdv/xport/feld/Betrag.java:135-138 | `setInhalt(int n)` stores `n * 100` in `int` arithmetic | n = 21474837: the product wraps to -2147483596, and a validating `Betrag` refuses it as negative | the amount is stored as `n` hundredths, and 21474837 reads back | not executed | Feldvarianten.BetragUeberlauf (with Betrag.CentAlsIntUeberlauf) | Feldvarianten.BetragOhneUeberlauf (with Feldvarianten.BetragRundreise, Betrag.Cent) |
| lib/src/main/java/gdv/xport/feld/Feld.java:560-580 | `overlapsWith` compares with `getEndAdresse`, which adds start and length in `int` arithmetic | a field of 10 bytes at 2147483640 and a field of 1 byte at 2147483645: the first end wraps to -2147483647, so `overlapsWith` is false although byte 2147483645 lies in both | two fields at different addresses overlap iff a byte lies in both | not executed | Feld.OverlapUeberlauf (with Feld.FeldWert.OverlapsWithAsWritten) | Feld.OverlapGenau (with Feld.OverlapSymmetrisch, Feld.OverlapOhneUeberlauf) |
