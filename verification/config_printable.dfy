/** Which characters count as printable. The table grows with the Unicode version of the Go release
    in use, so the model leaves it open and relies only on what all of them agree on. */
module ConfigPrintable {
  /** ASCII and the control characters behind it are settled, and so are two characters that only
      format: the soft hyphen and the language tag. */
  ghost predicate Settled(table: char -> bool) {
    && (forall c: char | c <= '\U{A0}' :: table(c) <==> ' ' <= c <= '~')
    && !table('\U{AD}') && !table('\U{E0001}')
  }

  type Table = table: char -> bool | Settled(table) witness c => ' ' <= c <= '~'

  /** The table of the release in use, whichever it is. */
  const TABLE: Table

  predicate Printable(c: char)
    ensures c <= '\U{A0}' ==> Printable(c) == (' ' <= c <= '~')
  {
    TABLE(c)
  }

  /** The soft hyphen and the language tag do not show. */
  lemma Hidden(c: char)
    requires c == '\U{AD}' || c == '\U{E0001}'
    ensures !Printable(c)
  {
  }
}
