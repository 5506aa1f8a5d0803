/** Character classes of the host language's string functions. */
module Text {

  // White space as `String.prototype.trim` and `parseInt` skip it.
  predicate IsBlank(c: char) {
    c == ' ' || '\t' <= c <= '\r' || c == '\U{00A0}' || c == '\U{FEFF}' || c == '\U{2028}' || c == '\U{2029}'
    || '\U{2000}' <= c <= '\U{200A}' || c == '\U{1680}' || c == '\U{202F}' || c == '\U{205F}' || c == '\U{3000}'
  }

  // The white space and line terminators of ECMA-262, sections 12.2 and 12.3, one by one.
  const WHITE_SPACE: string :=
    "\t\n\U{000B}\U{000C}\r \U{00A0}\U{1680}\U{2000}\U{2001}\U{2002}\U{2003}\U{2004}\U{2005}\U{2006}\U{2007}\U{2008}"
    + "\U{2009}\U{200A}\U{2028}\U{2029}\U{202F}\U{205F}\U{3000}\U{FEFF}"

  lemma BlankSpelled(c: char)
    ensures IsBlank(c) <==> c in WHITE_SPACE
  {
  }
}
