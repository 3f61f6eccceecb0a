/** The request headers the client composes. */
module Headers {
  import opened Strings

  const ContentTypeXml: string := "Content-Type: text/xml"

  /**
   * getCrumbHeader: the crumb request field, a colon and a space, then the crumb. A server reading
   * the line gets back the field name and the crumb, as long as the field name holds no ':'.
   */
  function CrumbHeaderLine(field: string, crumb: string): (line: string)
    ensures ':' !in field ==> HeaderName(line) == field && HeaderValue(line) == crumb
  {
    assert field + ": " + crumb == field + [':'] + (" " + crumb);
    if ':' !in field then SplitAtFirst(field, " " + crumb, ':'); field + ": " + crumb
    else field + ": " + crumb
  }

  /** The name of a header line: everything before its first ':'. */
  function HeaderName(line: string): string {
    Before(line, ':')
  }

  /** The value of a header line: what follows the first ':', less one leading space. */
  function HeaderValue(line: string): string {
    var rest := After(line, ':');
    if rest != [] && rest[0] == ' ' then rest[1..] else rest
  }
}
