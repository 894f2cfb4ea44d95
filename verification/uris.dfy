/**
 * URIs as the crawl core sees them. Parsing and validating URIs is done by
 * a library outside this model (Zend_Uri_Http and PHP's parse_url); its
 * operations are bundled in `UriSyntax` and passed in as values.
 */
module Uris {
  import opened Wrappers

  /** A parsed absolute HTTP URI; an empty string stands for an absent part. */
  datatype Uri = Uri(scheme: string, host: string, port: string, path: string, query: string, fragment: string)

  /**
   * The string form of a parsed URI: component recomposition as in
   * section 5.3 of RFC 3986 (user information is not modelled).
   */
  function Format(u: Uri): string {
    u.scheme + "://" + u.host
    + (if u.port != "" then ":" + u.port else "")
    + u.path
    + (if u.query != "" then "?" + u.query else "")
    + (if u.fragment != "" then "#" + u.fragment else "")
  }

  /** The parts `parse_url` reports for a link (absent parts are None). */
  datatype LinkParts = LinkParts(
    scheme: Option<string>,
    host: Option<string>,
    path: Option<string>,
    query: Option<string>,
    fragment: Option<string>)

  /**
   * The URI library the core calls into:
   *  - check: Zend_Uri_Http::check, "is this a valid HTTP(S) URL";
   *  - parse: Zend_Uri::factory applied to a string that passed `check`;
   *  - parseUrl: parse_url, None when it returns false or an empty array;
   *  - queryError / pathError: the Zend_Uri_Exception message that
   *    setQuery / setPath throw for an invalid value, None when valid.
   */
  datatype UriSyntax = UriSyntax(
    check: string -> bool,
    parse: string -> Uri,
    parseUrl: string -> Option<LinkParts>,
    queryError: string -> Option<string>,
    pathError: string -> Option<string>)
}
