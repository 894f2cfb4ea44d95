/**
 * Responses and documents (lib/Spizer/Document.php, and the header rule of
 * lib/Spizer/Response.php). A document is a read-only view of one fetch;
 * its variant is chosen from the MIME type token of its content-type.
 */
module Documents {
  import opened Wrappers
  import opened Php
  import opened Uris
  import opened Requests

  /**
   * A response as the transport returns it: status, message, the raw
   * header lines in the order received, and the body.
   */
  datatype Response = Response(status: int, message: string, rawHeaders: seq<(string, string)>, body: string) {
    /** getAllHeaders: the header lines keyed by their lower-cased names. */
    function Headers(): map<string, string> {
      HeaderMap(rawHeaders)
    }
  }

  /**
   * The header map of Response::getAllHeaders: the raw header lines keyed
   * by their lower-cased names; a later line with the same name replaces an
   * earlier one.
   */
  function HeaderMap(raw: seq<(string, string)>): map<string, string> {
    if raw == [] then map[]
    else HeaderMap(raw[..|raw| - 1])[ToLower(raw[|raw| - 1].0) := raw[|raw| - 1].1]
  }

  /** The keys of the header map are exactly the lower-cased names of the lines. */
  lemma {:induction false} HeaderMapKeys(raw: seq<(string, string)>)
    ensures var m := HeaderMap(raw);
      && m.Keys == (set i | 0 <= i < |raw| :: ToLower(raw[i].0))
      && forall k :: k in m ==> IsLower(k)
    decreases |raw|
  {
    if raw != [] {
      var last, init := raw[|raw| - 1], raw[..|raw| - 1];
      HeaderMapKeys(init);
      ToLowerIsLowerAndIdempotent(last.0);
      assert forall i :: 0 <= i < |raw| - 1 ==> init[i] == raw[i];
      assert (set i | 0 <= i < |raw| :: ToLower(raw[i].0))
          == (set i | 0 <= i < |init| :: ToLower(init[i].0)) + {ToLower(last.0)};
    }
  }

  /** Every name takes the value of its last line, whatever the case of the names. */
  lemma {:induction false} HeaderMapLastWins(raw: seq<(string, string)>, i: nat)
    requires i < |raw|
    requires forall j :: i < j < |raw| ==> ToLower(raw[j].0) != ToLower(raw[i].0)
    ensures ToLower(raw[i].0) in HeaderMap(raw) && HeaderMap(raw)[ToLower(raw[i].0)] == raw[i].1
    decreases |raw|
  {
    if i < |raw| - 1 {
      var init := raw[..|raw| - 1];
      assert init[i] == raw[i];
      HeaderMapLastWins(init, i);
    }
  }

  /**
   * The four link collections of an HTML document, each in document order:
   * anchor hrefs, image srcs, <link> hrefs and script srcs. They come from
   * markup parsing outside this model and are fixed once the document exists.
   */
  datatype LinkSets = LinkSets(anchors: seq<string>, images: seq<string>, headerLinks: seq<string>, scripts: seq<string>)

  /** The document classes: generic, XML, and HTML (which is an XML document). */
  datatype Variant = Generic | Xml | Html(links: LinkSets)

  datatype Document = Document(url: Uri, status: int, headers: map<string, string>, body: string, variant: Variant) {
    /** getHeader. */
    function GetHeader(name: string): Option<string> {
      HeaderLookup(headers, name)
    }
  }

  /** The characters that end the type token: `;` and PCRE's `\s`. */
  predicate EndsToken(c: char) {
    c == ';' || c == ' ' || c == '\t' || c == '\n' || c == '\r' || c == 12 as char || c == 11 as char
  }

  /**
   * The match of `/^[^;\s]+/` on a content-type value: the longest leading
   * run without `;` or white space. No match (an empty run) yields "",
   * which selects no special variant, as the null type does in the source.
   */
  function TypeToken(value: string): string {
    if value == [] || EndsToken(value[0]) then ""
    else [value[0]] + TypeToken(value[1..])
  }

  /**
   * The token is a leading run of the value without `;` or white space
   * that stops at the end of the value or at such a character.
   */
  lemma {:induction false} TypeTokenIsRun(value: string)
    ensures var t := TypeToken(value);
      && |t| <= |value| && t == value[..|t|]
      && (forall i :: 0 <= i < |t| ==> !EndsToken(t[i]))
      && (|t| == |value| || EndsToken(value[|t|]))
  {
    if value != [] && !EndsToken(value[0]) {
      TypeTokenIsRun(value[1..]);
    }
  }

  /** The token the factory switches on: "" when there is no content-type. */
  function MimeType(headers: map<string, string>): string {
    if "content-type" in headers then TypeToken(headers["content-type"]) else ""
  }

  predicate IsHtmlType(t: string) { t == "text/html" || t == "text/xhtml" }

  predicate IsXmlType(t: string) { t == "text/xml" || t == "application/xml" }

  /**
   * Spizer_Document::factory: the document for a request and its response.
   * `markup` stands for the DOM parsing that yields the link collections.
   */
  function Factory(request: RequestView, response: Response, markup: string -> LinkSets): Document {
    var headers := response.Headers();
    var t := MimeType(headers);
    var variant :=
      if IsHtmlType(t) then Html(markup(response.body))
      else if IsXmlType(t) then Xml
      else Generic;
    Document(request.uri, response.status, headers, response.body, variant)
  }

  /**
   * The document keeps the request's URI and the response's status,
   * headers and body; its class is chosen by the type table alone, and an
   * HTML document carries the links parsed from the body.
   */
  lemma FactoryFollowsTypeTable(request: RequestView, response: Response, markup: string -> LinkSets)
    ensures var d := Factory(request, response, markup); var t := MimeType(response.Headers());
      && d.url == request.uri && d.status == response.status
      && d.headers == response.Headers() && d.body == response.body
      && (d.variant.Html? <==> IsHtmlType(t))
      && (d.variant.Xml? <==> IsXmlType(t))
      && (d.variant.Generic? <==> !IsHtmlType(t) && !IsXmlType(t))
      && (d.variant.Html? ==> d.variant.links == markup(response.body))
  {
  }

  /** The type token is characterised by its two properties: it is unique. */
  lemma TypeTokenIsLongestRun(value: string, k: nat)
    requires k <= |value|
    requires forall i :: 0 <= i < k ==> !EndsToken(value[i])
    requires k == |value| || EndsToken(value[k])
    ensures TypeToken(value) == value[..k]
  {
    TypeTokenIsRun(value);
  }

  /** A type followed by parameters (or by nothing) has the type as its token. */
  lemma TypeTokenBeforeParameters(t: string, params: string)
    requires forall i :: 0 <= i < |t| ==> !EndsToken(t[i])
    requires params == [] || params[0] == ';'
    ensures TypeToken(t + params) == t
  {
    TypeTokenIsLongestRun(t + params, |t|);
    assert (t + params)[..|t|] == t;
  }

  /** One header line is the whole header map. */
  lemma SingleHeader(name: string, value: string)
    ensures HeaderMap([(name, value)]) == map[ToLower(name) := value]
  {
    assert [(name, value)][..0] == [];
  }

  /**
   * Header names are case-insensitive and parameters after `;` do not
   * matter: a content-type line, in any spelling of its name, whose value is
   * a type token followed by parameters selects the variant by that token.
   */
  lemma TypeTokenDecidesVariant(request: RequestView, status: int, name: string, t: string, params: string, body: string, markup: string -> LinkSets)
    requires ToLower(name) == "content-type"
    requires forall i :: 0 <= i < |t| ==> !EndsToken(t[i])
    requires params == [] || params[0] == ';'
    ensures var d := Factory(request, Response(status, "", [(name, t + params)], body), markup);
      && (d.variant.Html? <==> IsHtmlType(t))
      && (d.variant.Xml? <==> IsXmlType(t))
      && (d.variant.Generic? <==> !IsHtmlType(t) && !IsXmlType(t))
  {
    SingleHeader(name, t + params);
    TypeTokenBeforeParameters(t, params);
    FactoryFollowsTypeTable(request, Response(status, "", [(name, t + params)], body), markup);
  }

  /** `Content-Type: text/html; charset=...` gives an HTML document. */
  lemma HtmlWithParameters(request: RequestView, status: int, name: string, t: string, params: string, body: string, markup: string -> LinkSets)
    requires ToLower(name) == "content-type" && t == "text/html" && (params == [] || params[0] == ';')
    ensures Factory(request, Response(status, "", [(name, t + params)], body), markup).variant.Html?
  {
    TypeTokenDecidesVariant(request, status, name, t, params, body, markup);
  }

  /** Matching is exact and case-sensitive: `TEXT/HTML` gives a generic document. */
  lemma UpperCaseTypeIsGeneric(request: RequestView, status: int, name: string, t: string, params: string, body: string, markup: string -> LinkSets)
    requires ToLower(name) == "content-type" && t == "TEXT/HTML" && (params == [] || params[0] == ';')
    ensures Factory(request, Response(status, "", [(name, t + params)], body), markup).variant.Generic?
  {
    assert t[0] != 't';
    TypeTokenDecidesVariant(request, status, name, t, params, body, markup);
  }

  /** A type outside the table, such as `application/json`, gives a generic document. */
  lemma JsonIsGeneric(request: RequestView, status: int, name: string, t: string, params: string, body: string, markup: string -> LinkSets)
    requires ToLower(name) == "content-type" && t == "application/json" && (params == [] || params[0] == ';')
    ensures Factory(request, Response(status, "", [(name, t + params)], body), markup).variant.Generic?
  {
    assert |t| != |"application/xml"| && t[0] != 't';
    TypeTokenDecidesVariant(request, status, name, t, params, body, markup);
  }

  /** Without a content-type line, in any spelling, the document is generic. */
  lemma NoContentTypeIsGeneric(request: RequestView, response: Response, markup: string -> LinkSets)
    requires forall i :: 0 <= i < |response.rawHeaders| ==> ToLower(response.rawHeaders[i].0) != "content-type"
    ensures Factory(request, response, markup).variant.Generic?
  {
    HeaderMapKeys(response.rawHeaders);
    assert "content-type" !in response.Headers();
    FactoryFollowsTypeTable(request, response, markup);
  }

  /** Header lookups on a document built from a response are case-insensitive. */
  lemma {:induction false} DocumentHeaderIgnoresCase(d: Document, name: string)
    ensures d.GetHeader(name) == d.GetHeader(ToLower(name))
  {
    ToLowerIsLowerAndIdempotent(name);
  }
}
