/** An outbound HTTP request (lib/Spizer/Request.php). */
module Requests {
  import opened Wrappers
  import opened Php
  import opened Uris
  import opened Errors

  /** What the request constructor accepts: a parsed URI or a string. */
  datatype UriArg = Parsed(uri: Uri) | Text(url: string)

  /**
   * The header lookup of requests and documents alike: the name is
   * lower-cased, and an absent header reads as null.
   */
  function HeaderLookup(headers: map<string, string>, name: string): (r: Option<string>)
    ensures ToLower(name) in headers ==> r == Some(headers[ToLower(name)])
    ensures ToLower(name) !in headers ==> r == None
  {
    if ToLower(name) in headers then Some(headers[ToLower(name)]) else None
  }

  /** The request as the logger records it. */
  datatype RequestView = RequestView(uri: Uri, httpMethod: string, referrer: Option<string>)

  class Request {
    /** The target URI, fixed at construction (getUri). */
    const uri: Uri
    /** The request method (getMethod). */
    const httpMethod: string
    /** The headers: always empty, nothing sets them (getAllHeaders). */
    const headers: map<string, string> := map[]
    /** The body: always empty, nothing sets it (getBody). */
    const body: string := ""
    /** The referring page, None until setReferrer is called (getReferrer). */
    var referrer: Option<string>

    /** A request for an already-parsed URI: it is not checked again. */
    constructor FromUri(uri: Uri, httpMethod: string := "GET")
      ensures this.uri == uri && this.httpMethod == httpMethod
      ensures referrer == None
    {
      this.uri := uri;
      this.httpMethod := httpMethod;
      referrer := None;
    }

    /**
     * The constructor `new Spizer_Request($uri, $method)`: a string that is
     * not a valid HTTP URL is refused, a parsed URI is taken as it is.
     */
    static method New(target: UriArg, syntax: UriSyntax, httpMethod: string := "GET")
      returns (r: Result<Request, Error>)
      ensures target.Text? && !syntax.check(target.url) ==> r == Failure(InvalidUrl(target.url))
      ensures target.Text? && syntax.check(target.url) ==> r.Success? && r.value.uri == syntax.parse(target.url)
      ensures target.Parsed? ==> r.Success? && r.value.uri == target.uri
      ensures r.Success? ==> fresh(r.value) && r.value.httpMethod == httpMethod && r.value.referrer == None
    {
      if target.Parsed? {
        var req := new Request.FromUri(target.uri, httpMethod);
        r := Success(req);
      } else if !syntax.check(target.url) {
        r := Failure(InvalidUrl(target.url));
      } else {
        var req := new Request.FromUri(syntax.parse(target.url), httpMethod);
        r := Success(req);
      }
    }

    /** setReferrer: records the string form of the referring URL. */
    method SetReferrer(referrer: string)
      modifies this
      ensures this.referrer == Some(referrer)
    {
      this.referrer := Some(referrer);
    }

    /** getHeader. */
    function GetHeader(name: string): Option<string> {
      HeaderLookup(headers, name)
    }

    /** The request as it stands: target, method and referrer. */
    function View(): RequestView
      reads this
    {
      RequestView(uri, httpMethod, referrer)
    }
  }

  /** The requests of `q`, each as it stands, in order. */
  function Views(q: seq<Request>): (v: seq<RequestView>)
    reads q
    ensures |v| == |q| && forall i :: 0 <= i < |q| ==> v[i] == q[i].View()
  {
    seq(|q|, i reads q requires 0 <= i < |q| => q[i].View())
  }

  lemma ViewsAppend(p: seq<Request>, q: seq<Request>)
    ensures Views(p + q) == Views(p) + Views(q)
  {
  }

  /** No request ever carries a header: every lookup reads as null. */
  lemma RequestHeaderAlwaysAbsent(r: Request, name: string)
    ensures r.GetHeader(name) == None
    ensures r.body == ""
  {
  }
}
