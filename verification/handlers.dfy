/**
 * The handler base class (lib/Spizer/Handler/Abstract.php): the merged
 * configuration, the status and content-type gate in front of `handle`,
 * the name a handler's records are filed under, and dispatch to the two
 * concrete handlers of this model (string match and link appender).
 */
module Handlers {
  import opened Wrappers
  import opened Php
  import opened Uris
  import opened Errors
  import opened Requests
  import opened Frontier
  import opened Documents
  import StringMatching
  import opened LinkAppending

  /** The base class's own defaults: no status and no content-type filter. */
  const BaseDefaults: Options := map["status" := Null, "content-type" := Null]

  /** The name every handler has until setHandlerName is called. */
  const DefaultName := "DefaultHandler"

  /**
   * One stage of the gate: a falsy filter lets everything through, a list
   * filter needs the value among its members (`in_array`), any other filter
   * needs the value to be loosely equal to it (`!=` fails the stage).
   */
  predicate Passes(filter: Value, v: Value) {
    !Truthy(filter) || (if filter.List? then InArray(v, filter.items) else LooseEquals(filter, v))
  }

  /**
   * The raw content-type header as the gate sees it (`getHeader`): the
   * string, or null when absent. Header names are stored lower-case.
   */
  function TypeValue(doc: Document): (v: Value)
    ensures v == Null <==> "content-type" !in doc.headers
    ensures v.Str? ==> v.s == doc.headers["content-type"]
  {
    if "content-type" in doc.headers then Str(doc.headers["content-type"]) else Null
  }

  /** The lookup above is the document's own case-insensitive `getHeader`. */
  lemma TypeValueIsGetHeader(doc: Document, key: string)
    requires key == "content-type"
    ensures TypeValue(doc) == match doc.GetHeader(key) case Some(t) => Str(t) case None => Null
  {
    assert IsLower(key) by {
      forall i | 0 <= i < |key|
        ensures !('A' <= key[i] <= 'Z')
      {
      }
    }
    ToLowerKeepsLower(key);
  }

  /** `call` runs `handle` exactly when both stages pass. */
  predicate Admits(config: Options, doc: Document) {
    Passes(Get(config, "status"), Int(doc.status)) && Passes(Get(config, "content-type"), TypeValue(doc))
  }

  /** Integer status codes as a PHP list. */
  function Codes(codes: seq<int>): (l: seq<Value>)
    ensures |l| == |codes|
    ensures forall i :: 0 <= i < |codes| ==> l[i] == Int(codes[i])
  {
    seq(|codes|, i requires 0 <= i < |codes| => Int(codes[i]))
  }

  /** With no filter configured (the defaults), every document is handled. */
  lemma FalsyFiltersAdmitAll(config: Options, doc: Document)
    requires !Truthy(Get(config, "status")) && !Truthy(Get(config, "content-type"))
    ensures Admits(config, doc)
  {
  }

  /** A list of status codes admits exactly the documents whose status is listed. */
  lemma StatusListAdmitsMembers(config: Options, doc: Document, codes: seq<int>)
    requires codes != [] && Get(config, "status") == List(Codes(codes))
    requires !Truthy(Get(config, "content-type"))
    ensures Admits(config, doc) <==> doc.status in codes
  {
    var l := Codes(codes);
    if doc.status in codes {
      var i :| 0 <= i < |codes| && codes[i] == doc.status;
      assert LooseEquals(l[i], Int(doc.status));
    } else {
      forall i | 0 <= i < |l|
        ensures !LooseEquals(l[i], Int(doc.status))
      {
        assert l[i] == Int(codes[i]);
      }
    }
  }

  /** A single non-zero status code admits exactly the documents with that status. */
  lemma StatusCodeAdmitsEqual(config: Options, doc: Document, code: int)
    requires code != 0 && Get(config, "status") == Int(code)
    requires !Truthy(Get(config, "content-type"))
    ensures Admits(config, doc) <==> doc.status == code
  {
  }

  /**
   * A content-type filter compares the raw header, parameters included,
   * and a document without the header never passes it.
   */
  lemma TypeFilterComparesRawHeader(config: Options, doc: Document, t: string)
    requires t != "" && t != "0" && Get(config, "content-type") == Str(t)
    requires !Truthy(Get(config, "status"))
    ensures Admits(config, doc) <==> "content-type" in doc.headers && doc.headers["content-type"] == t
  {
  }

  /** A `text/html` filter turns away `text/html; charset=utf-8`. */
  lemma CharsetParameterIsRejected(config: Options, doc: Document)
    requires Get(config, "content-type") == Str("text/html")
    requires "content-type" in doc.headers && doc.headers["content-type"] == "text/html; charset=utf-8"
    ensures !Admits(config, doc)
  {
    assert "text/html" != "text/html; charset=utf-8" by {
      assert |"text/html"| == 9 && |"text/html; charset=utf-8"| == 24;
    }
  }

  /**
   * A content-type filter turns away a document without the header, unless
   * it is a list holding a value that is loosely equal to null.
   */
  lemma MissingHeaderIsRejected(config: Options, doc: Document)
    requires var f := Get(config, "content-type");
      Truthy(f) && (f.List? ==> forall i :: 0 <= i < |f.items| ==> !NullLike(f.items[i]))
    requires "content-type" !in doc.headers
    ensures !Admits(config, doc)
  {
  }

  /**
   * The string-match handler replaces the base defaults with its own, so
   * unless its options name a filter its gate is always open.
   */
  lemma StringMatchGateIsOpen(options: Options, doc: Document)
    requires "status" !in options && "content-type" !in options
    ensures Admits(Merge(StringMatching.Defaults, options), doc)
  {
    assert "status" !in StringMatching.Defaults && "content-type" !in StringMatching.Defaults;
  }

  /** The concrete handler behind the base class. */
  datatype Kind = StringMatch(matcher: StringMatching.Matcher) | LinkAppend(appender: LinkAppender)

  /** A record a handler passes to the engine's log, with the name it is filed under. */
  datatype Filed = Filed(handler: string, info: Options)

  /** The records a link appender logs, filed under the fixed name `LinkAppender`. */
  function FiledByAppender(records: seq<Options>): (r: seq<Filed>)
    ensures |r| == |records|
    ensures forall i :: 0 <= i < |r| ==> r[i] == Filed("LinkAppender", records[i])
  {
    seq(|records|, i requires 0 <= i < |records| => Filed("LinkAppender", records[i]))
  }

  /** A handler as a value: its gate configuration, its concrete kind and its name. */
  datatype HSpec = HSpec(config: Options, kind: Kind, name: string)

  /** The name a handler's records reach the log under: the link appender logs under a fixed name. */
  function FiledUnder(h: HSpec): string {
    if h.kind.LinkAppend? then "LinkAppender" else h.name
  }

  /** The name a handler object's records reach the log under. */
  function FiledName(h: Handler): string
    reads h
  {
    FiledUnder(h.Spec())
  }

  /** What one `call` does: the records filed, the exception, the appender's new state, the URLs enqueued. */
  datatype Outcome = Outcome(filed: seq<Filed>, err: Option<Error>, after: AppState, enqueued: seq<string>)

  /**
   * call as a function of the handler and the state of its link appender
   * (ignored by a string matcher): a document the gate turns away changes
   * nothing; otherwise the string matcher files at most one record under
   * the handler's name, and the link appender does what `handle` does.
   */
  function Effect(h: HSpec, st: AppState, doc: Document, base: Uri, syntax: UriSyntax): (o: Outcome)
    ensures !Admits(h.config, doc) ==> o == Outcome([], None, st, [])
    ensures forall i :: 0 <= i < |o.filed| ==> o.filed[i].handler == FiledUnder(h)
    ensures h.kind.StringMatch? ==> o.err == None && o.after == st && o.enqueued == [] && |o.filed| <= 1
    ensures h.kind.LinkAppend? && Admits(h.config, doc) ==>
              var r := HandleSpec(st, doc, base, syntax);
              o == Outcome(FiledByAppender(r.records), r.err, r.after, r.enqueued)
  {
    if !Admits(h.config, doc) then Outcome([], None, st, [])
    else match h.kind
      case StringMatch(m) =>
        var found := StringMatching.Handle(m, doc.body);
        Outcome(if found.Some? then [Filed(h.name, found.value)] else [], None, st, [])
      case LinkAppend(_) =>
        var r := HandleSpec(st, doc, base, syntax);
        Outcome(FiledByAppender(r.records), r.err, r.after, r.enqueued)
  }

  class Handler {
    /** The name records are filed under (setHandlerName). */
    var name: string
    /** The engine the handler is bound to; null until setEngine. */
    var engine: object?
    /** The configuration merged over the class defaults; the gate reads it. */
    const config: Options
    const kind: Kind

    /** The handler as a value. */
    function Spec(): HSpec
      reads this
    {
      HSpec(config, kind, name)
    }

    /** The state of its link appender; a string matcher has none. */
    function State(): AppState
      reads Footprint()
    {
      if kind.LinkAppend? then kind.appender.State() else AppState(map[], [])
    }

    /** The objects whose state handling a document changes, besides the queue. */
    ghost function Footprint(): set<LinkAppender> {
      if kind.LinkAppend? then {kind.appender} else {}
    }

    ghost predicate Valid()
      reads Footprint()
    {
      kind.LinkAppend? ==> kind.appender.Valid()
    }

    constructor Make(config: Options, kind: Kind)
      ensures this.config == config && this.kind == kind
      ensures name == DefaultName && engine == null
    {
      this.config := config;
      this.kind := kind;
      name := DefaultName;
      engine := null;
    }

    /**
     * `new Spizer_Handler_StringMatch($options)`: refused without a string
     * `match`; otherwise the options are merged over `matchcase => false`.
     */
    static method NewStringMatch(options: Options) returns (r: Result<Handler, Error>)
      ensures r.Failure? <==> !("match" in options && options["match"].Str?)
      ensures r.Failure? ==> r.error == MissingMatch
      ensures r.Success? ==>
                && fresh(r.value) && r.value.name == DefaultName && r.value.engine == null
                && r.value.config == Merge(StringMatching.Defaults, options)
                && r.value.kind == StringMatch(StringMatching.Matcher(options["match"].s, Truthy(Get(options, "matchcase"))))
                && r.value.Valid()
    {
      var c := StringMatching.Configure(options);
      if c.Failure? {
        r := Failure(c.error);
      } else {
        var h := new Handler.Make(c.value.0, StringMatch(c.value.1));
        r := Success(h);
      }
    }

    /**
     * `new Spizer_Handler_LinkAppender($options)`: the gate reads the options
     * merged over the base defaults, the appender its own settings.
     */
    static method NewLinkAppender(options: Options) returns (h: Handler)
      ensures fresh(h) && h.name == DefaultName && h.engine == null
      ensures h.config == Merge(BaseDefaults, options)
      ensures h.kind.LinkAppend? && fresh(h.kind.appender)
      ensures h.kind.appender.config == Settings(options) && h.kind.appender.seen == []
      ensures h.Valid()
    {
      var a := new LinkAppender(options);
      h := new Handler.Make(Merge(BaseDefaults, options), LinkAppend(a));
    }

    /** setHandlerName. */
    method SetHandlerName(name: string)
      modifies this`name
      ensures this.name == name && engine == old(engine)
    {
      this.name := name;
    }

    /** setEngine. */
    method SetEngine(engine: object)
      modifies this`engine
      ensures this.engine == engine && name == old(name)
    {
      this.engine := engine;
    }

    /**
     * call: when the gate turns the document away nothing happens;
     * otherwise the concrete `handle` runs, as Effect describes: the string
     * matcher files at most one record under the handler's name; the link
     * appender files its unresolvable-link records under `LinkAppender`,
     * updates what it has seen and enqueues a GET request for each new
     * link; an exception it throws ends the call.
     */
    method Call(doc: Document, queue: Queue, base: Uri, syntax: UriSyntax) returns (filed: seq<Filed>, err: Option<Error>)
      requires Valid()
      modifies Footprint(), queue
      ensures Valid()
      ensures var o := Effect(Spec(), old(State()), doc, base, syntax);
        && filed == o.filed && err == o.err
        && (kind.LinkAppend? ==> State() == o.after)
        && Views(queue.targets) == old(Views(queue.targets)) + Issue(o.enqueued, Format(doc.url), syntax)
      ensures !Admits(config, doc) ==> queue.targets == old(queue.targets)
    {
      filed, err := [], None;
      if Admits(config, doc) {
        match kind
        case StringMatch(m) =>
          var found := StringMatching.Handle(m, doc.body);
          if found.Some? {
            filed := [Filed(name, found.value)];
          }
        case LinkAppend(a) =>
          var records;
          records, err := a.Handle(doc, queue, base, syntax);
          filed := FiledByAppender(records);
      }
    }
  }
}
