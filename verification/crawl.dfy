/**
 * The crawl engine (lib/Spizer/Engine.php): its configuration and queue,
 * the one-shot logger, handler registration and the loop that drains the
 * queue. The logger is the trace of events it is sent; the HTTP transport
 * and the markup parser are parameters of a run.
 */
module Crawl {
  import opened Wrappers
  import opened Php
  import opened Uris
  import opened Errors
  import opened Requests
  import opened Frontier
  import opened Documents
  import opened Handlers
  import opened LinkAppending

  /** The calls the engine makes on its logger, in the order it makes them. */
  datatype Event =
    | StartPage
    | LogRequest(request: RequestView)
    | LogResponse(response: Response)
    | HandlerInfo(handler: string, info: Options)
    | EndPage

  /** The engine's defaults: keep cookies, FIFO order, no extra HTTP options. */
  const EngineDefaults: Options := map["savecookies" := Bool(true), "lifo" := Bool(false), "httpOpts" := List([])]

  /** The logger `run` installs when none was set. */
  const DefaultLogger := "Spizer_Logger_Xml"

  /** Handler records as they reach the logger. */
  function Logged(filed: seq<Filed>): (r: seq<Event>)
    ensures |r| == |filed|
    ensures forall i :: 0 <= i < |r| ==> r[i] == HandlerInfo(filed[i].handler, filed[i].info)
  {
    seq(|filed|, i requires 0 <= i < |filed| => HandlerInfo(filed[i].handler, filed[i].info))
  }

  /**
   * The opening of a page: start, the request, the response the transport
   * gave for it, then handler records only.
   */
  predicate IsOpenPage(p: seq<Event>, transport: RequestView -> Response) {
    && |p| >= 3
    && p[0] == StartPage
    && p[1].LogRequest?
    && p[2] == LogResponse(transport(p[1].request))
    && forall i :: 3 <= i < |p| ==> p[i].HandlerInfo?
  }

  /** One crawled page: an open page closed by endPage. */
  predicate IsPage(p: seq<Event>, transport: RequestView -> Response) {
    p != [] && p[|p| - 1] == EndPage && IsOpenPage(p[..|p| - 1], transport)
  }

  /** The pages one after the other. */
  function Flatten<T>(pages: seq<seq<T>>): (t: seq<T>)
    ensures pages == [] ==> t == []
  {
    if pages == [] then [] else Flatten(pages[..|pages| - 1]) + pages[|pages| - 1]
  }

  lemma AppendAssoc<T>(a: seq<T>, b: seq<T>, c: seq<T>)
    ensures a + b + c == a + (b + c)
  {
  }

  lemma FlattenSnoc<T>(pages: seq<seq<T>>, p: seq<T>)
    ensures Flatten(pages + [p]) == Flatten(pages) + p
  {
    assert (pages + [p])[..|pages|] == pages;
  }

  /** An open page followed by endPage is a page. */
  lemma ClosePage(p: seq<Event>, transport: RequestView -> Response)
    requires IsOpenPage(p, transport)
    ensures IsPage(p + [EndPage], transport)
  {
    assert (p + [EndPage])[..|p|] == p;
  }

  /** How often `e` occurs in `t`. */
  function Occurrences(e: Event, t: seq<Event>): (n: nat)
    ensures n <= |t|
  {
    if t == [] then 0 else Occurrences(e, t[..|t| - 1]) + (if t[|t| - 1] == e then 1 else 0)
  }

  lemma {:induction false} OccurrencesAppend(e: Event, s: seq<Event>, t: seq<Event>)
    ensures Occurrences(e, s + t) == Occurrences(e, s) + Occurrences(e, t)
    decreases |t|
  {
    if t == [] {
      assert s + t == s;
    } else {
      assert (s + t)[..|s + t| - 1] == s + t[..|t| - 1];
      assert (s + t)[|s + t| - 1] == t[|t| - 1];
      OccurrencesAppend(e, s, t[..|t| - 1]);
    }
  }

  lemma {:induction false} OccurrencesAbsent(e: Event, t: seq<Event>)
    requires forall i :: 0 <= i < |t| ==> t[i] != e
    ensures Occurrences(e, t) == 0
    decreases |t|
  {
    if t != [] {
      OccurrencesAbsent(e, t[..|t| - 1]);
    }
  }

  /** A page holds exactly one startPage and exactly one endPage. */
  lemma PageIsBracketed(p: seq<Event>, transport: RequestView -> Response)
    requires IsPage(p, transport)
    ensures Occurrences(StartPage, p) == 1 && Occurrences(EndPage, p) == 1
  {
    var inner := p[1..|p| - 1];
    assert p == [StartPage] + inner + [EndPage];
    OccurrencesAbsent(StartPage, inner);
    OccurrencesAbsent(EndPage, inner);
    OccurrencesAppend(StartPage, [StartPage] + inner, [EndPage]);
    OccurrencesAppend(StartPage, [StartPage], inner);
    OccurrencesAppend(EndPage, [StartPage] + inner, [EndPage]);
    OccurrencesAppend(EndPage, [StartPage], inner);
  }

  /** Crawled pages bracket the trace: as many starts and ends as pages. */
  lemma {:induction false} PagesAreBalanced(pages: seq<seq<Event>>, transport: RequestView -> Response)
    requires forall i :: 0 <= i < |pages| ==> IsPage(pages[i], transport)
    ensures Occurrences(StartPage, Flatten(pages)) == |pages|
    ensures Occurrences(EndPage, Flatten(pages)) == |pages|
    decreases |pages|
  {
    if pages != [] {
      var init, last := pages[..|pages| - 1], pages[|pages| - 1];
      PagesAreBalanced(init, transport);
      PageIsBracketed(last, transport);
      OccurrencesAppend(StartPage, Flatten(init), last);
      OccurrencesAppend(EndPage, Flatten(init), last);
    }
  }

  lemma LoggedAppend(a: seq<Filed>, b: seq<Filed>)
    ensures Logged(a + b) == Logged(a) + Logged(b)
  {
  }

  /** The state of every link appender, keyed by the appender. */
  type Store = map<LinkAppender, AppState>

  /** The state `h`'s appender has in `store` (a string matcher has none). */
  function StateIn(h: HSpec, store: Store): AppState {
    if h.kind.LinkAppend? && h.kind.appender in store then store[h.kind.appender] else AppState(map[], [])
  }

  /** `store` after `h` left its appender in state `st`. */
  function Update(h: HSpec, store: Store, st: AppState): (r: Store)
    ensures h.kind.LinkAppend? ==> r == store[h.kind.appender := st]
    ensures h.kind.StringMatch? ==> r == store
  {
    if h.kind.LinkAppend? then store[h.kind.appender := st] else store
  }

  /**
   * One handler's turn on a document, as a function of the state of its
   * link appender; `call` is Effect.
   */
  type Turn = (HSpec, AppState, Document, Uri, UriSyntax) -> Outcome

  /**
   * `turn` does what `call` does for the handler `h`. The equation is
   * instantiated only where Effect itself is mentioned, so the engine can
   * reason about turns without expanding every handler's body.
   */
  ghost predicate CallsFor(turn: Turn, h: HSpec) {
    forall st, d, b, s {:trigger Effect(h, st, d, b, s)} :: turn(h, st, d, b, s) == Effect(h, st, d, b, s)
  }

  /** `turn` does what `call` does for every handler of `hs`. */
  ghost predicate Calls(turn: Turn, hs: seq<HSpec>) {
    forall i :: 0 <= i < |hs| ==> CallsFor(turn, hs[i])
  }

  /** Effect is such a turn. */
  lemma EffectCalls(hs: seq<HSpec>)
    ensures Calls(Effect, hs)
  {
  }

  /** What offering one document to the handlers does. */
  datatype RoundResult = RoundResult(turns: seq<seq<Filed>>, err: Option<Error>, store: Store, enqueued: seq<string>)

  /**
   * _callHandlers as a function: every handler's `call` in registration
   * order, each on the state the ones before it left, until one throws.
   */
  function Round(turn: Turn, hs: seq<HSpec>, store: Store, doc: Document, base: Uri, syntax: UriSyntax): (r: RoundResult)
    ensures |r.turns| <= |hs|
    ensures r.err == None ==> |r.turns| == |hs|
    ensures r.err.Some? ==> r.turns != []
    decreases |hs|
  {
    if hs == [] then RoundResult([], None, store, [])
    else
      var r := Round(turn, hs[..|hs| - 1], store, doc, base, syntax);
      if r.err.Some? then r
      else
        var h := hs[|hs| - 1];
        var o := turn(h, StateIn(h, r.store), doc, base, syntax);
        RoundResult(r.turns + [o.filed], o.err, Update(h, r.store, o.after), r.enqueued + o.enqueued)
  }

  /** A round over one more handler: its turn follows, unless the round already threw. */
  lemma RoundSnoc(turn: Turn, hs: seq<HSpec>, i: nat, store: Store, doc: Document, base: Uri, syntax: UriSyntax, r: RoundResult)
    requires i < |hs| && r == Round(turn, hs[..i], store, doc, base, syntax) && r.err == None
    ensures var o := turn(hs[i], StateIn(hs[i], r.store), doc, base, syntax);
      Round(turn, hs[..i + 1], store, doc, base, syntax)
        == RoundResult(r.turns + [o.filed], o.err, Update(hs[i], r.store, o.after), r.enqueued + o.enqueued)
  {
    assert hs[..i + 1][..i] == hs[..i];
  }

  /** A throw ends the round: the handlers after it do not run. */
  lemma {:induction false} RoundStopsAtError(turn: Turn, hs: seq<HSpec>, more: seq<HSpec>, store: Store, doc: Document, base: Uri, syntax: UriSyntax)
    requires Round(turn, hs, store, doc, base, syntax).err.Some?
    ensures Round(turn, hs + more, store, doc, base, syntax) == Round(turn, hs, store, doc, base, syntax)
    decreases |more|
  {
    if more != [] {
      assert (hs + more)[..|hs + more| - 1] == hs + more[..|more| - 1];
      RoundStopsAtError(turn, hs, more[..|more| - 1], store, doc, base, syntax);
    } else {
      assert hs + more == hs;
    }
  }

  /** Every record of `filed` is filed under `name`. */
  predicate FiledUnderName(filed: seq<Filed>, name: string) {
    forall j :: 0 <= j < |filed| ==> filed[j].handler == name
  }

  /** One more turn filed under the name of one more handler keeps every turn under its handler's name. */
  lemma FiledSnoc(turns: seq<seq<Filed>>, init: seq<HSpec>, f: seq<Filed>, h: HSpec)
    requires |turns| == |init|
    requires forall i :: 0 <= i < |turns| ==> FiledUnderName(turns[i], FiledUnder(init[i]))
    requires FiledUnderName(f, FiledUnder(h))
    ensures var w, hs := turns + [f], init + [h];
      forall i :: 0 <= i < |w| ==> FiledUnderName(w[i], FiledUnder(hs[i]))
  {
    var w, hs := turns + [f], init + [h];
    forall i | 0 <= i < |w|
      ensures FiledUnderName(w[i], FiledUnder(hs[i]))
    {
      if i < |turns| {
        assert w[i] == turns[i] && hs[i] == init[i];
      }
    }
  }

  /** A round that has run out of handlers, or has thrown, is the round of all the handlers. */
  lemma RoundDone(turn: Turn, hs: seq<HSpec>, i: nat, store: Store, doc: Document, base: Uri, syntax: UriSyntax)
    requires i <= |hs|
    requires i == |hs| || Round(turn, hs[..i], store, doc, base, syntax).err.Some?
    ensures Round(turn, hs, store, doc, base, syntax) == Round(turn, hs[..i], store, doc, base, syntax)
  {
    if i < |hs| {
      RoundStopsAtError(turn, hs[..i], hs[i..], store, doc, base, syntax);
      assert hs[..i] + hs[i..] == hs;
    } else {
      assert hs[..i] == hs;
    }
  }

  /** Every record a turn of `h` files is filed under the name of `h`. */
  ghost predicate FilesUnderOwnName(turn: Turn, h: HSpec, doc: Document, base: Uri, syntax: UriSyntax) {
    forall st :: FiledUnderName(turn(h, st, doc, base, syntax).filed, FiledUnder(h))
  }

  /** A round of turns that each file under their handler's name files every turn under its handler's name. */
  lemma {:induction false} RoundFilesUnder(turn: Turn, hs: seq<HSpec>, store: Store, doc: Document, base: Uri, syntax: UriSyntax)
    requires forall i :: 0 <= i < |hs| ==> FilesUnderOwnName(turn, hs[i], doc, base, syntax)
    ensures var r := Round(turn, hs, store, doc, base, syntax);
      forall i :: 0 <= i < |r.turns| ==> FiledUnderName(r.turns[i], FiledUnder(hs[i]))
    decreases |hs|
  {
    if hs != [] {
      var init, h := hs[..|hs| - 1], hs[|hs| - 1];
      assert forall i :: 0 <= i < |init| ==> init[i] == hs[i];
      RoundFilesUnder(turn, init, store, doc, base, syntax);
      var r := Round(turn, init, store, doc, base, syntax);
      if r.err == None {
        var o := turn(h, StateIn(h, r.store), doc, base, syntax);
        assert FilesUnderOwnName(turn, hs[|hs| - 1], doc, base, syntax);
        assert hs[..|hs| - 1] == init && init + [h] == hs;
        RoundSnoc(turn, hs, |hs| - 1, store, doc, base, syntax, r);
        FiledSnoc(r.turns, init, o.filed, h);
      } else {
        assert forall i :: 0 <= i < |r.turns| ==> hs[i] == init[i];
      }
    }
  }

  /** Every record of a round is filed under the name of the handler whose turn filed it. */
  lemma RoundFilesUnderNames(hs: seq<HSpec>, store: Store, doc: Document, base: Uri, syntax: UriSyntax)
    ensures var r := Round(Effect, hs, store, doc, base, syntax);
      forall i :: 0 <= i < |r.turns| ==> FiledUnderName(r.turns[i], FiledUnder(hs[i]))
  {
    forall i | 0 <= i < |hs|
      ensures FilesUnderOwnName(Effect, hs[i], doc, base, syntax)
    {
      forall st
        ensures FiledUnderName(Effect(hs[i], st, doc, base, syntax).filed, FiledUnder(hs[i]))
      {
      }
    }
    RoundFilesUnder(Effect, hs, store, doc, base, syntax);
  }

  /**
   * A document no handler admits changes nothing: no records, no
   * exception, no state change, nothing enqueued.
   */
  lemma {:induction false} RoundWhenNoneAdmits(hs: seq<HSpec>, store: Store, doc: Document, base: Uri, syntax: UriSyntax)
    requires forall i :: 0 <= i < |hs| ==> !Admits(hs[i].config, doc)
    requires forall i :: 0 <= i < |hs| && hs[i].kind.LinkAppend? ==> hs[i].kind.appender in store
    ensures var r := Round(Effect, hs, store, doc, base, syntax);
      r.err == None && r.store == store && r.enqueued == [] && Flatten(r.turns) == []
    decreases |hs|
  {
    if hs != [] {
      var init := hs[..|hs| - 1];
      RoundWhenNoneAdmits(init, store, doc, base, syntax);
      var r := Round(Effect, init, store, doc, base, syntax);
      var h := hs[|hs| - 1];
      assert !Admits(h.config, doc);
      var o := Effect(h, StateIn(h, store), doc, base, syntax);
      assert o == Outcome([], None, StateIn(h, store), []);
      FlattenSnoc(r.turns, []);
      assert h.kind.LinkAppend? ==> store[h.kind.appender := StateIn(h, store)] == store;
    }
  }

  /** What crawling one page does. */
  datatype Visited = Visited(page: seq<Event>, err: Option<Error>, front: seq<RequestView>, store: Store)

  /**
   * `v` is what serving `view` does, with `rest` pending after it: the page
   * opens with start, the request and the transport's response for it, is
   * a whole page unless a handler threw, and the pending requests stay
   * ahead of the ones the handlers add.
   */
  predicate Serves(v: Visited, view: RequestView, rest: seq<RequestView>, transport: RequestView -> Response) {
    && |v.page| >= 3 && v.page[..3] == [StartPage, LogRequest(view), LogResponse(transport(view))]
    && (v.err == None ==> IsPage(v.page, transport))
    && (v.err.Some? ==> IsOpenPage(v.page, transport))
    && |rest| <= |v.front| && v.front[..|rest|] == rest
  }

  /**
   * One turn of the loop of `run` as a function: the request served, the
   * response the transport gives for it, the handlers' records, and the
   * end of the page unless a handler threw; the requests they enqueue join
   * the pending ones `rest`.
   */
  function Visit(turn: Turn, hs: seq<HSpec>, view: RequestView, rest: seq<RequestView>, store: Store, base: Uri, syntax: UriSyntax,
                 transport: RequestView -> Response, markup: string -> LinkSets): (v: Visited)
  {
    var response := transport(view);
    var r := Round(turn, hs, store, Factory(view, response, markup), base, syntax);
    var open := [StartPage, LogRequest(view), LogResponse(response)] + Logged(Flatten(r.turns));
    var front := rest + Issue(r.enqueued, Format(view.uri), syntax);
    if r.err == None then Visited(open + [EndPage], r.err, front, r.store) else Visited(open, r.err, front, r.store)
  }

  /** A visit serves its request: Visit is a page as Serves describes. */
  lemma VisitServes(turn: Turn, hs: seq<HSpec>, view: RequestView, rest: seq<RequestView>, store: Store, base: Uri, syntax: UriSyntax,
                    transport: RequestView -> Response, markup: string -> LinkSets)
    ensures Serves(Visit(turn, hs, view, rest, store, base, syntax, transport, markup), view, rest, transport)
  {
    var response := transport(view);
    var r := Round(turn, hs, store, Factory(view, response, markup), base, syntax);
    var open := [StartPage, LogRequest(view), LogResponse(response)] + Logged(Flatten(r.turns));
    if r.err == None {
      ClosePage(open, transport);
    }
  }

  /** One page of a crawl: the request served and the ones pending after it, in the given handler states. */
  type Visitor = (RequestView, seq<RequestView>, Store) -> Visited

  /** The visitor of `run`: Visit with the registered handlers and the run's seed, transport and parser. */
  function PageVisitor(turn: Turn, hs: seq<HSpec>, base: Uri, syntax: UriSyntax, transport: RequestView -> Response, markup: string -> LinkSets): Visitor {
    (view, rest, store) => Visit(turn, hs, view, rest, store, base, syntax, transport, markup)
  }

  lemma PageVisitorIsSound(turn: Turn, hs: seq<HSpec>, base: Uri, syntax: UriSyntax, transport: RequestView -> Response, markup: string -> LinkSets)
    ensures var visit := PageVisitor(turn, hs, base, syntax, transport, markup);
      forall view, rest, store :: Serves(visit(view, rest, store), view, rest, transport)
  {
    var visit := PageVisitor(turn, hs, base, syntax, transport, markup);
    forall view, rest, store
      ensures Serves(visit(view, rest, store), view, rest, transport)
    {
      assert visit(view, rest, store) == Visit(turn, hs, view, rest, store, base, syntax, transport, markup);
      VisitServes(turn, hs, view, rest, store, base, syntax, transport, markup);
    }
  }

  /** The visitor of `run` visits as Visit does. */
  lemma PageVisitorVisits(turn: Turn, hs: seq<HSpec>, base: Uri, syntax: UriSyntax, transport: RequestView -> Response, markup: string -> LinkSets,
                          view: RequestView, rest: seq<RequestView>, store: Store)
    ensures PageVisitor(turn, hs, base, syntax, transport, markup)(view, rest, store) == Visit(turn, hs, view, rest, store, base, syntax, transport, markup)
  {
  }

  /** What a crawl does: the pages, the open page cut short, the exception, the pending requests, the states. */
  datatype Crawled = Crawled(pages: seq<seq<Event>>, cut: seq<Event>, err: Option<Error>, front: seq<RequestView>, store: Store)

  /**
   * The loop of `run` as a function: take the next pending request from
   * the queue and crawl its page, until none is pending, `budget` pages
   * are done, or a handler throws.
   */
  function Crawl(lifo: bool, visit: Visitor, front: seq<RequestView>, store: Store, budget: nat): (c: Crawled)
    decreases budget, 1
  {
    var (next, rest) := Take(lifo, front);
    if budget == 0 || next.None? then Crawled([], [], None, front, store)
    else Serve(lifo, visit, next.value, rest, store, budget)
  }

  /** The crawl from the page of `view` on, with `rest` pending besides it and `budget` pages left. */
  function Serve(lifo: bool, visit: Visitor, view: RequestView, rest: seq<RequestView>, store: Store, budget: nat): (c: Crawled)
    requires budget > 0
    decreases budget, 0
  {
    var v := visit(view, rest, store);
    if v.err.Some? then Crawled([], v.page, v.err, v.front, v.store)
    else
      var c := Crawl(lifo, visit, v.front, v.store, budget - 1);
      Crawled([v.page] + c.pages, c.cut, c.err, c.front, c.store)
  }

  /** One step of a crawl: the page for the request served next, then the crawl of what it leaves pending. */
  lemma CrawlStep(lifo: bool, visit: Visitor, front: seq<RequestView>, store: Store, budget: nat, next: nat, v: Visited)
    requires budget == next + 1 && Take(lifo, front).0.Some?
    requires v == visit(Take(lifo, front).0.value, Take(lifo, front).1, store)
    ensures v.err.Some? ==> Crawl(lifo, visit, front, store, budget) == Crawled([], v.page, v.err, v.front, v.store)
    ensures v.err.None? ==>
              var c := Crawl(lifo, visit, v.front, v.store, next);
              Crawl(lifo, visit, front, store, budget) == Crawled([v.page] + c.pages, c.cut, c.err, c.front, c.store)
  {
  }

  /**
   * The shape of every crawl: at most `budget` pages, each a complete page;
   * a throw leaves an open page; a crawl that ends early without a throw
   * has emptied the queue.
   */
  lemma {:induction false} CrawlShape(lifo: bool, visit: Visitor, front: seq<RequestView>, store: Store, budget: nat,
                                      transport: RequestView -> Response)
    requires forall view, rest, store :: Serves(visit(view, rest, store), view, rest, transport)
    ensures var c := Crawl(lifo, visit, front, store, budget);
      && |c.pages| <= budget
      && (forall i :: 0 <= i < |c.pages| ==> IsPage(c.pages[i], transport))
      && (c.err == None ==> c.cut == [])
      && (c.err.Some? ==> IsOpenPage(c.cut, transport))
      && (c.err == None && |c.pages| < budget ==> c.front == [])
    decreases budget
  {
    var (next, rest) := Take(lifo, front);
    if budget > 0 && next.Some? {
      var v := visit(next.value, rest, store);
      assert Serves(v, next.value, rest, transport);
      if v.err.None? {
        CrawlShape(lifo, visit, v.front, v.store, budget - 1, transport);
      }
    }
  }

  /**
   * The first page crawled is the one for the request the queue serves
   * first: the oldest pending one, or the newest for a LIFO queue.
   */
  lemma FirstPageServesHead(lifo: bool, visit: Visitor, front: seq<RequestView>, store: Store, budget: nat, transport: RequestView -> Response)
    requires forall view, rest, store :: Serves(visit(view, rest, store), view, rest, transport)
    requires budget > 0 && front != []
    ensures var c := Crawl(lifo, visit, front, store, budget);
      var first := if c.pages != [] then c.pages[0] else c.cut;
      |first| >= 2 && first[1] == LogRequest(if lifo then front[|front| - 1] else front[0])
  {
    var (next, rest) := Take(lifo, front);
    assert Serves(visit(next.value, rest, store), next.value, rest, transport);
  }

  /** With no handlers registered, `run` throws nothing and enqueues nothing. */
  lemma NoHandlersAreQuiet(turn: Turn, base: Uri, syntax: UriSyntax, transport: RequestView -> Response, markup: string -> LinkSets)
    ensures var visit := PageVisitor(turn, [], base, syntax, transport, markup);
      forall view, rest, store :: visit(view, rest, store).err == None && visit(view, rest, store).front == rest
  {
    var visit := PageVisitor(turn, [], base, syntax, transport, markup);
    forall view, rest, store
      ensures visit(view, rest, store).err == None && visit(view, rest, store).front == rest
    {
      assert visit(view, rest, store) == Visit(turn, [], view, rest, store, base, syntax, transport, markup);
    }
  }

  /**
   * When nothing is ever enqueued (no handlers, say) a crawl visits exactly
   * the pending requests, in the order the queue serves them.
   */
  lemma {:induction false} CrawlWithoutHandlers(lifo: bool, visit: Visitor, front: seq<RequestView>, store: Store,
                                                transport: RequestView -> Response)
    requires forall view, rest, store :: Serves(visit(view, rest, store), view, rest, transport)
    requires forall view, rest, store :: visit(view, rest, store).err == None && visit(view, rest, store).front == rest
    ensures var c := Crawl(lifo, visit, front, store, |front|);
      && c.err == None && c.front == [] && |c.pages| == |front|
      && forall i :: 0 <= i < |front| ==> |c.pages[i]| > 1 && c.pages[i][1] == LogRequest(Drain(lifo, front)[i])
    decreases |front|
  {
    if front != [] {
      var (next, rest) := Take(lifo, front);
      var v := visit(next.value, rest, store);
      assert Serves(v, next.value, rest, transport);
      CrawlWithoutHandlers(lifo, visit, rest, v.store, transport);
    }
  }

  /** Every handler's link appender is among `parts`. */
  ghost predicate Covers(hs: seq<Handler>, parts: set<LinkAppender>) {
    forall h :: h in hs ==> h.Footprint() <= parts
  }

  /** `store` holds the state of every link appender among `parts`, each of which keeps its invariant. */
  ghost predicate Mirrors(store: Store, parts: set<LinkAppender>)
    reads parts
  {
    store.Keys == parts && forall a :: a in parts ==> a.Valid() && store[a] == a.State()
  }

  /** The handlers as values, in order. */
  function Specs(hs: seq<Handler>): (r: seq<HSpec>)
    reads hs
    ensures |r| == |hs| && forall i :: 0 <= i < |hs| ==> r[i] == hs[i].Spec()
  {
    seq(|hs|, i reads hs requires 0 <= i < |hs| => hs[i].Spec())
  }

  /** Handlers nobody changed are the same values. */
  twostate lemma SpecsKept(hs: seq<Handler>)
    requires unchanged(hs)
    ensures Specs(hs) == old(Specs(hs))
  {
  }

  /** The requests, as views, that the queue serves: what a `next` takes from them. */
  lemma ViewsTake(lifo: bool, q: seq<Request>)
    ensures Take(lifo, Views(q)).1 == Views(Take(lifo, q).1)
    ensures Take(lifo, q).0.None? <==> Take(lifo, Views(q)).0.None?
    ensures Take(lifo, q).0.Some? ==> Take(lifo, Views(q)).0 == Some(Take(lifo, q).0.value.View())
  {
  }

  /** Every event of `t` is a handler record filed under `name`. */
  predicate Attributed(t: seq<Event>, name: string) {
    forall i :: 0 <= i < |t| ==> t[i].HandlerInfo? && t[i].handler == name
  }

  class Engine {
    /** The configuration: options over the defaults, key by key. */
    const config: Options
    /** The crawl frontier, FIFO or LIFO by the `lifo` option. */
    const queue: Queue
    /** The registered handlers, in registration order. */
    var handlers: seq<Handler>
    /** The logger, by class name; none until set or until `run` installs the default. */
    var logger: Option<string>
    /** Everything sent to the logger so far. */
    var trace: seq<Event>
    /** The seed URL of the current run (getBaseUri). */
    var baseUri: Option<Uri>
    /** The number of pages crawled (getRequestCounter). */
    var requestCounter: nat

    /** The link appenders of the registered handlers: the state handling a document may change. */
    ghost var parts: set<LinkAppender>
    /** The state of each of those appenders. */
    ghost var store: Store

    /** `store` describes the appenders of the registered handlers. */
    ghost predicate Valid()
      reads this`handlers, this`parts, this`store, parts
    {
      Covers(handlers, parts) && Mirrors(store, parts)
    }

    constructor (options: Options)
      ensures config == Merge(EngineDefaults, options)
      ensures fresh(queue) && queue.targets == []
      ensures queue.lifo == Truthy(config["lifo"])
      ensures "lifo" !in options ==> !queue.lifo
      ensures handlers == [] && logger == None && trace == [] && baseUri == None && requestCounter == 0
      ensures Valid() && store == map[]
    {
      var c := Merge(EngineDefaults, options);
      config := c;
      queue := new Queue(Truthy(c["lifo"]));
      handlers := [];
      logger := None;
      trace := [];
      baseUri := None;
      requestCounter := 0;
      parts := {};
      store := map[];
    }

    /** setLogger: only once; a second logger is refused and the first kept. */
    method SetLogger(sink: string) returns (err: Option<Error>)
      modifies this`logger
      ensures old(logger).Some? ==> err == Some(LoggerAlreadySet) && logger == old(logger)
      ensures old(logger).None? ==> err == None && logger == Some(sink)
    {
      if logger.Some? {
        err := Some(LoggerAlreadySet);
      } else {
        logger := Some(sink);
        err := None;
      }
    }

    /** log: a handler record goes to the logger unchanged; without a logger it throws. */
    method Log(handler: string, info: Options) returns (err: Option<Error>)
      modifies this`trace
      ensures logger.None? ==> err == Some(LoggerNotSet) && trace == old(trace)
      ensures logger.Some? ==> err == None && trace == old(trace) + [HandlerInfo(handler, info)]
    {
      if logger.None? {
        err := Some(LoggerNotSet);
      } else {
        trace := trace + [HandlerInfo(handler, info)];
        err := None;
      }
    }

    /**
     * addHandler: binds the handler to this engine and appends it; an
     * appender it brings starts out in its own state.
     */
    method AddHandler(h: Handler)
      requires Valid() && h.Valid()
      modifies this`handlers, this`parts, this`store, h`engine
      ensures handlers == old(handlers) + [h] && h.engine == this
      ensures h.kind.LinkAppend? ==> store == old(store)[h.kind.appender := h.State()]
      ensures h.kind.StringMatch? ==> store == old(store)
      ensures Valid()
    {
      h.SetEngine(this);
      handlers := handlers + [h];
      parts := parts + h.Footprint();
      if h.kind.LinkAppend? {
        store := store[h.kind.appender := h.State()];
      }
    }

    /**
     * run: an invalid seed is refused before anything changes. Otherwise
     * the seed becomes the base URI and is enqueued as a GET request, the
     * default logger is installed when none is set, and the queue is
     * drained as Crawl describes, starting from the pending requests
     * followed by the seed: pages are crawled until the queue is empty (or
     * `budget` pages are done), each logging start, request and response,
     * then the handlers' records in registration order, then end, and
     * bumping the counter. A handler's exception ends the run mid-page.
     */
    method Run(seed: string, syntax: UriSyntax, transport: RequestView -> Response, markup: string -> LinkSets, budget: nat)
      returns (err: Option<Error>, ghost pages: seq<seq<Event>>, ghost cut: seq<Event>)
      requires Valid()
      modifies this`baseUri, this`logger, this`trace, this`requestCounter, this`store, queue, parts
      ensures Valid()
      ensures !syntax.check(seed) ==>
                && err == Some(InvalidUrl(seed)) && pages == [] && cut == []
                && baseUri == old(baseUri) && logger == old(logger) && trace == old(trace)
                && queue.targets == old(queue.targets) && requestCounter == old(requestCounter)
                && store == old(store)
      ensures syntax.check(seed) ==>
                var c := Crawl(queue.lifo, PageVisitor(Effect, old(Specs(handlers)), syntax.parse(seed), syntax, transport, markup),
                               old(Views(queue.targets)) + [RequestView(syntax.parse(seed), "GET", None)], old(store), budget);
                && pages == c.pages && cut == c.cut && err == c.err
                && Views(queue.targets) == c.front && store == c.store
      ensures syntax.check(seed) ==>
                && baseUri == Some(syntax.parse(seed))
                && logger == (if old(logger).None? then Some(DefaultLogger) else old(logger))
                && trace == old(trace) + Flatten(pages) + cut
                && requestCounter == old(requestCounter) + |pages|
                && (forall i :: 0 <= i < |pages| ==> IsPage(pages[i], transport))
                && (err == None ==> cut == [] && |pages| <= budget)
                && (err.Some? ==> IsOpenPage(cut, transport))
                && (err == None && |pages| < budget ==> queue.targets == [])
    {
      pages, cut := [], [];
      if !syntax.check(seed) {
        err := Some(InvalidUrl(seed));
        return;
      }
      var base := Seed(seed, syntax);
      SpecsKept(handlers);
      ghost var front, s0, specs := Views(queue.targets), store, Specs(handlers);
      EffectCalls(specs);
      err, pages, cut := Drain(base, syntax, transport, markup, budget, Effect);
      PageVisitorIsSound(Effect, specs, base, syntax, transport, markup);
      CrawlShape(queue.lifo, PageVisitor(Effect, specs, base, syntax, transport, markup), front, s0, budget, transport);
    }

    /**
     * The start of `run` for a valid seed: the seed becomes the base URI
     * and is appended to the queue as a GET request, and the default
     * logger is installed when none is set.
     */
    method Seed(seed: string, syntax: UriSyntax) returns (base: Uri)
      requires Valid() && syntax.check(seed)
      modifies this`baseUri, this`logger, queue
      ensures Valid() && base == syntax.parse(seed) && baseUri == Some(base)
      ensures logger == (if old(logger).None? then Some(DefaultLogger) else old(logger))
      ensures Views(queue.targets) == old(Views(queue.targets)) + [RequestView(base, "GET", None)]
    {
      base := syntax.parse(seed);
      baseUri := Some(base);
      ghost var pending := queue.targets;
      var appended := queue.Append(Url(seed), syntax);
      assert queue.targets == pending + [queue.targets[|pending|]];
      ViewsAppend(pending, [queue.targets[|pending|]]);
      if logger.None? {
        logger := Some(DefaultLogger);
      }
    }

    /**
     * The loop of `run`: pages are crawled until the queue yields nothing
     * or `budget` pages are done, or until a handler throws, as Crawl
     * describes.
     */
    method Drain(base: Uri, syntax: UriSyntax, transport: RequestView -> Response, markup: string -> LinkSets, budget: nat, ghost turn: Turn)
      returns (err: Option<Error>, ghost pages: seq<seq<Event>>, ghost cut: seq<Event>)
      requires Valid() && Calls(turn, Specs(handlers))
      modifies this`trace, this`requestCounter, this`store, queue, parts
      ensures Valid()
      ensures var c := Crawl(queue.lifo, PageVisitor(turn, old(Specs(handlers)), base, syntax, transport, markup), old(Views(queue.targets)), old(store), budget);
        && pages == c.pages && cut == c.cut && err == c.err
        && Views(queue.targets) == c.front && store == c.store
      ensures trace == old(trace) + Flatten(pages) + cut
      ensures requestCounter == old(requestCounter) + |pages|
    {
      ghost var specs := Specs(handlers);
      ghost var visit := PageVisitor(turn, specs, base, syntax, transport, markup);
      ghost var whole := Crawl(queue.lifo, visit, Views(queue.targets), store, budget);
      err, pages, cut := None, [], [];
      var crawled := 0;
      ghost var left: nat := budget;
      var drained := false;
      while crawled < budget && !drained
        invariant Valid()
        invariant crawled == |pages| <= budget && left == budget - crawled
        invariant requestCounter == old(requestCounter) + |pages|
        invariant trace == old(trace) + Flatten(pages)
        invariant var c := Crawl(queue.lifo, visit, Views(queue.targets), store, left);
          whole == Crawled(pages + c.pages, c.cut, c.err, c.front, c.store)
        invariant drained ==> queue.targets == [] && Crawl(queue.lifo, visit, [], store, left) == Crawled([], [], None, [], store)
        decreases left, if drained then 0 else 1
      {
        ghost var before := Crawl(queue.lifo, visit, Views(queue.targets), store, left);
        ghost var next: nat := left - 1;
        var e;
        ghost var page;
        SpecsKept(handlers);
        drained, e, page := Step(base, syntax, transport, markup, left, next, turn, visit);
        if e.Some? {
          err, cut := e, page;
          assert pages + [] == pages;
          return;
        }
        if !drained {
          ghost var after := Crawl(queue.lifo, visit, Views(queue.targets), store, next);
          assert before == Crawled([page] + after.pages, after.cut, after.err, after.front, after.store);
          FlattenSnoc(pages, page);
          AppendAssoc(old(trace), Flatten(pages), page);
          AppendAssoc(pages, [page], after.pages);
          pages := pages + [page];
          crawled := crawled + 1;
          left := next;
        }
      }
      if !drained {
        assert left == 0;
        assert Crawl(queue.lifo, visit, Views(queue.targets), store, left) == Crawled([], [], None, Views(queue.targets), store);
      }
      assert pages + [] == pages;
      assert trace + [] == trace;
    }

    /**
     * One pass of the loop of `run`: `next` on the queue, then the page of
     * the request it yields, as one step of Crawl describes; an empty
     * queue ends the loop with nothing logged.
     */
    method Step(base: Uri, syntax: UriSyntax, transport: RequestView -> Response, markup: string -> LinkSets,
                ghost left: nat, ghost later: nat, ghost turn: Turn, ghost visit: Visitor)
      returns (drained: bool, err: Option<Error>, ghost page: seq<Event>)
      requires Valid() && Calls(turn, Specs(handlers)) && later + 1 == left
      requires visit == PageVisitor(turn, Specs(handlers), base, syntax, transport, markup)
      modifies this`trace, this`requestCounter, this`store, queue, parts
      ensures Valid()
      ensures var c := Crawl(queue.lifo, visit, old(Views(queue.targets)), old(store), left);
        && (drained ==> err == None && page == [] && old(queue.targets) == [] && queue.targets == [] && store == old(store) && c == Crawled([], [], None, [], store))
        && (!drained && err.Some? ==> c == Crawled([], page, err, Views(queue.targets), store))
        && (!drained && err.None? ==>
              var rest := Crawl(queue.lifo, visit, Views(queue.targets), store, later);
              c == Crawled([page] + rest.pages, rest.cut, rest.err, rest.front, rest.store))
      ensures trace == old(trace) + page
      ensures requestCounter == old(requestCounter) + (if !drained && err == None then 1 else 0)
    {
      ghost var specs, front, s := Specs(handlers), Views(queue.targets), store;
      ViewsTake(queue.lifo, queue.targets);
      var next := queue.Next();
      if next.None? {
        drained, err, page := true, None, [];
        return;
      }
      drained := false;
      ghost var v := Visit(turn, specs, next.value.View(), Views(queue.targets), s, base, syntax, transport, markup);
      PageVisitorVisits(turn, specs, base, syntax, transport, markup, next.value.View(), Views(queue.targets), s);
      CrawlStep(queue.lifo, visit, front, s, left, later, v);
      SpecsKept(handlers);
      err, page := CrawlPage(next.value, base, syntax, transport, markup, turn);
    }

    /**
     * One turn of the loop: start the page, log the request and the
     * response the transport gives for it, offer the document to the
     * handlers, end the page and count it, as Visit describes. A handler's
     * exception leaves the page open and uncounted.
     */
    method CrawlPage(request: Request, base: Uri, syntax: UriSyntax, transport: RequestView -> Response, markup: string -> LinkSets, ghost turn: Turn)
      returns (err: Option<Error>, ghost page: seq<Event>)
      requires Valid() && Calls(turn, Specs(handlers))
      modifies this`trace, this`requestCounter, this`store, queue, parts
      ensures Valid()
      ensures var v := Visit(turn, old(Specs(handlers)), old(request.View()), old(Views(queue.targets)), old(store), base, syntax, transport, markup);
        && page == v.page && err == v.err && Views(queue.targets) == v.front && store == v.store
      ensures trace == old(trace) + page
      ensures requestCounter == old(requestCounter) + (if err == None then 1 else 0)
    {
      var view := request.View();
      var response := transport(view);
      OpenPage(view, response);
      ghost var logged;
      SpecsKept(handlers);
      err, logged := CallHandlers(request, response, base, syntax, markup, turn);
      page := [StartPage, LogRequest(view), LogResponse(response)] + logged;
      AppendAssoc(old(trace), [StartPage, LogRequest(view), LogResponse(response)], logged);
      if err.None? {
        AppendAssoc(old(trace), page, [EndPage]);
        FinishPage();
        page := page + [EndPage];
      }
    }

    /** startPage, logRequest and logResponse: the records that open a page. */
    method OpenPage(view: RequestView, response: Response)
      requires Valid()
      modifies this`trace
      ensures Valid() && trace == old(trace) + [StartPage, LogRequest(view), LogResponse(response)]
    {
      trace := trace + [StartPage, LogRequest(view), LogResponse(response)];
    }

    /** endPage, and the page counted. */
    method FinishPage()
      requires Valid()
      modifies this`trace, this`requestCounter
      ensures Valid() && trace == old(trace) + [EndPage] && requestCounter == old(requestCounter) + 1
    {
      trace := trace + [EndPage];
      requestCounter := requestCounter + 1;
    }

    /**
     * _callHandlers: builds the document from the request and its response
     * and offers it to every handler in registration order, each record
     * going to the logger as it is filed; an exception stops the round.
     */
    method CallHandlers(request: Request, response: Response, base: Uri, syntax: UriSyntax, markup: string -> LinkSets, ghost turn: Turn)
      returns (err: Option<Error>, ghost logged: seq<Event>)
      requires Valid() && Calls(turn, Specs(handlers))
      modifies this`trace, this`store, queue, parts
      ensures Valid()
      ensures var doc := Factory(old(request.View()), response, markup);
        var r := Round(turn, old(Specs(handlers)), old(store), doc, base, syntax);
        && err == r.err && logged == Logged(Flatten(r.turns)) && store == r.store
        && Views(queue.targets) == old(Views(queue.targets)) + Issue(r.enqueued, Format(doc.url), syntax)
      ensures trace == old(trace) + logged
    {
      var doc := Factory(request.View(), response, markup);
      err, logged := Offer(doc, base, syntax, turn);
    }

    /**
     * The handlers' turns on one document, as Round describes: every
     * handler's `call` in registration order, its records going to the
     * logger as they are filed, until one throws.
     */
    method Offer(doc: Document, base: Uri, syntax: UriSyntax, ghost turn: Turn) returns (err: Option<Error>, ghost logged: seq<Event>)
      requires Valid() && Calls(turn, Specs(handlers))
      modifies this`trace, this`store, queue, parts
      ensures Valid()
      ensures var r := Round(turn, old(Specs(handlers)), old(store), doc, base, syntax);
        && err == r.err && logged == Logged(Flatten(r.turns)) && store == r.store
        && Views(queue.targets) == old(Views(queue.targets)) + Issue(r.enqueued, Format(doc.url), syntax)
      ensures trace == old(trace) + logged
    {
      ghost var specs, s0, v0 := Specs(handlers), store, Views(queue.targets);
      ghost var r := RoundResult([], None, s0, []);
      err := None;
      var i := 0;
      while i < |handlers| && err == None
        invariant Valid() && specs == Specs(handlers)
        invariant i <= |handlers|
        invariant r == Round(turn, specs[..i], s0, doc, base, syntax)
        invariant err == r.err && store == r.store
        invariant trace == old(trace) + Logged(Flatten(r.turns))
        invariant Views(queue.targets) == v0 + Issue(r.enqueued, Format(doc.url), syntax)
      {
        err, r := OfferTo(i, doc, base, syntax, turn, specs, s0, v0, old(trace), r);
        i := i + 1;
      }
      RoundDone(turn, specs, i, s0, doc, base, syntax);
      logged := Logged(Flatten(r.turns));
    }

    /**
     * One pass of the foreach: the handler at `k` takes its turn after the
     * earlier ones, which threw nothing; the round so far grows by that turn.
     */
    method OfferTo(k: nat, doc: Document, base: Uri, syntax: UriSyntax, ghost turn: Turn, ghost specs: seq<HSpec>,
                   ghost s0: Store, ghost v0: seq<RequestView>, ghost t0: seq<Event>, ghost r: RoundResult)
      returns (err: Option<Error>, ghost r': RoundResult)
      requires Valid() && k < |handlers| && specs == Specs(handlers) && Calls(turn, specs)
      requires r == Round(turn, specs[..k], s0, doc, base, syntax) && r.err == None && store == r.store
      requires trace == t0 + Logged(Flatten(r.turns))
      requires Views(queue.targets) == v0 + Issue(r.enqueued, Format(doc.url), syntax)
      modifies this`trace, this`store, queue, parts
      ensures Valid() && specs == Specs(handlers)
      ensures r' == Round(turn, specs[..k + 1], s0, doc, base, syntax) && err == r'.err && store == r'.store
      ensures trace == t0 + Logged(Flatten(r'.turns))
      ensures Views(queue.targets) == v0 + Issue(r'.enqueued, Format(doc.url), syntax)
    {
      ghost var o := turn(specs[k], StateIn(specs[k], store), doc, base, syntax);
      RoundSnoc(turn, specs, k, s0, doc, base, syntax, r);
      ghost var more;
      err, more := Dispatch(handlers[k], doc, base, syntax, turn);
      SpecsKept(handlers);
      FlattenSnoc(r.turns, o.filed);
      LoggedAppend(Flatten(r.turns), o.filed);
      AppendAssoc(t0, Logged(Flatten(r.turns)), more);
      IssueAppend(r.enqueued, o.enqueued, Format(doc.url), syntax);
      AppendAssoc(v0, Issue(r.enqueued, Format(doc.url), syntax), Issue(o.enqueued, Format(doc.url), syntax));
      r' := RoundResult(r.turns + [o.filed], o.err, store, r.enqueued + o.enqueued);
    }

    /**
     * One handler's turn: `call` on the document, as Effect describes, its
     * records going to the logger. Appenders it does not own are
     * untouched, so every appender stays valid.
     */
    method Dispatch(ran: Handler, doc: Document, base: Uri, syntax: UriSyntax, ghost turn: Turn) returns (err: Option<Error>, ghost logged: seq<Event>)
      requires Valid() && ran in handlers && CallsFor(turn, ran.Spec())
      modifies this`trace, this`store, queue, parts
      ensures Valid()
      ensures var o := turn(ran.Spec(), StateIn(ran.Spec(), old(store)), doc, base, syntax);
        && logged == Logged(o.filed) && err == o.err
        && store == Update(ran.Spec(), old(store), o.after)
        && Views(queue.targets) == old(Views(queue.targets)) + Issue(o.enqueued, Format(doc.url), syntax)
      ensures trace == old(trace) + logged
    {
      ghost var s0 := store;
      assert StateIn(ran.Spec(), s0) == ran.State();
      var filed;
      filed, err := ran.Call(doc, queue, base, syntax);
      ghost var o := Effect(ran.Spec(), StateIn(ran.Spec(), s0), doc, base, syntax);
      assert o == turn(ran.Spec(), StateIn(ran.Spec(), s0), doc, base, syntax);
      store := Update(ran.Spec(), s0, o.after);
      trace := trace + Logged(filed);
      logged := Logged(filed);
      OthersKept(ran);
    }

    /**
     * After the handler `ran` took its turn, only its own appender may have
     * changed: the mirrors of the others still hold.
     */
    twostate lemma OthersKept(ran: Handler)
      requires old(Valid()) && ran in handlers && unchanged(this`handlers, this`parts)
      requires forall a :: a in parts && a !in ran.Footprint() ==> unchanged(a)
      requires ran.Valid()
      requires ran.kind.LinkAppend? ==> store == old(store)[ran.kind.appender := ran.State()]
      requires ran.kind.StringMatch? ==> store == old(store)
      ensures Valid()
    {
      forall a | a in parts
        ensures a.Valid() && store[a] == a.State()
      {
        if !(ran.kind.LinkAppend? && a == ran.kind.appender) {
          assert old(a.Valid());
        }
      }
    }
  }
}
