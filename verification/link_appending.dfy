/**
 * The link appender (lib/Spizer/Handler/LinkAppender.php): records every
 * document URL it sees, harvests the links of HTML documents, filters them
 * by scheme and host, resolves host-less ones against the document URL and
 * enqueues each resulting URL string at most once over its lifetime.
 */
module LinkAppending {
  import opened Wrappers
  import opened Php
  import opened Uris
  import opened Errors
  import opened Requests
  import opened Frontier
  import opened Documents

  /** The appender's own configuration defaults. */
  const LinkDefaults: Options := map[
    "status" := Null, "content-type" := Null,
    "follow_href" := Bool(true), "follow_img" := Bool(false),
    "follow_link" := Bool(false), "follow_script" := Bool(false),
    "same-domain" := Bool(false)]

  /**
   * The configuration `handle` reads: the constructor options merged over
   * the appender's defaults (the corrected reading of the source, which
   * merges the options into a different array than the one it reads).
   */
  function Settings(options: Options): (c: Options)
    ensures c.Keys == LinkDefaults.Keys + options.Keys
    ensures forall k :: k in options ==> c[k] == options[k]
    ensures forall k :: k in LinkDefaults && k !in options ==> c[k] == LinkDefaults[k]
  {
    Merge(LinkDefaults, options)
  }

  /** As written, the options never reach the array `handle` reads. */
  function AsWrittenSettings(options: Options): (c: Options)
    ensures c == LinkDefaults
  {
    LinkDefaults
  }

  predicate NoDup<T(==)>(s: seq<T>) {
    forall i, j :: 0 <= i < j < |s| ==> s[i] != s[j]
  }

  lemma NoDupAppend<T>(s: seq<T>, t: seq<T>)
    requires NoDup(s) && NoDup(t) && forall u :: u in t ==> u !in s
    ensures NoDup(s + t)
  {
    forall i, j | 0 <= i < j < |s + t|
      ensures (s + t)[i] != (s + t)[j]
    {
      if j >= |s| {
        assert (s + t)[j] == t[j - |s|];
        if i >= |s| {
          assert (s + t)[i] == t[i - |s|];
        } else {
          assert (s + t)[i] == s[i] && s[i] in s;
          assert t[j - |s|] in t;
        }
      }
    }
  }

  /** Adds `u` to the seen list unless it is already there. */
  function Remember(seen: seq<string>, u: string): (r: seq<string>)
    ensures u in r && (u in seen ==> r == seen) && (u !in seen ==> r == seen + [u])
    ensures NoDup(seen) ==> NoDup(r)
  {
    if u in seen then seen else seen + [u]
  }

  /**
   * The lazy same-domain setup: when no domain is set and same-domain is
   * on, the domain becomes the host of the crawl's base URI.
   */
  function WithDomain(config: Options, base: Uri): (c: Options)
    ensures !IsSet(config, "domain") && Truthy(Get(config, "same-domain")) ==> c == config["domain" := Str(base.host)]
    ensures IsSet(config, "domain") || !Truthy(Get(config, "same-domain")) ==> c == config
  {
    if !IsSet(config, "domain") && Truthy(Get(config, "same-domain")) then config["domain" := Str(base.host)]
    else config
  }

  /** The links to process: anchors, images, header links, scripts, as enabled. */
  function Gathered(config: Options, links: LinkSets): (r: seq<string>)
    ensures |r| <= |links.anchors| + |links.images| + |links.headerLinks| + |links.scripts|
    ensures Truthy(Get(config, "follow_href")) ==> links.anchors <= r
    ensures (!Truthy(Get(config, "follow_href")) && !Truthy(Get(config, "follow_img"))
             && !Truthy(Get(config, "follow_link")) && !Truthy(Get(config, "follow_script"))) ==> r == []
  {
    (if Truthy(Get(config, "follow_href")) then links.anchors else [])
    + (if Truthy(Get(config, "follow_img")) then links.images else [])
    + (if Truthy(Get(config, "follow_link")) then links.headerLinks else [])
    + (if Truthy(Get(config, "follow_script")) then links.scripts else [])
  }

  /** Once set, lazily or by configuration, the domain never changes again. */
  lemma WithDomainSetsOnce(config: Options, b1: Uri, b2: Uri)
    ensures WithDomain(WithDomain(config, b1), b2) == WithDomain(config, b1)
    ensures IsSet(config, "domain") ==> WithDomain(config, b1)["domain"] == config["domain"]
  {
  }

  /** With same-domain on, a domain is always in force after the setup. */
  lemma SameDomainFixesDomain(config: Options, base: Uri)
    requires Truthy(Get(config, "same-domain"))
    ensures IsSet(WithDomain(config, base), "domain")
    ensures !IsSet(config, "domain") ==> Get(WithDomain(config, base), "domain") == Str(base.host)
  {
  }

  /** A link is gathered exactly when it is in one of the enabled collections. */
  lemma GatheredMembers(config: Options, links: LinkSets, x: string)
    ensures x in Gathered(config, links) <==>
      || (Truthy(Get(config, "follow_href")) && x in links.anchors)
      || (Truthy(Get(config, "follow_img")) && x in links.images)
      || (Truthy(Get(config, "follow_link")) && x in links.headerLinks)
      || (Truthy(Get(config, "follow_script")) && x in links.scripts)
  {
  }

  /** All four flags on: every collection, in the order anchors, images, header links, scripts. */
  lemma GatheredAll(config: Options, links: LinkSets)
    requires Truthy(Get(config, "follow_href")) && Truthy(Get(config, "follow_img"))
    requires Truthy(Get(config, "follow_link")) && Truthy(Get(config, "follow_script"))
    ensures Gathered(config, links) == links.anchors + links.images + links.headerLinks + links.scripts
  {
  }

  /** Only follow_img on: the images alone. */
  lemma GatheredImagesOnly(config: Options, links: LinkSets)
    requires !Truthy(Get(config, "follow_href")) && Truthy(Get(config, "follow_img"))
    requires !Truthy(Get(config, "follow_link")) && !Truthy(Get(config, "follow_script"))
    ensures Gathered(config, links) == links.images
  {
    assert [] + links.images + [] + [] == links.images;
  }

  /** With the default configuration only anchors are followed. */
  lemma DefaultsFollowAnchors(links: LinkSets)
    ensures Gathered(Settings(map[]), links) == links.anchors
  {
    var c := Settings(map[]);
    assert c == LinkDefaults;
    assert links.anchors + [] + [] + [] == links.anchors;
  }

  predicate EndsWith(s: string, suffix: string) {
    |suffix| <= |s| && s[|s| - |suffix|..] == suffix
  }

  /**
   * The host filter `/<quoted domain>$/`: the host must end with the
   * configured domain; an unset or empty domain accepts every host.
   */
  predicate HostAccepted(config: Options, host: string) {
    EndsWith(host, ToPhpString(Get(config, "domain")))
  }

  /** `strrpos($path, '/')`: the last offset of `/`, or false. */
  function LastSlash(p: string): (r: Option<nat>)
    ensures r.Some? ==> r.value < |p| && p[r.value] == '/'
    ensures r.Some? ==> forall j :: r.value < j < |p| ==> p[j] != '/'
    ensures r.None? ==> forall j :: 0 <= j < |p| ==> p[j] != '/'
  {
    if p == [] then None
    else if p[|p| - 1] == '/' then Some(|p| - 1)
    else LastSlash(p[..|p| - 1])
  }

  /**
   * The path of a host-less link resolved against the document path: a
   * path starting with `/` replaces it, and so does an empty path (PHP 5's
   * `substr_compare('', '/', 0, 1)` returns false, which compares equal to
   * 0); any other path is appended to the document path up to and
   * including its last `/`, or to `/` when it has none. Dot segments are
   * kept.
   */
  function MergePath(basePath: string, ref: string): (r: string)
    ensures ref == [] ==> r == []
    ensures |ref| > 0 && ref[0] == '/' ==> r == ref
    ensures |ref| > 0 && ref[0] != '/' && LastSlash(basePath).None? ==> r == "/" + ref
    ensures |ref| > 0 && ref[0] != '/' && LastSlash(basePath).Some? ==>
              r == basePath[..LastSlash(basePath).value + 1] + ref
  {
    if ref == [] || ref[0] == '/' then ref
    else match LastSlash(basePath)
      case None => "/" + ref
      case Some(k) => basePath[..k + 1] + ref
  }

  /**
   * "Merge Paths" of section 5.2.3 of RFC 3986 for a base URI with an
   * authority: "/" + ref when the base path is empty, otherwise the base
   * path without its last segment, followed by ref.
   */
  function RfcMergePaths(basePath: string, ref: string): string {
    if basePath == [] then "/" + ref else DropLastSegment(basePath) + ref
  }

  /** The path with every character after the right-most `/` removed. */
  function DropLastSegment(p: string): string {
    if p == [] || p[|p| - 1] == '/' then p else DropLastSegment(p[..|p| - 1])
  }

  lemma {:induction false} DropLastSegmentIsPrefixToLastSlash(p: string)
    requires LastSlash(p).Some?
    ensures DropLastSegment(p) == p[..LastSlash(p).value + 1]
    decreases |p|
  {
    if p[|p| - 1] != '/' {
      var q := p[..|p| - 1];
      DropLastSegmentIsPrefixToLastSlash(q);
      assert q[..LastSlash(q).value + 1] == p[..LastSlash(p).value + 1];
    }
  }

  /**
   * For the paths an HTTP URI can have (empty or starting with `/`) and a
   * non-empty relative reference path, the merge agrees with RFC 3986's;
   * references with an absolute path are taken as they are (RFC 3986
   * section 5.2.4 is not applied).
   */
  lemma MergeAgreesWithRfc3986(basePath: string, ref: string)
    requires basePath == [] || basePath[0] == '/'
    requires |ref| > 0 && ref[0] != '/'
    ensures MergePath(basePath, ref) == RfcMergePaths(basePath, ref)
  {
    if basePath != [] {
      assert LastSlash(basePath).Some?;
      DropLastSegmentIsPrefixToLastSlash(basePath);
    }
  }

  /**
   * A host-less link resolved against the document URL: the document's
   * scheme, host and port, the merged path, and the link's own query and
   * fragment (none when the link has none).
   */
  function Resolve(doc: Uri, parts: LinkParts, path: string): (u: Uri)
    ensures u.scheme == doc.scheme && u.host == doc.host && u.port == doc.port
    ensures u.path == MergePath(doc.path, path)
    ensures u.query == parts.query.GetOr("") && u.fragment == parts.fragment.GetOr("")
  {
    doc.(path := MergePath(doc.path, path), query := parts.query.GetOr(""), fragment := parts.fragment.GetOr(""))
  }

  /** As written: the fragment setter is never called, so the document's fragment stays. */
  function AsWrittenResolve(doc: Uri, parts: LinkParts, path: string): (u: Uri)
    ensures u == Resolve(doc, parts, path).(fragment := doc.fragment)
  {
    doc.(path := MergePath(doc.path, path), query := parts.query.GetOr(""))
  }

  /** What one raw link becomes. */
  datatype Step = Skip | Candidate(url: string) | Unresolvable(link: string, reason: string)

  /** The message logged for a link whose resolved query or path is invalid. */
  function UnresolvableRecord(link: string, reason: string): Options {
    map["link" := Str(link), "message" := Str("Unable to parse link URL: " + reason)]
  }

  /** No scheme, or one of http and https. */
  predicate SchemeAllowed(p: LinkParts) {
    p.scheme.None? || p.scheme.value == "http" || p.scheme.value == "https"
  }

  /** A parsed host-less link with a path, resolved against the document URL. */
  function Relocated(doc: Uri, p: LinkParts): Uri
    requires p.path.Some?
  {
    Resolve(doc, p, p.path.value)
  }

  /**
   * The reason the URI library gives for refusing a resolved host-less
   * link: its query first, then its path; None when it accepts both. A
   * link without a query passes null to setQuery, which sets no query and
   * cannot be refused.
   */
  function Refusal(syntax: UriSyntax, doc: Uri, p: LinkParts): (e: Option<string>)
    requires p.path.Some?
    ensures p.query.Some? && syntax.queryError(p.query.value).Some? ==> e == syntax.queryError(p.query.value)
    ensures (p.query.None? || syntax.queryError(p.query.value).None?) ==> e == syntax.pathError(Relocated(doc, p).path)
  {
    var q := if p.query.Some? then syntax.queryError(p.query.value) else None;
    if q.Some? then q else syntax.pathError(Relocated(doc, p).path)
  }

  /**
   * One raw link: skipped when unparseable, when it has a scheme other than
   * http or https, when its host fails the domain filter, or when it has
   * neither host nor path; a link with a host is a candidate as its raw
   * string; a host-less one is resolved, and reported when the URI
   * library refuses its query or path.
   */
  function Classify(syntax: UriSyntax, config: Options, doc: Uri, link: string): (s: Step)
    ensures var p := syntax.parseUrl(link);
      s == Skip <==>
        || p.None?
        || !SchemeAllowed(p.value)
        || (p.value.host.Some? && !HostAccepted(config, p.value.host.value))
        || (p.value.host.None? && p.value.path.None?)
    ensures var p := syntax.parseUrl(link);
      (p.Some? && SchemeAllowed(p.value) && p.value.host.Some? && HostAccepted(config, p.value.host.value))
        <==> s == Candidate(link) && p.Some? && p.value.host.Some?
    ensures var p := syntax.parseUrl(link);
      (p.Some? && SchemeAllowed(p.value) && p.value.host.None? && p.value.path.Some?
       && Refusal(syntax, doc, p.value).None?)
        <==> s.Candidate? && p.Some? && p.value.host.None?
    ensures var p := syntax.parseUrl(link);
      s.Candidate? && p.Some? && p.value.host.None? ==> p.value.path.Some? && s.url == Format(Relocated(doc, p.value))
    ensures var p := syntax.parseUrl(link);
      (p.Some? && SchemeAllowed(p.value) && p.value.host.None? && p.value.path.Some?
       && Refusal(syntax, doc, p.value).Some?)
        <==> s.Unresolvable?
    ensures var p := syntax.parseUrl(link);
      s.Unresolvable? ==> s.link == link && Some(s.reason) == Refusal(syntax, doc, p.value)
  {
    match syntax.parseUrl(link)
    case None => Skip
    case Some(p) =>
      if !SchemeAllowed(p) then Skip
      else if p.host.Some? then
        if HostAccepted(config, p.host.value) then Candidate(link) else Skip
      else if p.path.Some? then
        var q := if p.query.Some? then syntax.queryError(p.query.value) else None;
        if q.Some? then Unresolvable(link, q.value)
        else
          var u := Resolve(doc, p, p.path.value);
          var e := syntax.pathError(u.path);
          if e.Some? then Unresolvable(link, e.value) else Candidate(Format(u))
      else Skip
  }

  /** The effect of processing a run of links on the appender. */
  datatype Harvest = Harvest(seen: seq<string>, enqueued: seq<string>, records: seq<Options>, error: Option<Error>)

  /** Every link classified, in order. */
  function Steps(syntax: UriSyntax, config: Options, doc: Uri, links: seq<string>): (r: seq<Step>)
    ensures |r| == |links| && forall i :: 0 <= i < |links| ==> r[i] == Classify(syntax, config, doc, links[i])
  {
    seq(|links|, i requires 0 <= i < |links| => Classify(syntax, config, doc, links[i]))
  }

  /**
   * One pass of the foreach loop of `handle` with `addToQueue`: an
   * unresolvable link is reported; a candidate not yet seen is enqueued and
   * becomes seen, unless it is not a valid HTTP URL, which throws; anything
   * else changes nothing.
   */
  function Absorb1(syntax: UriSyntax, seen: seq<string>, step: Step): Harvest
  {
    match step
    case Skip => Harvest(seen, [], [], None)
    case Unresolvable(l, why) => Harvest(seen, [], [UnresolvableRecord(l, why)], None)
    case Candidate(u) =>
      if u in seen then Harvest(seen, [], [], None)
      else if !syntax.check(u) then Harvest(seen, [], [], Some(InvalidUrl(u)))
      else Harvest(seen + [u], [u], [], None)
  }

  /**
   * One pass enqueues at most the candidate, exactly when it is new and
   * valid; it throws exactly when the candidate is new and invalid, and then
   * changes nothing; only unresolvable links are reported.
   */
  lemma Absorb1Facts(syntax: UriSyntax, seen: seq<string>, step: Step)
    ensures var a := Absorb1(syntax, seen, step);
      && (a.error.Some? ==> a.seen == seen && a.enqueued == [] && a.records == [])
      && a.seen == seen + a.enqueued && |a.enqueued| <= 1
      && (forall u :: u in a.enqueued ==> u !in seen && syntax.check(u))
      && (step.Candidate? ==>
            && (step.url !in seen && syntax.check(step.url) <==> a.enqueued == [step.url])
            && (step.url !in seen && !syntax.check(step.url) <==> a.error == Some(InvalidUrl(step.url))))
      && (!step.Candidate? ==> a.enqueued == [] && a.error == None)
      && (step.Unresolvable? <==> a.records != [])
  {
  }

  /** The whole loop over the classified links: the passes in order, stopping at the first throw. */
  function Absorb(syntax: UriSyntax, seen: seq<string>, steps: seq<Step>): Harvest
    decreases |steps|
  {
    if steps == [] then Harvest(seen, [], [], None)
    else
      var a := Absorb1(syntax, seen, steps[0]);
      if a.error.Some? then a
      else
        var h := Absorb(syntax, a.seen, steps[1..]);
        Harvest(h.seen, a.enqueued + h.enqueued, a.records + h.records, h.error)
  }

  /**
   * The dedup invariant: the seen list only grows, and grows by exactly the
   * enqueued URLs, none of which was seen before and none twice.
   */
  lemma {:induction false} AbsorbEnqueuesOnlyUnseen(syntax: UriSyntax, seen: seq<string>, steps: seq<Step>)
    requires NoDup(seen)
    ensures var h := Absorb(syntax, seen, steps);
      && h.seen == seen + h.enqueued
      && NoDup(h.seen)
      && (forall u :: u in h.enqueued ==> u !in seen)
    decreases |steps|
  {
    if steps != [] {
      var a := Absorb1(syntax, seen, steps[0]);
      Absorb1Facts(syntax, seen, steps[0]);
      if a.error.None? {
        NoDupAppend(seen, a.enqueued);
        AbsorbEnqueuesOnlyUnseen(syntax, a.seen, steps[1..]);
        var h := Absorb(syntax, a.seen, steps[1..]);
        assert a.seen + h.enqueued == seen + (a.enqueued + h.enqueued);
        assert forall u :: u in a.enqueued + h.enqueued ==> u in a.enqueued || u in h.enqueued;
      }
    }
  }

  /** The loop over a single classified link is one pass. */
  lemma AbsorbSingle(syntax: UriSyntax, seen: seq<string>, s: Step)
    ensures Absorb(syntax, seen, [s]) == Absorb1(syntax, seen, s)
  {
    var a := Absorb1(syntax, seen, s);
    if a.error.None? {
      assert [s][1..] == [];
      assert a.enqueued + [] == a.enqueued && a.records + [] == a.records;
    }
  }

  /** Absorbing one more classified link continues from where the others left off. */
  lemma {:induction false} AbsorbSnoc(syntax: UriSyntax, seen: seq<string>, steps: seq<Step>, s: Step)
    requires Absorb(syntax, seen, steps).error.None?
    ensures var h := Absorb(syntax, seen, steps);
      var a := Absorb1(syntax, h.seen, s);
      Absorb(syntax, seen, steps + [s]) == Harvest(a.seen, h.enqueued + a.enqueued, h.records + a.records, a.error)
    decreases |steps|
  {
    if steps == [] {
      assert [] + [s] == [s];
      AbsorbSingle(syntax, seen, s);
    } else {
      var a0 := Absorb1(syntax, seen, steps[0]);
      assert a0.error.None?;
      assert (steps + [s])[0] == steps[0] && (steps + [s])[1..] == steps[1..] + [s];
      AbsorbSnoc(syntax, a0.seen, steps[1..], s);
      var h := Absorb(syntax, a0.seen, steps[1..]);
      var a := Absorb1(syntax, h.seen, s);
      var whole := Absorb(syntax, a0.seen, steps[1..] + [s]);
      assert Absorb(syntax, seen, steps + [s]) == Harvest(whole.seen, a0.enqueued + whole.enqueued, a0.records + whole.records, whole.error);
      assert a0.enqueued + (h.enqueued + a.enqueued) == (a0.enqueued + h.enqueued) + a.enqueued;
      assert a0.records + (h.records + a.records) == (a0.records + h.records) + a.records;
    }
  }

  /** A throw ends the loop: the links after it change nothing. */
  lemma {:induction false} AbsorbStopsAtError(syntax: UriSyntax, seen: seq<string>, steps: seq<Step>, more: seq<Step>)
    requires Absorb(syntax, seen, steps).error.Some?
    ensures Absorb(syntax, seen, steps + more) == Absorb(syntax, seen, steps)
    decreases |steps|
  {
    var a0 := Absorb1(syntax, seen, steps[0]);
    assert (steps + more)[0] == steps[0] && (steps + more)[1..] == steps[1..] + more;
    if a0.error.None? {
      AbsorbStopsAtError(syntax, a0.seen, steps[1..], more);
    }
  }

  /** AbsorbSnoc for the first i + 1 of the classified links. */
  lemma AbsorbPrefixStep(syntax: UriSyntax, seen: seq<string>, steps: seq<Step>, i: nat)
    requires i < |steps| && Absorb(syntax, seen, steps[..i]).error.None?
    ensures var h := Absorb(syntax, seen, steps[..i]);
      var a := Absorb1(syntax, h.seen, steps[i]);
      Absorb(syntax, seen, steps[..i + 1]) == Harvest(a.seen, h.enqueued + a.enqueued, h.records + a.records, a.error)
  {
    AbsorbSnoc(syntax, seen, steps[..i], steps[i]);
    assert steps[..i] + [steps[i]] == steps[..i + 1];
  }

  /** AbsorbStopsAtError for a throw within the first i classified links. */
  lemma AbsorbPrefixError(syntax: UriSyntax, seen: seq<string>, steps: seq<Step>, i: nat)
    requires i <= |steps| && Absorb(syntax, seen, steps[..i]).error.Some?
    ensures Absorb(syntax, seen, steps) == Absorb(syntax, seen, steps[..i])
  {
    AbsorbStopsAtError(syntax, seen, steps[..i], steps[i..]);
    assert steps[..i] + steps[i..] == steps;
  }

  /** Nothing seen is ever forgotten. */
  lemma {:induction false} AbsorbKeepsSeen(syntax: UriSyntax, seen: seq<string>, steps: seq<Step>)
    ensures forall u :: u in seen ==> u in Absorb(syntax, seen, steps).seen
    decreases |steps|
  {
    if steps != [] {
      var a := Absorb1(syntax, seen, steps[0]);
      if a.error.None? {
        AbsorbKeepsSeen(syntax, a.seen, steps[1..]);
      }
    }
  }

  /** Every candidate ends up seen, unless a throw ended the loop. */
  lemma {:induction false} AbsorbSeesEveryCandidate(syntax: UriSyntax, seen: seq<string>, steps: seq<Step>)
    ensures var h := Absorb(syntax, seen, steps);
      h.error.None? ==> forall i :: 0 <= i < |steps| && steps[i].Candidate? ==> steps[i].url in h.seen
    decreases |steps|
  {
    if steps != [] {
      var a := Absorb1(syntax, seen, steps[0]);
      if a.error.None? {
        AbsorbSeesEveryCandidate(syntax, a.seen, steps[1..]);
        AbsorbKeepsSeen(syntax, a.seen, steps[1..]);
        assert forall i :: 1 <= i < |steps| ==> steps[i] == steps[1..][i - 1];
      }
    }
  }

  /** The GET requests for `urls`, in order, each referred by `referrer`, as they stand once queued. */
  function Issue(urls: seq<string>, referrer: string, syntax: UriSyntax): (v: seq<RequestView>)
    ensures |v| == |urls|
    ensures forall k :: 0 <= k < |urls| ==> v[k] == RequestView(syntax.parse(urls[k]), "GET", Some(referrer))
  {
    seq(|urls|, k requires 0 <= k < |urls| => RequestView(syntax.parse(urls[k]), "GET", Some(referrer)))
  }

  lemma IssueAppend(u1: seq<string>, u2: seq<string>, referrer: string, syntax: UriSyntax)
    ensures Issue(u1 + u2, referrer, syntax) == Issue(u1, referrer, syntax) + Issue(u2, referrer, syntax)
  {
  }

  /** `made` are the GET requests for `urls`, in order, each referred by `referrer`. */
  ghost predicate Issued(made: seq<Request>, urls: seq<string>, referrer: string, syntax: UriSyntax)
    reads made
  {
    Views(made) == Issue(urls, referrer, syntax)
  }

  lemma IssuedAppend(m1: seq<Request>, u1: seq<string>, m2: seq<Request>, u2: seq<string>, referrer: string, syntax: UriSyntax)
    requires Issued(m1, u1, referrer, syntax) && Issued(m2, u2, referrer, syntax)
    ensures Issued(m1 + m2, u1 + u2, referrer, syntax)
  {
    ViewsAppend(m1, m2);
    IssueAppend(u1, u2, referrer, syntax);
  }

  /** The appender's own state: its configuration and the URLs it has seen. */
  datatype AppState = AppState(config: Options, seen: seq<string>)

  /** What one `handle` does: the new state, the records, the exception, the URLs enqueued. */
  datatype Handled = Handled(after: AppState, records: seq<Options>, err: Option<Error>, enqueued: seq<string>)

  /**
   * handle as a function of the appender's state: the domain setup, the
   * document URL remembered, and for an HTML document the enabled links
   * classified and absorbed in order.
   */
  function HandleSpec(st: AppState, doc: Document, base: Uri, syntax: UriSyntax): (o: Handled)
    ensures o.after.config == WithDomain(st.config, base)
    ensures !doc.variant.Html? ==> o == Handled(AppState(o.after.config, Remember(st.seen, Format(doc.url))), [], None, [])
  {
    var c := WithDomain(st.config, base);
    var before := Remember(st.seen, Format(doc.url));
    if !doc.variant.Html? then Handled(AppState(c, before), [], None, [])
    else
      var h := Absorb(syntax, before, Steps(syntax, c, doc.url, Gathered(c, doc.variant.links)));
      Handled(AppState(c, h.seen), h.records, h.error, h.enqueued)
  }

  /**
   * The dedup invariant across `handle`: the document URL and everything
   * seen before stay seen, the seen list grows by exactly the enqueued
   * URLs, none of them seen before or enqueued twice.
   */
  lemma HandleSpecDedups(st: AppState, doc: Document, base: Uri, syntax: UriSyntax)
    requires NoDup(st.seen)
    ensures var o := HandleSpec(st, doc, base, syntax);
      && NoDup(o.after.seen)
      && o.after.seen == Remember(st.seen, Format(doc.url)) + o.enqueued
      && (forall u :: u in o.enqueued ==> u !in st.seen && u != Format(doc.url))
  {
    var o := HandleSpec(st, doc, base, syntax);
    var before := Remember(st.seen, Format(doc.url));
    if doc.variant.Html? {
      var c := WithDomain(st.config, base);
      AbsorbEnqueuesOnlyUnseen(syntax, before, Steps(syntax, c, doc.url, Gathered(c, doc.variant.links)));
    }
  }

  /**
   * End to end: with the default configuration, an HTML document holding a
   * single host-less relative link that is valid and new makes `handle`
   * enqueue exactly the link resolved against the document URL.
   */
  lemma OneRelativeLinkEnqueued(syntax: UriSyntax, st: AppState, doc: Document, base: Uri, link: string, ref: string)
    requires st.config == Settings(map[])
    requires doc.variant == Html(LinkSets([link], [], [], []))
    requires syntax.parseUrl(link) == Some(LinkParts(None, None, Some(ref), None, None))
    requires |ref| > 0 && ref[0] != '/'
    requires syntax.pathError(MergePath(doc.url.path, ref)) == None
    requires var u := Format(doc.url.(path := MergePath(doc.url.path, ref), query := "", fragment := ""));
      u != Format(doc.url) && u !in st.seen && syntax.check(u)
    ensures var o := HandleSpec(st, doc, base, syntax);
      && o.enqueued == [Format(doc.url.(path := MergePath(doc.url.path, ref), query := "", fragment := ""))]
      && o.records == [] && o.err == None
  {
    DefaultsNeedNoDomain(base);
    var c := WithDomain(st.config, base);
    DefaultsFollowAnchors(doc.variant.links);
    var p := syntax.parseUrl(link).value;
    var step := Classify(syntax, c, doc.url, link);
    assert Refusal(syntax, doc.url, p).None?;
    assert step == Candidate(Format(Relocated(doc.url, p)));
    assert Steps(syntax, c, doc.url, [link]) == [step];
    AbsorbSingle(syntax, Remember(st.seen, Format(doc.url)), step);
  }

  /** The defaults leave same-domain off, so the setup changes nothing. */
  lemma DefaultsNeedNoDomain(base: Uri)
    ensures WithDomain(Settings(map[]), base) == Settings(map[])
  {
    assert Settings(map[]) == LinkDefaults;
  }

  /**
   * A sibling page: on a fresh appender with the defaults, the link `r` on
   * the page `/p` of a site (no query, no fragment) is enqueued as the
   * site's `/r`; for instance `page2` on `http://a.test/page1` becomes
   * `http://a.test/page2`.
   */
  lemma SiblingPageEnqueued(syntax: UriSyntax, st: AppState, doc: Document, base: Uri, p: string, r: string)
    requires st.config == Settings(map[]) && st.seen == []
    requires doc.url.path == "/" + p && doc.url.query == "" && doc.url.fragment == ""
    requires forall j :: 0 <= j < |p| ==> p[j] != '/'
    requires |r| > 0 && r[0] != '/' && r != p
    requires doc.variant == Html(LinkSets([r], [], [], []))
    requires syntax.parseUrl(r) == Some(LinkParts(None, None, Some(r), None, None))
    requires syntax.pathError("/" + r) == None
    requires syntax.check(Format(doc.url.(path := "/" + r)))
    ensures HandleSpec(st, doc, base, syntax).enqueued == [Format(doc.url.(path := "/" + r))]
  {
    var u := doc.url;
    LastSlashIsLast(u.path, 0);
    assert u.path[..1] == "/";
    assert MergePath(u.path, r) == "/" + r;
    var v := u.(path := "/" + r, query := "", fragment := "");
    assert v == u.(path := "/" + r);
    var prefix := u.scheme + "://" + u.host + (if u.port != "" then ":" + u.port else "");
    assert Format(u) == prefix + ("/" + p);
    assert Format(v) == prefix + ("/" + r);
    assert Format(v) != Format(u) by {
      assert (prefix + ("/" + r))[|prefix| + 1..] == r;
      assert (prefix + ("/" + p))[|prefix| + 1..] == p;
    }
    OneRelativeLinkEnqueued(syntax, st, doc, base, r, r);
  }

  class LinkAppender {
    /** The configuration `handle` reads; the domain may be filled in lazily. */
    var config: Options
    /** Every URL string visited or enqueued so far. */
    var seen: seq<string>

    /** The state as a value. */
    function State(): AppState
      reads this
    {
      AppState(config, seen)
    }

    /** Each URL is recorded once. */
    ghost predicate Valid()
      reads this
    {
      NoDup(seen)
    }

    constructor (options: Options)
      ensures Valid()
      ensures config == Settings(options) && seen == []
    {
      config := Settings(options);
      seen := [];
    }

    /**
     * addToQueue: a URL not yet seen becomes a new GET request referred by
     * `referrer`, is appended to the queue and recorded as seen; a seen URL
     * changes nothing; an invalid one throws before anything changes.
     */
    method AddToQueue(url: string, referrer: string, queue: Queue, syntax: UriSyntax) returns (err: Option<Error>)
      requires Valid()
      modifies this, queue
      ensures Valid() && config == old(config)
      ensures url in old(seen) ==> err == None && seen == old(seen) && queue.targets == old(queue.targets)
      ensures url !in old(seen) && !syntax.check(url) ==>
                err == Some(InvalidUrl(url)) && seen == old(seen) && queue.targets == old(queue.targets)
      ensures url !in old(seen) && syntax.check(url) ==>
                && err == None
                && seen == old(seen) + [url]
                && |queue.targets| == |old(queue.targets)| + 1
                && queue.targets[..|old(queue.targets)|] == old(queue.targets)
                && fresh(queue.targets[|old(queue.targets)|])
                && queue.targets[|old(queue.targets)|].uri == syntax.parse(url)
                && queue.targets[|old(queue.targets)|].referrer == Some(referrer)
                && queue.targets[|old(queue.targets)|].httpMethod == "GET"
    {
      err := None;
      if url !in seen {
        var made := Request.New(Text(url), syntax);
        if made.Failure? {
          err := Some(made.error);
          return;
        }
        var request := made.value;
        request.SetReferrer(referrer);
        var e := queue.Append(Req(request), syntax);
        seen := seen + [url];
      }
    }

    /**
     * One pass of the foreach loop of handle, on a classified link:
     * AddToQueue on a candidate, a record for an unresolvable link, nothing
     * otherwise.
     */
    method Consider(step: Step, referrer: string, queue: Queue, syntax: UriSyntax,
                    ghost prior: seq<Request>, ghost priorUrls: seq<string>)
      returns (records: seq<Options>, err: Option<Error>, ghost made: seq<Request>)
      requires Valid() && Issued(prior, priorUrls, referrer, syntax)
      modifies this, queue
      ensures Valid() && config == old(config)
      ensures var a := Absorb1(syntax, old(seen), step);
        && seen == a.seen && records == a.records && err == a.error
        && queue.targets == old(queue.targets) + made
        && Issued(prior + made, priorUrls + a.enqueued, referrer, syntax)
        && (forall r :: r in made ==> fresh(r))
    {
      records, err, made := [], None, [];
      if step.Unresolvable? {
        records := [UnresolvableRecord(step.link, step.reason)];
      } else if step.Candidate? {
        var isNew := step.url !in seen;
        ghost var before := queue.targets;
        err := AddToQueue(step.url, referrer, queue, syntax);
        if isNew && err.None? {
          made := [queue.targets[|before|]];
          assert queue.targets == before + made;
          IssuedAppend(prior, priorUrls, made, [step.url], referrer, syntax);
        }
      }
    }

    /**
     * The foreach loop of handle over the classified links: each new
     * candidate is enqueued with `referrer`, in order, as Absorb describes.
     */
    method AbsorbLinks(steps: seq<Step>, referrer: string, queue: Queue, syntax: UriSyntax)
      returns (records: seq<Options>, err: Option<Error>, ghost made: seq<Request>)
      requires Valid()
      modifies this, queue
      ensures Valid() && config == old(config)
      ensures var h := Absorb(syntax, old(seen), steps);
        && seen == h.seen && records == h.records && err == h.error
        && seen == old(seen) + h.enqueued
        && (forall u :: u in h.enqueued ==> u !in old(seen))
        && queue.targets == old(queue.targets) + made
        && Issued(made, h.enqueued, referrer, syntax)
        && (forall r :: r in made ==> fresh(r))
    {
      ghost var seen0 := seen;
      ghost var queued0 := queue.targets;
      AbsorbEnqueuesOnlyUnseen(syntax, seen, steps);
      ghost var added: seq<string> := [];
      made := [];
      records, err := [], None;
      var i := 0;
      while i < |steps|
        invariant 0 <= i <= |steps|
        invariant Valid() && config == old(config)
        invariant Absorb(syntax, seen0, steps[..i]) == Harvest(seen, added, records, None)
        invariant queue.targets == queued0 + made
        invariant Issued(made, added, referrer, syntax)
        invariant forall r :: r in made ==> fresh(r)
        invariant err == None
      {
        ghost var pre := seen;
        var more, e, m := Consider(steps[i], referrer, queue, syntax, made, added);
        AbsorbPrefixStep(syntax, seen0, steps, i);
        records := records + more;
        if e.Some? {
          err := e;
          AbsorbPrefixError(syntax, seen0, steps, i + 1);
          return;
        }
        added := added + Absorb1(syntax, pre, steps[i]).enqueued;
        made := made + m;
        i := i + 1;
      }
      assert steps[..i] == steps;
    }

    /**
     * handle: records the document URL as seen; for an HTML document,
     * processes the enabled link collections in order, enqueueing each new
     * candidate with the document URL as referrer.
     */
    method Handle(doc: Document, queue: Queue, base: Uri, syntax: UriSyntax) returns (records: seq<Options>, err: Option<Error>)
      requires Valid()
      modifies this, queue
      ensures Valid()
      ensures var o := HandleSpec(old(State()), doc, base, syntax);
        && State() == o.after && records == o.records && err == o.err
        && Views(queue.targets) == old(Views(queue.targets)) + Issue(o.enqueued, Format(doc.url), syntax)
      ensures config == WithDomain(old(config), base)
      ensures Remember(old(seen), Format(doc.url)) <= seen
      ensures !doc.variant.Html? ==>
                && seen == Remember(old(seen), Format(doc.url))
                && records == [] && err == None
                && queue.targets == old(queue.targets)
      ensures doc.variant.Html? ==>
                var h := Absorb(syntax, Remember(old(seen), Format(doc.url)), Steps(syntax, config, doc.url, Gathered(config, doc.variant.links)));
                && seen == h.seen && records == h.records && err == h.error
                && seen == Remember(old(seen), Format(doc.url)) + h.enqueued
                && (forall u :: u in h.enqueued ==> u !in Remember(old(seen), Format(doc.url)))
                && |old(queue.targets)| <= |queue.targets|
                && queue.targets[..|old(queue.targets)|] == old(queue.targets)
                && Issued(queue.targets[|old(queue.targets)|..], h.enqueued, Format(doc.url), syntax)
                && (forall r :: r in queue.targets[|old(queue.targets)|..] ==> fresh(r))
    {
      config := WithDomain(config, base);
      var baseUrl := Format(doc.url);
      if baseUrl !in seen {
        seen := seen + [baseUrl];
      }
      records, err := [], None;
      if doc.variant.Html? {
        ghost var pending := queue.targets;
        ghost var views := Views(pending);
        ghost var made;
        records, err, made := AbsorbLinks(Steps(syntax, config, doc.url, Gathered(config, doc.variant.links)), baseUrl, queue, syntax);
        assert queue.targets[|pending|..] == made;
        assert Views(pending) == views;
        ViewsAppend(pending, made);
      }
    }
  }
  /*
   * The three places where the source as written differs from its evident
   * intent, each next to the corrected member the rest of the model uses.
   */

  /** Options given to the constructor never reach the flags `handle` reads. */
  lemma AsWrittenIgnoresOptions(options: Options)
    requires "follow_img" in options && Truthy(options["follow_img"])
    ensures Truthy(Get(Settings(options), "follow_img"))
    ensures !Truthy(Get(AsWrittenSettings(options), "follow_img"))
  {
  }

  /**
   * addToQueue as written: the engine property it reads is never set, so
   * any enqueue of a new valid URL stops the crawl with a fatal error
   * instead of growing the queue.
   */
  function AsWrittenAddToQueue(syntax: UriSyntax, seen: seq<string>, url: string): (r: Result<seq<string>, Error>)
    ensures url in seen ==> r == Success(seen)
    ensures url !in seen && !syntax.check(url) ==> r == Failure(InvalidUrl(url))
    ensures url !in seen && syntax.check(url) ==> r == Failure(NullEngine)
  {
    if url in seen then Success(seen)
    else if !syntax.check(url) then Failure(InvalidUrl(url))
    else Failure(NullEngine)
  }

  /** As written, the seen list can never grow through addToQueue. */
  lemma AsWrittenNeverEnqueues(syntax: UriSyntax, seen: seq<string>, url: string)
    ensures AsWrittenAddToQueue(syntax, seen, url).Success? ==> AsWrittenAddToQueue(syntax, seen, url).value == seen
  {
  }

  /**
   * Where the intended addToQueue enqueues a new valid URL and remembers
   * it, the code as written stops with the null-engine fatal error.
   */
  lemma AsWrittenFailsWhereIntendedEnqueues(syntax: UriSyntax, seen: seq<string>, url: string)
    requires url !in seen && syntax.check(url)
    ensures AsWrittenAddToQueue(syntax, seen, url) == Failure(NullEngine)
    ensures Absorb1(syntax, seen, Candidate(url)) == Harvest(seen + [url], [url], [], None)
  {
  }

  /** The link's fragment is dropped and the document's is kept. */
  lemma AsWrittenKeepsDocumentFragment(doc: Uri, parts: LinkParts, path: string)
    requires parts.fragment.Some? && parts.fragment.value != doc.fragment
    ensures AsWrittenResolve(doc, parts, path).fragment == doc.fragment
    ensures Resolve(doc, parts, path).fragment == parts.fragment.value
    ensures AsWrittenResolve(doc, parts, path) != Resolve(doc, parts, path)
  {
  }

  /*
   * Worked examples.
   */

  /** The last `/` is characterised by its two properties. */
  lemma LastSlashIsLast(p: string, k: nat)
    requires k < |p| && p[k] == '/'
    requires forall j :: k < j < |p| ==> p[j] != '/'
    ensures LastSlash(p) == Some(k)
  {
  }

  /** A relative path is resolved against the directory of the document path. */
  lemma RelativePathExample(basePath: string)
    requires basePath == "/a/b/page.html"
    ensures MergePath(basePath, "c/d.html") == "/a/b/c/d.html"
  {
    LastSlashIsLast(basePath, 4);
    assert basePath[..5] == "/a/b/";
  }

  /** An absolute path replaces the document path. */
  lemma AbsolutePathExample()
    ensures MergePath("/a/b/page.html", "/e.html") == "/e.html"
  {
  }

  /** A document path without `/` resolves as if it were `/`. */
  lemma NoSlashBaseExample(basePath: string, ref: string)
    requires forall j :: 0 <= j < |basePath| ==> basePath[j] != '/'
    requires |ref| > 0 && ref[0] != '/'
    ensures MergePath(basePath, ref) == "/" + ref
  {
  }

  /** The domain filter is a plain suffix test: subdomains pass, other hosts do not. */
  lemma SameDomainExample(config: Options)
    requires Get(config, "domain") == Str("example.com")
    ensures HostAccepted(config, "sub.example.com")
    ensures !HostAccepted(config, "evil.org")
  {
    assert "sub.example.com"[4..] == "example.com";
  }

  /** An unset domain accepts every host. */
  lemma UnsetDomainAcceptsAll(config: Options, host: string)
    requires "domain" !in config
    ensures HostAccepted(config, host)
  {
    assert host[|host|..] == "";
  }
}
