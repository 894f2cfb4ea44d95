/**
 * The string-match handler (lib/Spizer/Handler/StringMatch.php): logs the
 * first offset at which a configured string occurs in a document's body.
 */
module StringMatching {
  import opened Wrappers
  import opened Php
  import opened Errors

  /** The handler's own defaults; note they have no status or content-type key. */
  const Defaults: Options := map["matchcase" := Bool(false)]

  /** The string to look for and whether case matters. */
  datatype Matcher = Matcher(needle: string, matchCase: bool)

  /**
   * The constructor: `match` must be set and be a string, otherwise it
   * throws; the options are then merged over the defaults. Returns the
   * merged configuration (read by the dispatch gate) and the matcher.
   */
  function Configure(options: Options): (r: Result<(Options, Matcher), Error>)
    ensures r.Failure? <==> !("match" in options && options["match"].Str?)
    ensures r.Failure? ==> r.error == MissingMatch
    ensures r.Success? ==> r.value.0 == Merge(Defaults, options)
    ensures r.Success? ==> r.value.1.needle == options["match"].s
    ensures r.Success? ==> (r.value.1.matchCase <==> "matchcase" in options && Truthy(options["matchcase"]))
  {
    if "match" in options && options["match"].Str? then
      var config := Merge(Defaults, options);
      Success((config, Matcher(config["match"].s, Truthy(config["matchcase"]))))
    else
      Failure(MissingMatch)
  }

  /** `needle` occurs in `hay` at offset `k`. */
  predicate Occurs(hay: string, needle: string, k: nat) {
    k + |needle| <= |hay| && hay[k..k + |needle|] == needle
  }

  /** The first offset at or after `from` where `needle` occurs. */
  function FirstFrom(hay: string, needle: string, from: nat): Option<nat>
    decreases |hay| - from
  {
    if from + |needle| > |hay| then None
    else if hay[from..from + |needle|] == needle then Some(from)
    else FirstFrom(hay, needle, from + 1)
  }

  /** FirstFrom answers the least occurrence at or after `from`, and none only when there is none. */
  lemma {:induction false} FirstFromIsLeast(hay: string, needle: string, from: nat)
    ensures var r := FirstFrom(hay, needle, from);
      && (r.Some? ==> from <= r.value && Occurs(hay, needle, r.value))
      && (r.Some? ==> forall j :: from <= j < r.value ==> !Occurs(hay, needle, j))
      && (r.None? ==> forall j :: from <= j ==> !Occurs(hay, needle, j))
    decreases |hay| - from
  {
    if from + |needle| <= |hay| && hay[from..from + |needle|] != needle {
      FirstFromIsLeast(hay, needle, from + 1);
    }
  }

  /**
   * `strpos($hay, $needle)`: the first occurrence, or false. An empty
   * needle yields false (PHP 5 behaviour, with a warning).
   */
  function Position(hay: string, needle: string): Option<nat> {
    if needle == [] then None else FirstFrom(hay, needle, 0)
  }

  /** Position is the first occurrence of a non-empty needle. */
  lemma PositionIsFirst(hay: string, needle: string)
    ensures var r := Position(hay, needle);
      && (r.Some? ==> needle != [] && Occurs(hay, needle, r.value))
      && (r.Some? ==> forall j :: 0 <= j < r.value ==> !Occurs(hay, needle, j))
      && (r.None? ==> needle == [] || forall j :: !Occurs(hay, needle, j))
  {
    FirstFromIsLeast(hay, needle, 0);
  }

  /** The needle matches at `k` under the matcher's case mode (`strpos` or `stripos`). */
  predicate MatchesAt(m: Matcher, body: string, k: nat) {
    if m.matchCase then Occurs(body, m.needle, k) else Occurs(ToLower(body), ToLower(m.needle), k)
  }

  /** The needle and the body as `strpos` or `stripos` compare them. */
  function Folded(m: Matcher, s: string): string {
    if m.matchCase then s else ToLower(s)
  }

  /** handle: the record it logs for a body, if any. */
  function Handle(m: Matcher, body: string): Option<Options> {
    match Position(Folded(m, body), Folded(m, m.needle))
    case None => None
    case Some(p) =>
      Some(map["message" := Str("Document body matched lookup string"), "needle" := Str(m.needle), "offset" := Int(p)])
  }

  /**
   * handle logs at most one record per document, exactly when the needle
   * occurs; its offset is the first occurrence.
   */
  lemma HandleFindsFirstMatch(m: Matcher, body: string)
    ensures var r := Handle(m, body);
      && (r.Some? <==> m.needle != [] && exists k :: MatchesAt(m, body, k))
      && (r.Some? ==> r.value.Keys == {"message", "needle", "offset"})
      && (r.Some? ==> r.value["message"] == Str("Document body matched lookup string"))
      && (r.Some? ==> r.value["needle"] == Str(m.needle))
      && (r.Some? ==> r.value["offset"].Int? && r.value["offset"].i >= 0)
      && (r.Some? ==> MatchesAt(m, body, r.value["offset"].i))
      && (r.Some? ==> forall j :: 0 <= j < r.value["offset"].i ==> !MatchesAt(m, body, j))
  {
    var hay, needle := Folded(m, body), Folded(m, m.needle);
    assert forall k :: MatchesAt(m, body, k) <==> Occurs(hay, needle, k);
    assert |needle| == |m.needle|;
    PositionIsFirst(hay, needle);
  }

  /** A match at `k` with none before it is what handle reports. */
  lemma {:induction false} HandleReportsFirstMatch(m: Matcher, body: string, k: nat)
    requires m.needle != [] && MatchesAt(m, body, k)
    requires forall j :: 0 <= j < k ==> !MatchesAt(m, body, j)
    ensures Handle(m, body) ==
      Some(map["message" := Str("Document body matched lookup string"), "needle" := Str(m.needle), "offset" := Int(k)])
  {
    HandleFindsFirstMatch(m, body);
    var r := Handle(m, body);
    var o := r.value["offset"].i;
    assert o <= k;
    assert o >= k;
  }

  /**
   * `stripos` compares character by character after ASCII folding: the
   * needle matches at `k` exactly when every character agrees once folded.
   */
  lemma {:induction false} CaselessMatchIsCharwise(m: Matcher, body: string, k: nat)
    requires !m.matchCase
    ensures MatchesAt(m, body, k) <==>
      k + |m.needle| <= |body| && forall i :: 0 <= i < |m.needle| ==> LowerChar(body[k + i]) == LowerChar(m.needle[i])
  {
    var low, n := ToLower(body), ToLower(m.needle);
    if k + |m.needle| <= |body| {
      var w := low[k..k + |n|];
      assert forall i :: 0 <= i < |w| ==> w[i] == LowerChar(body[k + i]);
      if forall i :: 0 <= i < |m.needle| ==> LowerChar(body[k + i]) == LowerChar(m.needle[i]) {
        assert w == n;
      }
    }
  }

  lemma WarningMatchesAtTwo(body: string)
    requires |body| >= 9 && body[..9] == "a WARNING"
    ensures MatchesAt(Matcher("warning", false), body, 2)
  {
    var m := Matcher("warning", false);
    forall i | 0 <= i < 7
      ensures LowerChar(body[2 + i]) == LowerChar(m.needle[i])
    {
      assert body[2 + i] == "a WARNING"[2 + i];
    }
    CaselessMatchIsCharwise(m, body, 2);
  }

  lemma WarningNotBeforeTwo(body: string)
    requires |body| >= 9 && body[..9] == "a WARNING"
    ensures forall j :: 0 <= j < 2 ==> !MatchesAt(Matcher("warning", false), body, j)
  {
    var m := Matcher("warning", false);
    assert body[0] == 'a' && body[1] == ' ';
    CaselessMatchIsCharwise(m, body, 0);
    CaselessMatchIsCharwise(m, body, 1);
  }

  /** Case-insensitive by default: `warning` is found at the offset of `WARNING`. */
  lemma FindsUpperCaseWarning(body: string)
    requires |body| >= 9 && body[..9] == "a WARNING"
    ensures Handle(Matcher("warning", false), body) ==
      Some(map["message" := Str("Document body matched lookup string"), "needle" := Str("warning"), "offset" := Int(2)])
  {
    WarningMatchesAtTwo(body);
    WarningNotBeforeTwo(body);
    HandleReportsFirstMatch(Matcher("warning", false), body, 2);
  }

  /** With matchcase set, `warning` does not match `WARNING`. */
  lemma CaseSensitiveMissesUpperCase(body: string)
    requires body == "WARNING"
    ensures Handle(Matcher("warning", true), body) == None
  {
    assert body[0] != "warning"[0];
    assert !Occurs(body, "warning", 0);
    HandleFindsFirstMatch(Matcher("warning", true), body);
  }
}
