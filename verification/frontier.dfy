/** The frontier: pending requests served FIFO or LIFO (lib/Spizer/Queue.php). */
module Frontier {
  import opened Wrappers
  import opened Uris
  import opened Errors
  import opened Requests

  /** What `append` accepts: a request, or a bare URL string to be wrapped. */
  datatype Target = Req(request: Request) | Url(url: string)

  /**
   * One `next` on pending elements `s`: the served element (None when `s`
   * is empty) and what stays pending. `array_pop` serves the last element,
   * `array_shift` the first.
   */
  function Take<T>(lifo: bool, s: seq<T>): (r: (Option<T>, seq<T>))
    ensures s == [] ==> r == (None, [])
    ensures s != [] ==> r.0.Some? && |r.1| == |s| - 1
  {
    if s == [] then (None, [])
    else if lifo then (Some(s[|s| - 1]), s[..|s| - 1])
    else (Some(s[0]), s[1..])
  }

  /** `next` loses nothing: the served element and the rest are the pending ones. */
  lemma TakeIsPermutation<T>(lifo: bool, s: seq<T>)
    requires s != []
    ensures multiset(Take(lifo, s).1) + multiset{Take(lifo, s).0.value} == multiset(s)
  {
    if lifo {
      SplitLast(s);
    } else {
      SplitFirst(s);
    }
  }

  lemma SplitFirst<T>(s: seq<T>)
    requires s != []
    ensures multiset(s) == multiset{s[0]} + multiset(s[1..])
  {
    assert s == [s[0]] + s[1..];
  }

  lemma SplitLast<T>(s: seq<T>)
    requires s != []
    ensures multiset(s) == multiset(s[..|s| - 1]) + multiset{s[|s| - 1]}
  {
    assert s == s[..|s| - 1] + [s[|s| - 1]];
  }

  /** The order in which repeated `next` calls serve the elements of `s`. */
  function Drain<T>(lifo: bool, s: seq<T>): (r: seq<T>)
    ensures |r| == |s|
    decreases |s|
  {
    var (x, rest) := Take(lifo, s);
    if x.None? then [] else [x.value] + Drain(lifo, rest)
  }

  function Reverse<T>(s: seq<T>): (r: seq<T>)
    ensures |r| == |s|
    ensures forall i :: 0 <= i < |s| ==> r[i] == s[|s| - 1 - i]
  {
    if s == [] then [] else [s[|s| - 1]] + Reverse(s[..|s| - 1])
  }

  /** FIFO serves the elements in the order they were appended. */
  lemma {:induction false} DrainFifoIsAppendOrder<T>(s: seq<T>)
    ensures Drain(false, s) == s
    decreases |s|
  {
    if s != [] {
      DrainFifoIsAppendOrder(s[1..]);
    }
  }

  /** LIFO serves the elements in reverse append order. */
  lemma {:induction false} DrainLifoIsReverseOrder<T>(s: seq<T>)
    ensures Drain(true, s) == Reverse(s)
    decreases |s|
  {
    if s != [] {
      DrainLifoIsReverseOrder(s[..|s| - 1]);
    }
  }

  class Queue {
    /** Chosen once at construction: true makes the queue a stack. */
    const lifo: bool
    /** The pending requests, oldest first. */
    var targets: seq<Request>

    constructor (lifo: bool := false)
      ensures this.lifo == lifo && targets == []
    {
      this.lifo := lifo;
      targets := [];
    }

    /** count: the number of pending requests. */
    method Count() returns (n: nat)
      ensures n == |targets|
    {
      n := |targets|;
    }

    /**
     * next: removes and returns the oldest (FIFO) or newest (LIFO) pending
     * request; on an empty queue returns null and changes nothing.
     */
    method Next() returns (r: Option<Request>)
      modifies this
      ensures (r, targets) == Take(lifo, old(targets))
      ensures old(targets) == [] ==> r == None && targets == []
      ensures old(targets) != [] && !lifo ==> r == Some(old(targets)[0]) && targets == old(targets)[1..]
      ensures old(targets) != [] && lifo ==>
                r == Some(old(targets)[|old(targets)| - 1]) && targets == old(targets)[..|old(targets)| - 1]
      ensures |targets| == if old(targets) == [] then 0 else |old(targets)| - 1
    {
      if lifo {
        if targets == [] {
          r := None;
        } else {
          r := Some(targets[|targets| - 1]);
          targets := targets[..|targets| - 1];
        }
      } else {
        if targets == [] {
          r := None;
        } else {
          r := Some(targets[0]);
          targets := targets[1..];
        }
      }
    }

    /**
     * append: adds one request at the end, leaving the pending ones and
     * their order alone. A bare string is wrapped in a new request first;
     * when it is not a valid HTTP URL that throws and nothing is added.
     */
    method Append(value: Target, syntax: UriSyntax) returns (err: Option<Error>)
      modifies this
      ensures value.Req? ==> err == None && targets == old(targets) + [value.request]
      ensures value.Url? && !syntax.check(value.url) ==>
                err == Some(InvalidUrl(value.url)) && targets == old(targets)
      ensures value.Url? && syntax.check(value.url) ==>
                && err == None
                && |targets| == |old(targets)| + 1
                && targets[..|old(targets)|] == old(targets)
                && fresh(targets[|old(targets)|])
                && targets[|old(targets)|].uri == syntax.parse(value.url)
                && targets[|old(targets)|].httpMethod == "GET"
                && targets[|old(targets)|].referrer == None
    {
      if value.Req? {
        targets := targets + [value.request];
        err := None;
      } else {
        var made := Request.New(Text(value.url), syntax);
        if made.Failure? {
          err := Some(made.error);
        } else {
          targets := targets + [made.value];
          err := None;
        }
      }
    }
  }

  /** The queue does not deduplicate: the same URL appended twice is pending twice. */
  method AppendTwiceKeepsBoth(q: Queue, url: string, syntax: UriSyntax)
    requires syntax.check(url)
    modifies q
    ensures |q.targets| == |old(q.targets)| + 2
    ensures q.targets[|q.targets| - 2].uri == q.targets[|q.targets| - 1].uri == syntax.parse(url)
    ensures q.targets[|q.targets| - 2] != q.targets[|q.targets| - 1]
  {
    var e1 := q.Append(Url(url), syntax);
    var e2 := q.Append(Url(url), syntax);
  }
}
