/**
  Paginated remote calls. A remote client is modelled as a script: the reply it gives to
  its first call, its second call, and so on. A reply is an error or a page of items with
  an optional continuation token. A caller that loops "until the token is nil" consumes
  the script up to its first stopping reply, and gathers the items of those pages.
 */
module Paging {
  import opened Wrappers

  datatype Reply<+T> = Failed | Page(items: T, nextToken: Option<string>)

  /** A reply after which a token-driven loop makes no further call. */
  predicate Stops<T>(reply: Reply<T>)
  {
    reply.Failed? || reply.nextToken.None?
  }

  /** The script eventually gives a reply that ends the loop. */
  predicate Drains<T>(script: seq<Reply<T>>)
  {
    exists i :: 0 <= i < |script| && Stops(script[i])
  }

  /** The index of the first stopping reply. */
  function FirstStop<T>(script: seq<Reply<T>>): (k: nat)
    requires Drains(script)
    ensures k < |script| && Stops(script[k])
  {
    if Stops(script[0]) then 0
    else
      DrainsTail(script);
      1 + FirstStop(script[1..])
  }

  /** No reply before the first stopping one stops the loop. */
  lemma {:induction false} BeforeFirstStop<T>(script: seq<Reply<T>>, i: nat)
    requires Drains(script) && i < FirstStop(script)
    ensures !Stops(script[i])
  {
    if i > 0 {
      DrainsTail(script);
      BeforeFirstStop(script[1..], i - 1);
    }
  }

  lemma DrainsTail<T>(script: seq<Reply<T>>)
    requires Drains(script) && |script| > 0 && !Stops(script[0])
    ensures Drains(script[1..])
  {
    var i :| 0 <= i < |script| && Stops(script[i]);
    assert script[1..][i - 1] == script[i];
  }

  /**
    The replies a loop that stops on the first nil token consumes: the shortest prefix of
    the script that ends in a stopping reply.
   */
  function Fetched<T>(script: seq<Reply<T>>): (pages: seq<Reply<T>>)
    requires Drains(script)
    ensures pages <= script && |pages| > 0
    ensures Stops(pages[|pages| - 1])
  {
    script[..FirstStop(script) + 1]
  }

  /** The continuation token that call number `calls` (from zero) passes: none on the first call. */
  function TokenAfter<T>(script: seq<Reply<T>>, calls: nat): Option<string>
    requires calls <= |script|
  {
    if calls == 0 then None
    else match script[calls - 1]
      case Failed => None
      case Page(_, token) => token
  }

  /**
    What a loop gathers from `pages`, page by page: the first failed reply, or the first
    page whose items `f` rejects, ends it with that error; otherwise the results of `f`
    are concatenated in page order.
   */
  function Paginate<T, U, E>(pages: seq<Reply<T>>, f: T -> Result<seq<U>, E>, failure: E): Result<seq<U>, E>
  {
    if |pages| == 0 then Ok([])
    else match Paginate(pages[..|pages| - 1], f, failure)
      case Err(e) => Err(e)
      case Ok(gathered) =>
        match pages[|pages| - 1]
        case Failed => Err(failure)
        case Page(items, _) =>
          match f(items)
          case Err(e) => Err(e)
          case Ok(more) => Ok(gathered + more)
  }

  /** All or nothing: the loop succeeds exactly when no reply failed and `f` accepted every page. */
  lemma {:induction false} PaginateAllOrNothing<T, U, E>(pages: seq<Reply<T>>, f: T -> Result<seq<U>, E>, failure: E)
    ensures Paginate(pages, f, failure).Ok?
            <==> forall i :: 0 <= i < |pages| ==> pages[i].Page? && f(pages[i].items).Ok?
  {
    if |pages| > 0 {
      var init := pages[..|pages| - 1];
      PaginateAllOrNothing(init, f, failure);
      assert forall i :: 0 <= i < |init| ==> init[i] == pages[i];
    }
  }

  /** Gathering over two runs of pages is gathering over the first, then over the second. */
  lemma {:induction false} PaginateAppend<T, U, E>(a: seq<Reply<T>>, b: seq<Reply<T>>, f: T -> Result<seq<U>, E>, failure: E)
    ensures Paginate(a + b, f, failure) ==
      match Paginate(a, f, failure)
      case Err(e) => Err(e)
      case Ok(x) =>
        match Paginate(b, f, failure)
        case Err(e) => Err(e)
        case Ok(y) => Ok(x + y)
  {
    if |b| == 0 {
      assert a + b == a;
      if Paginate(a, f, failure).Ok? {
        assert Paginate(a, f, failure).value + [] == Paginate(a, f, failure).value;
      }
    } else {
      var init := b[..|b| - 1];
      assert (a + b)[..|a + b| - 1] == a + init;
      assert (a + b)[|a + b| - 1] == b[|b| - 1];
      PaginateAppend(a, init, f, failure);
      if Paginate(a, f, failure).Ok? && Paginate(init, f, failure).Ok? {
        var x, y := Paginate(a, f, failure).value, Paginate(init, f, failure).value;
        match b[|b| - 1]
        case Failed =>
        case Page(items, _) =>
          if f(items).Ok? {
            assert x + (y + f(items).value) == x + y + f(items).value;
          }
      }
    }
  }

  /**
    The state of a token-driven loop before call number `calls`: it has not yet reached
    the first stopping reply, has gathered `gathered` from the replies so far, and passes
    the token of the last reply.
   */
  ghost predicate LoopState<T, U, E>(script: seq<Reply<T>>, calls: nat, f: T -> Result<seq<U>, E>, failure: E,
                               gathered: seq<U>, token: Option<string>)
  {
    && Drains(script)
    && calls <= FirstStop(script)
    && Paginate(script[..calls], f, failure) == Ok(gathered)
    && token == TokenAfter(script, calls)
  }

  /** A page with a token that `f` accepts: the loop goes on, with the page's results appended. */
  lemma LoopContinues<T, U, E>(script: seq<Reply<T>>, calls: nat, f: T -> Result<seq<U>, E>, failure: E,
                               gathered: seq<U>, token: Option<string>)
    requires LoopState(script, calls, f, failure, gathered, token)
    requires script[calls].Page? && script[calls].nextToken.Some? && f(script[calls].items).Ok?
    ensures LoopState(script, calls + 1, f, failure, gathered + f(script[calls].items).value, script[calls].nextToken)
  {
    GatherPage(script, calls, f, failure, gathered);
  }

  /** A page without a token that `f` accepts: the loop ends with everything it gathered. */
  lemma LoopEnds<T, U, E>(script: seq<Reply<T>>, calls: nat, f: T -> Result<seq<U>, E>, failure: E,
                          gathered: seq<U>, token: Option<string>)
    requires LoopState(script, calls, f, failure, gathered, token)
    requires script[calls].Page? && script[calls].nextToken.None? && f(script[calls].items).Ok?
    ensures calls == FirstStop(script)
    ensures Paginate(Fetched(script), f, failure) == Ok(gathered + f(script[calls].items).value)
  {
    if calls < FirstStop(script) {
      BeforeFirstStop(script, calls);
    }
    GatherPage(script, calls, f, failure, gathered);
  }

  /** A failed reply, or a page `f` rejects: the loop ends with that error. */
  lemma LoopFails<T, U, E>(script: seq<Reply<T>>, calls: nat, f: T -> Result<seq<U>, E>, failure: E,
                           gathered: seq<U>, token: Option<string>)
    requires LoopState(script, calls, f, failure, gathered, token)
    requires script[calls].Failed? || f(script[calls].items).Err?
    ensures script[calls].Failed? ==> calls == FirstStop(script) && Paginate(Fetched(script), f, failure) == Err(failure)
    ensures script[calls].Page? ==> Paginate(Fetched(script), f, failure) == f(script[calls].items)
  {
    if script[calls].Failed? && calls < FirstStop(script) {
      BeforeFirstStop(script, calls);
    }
    FailAt(script, calls, f, failure);
  }

  /** Reply `k` is where gathering ends in error: every reply before it was gathered, and it failed or `f` rejected it. */
  ghost predicate FailsAt<T, U, E>(script: seq<Reply<T>>, k: nat, f: T -> Result<seq<U>, E>, failure: E)
  {
    && k < |script|
    && Paginate(script[..k], f, failure).Ok?
    && (script[k].Failed? || f(script[k].items).Err?)
  }

  /** At most one reply is where gathering ends in error. */
  lemma FailsAtUnique<T, U, E>(script: seq<Reply<T>>, i: nat, j: nat, f: T -> Result<seq<U>, E>, failure: E)
    requires FailsAt(script, i, f, failure) && FailsAt(script, j, f, failure)
    ensures i == j
  {
    if i < j {
      PaginateAllOrNothing(script[..j], f, failure);
    } else if j < i {
      PaginateAllOrNothing(script[..i], f, failure);
    }
  }

  /** One more page of a loop that has gathered `gathered` so far. */
  lemma GatherPage<T, U, E>(script: seq<Reply<T>>, k: nat, f: T -> Result<seq<U>, E>, failure: E, gathered: seq<U>)
    requires k < |script| && script[k].Page?
    requires Paginate(script[..k], f, failure) == Ok(gathered)
    ensures f(script[k].items).Ok? ==> Paginate(script[..k + 1], f, failure) == Ok(gathered + f(script[k].items).value)
    ensures f(script[k].items).Err? ==> Paginate(script[..k + 1], f, failure) == f(script[k].items)
  {
    assert script[..k + 1][..k] == script[..k];
  }

  /** A reply that fails, or a page `f` rejects, ends the whole loop with that error. */
  lemma FailAt<T, U, E>(script: seq<Reply<T>>, k: nat, f: T -> Result<seq<U>, E>, failure: E)
    requires Drains(script) && k <= FirstStop(script)
    requires Paginate(script[..k], f, failure).Ok?
    requires script[k].Failed? || f(script[k].items).Err?
    ensures script[k].Failed? ==> Paginate(Fetched(script), f, failure) == Err(failure)
    ensures script[k].Page? ==> Paginate(Fetched(script), f, failure) == f(script[k].items)
  {
    assert script[..k + 1][..k] == script[..k];
    ErrorIsFinal(script, k, f, failure);
  }

  /** What page `k` contributes sits between what the pages before it and the pages after it contribute. */
  lemma PageInPlace<T, U, E>(pages: seq<Reply<T>>, k: nat, f: T -> Result<seq<U>, E>, failure: E)
    requires Paginate(pages, f, failure).Ok? && k < |pages|
    ensures pages[k].Page? && f(pages[k].items).Ok?
    ensures Paginate(pages[..k], f, failure).Ok? && Paginate(pages[k + 1..], f, failure).Ok?
    ensures Paginate(pages, f, failure).value ==
      Paginate(pages[..k], f, failure).value + f(pages[k].items).value + Paginate(pages[k + 1..], f, failure).value
  {
    SplitAround(pages, k);
    PaginateAround(pages[..k], pages[k], pages[k + 1..], f, failure);
  }

  lemma SplitAround<T>(s: seq<T>, k: nat)
    requires k < |s|
    ensures s == s[..k] + [s[k]] + s[k + 1..]
  {
    assert s[..k + 1] == s[..k] + [s[k]];
    assert s == s[..k + 1] + s[k + 1..];
  }

  lemma PaginateAround<T, U, E>(before: seq<Reply<T>>, page: Reply<T>, after: seq<Reply<T>>, f: T -> Result<seq<U>, E>, failure: E)
    requires Paginate(before + [page] + after, f, failure).Ok?
    ensures page.Page? && f(page.items).Ok?
    ensures Paginate(before, f, failure).Ok? && Paginate(after, f, failure).Ok?
    ensures Paginate(before + [page] + after, f, failure).value ==
      Paginate(before, f, failure).value + f(page.items).value + Paginate(after, f, failure).value
  {
    PaginateAppend(before + [page], after, f, failure);
    PaginateAppend(before, [page], f, failure);
    assert [page][..0] == [];
  }

  /** The first stopping reply of a script that starts with a non-stopping one. */
  lemma FetchedCons<T>(reply: Reply<T>, script: seq<Reply<T>>)
    requires !Stops(reply) && Drains(script)
    ensures Drains([reply] + script)
    ensures Fetched([reply] + script) == [reply] + Fetched(script)
  {
    var k := FirstStop(script);
    var s := [reply] + script;
    assert s[k + 1] == script[k];
    assert Drains(s);
    assert forall i :: 1 <= i <= k ==> s[i] == script[i - 1];
    assert FirstStop(s) == k + 1;
    assert s[..k + 2] == [reply] + script[..k + 1];
  }

  /** `f` applied to every item in order, or the first error it gives. */
  function TraverseAll<T, U, E>(xs: seq<T>, f: T -> Result<U, E>): (r: Result<seq<U>, E>)
    ensures r.Ok? <==> forall i :: 0 <= i < |xs| ==> f(xs[i]).Ok?
    ensures r.Ok? ==> |r.value| == |xs| && forall i :: 0 <= i < |xs| ==> r.value[i] == f(xs[i]).value
    ensures r.Err? ==> exists i :: 0 <= i < |xs| && f(xs[i]) == Err(r.error) && forall j :: 0 <= j < i ==> f(xs[j]).Ok?
  {
    if |xs| == 0 then Ok([])
    else
      var init := xs[..|xs| - 1];
      assert forall i :: 0 <= i < |init| ==> init[i] == xs[i];
      match TraverseAll(init, f)
      case Err(e) => Err(e)
      case Ok(ys) =>
        match f(xs[|xs| - 1])
        case Err(e) => Err(e)
        case Ok(y) => Ok(ys + [y])
  }

  /** `TraverseAll` as a function of the items alone, for use as a page processor. */
  function TraverseWith<T, U, E>(f: T -> Result<U, E>): seq<T> -> Result<seq<U>, E>
  {
    xs => TraverseAll(xs, f)
  }

  /** Traversing two runs of items is traversing the first, then the second. */
  lemma {:induction false} TraverseAllAppend<T, U, E>(a: seq<T>, b: seq<T>, f: T -> Result<U, E>)
    ensures TraverseAll(a + b, f) ==
      match TraverseAll(a, f)
      case Err(e) => Err(e)
      case Ok(x) =>
        match TraverseAll(b, f)
        case Err(e) => Err(e)
        case Ok(y) => Ok(x + y)
  {
    if |b| == 0 {
      assert a + b == a;
      if TraverseAll(a, f).Ok? {
        assert TraverseAll(a, f).value + [] == TraverseAll(a, f).value;
      }
    } else {
      var init := b[..|b| - 1];
      assert (a + b)[..|a + b| - 1] == a + init;
      assert (a + b)[|a + b| - 1] == b[|b| - 1];
      TraverseAllAppend(a, init, f);
      if TraverseAll(a, f).Ok? && TraverseAll(init, f).Ok? && f(b[|b| - 1]).Ok? {
        var x, y, z := TraverseAll(a, f).value, TraverseAll(init, f).value, f(b[|b| - 1]).value;
        assert x + (y + [z]) == x + y + [z];
      }
    }
  }

  /** Once a reply or a page has failed, the pages fetched after it change nothing. */
  lemma ErrorIsFinal<T, U, E>(script: seq<Reply<T>>, k: nat, f: T -> Result<seq<U>, E>, failure: E)
    requires Drains(script) && k <= FirstStop(script)
    requires Paginate(script[..k + 1], f, failure).Err?
    ensures Paginate(Fetched(script), f, failure) == Paginate(script[..k + 1], f, failure)
  {
    var n := FirstStop(script) + 1;
    assert Fetched(script) == script[..k + 1] + script[k + 1..n];
    PaginateAppend(script[..k + 1], script[k + 1..n], f, failure);
  }

  /** A first reply that carries a token is gathered, and the loop goes on with the rest. */
  lemma PaginateContinues<T, U, E>(items: T, token: string, script: seq<Reply<T>>, f: T -> Result<seq<U>, E>, failure: E)
    requires Drains(script)
    ensures Drains([Page(items, Some(token))] + script)
    ensures Paginate(Fetched([Page(items, Some(token))] + script), f, failure) ==
      match f(items)
      case Err(e) => Err(e)
      case Ok(x) =>
        match Paginate(Fetched(script), f, failure)
        case Err(e) => Err(e)
        case Ok(y) => Ok(x + y)
  {
    var p := Page(items, Some(token));
    FetchedCons(p, script);
    PaginateAppend([p], Fetched(script), f, failure);
    PaginateStops(items, [], f, failure);
    assert Fetched([Page(items, None)]) == [Page(items, None)];
    assert Paginate([p], f, failure) == Paginate([Page(items, None)], f, failure);
  }

  /** A first reply without a token ends the loop: the rest of the script is never used. */
  lemma PaginateStops<T, U, E>(items: T, script: seq<Reply<T>>, f: T -> Result<seq<U>, E>, failure: E)
    ensures Drains([Page(items, None)] + script)
    ensures Paginate(Fetched([Page(items, None)] + script), f, failure) == f(items)
  {
    var s := [Page(items, None)] + script;
    assert Stops(s[0]);
    assert FirstStop(s) == 0;
    assert Fetched(s) == [Page(items, None)];
    assert Fetched(s)[..0] == [];
    match f(items)
    case Err(_) =>
    case Ok(x) => assert [] + x == x;
  }

  /**
    A remote client that answers call number n with `script[n]` and keeps the inputs it
    received, in order.
   */
  class ScriptedClient<Input, Item> {
    const script: seq<Reply<Item>>
    var received: seq<Input>

    constructor (script: seq<Reply<Item>>)
      ensures this.script == script && received == []
    {
      this.script := script;
      received := [];
    }

    method Call(input: Input) returns (reply: Reply<Item>)
      requires |received| < |script|
      modifies this
      ensures received == old(received) + [input]
      ensures reply == script[|old(received)|]
    {
      reply := script[|received|];
      received := received + [input];
    }
  }
}
