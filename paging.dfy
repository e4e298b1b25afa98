/**
 * The list protocol shared by every paginated listing of the plugin
 * (listK8sCronJobs, listK8sCustomResourceDefinitions): the page-size clamp,
 * the continuation-token loop, streaming each item to the host and stopping
 * successfully as soon as the host has no rows left to take.
 *
 * The cluster API is the sequence of replies it gives, in order: the i-th list
 * request receives `responses[i]`. The host's row sink is the sequence of items
 * streamed plus `rowsRemaining`, the number of rows the host still wanted when
 * the listing started (None when the query has no limit); after each streamed
 * item the listing stops once that many items have been streamed.
 */
module Paging {
  import opened Wrappers
  import opened Utils

  const DefaultPageSize := 500

  /** metav1.ListOptions, reduced to the fields the listings set. */
  datatype ListOptions = ListOptions(limit: int, fieldSelector: string, continueToken: string)

  /** One page of a list reply: its items and its continuation token ("" on the last page). */
  datatype Page<T> = Page(items: seq<T>, continueToken: string)

  type Response<T> = Result<Page<T>, Error>

  /** A get reply: the object the client returns together with its error, if any. */
  datatype GetReply<T> = GetReply(obj: T, err: Option<Error>)

  /**
   * The page size of the first request: 500, lowered to the query limit when
   * that is smaller, but never below 1.
   */
  function PageSize(limit: Option<int>): (size: int)
    ensures 1 <= size <= DefaultPageSize
    ensures limit.Some? && 1 <= limit.value <= DefaultPageSize ==> size == limit.value
    ensures limit.Some? && limit.value < 1 ==> size == 1
    ensures limit.None? || limit.value >= DefaultPageSize ==> size == DefaultPageSize
  {
    if limit.Some? && limit.value < DefaultPageSize then
      (if limit.value < 1 then 1 else limit.value)
    else DefaultPageSize
  }

  /** A reply after which no further request is made: an error, or a page without continuation. */
  predicate Terminal<T>(r: Response<T>) {
    r.Failure? || r.value.continueToken == ""
  }

  /** The server's replies end: the last one is terminal, so the token loop cannot run past them. */
  predicate Ends<T>(responses: seq<Response<T>>) {
    |responses| > 0 && Terminal(responses[|responses| - 1])
  }

  /** The index of the first terminal reply: the last request a listing without a budget makes. */
  function FirstTerminal<T>(responses: seq<Response<T>>): (n: nat)
    requires Ends(responses)
    ensures n < |responses| && Terminal(responses[n])
    ensures forall k :: 0 <= k < n ==> !Terminal(responses[k])
    decreases |responses|
  {
    if Terminal(responses[0]) then 0
    else
      assert responses[1..][|responses| - 2] == responses[|responses| - 1];
      1 + FirstTerminal(responses[1..])
  }

  /** The items of the successful replies among `responses`, in reply order. */
  function Stream<T>(responses: seq<Response<T>>): seq<T>
    decreases |responses|
  {
    if |responses| == 0 then []
    else (if responses[0].Success? then responses[0].value.items else []) + Stream(responses[1..])
  }

  /** Adding one reply at the end adds its items at the end of the stream. */
  lemma {:induction false} StreamSnoc<T>(responses: seq<Response<T>>, r: Response<T>)
    ensures Stream(responses + [r]) == Stream(responses) + (if r.Success? then r.value.items else [])
    decreases |responses|
  {
    if |responses| > 0 {
      assert (responses + [r])[1..] == responses[1..] + [r];
      StreamSnoc(responses[1..], r);
    } else {
      assert [r][1..] == [];
    }
  }

  /** The stream of one more reply of a prefix. */
  lemma StreamPrefixSnoc<T>(responses: seq<Response<T>>, i: nat)
    requires i < |responses|
    ensures Stream(responses[..i + 1]) == Stream(responses[..i]) + (if responses[i].Success? then responses[i].value.items else [])
  {
    assert responses[..i + 1] == responses[..i] + [responses[i]];
    StreamSnoc(responses[..i], responses[i]);
  }

  /** No reply before the first terminal one is terminal. */
  lemma TerminalAt<T>(responses: seq<Response<T>>, i: nat)
    requires Ends(responses) && i <= FirstTerminal(responses) && Terminal(responses[i])
    ensures i == FirstTerminal(responses)
  {
  }

  /** The continuation token a reply hands to the next request. */
  function TokenOf<T>(r: Response<T>): string {
    if r.Success? then r.value.continueToken else ""
  }

  /** The options of request `j` of a listing that starts from `opts`: the token of the reply before it, if any. */
  function RequestAt<T>(opts: ListOptions, responses: seq<Response<T>>, j: nat): ListOptions
    requires j <= |responses|
  {
    if j == 0 then opts else opts.(continueToken := TokenOf(responses[j - 1]))
  }

  /** The first `n` requests of a listing that starts from `opts`. */
  function Requests<T>(opts: ListOptions, responses: seq<Response<T>>, n: nat): (requests: seq<ListOptions>)
    requires n <= |responses|
    ensures |requests| == n
  {
    if n == 0 then [] else Requests(opts, responses, n - 1) + [RequestAt(opts, responses, n - 1)]
  }

  /**
   * Request `j` is the first request's options with, after the first, the
   * continuation token of the reply before it.
   */
  lemma {:induction false} RequestsAt<T>(opts: ListOptions, responses: seq<Response<T>>, n: nat, j: nat)
    requires j < n <= |responses|
    ensures Requests(opts, responses, n)[j] == RequestAt(opts, responses, j)
    ensures Requests(opts, responses, n)[j].limit == opts.limit && Requests(opts, responses, n)[j].fieldSelector == opts.fieldSelector
    decreases n
  {
    if j < n - 1 {
      RequestsAt(opts, responses, n - 1, j);
    }
  }

  /** What a listing did: the items it streamed, how many requests it made, and the error it returned. */
  datatype Listing<T> = Listing(emitted: seq<T>, pages: nat, err: Option<Error>)

  /** The host runs out of rows while this page streams, `before` items having been streamed already. */
  predicate BudgetRunsOut<T>(items: seq<T>, rowsRemaining: Option<nat>, before: nat) {
    rowsRemaining.Some? && before < rowsRemaining.value <= before + |items|
  }

  /**
   * The listing protocol, reply by reply: an error ends it with that error; a
   * page streams its items in order, stopping successfully right after the
   * item that exhausts the host's rows; a page without continuation ends it;
   * otherwise the next request is made.
   */
  function Protocol<T>(responses: seq<Response<T>>, rowsRemaining: Option<nat>, before: nat): (l: Listing<T>)
    requires Ends(responses)
    decreases |responses|
  {
    match responses[0]
    case Failure(e) => Listing([], 1, Some(e))
    case Success(page) =>
      if BudgetRunsOut(page.items, rowsRemaining, before) then
        Listing(page.items[..rowsRemaining.value - before], 1, None)
      else if page.continueToken == "" then
        Listing(page.items, 1, None)
      else
        assert responses[1..][|responses| - 2] == responses[|responses| - 1];
        var rest := Protocol(responses[1..], rowsRemaining, before + |page.items|);
        Listing(page.items + rest.emitted, 1 + rest.pages, rest.err)
  }

  /**
   * Without the budget running out, a listing requests every page up to the
   * first terminal reply, streams all their items in order, and returns the
   * error of that reply if it is one (the items before it stay streamed).
   */
  lemma {:induction false} ProtocolExhausts<T>(responses: seq<Response<T>>, rowsRemaining: Option<nat>, before: nat)
    requires Ends(responses)
    requires var n := FirstTerminal(responses);
      rowsRemaining.None? || rowsRemaining.value <= before || rowsRemaining.value > before + |Stream(responses[..n + 1])|
    ensures var n := FirstTerminal(responses);
      Protocol(responses, rowsRemaining, before) ==
        Listing(Stream(responses[..n + 1]), n + 1, if responses[n].Failure? then Some(responses[n].error) else None)
    decreases |responses|
  {
    var n := FirstTerminal(responses);
    assert responses[..1][1..] == [];
    if n > 0 {
      var page := responses[0].value;
      assert responses[1..][|responses| - 2] == responses[|responses| - 1];
      assert FirstTerminal(responses[1..]) == n - 1;
      assert responses[..n + 1][1..] == responses[1..][..n];
      assert responses[..n + 1][0] == responses[0];
      ProtocolExhausts(responses[1..], rowsRemaining, before + |page.items|);
    }
  }

  /**
   * When the host's rows run out before the pages do, the listing streams
   * exactly the rows still wanted, the first ones of the stream, returns no
   * error, and makes no request past the first terminal reply.
   */
  lemma {:induction false} ProtocolStopsAtBudget<T>(responses: seq<Response<T>>, b: nat, before: nat)
    requires Ends(responses)
    requires var n := FirstTerminal(responses); before < b <= before + |Stream(responses[..n + 1])|
    ensures var l := Protocol(responses, Some(b), before);
      && l.err == None
      && l.emitted == Stream(responses[..FirstTerminal(responses) + 1])[..b - before]
      && 1 <= l.pages <= FirstTerminal(responses) + 1
    decreases |responses|
  {
    var n := FirstTerminal(responses);
    assert responses[..1][1..] == [];
    assert responses[..n + 1][0] == responses[0];
    if responses[0].Failure? {
      assert false;
    } else {
      var page := responses[0].value;
      if BudgetRunsOut(page.items, Some(b), before) {
        if n > 0 {
          assert responses[..n + 1][1..] == responses[1..][..n];
        }
      } else {
        assert n > 0;
        var rest := responses[1..];
        assert rest[|responses| - 2] == responses[|responses| - 1];
        assert FirstTerminal(rest) == n - 1;
        assert responses[..n + 1][1..] == rest[..n];
        ProtocolStopsAtBudget(rest, b, before + |page.items|);
      }
    }
  }

  /**
   * When the rows run out, the last page requested is the one holding the
   * last row wanted: the pages before it hold fewer rows than were wanted.
   */
  lemma {:induction false} ProtocolStopPage<T>(responses: seq<Response<T>>, b: nat, before: nat)
    requires Ends(responses)
    requires var n := FirstTerminal(responses); before < b <= before + |Stream(responses[..n + 1])|
    ensures var l := Protocol(responses, Some(b), before);
      1 <= l.pages <= |responses| && |Stream(responses[..l.pages - 1])| < b - before <= |Stream(responses[..l.pages])|
    decreases |responses|
  {
    var n := FirstTerminal(responses);
    assert responses[..n + 1][0] == responses[0];
    if responses[0].Failure? {
      assert false;
    } else {
      var page := responses[0].value;
      assert responses[..1][1..] == [];
      assert Stream(responses[..1]) == page.items;
      if BudgetRunsOut(page.items, Some(b), before) {
        assert Protocol(responses, Some(b), before).pages == 1;
        assert responses[..0] == [];
      } else {
        var rest := responses[1..];
        StopPageStep(responses, b, before);
        ProtocolStep(responses, Some(b), before);
        ProtocolStopPage(rest, b, before + |page.items|);
        var l := Protocol(rest, Some(b), before + |page.items|);
        StreamPrefix(responses, l.pages + 1);
        StreamPrefix(responses, l.pages);
      }
    }
  }

  /** The step of ProtocolStopPage: the rest of the replies still holds the row that runs out. */
  lemma StopPageStep<T>(responses: seq<Response<T>>, b: nat, before: nat)
    requires Ends(responses) && responses[0].Success?
    requires var n := FirstTerminal(responses); before < b <= before + |Stream(responses[..n + 1])|
    requires !BudgetRunsOut(responses[0].value.items, Some(b), before)
    ensures |responses| > 1 && Ends(responses[1..]) && responses[0].value.continueToken != ""
    ensures var n := FirstTerminal(responses[1..]);
      before + |responses[0].value.items| < b <= before + |responses[0].value.items| + |Stream(responses[1..][..n + 1])|
  {
    var n := FirstTerminal(responses);
    StreamPrefix(responses, 1);
    assert n > 0;
    FirstTerminalTail(responses);
    StreamPrefix(responses, n + 1);
  }

  /** Past a reply that is not terminal, the first terminal reply is one further along. */
  lemma FirstTerminalTail<T>(responses: seq<Response<T>>)
    requires Ends(responses) && !Terminal(responses[0])
    ensures |responses| > 1 && Ends(responses[1..]) && FirstTerminal(responses[1..]) == FirstTerminal(responses) - 1
  {
    assert responses[1..][|responses| - 2] == responses[|responses| - 1];
  }

  /** The stream of the first m replies: the first reply's items, then the stream of the next m - 1. */
  lemma StreamPrefix<T>(responses: seq<Response<T>>, m: nat)
    requires 0 < m <= |responses|
    ensures Stream(responses[..m]) == (if responses[0].Success? then responses[0].value.items else []) + Stream(responses[1..][..m - 1])
  {
    assert responses[..m][0] == responses[0];
    assert responses[..m][1..] == responses[1..][..m - 1];
  }

  /**
   * Streaming one page: its items in order, stopping right after the item
   * that exhausts the host's rows (`stopped`), `emitted` holding what this
   * listing streamed before the page.
   */
  method StreamPage<T>(emitted: seq<T>, items: seq<T>, rowsRemaining: Option<nat>) returns (out: seq<T>, stopped: bool)
    ensures stopped == BudgetRunsOut(items, rowsRemaining, |emitted|)
    ensures out == emitted + if stopped then items[..rowsRemaining.value - |emitted|] else items
  {
    out := emitted;
    var j := 0;
    while j < |items|
      invariant 0 <= j <= |items|
      invariant out == emitted + items[..j]
      invariant !BudgetRunsOut(items[..j], rowsRemaining, |emitted|)
    {
      out := out + [items[j]];
      j := j + 1;
      assert items[..j] == items[..j - 1] + [items[j - 1]];
      if rowsRemaining == Some(|out|) {
        return out, true;
      }
    }
    assert items[..j] == items;
    stopped := false;
  }

  /** One step of the protocol on a page that neither exhausts the rows nor ends the listing. */
  lemma ProtocolStep<T>(responses: seq<Response<T>>, rowsRemaining: Option<nat>, before: nat)
    requires Ends(responses) && responses[0].Success? && responses[0].value.continueToken != ""
    requires !BudgetRunsOut(responses[0].value.items, rowsRemaining, before)
    ensures Ends(responses[1..])
    ensures var items := responses[0].value.items;
      var rest := Protocol(responses[1..], rowsRemaining, before + |items|);
      Protocol(responses, rowsRemaining, before) == Listing(items + rest.emitted, 1 + rest.pages, rest.err)
  {
    assert responses[1..][|responses| - 2] == responses[|responses| - 1];
  }

  /**
   * The loop's account of the whole listing stays true across a page that
   * neither exhausts the rows nor ends the listing: what was streamed grows by
   * the page, the requests by one, and the rest of the protocol starts at the
   * next reply.
   */
  lemma ListingStep<T>(responses: seq<Response<T>>, rowsRemaining: Option<nat>, i: nat, before: seq<T>, total: Listing<T>)
    requires i < |responses| && Ends(responses[i..])
    requires responses[i].Success? && responses[i].value.continueToken != ""
    requires !BudgetRunsOut(responses[i].value.items, rowsRemaining, |before|)
    requires var rest := Protocol(responses[i..], rowsRemaining, |before|);
      total == Listing(before + rest.emitted, i + rest.pages, rest.err)
    ensures i + 1 < |responses| && Ends(responses[i + 1..])
    ensures var emitted := before + responses[i].value.items;
      var rest := Protocol(responses[i + 1..], rowsRemaining, |emitted|);
      total == Listing(emitted + rest.emitted, i + 1 + rest.pages, rest.err)
  {
    ProtocolStep(responses[i..], rowsRemaining, |before|);
    assert responses[i..][0] == responses[i];
    assert responses[i..][1..] == responses[i + 1..];
    var items := responses[i].value.items;
    var rest := Protocol(responses[i + 1..], rowsRemaining, |before| + |items|);
    assert before + (items + rest.emitted) == (before + items) + rest.emitted;
  }

  /**
   * The loop's account of the whole listing at a reply that ends it (an
   * error, the page without continuation, or the page where the rows run
   * out): the listing is what was streamed before plus what this reply adds.
   */
  lemma ListingLast<T>(responses: seq<Response<T>>, rowsRemaining: Option<nat>, i: nat, before: seq<T>, total: Listing<T>)
    requires i < |responses| && Ends(responses[i..])
    requires Terminal(responses[i]) || BudgetRunsOut(responses[i].value.items, rowsRemaining, |before|)
    requires var rest := Protocol(responses[i..], rowsRemaining, |before|);
      total == Listing(before + rest.emitted, i + rest.pages, rest.err)
    ensures match responses[i]
      case Failure(e) => total == Listing(before, i + 1, Some(e))
      case Success(page) =>
        total == Listing(before + if BudgetRunsOut(page.items, rowsRemaining, |before|) then page.items[..rowsRemaining.value - |before|] else page.items,
                         i + 1, None)
  {
    assert responses[i..][0] == responses[i];
  }

  /**
   * The listing loop: request a page, carry its continuation token forward,
   * stream its items, and stop on an error, on exhausting the host's rows, or
   * after the page without continuation. The requests made are returned too.
   */
  method ListPages<T>(opts: ListOptions, responses: seq<Response<T>>, rowsRemaining: Option<nat>)
    returns (emitted: seq<T>, requests: seq<ListOptions>, err: Option<Error>)
    requires Ends(responses)
    ensures |requests| <= |responses| && requests == Requests(opts, responses, |requests|)
    ensures Listing(emitted, |requests|, err) == Protocol(responses, rowsRemaining, 0)
  {
    var input := opts;
    emitted, requests, err := [], [], None;
    var pageLeft := true;
    while pageLeft
      invariant |requests| <= |responses|
      invariant requests == Requests(opts, responses, |requests|)
      invariant pageLeft ==> |requests| < |responses| && Ends(responses[|requests|..])
      invariant pageLeft ==> input == RequestAt(opts, responses, |requests|)
      invariant pageLeft ==>
        var rest := Protocol(responses[|requests|..], rowsRemaining, |emitted|);
        Protocol(responses, rowsRemaining, 0) == Listing(emitted + rest.emitted, |requests| + rest.pages, rest.err)
      invariant !pageLeft ==> Listing(emitted, |requests|, err) == Protocol(responses, rowsRemaining, 0)
      decreases |responses| - |requests|, pageLeft
    {
      var i := |requests|;
      var response := responses[i];
      ghost var before := emitted;
      requests := requests + [input];
      if response.Failure? {
        err := Some(response.error);
        ListingLast(responses, rowsRemaining, i, before, Protocol(responses, rowsRemaining, 0));
        return;
      }
      var page := response.value;
      if page.continueToken != "" {
        input := input.(continueToken := page.continueToken);
      } else {
        pageLeft := false;
      }
      var stopped;
      emitted, stopped := StreamPage(emitted, page.items, rowsRemaining);
      if stopped || !pageLeft {
        ListingLast(responses, rowsRemaining, i, before, Protocol(responses, rowsRemaining, 0));
        pageLeft := false;
      } else {
        ListingStep(responses, rowsRemaining, i, before, Protocol(responses, rowsRemaining, 0));
      }
    }
  }
}
