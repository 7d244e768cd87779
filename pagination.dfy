/** `paginate_channels`: fetch every page of the list-channels resource,
    following the `pagination.next_key` cursor until it is absent or empty. */
module Pagination {
  import opened Wrappers
  import opened JsonModel
  import opened Lookups

  /** What one page contributes: its `channels` (a missing list reads as
      `[]`) and the cursor for the next request (`None` once `next_key` is
      absent or empty). Anything that makes the source raise on the page is a
      failure: a page that is not an object, a `pagination` that is not one. */
  function ParsePage(data: Json): (r: Result<(seq<Json>, Option<string>), string>)
    ensures r.Success? <==>
      && data.JObj?
      && ("channels" !in data.fields || data.fields["channels"].JArr?)
      && PaginationOf(data).JObj?
      && (!Truthy(Lookup(PaginationOf(data).fields, "next_key")) || Lookup(PaginationOf(data).fields, "next_key").JStr?)
    ensures r.Success? && "channels" !in data.fields ==> r.value.0 == []
    ensures r.Success? && "channels" in data.fields ==> data.fields["channels"] == JArr(r.value.0)
    ensures r.Success? ==> (PaginationOf(data).JObj? &&
      var nextKey := Lookup(PaginationOf(data).fields, "next_key");
      && (r.value.1.None? <==> !Truthy(nextKey))
      && (r.value.1.Some? ==> r.value.1.value != "" && nextKey == JStr(r.value.1.value)))
  {
    if !data.JObj? then Failure(Get(data, "channels").error)
    else
      var cs := if "channels" in data.fields then data.fields["channels"] else JArr([]);
      if !cs.JArr? then Failure("'" + TypeName(cs) + "' channels value is not a list")
      else
        var pagination := PaginationOf(data);
        if !pagination.JObj? then Failure(Get(pagination, "next_key").error)
        else
          var nextKey := Lookup(pagination.fields, "next_key");
          if !Truthy(nextKey) then Success((cs.items, None))
          else if nextKey.JStr? then Success((cs.items, Some(nextKey.s)))
          else Failure("'" + TypeName(nextKey) + "' next_key is not a string")
  }

  /** `(data.get("pagination") or {})` */
  function PaginationOf(data: Json): Json
    requires data.JObj?
  {
    Or(Lookup(data.fields, "pagination"), EmptyObject)
  }

  /** The outcome of one request: the server's answer, parsed. */
  function Response(net: Network, base: string, q: PageQuery): Result<(seq<Json>, Option<string>), string> {
    match net.listChannels(base, q)
    case Failure(e) => Failure(e)
    case Success(data) => ParsePage(data)
  }

  /** The cursor the request carrying `cursor` hands on, if any. */
  function NextCursor(net: Network, base: string, limit: int, cursor: Option<string>): Option<string> {
    match Response(net, base, PageQuery(limit, cursor))
    case Success((_, next)) => next
    case Failure(_) => None
  }

  /** The server is finite: following the cursor chain lowers `rank`, so the
      loop ends. */
  ghost predicate PagesTerminate(net: Network, base: string, limit: int, rank: Option<string> -> nat) {
    forall c: Option<string> :: NextCursor(net, base, limit, c).Some? ==>
      rank(NextCursor(net, base, limit, c)) < rank(c)
  }

  /** The requests sent, starting with the one that carries `cursor`. */
  ghost function Requests(net: Network, base: string, limit: int, rank: Option<string> -> nat, cursor: Option<string>): (t: seq<PageQuery>)
    requires PagesTerminate(net, base, limit, rank)
    ensures t != [] && t[0] == PageQuery(limit, cursor)
    decreases rank(cursor)
  {
    var next := NextCursor(net, base, limit, cursor);
    [PageQuery(limit, cursor)] + if next.None? then [] else Requests(net, base, limit, rank, next)
  }

  /** Everything fetched from `cursor` on: the pages' channels in order, or
      the first failure. */
  ghost function Fetched(net: Network, base: string, limit: int, rank: Option<string> -> nat, cursor: Option<string>): Result<seq<Json>, string>
    requires PagesTerminate(net, base, limit, rank)
    decreases rank(cursor)
  {
    match Response(net, base, PageQuery(limit, cursor))
    case Failure(e) => Failure(e)
    case Success((cs, next)) =>
      if next.None? then Success(cs)
      else
        assert NextCursor(net, base, limit, cursor) == next;
        Prepend(cs, Fetched(net, base, limit, rank, next))
  }

  function Prepend(xs: seq<Json>, r: Result<seq<Json>, string>): (p: Result<seq<Json>, string>)
    ensures p.Success? <==> r.Success?
    ensures p.Success? ==> p.value == xs + r.value
    ensures p.Failure? ==> p.error == r.error
  {
    match r
    case Success(ys) => Success(xs + ys)
    case Failure(e) => Failure(e)
  }

  lemma PrependTwice(xs: seq<Json>, ys: seq<Json>, r: Result<seq<Json>, string>)
    ensures Prepend(xs, Prepend(ys, r)) == Prepend(xs + ys, r)
  {
    if r.Success? {
      assert xs + (ys + r.value) == (xs + ys) + r.value;
    }
  }

  /** The channels a request's page holds ([] for a failed request). */
  function PageChannels(net: Network, base: string, q: PageQuery): seq<Json> {
    match Response(net, base, q)
    case Success((cs, _)) => cs
    case Failure(_) => []
  }

  /** The pages' channels, in request order. */
  function AllChannels(net: Network, base: string, t: seq<PageQuery>): (r: seq<Json>)
    ensures t == [] ==> r == []
  {
    if t == [] then [] else PageChannels(net, base, t[0]) + AllChannels(net, base, t[1..])
  }

  /** One request, unfolded: what `Fetched` and `Requests` become once its
      response is known. */
  lemma FetchStep(net: Network, base: string, limit: int, rank: Option<string> -> nat, cursor: Option<string>)
    requires PagesTerminate(net, base, limit, rank)
    ensures var resp := Response(net, base, PageQuery(limit, cursor));
      && (resp.Failure? ==> Fetched(net, base, limit, rank, cursor) == Failure(resp.error))
      && (resp.Failure? ==> Requests(net, base, limit, rank, cursor) == [PageQuery(limit, cursor)])
      && (resp.Success? && resp.value.1.None? ==>
           && Fetched(net, base, limit, rank, cursor) == Success(resp.value.0)
           && Requests(net, base, limit, rank, cursor) == [PageQuery(limit, cursor)])
      && (resp.Success? && resp.value.1.Some? ==>
           && rank(resp.value.1) < rank(cursor)
           && Fetched(net, base, limit, rank, cursor) == Prepend(resp.value.0, Fetched(net, base, limit, rank, resp.value.1))
           && Requests(net, base, limit, rank, cursor) == [PageQuery(limit, cursor)] + Requests(net, base, limit, rank, resp.value.1))
  {
    var resp := Response(net, base, PageQuery(limit, cursor));
    if resp.Success? {
      assert NextCursor(net, base, limit, cursor) == resp.value.1;
    }
  }

  /** `Requests` unfolded once, and the cursor it hands on is never empty. */
  lemma RequestsStep(net: Network, base: string, limit: int, rank: Option<string> -> nat, cursor: Option<string>)
    requires PagesTerminate(net, base, limit, rank)
    ensures var resp := Response(net, base, PageQuery(limit, cursor));
      && (resp.Failure? || resp.value.1.None? ==>
           Requests(net, base, limit, rank, cursor) == [PageQuery(limit, cursor)])
      && (resp.Success? && resp.value.1.Some? ==>
           && resp.value.1.value != ""
           && rank(resp.value.1) < rank(cursor)
           && Requests(net, base, limit, rank, cursor) == [PageQuery(limit, cursor)] + Requests(net, base, limit, rank, resp.value.1))
  {
    var resp := Response(net, base, PageQuery(limit, cursor));
    if resp.Success? {
      assert NextCursor(net, base, limit, cursor) == resp.value.1;
      var data := net.listChannels(base, PageQuery(limit, cursor));
      assert data.Success? && ParsePage(data.value) == resp;
    }
  }

  method PaginateChannels(net: Network, base: string, limit: int, ghost rank: Option<string> -> nat)
    returns (r: Result<seq<Json>, string>, ghost sent: seq<PageQuery>)
    requires PagesTerminate(net, base, limit, rank)
    ensures r == Fetched(net, base, limit, rank, None)
    ensures sent == Requests(net, base, limit, rank, None)
  {
    var channels: seq<Json> := [];
    var nextKey: Option<string> := None;
    sent := [];
    ghost var all := Fetched(net, base, limit, rank, None);
    assert all.Success? ==> [] + all.value == all.value;
    while true
      invariant Fetched(net, base, limit, rank, None) == Prepend(channels, Fetched(net, base, limit, rank, nextKey))
      invariant Requests(net, base, limit, rank, None) == sent + Requests(net, base, limit, rank, nextKey)
      decreases rank(nextKey)
    {
      // the cursor goes into the query only when it is present
      var q := PageQuery(limit, nextKey);
      var page := FetchPage(net, base, q);
      if page.Failure? || page.value.1.None? {
        LastRequest(net, base, limit, rank, channels, sent, nextKey);
        sent := sent + [q];
        r := if page.Failure? then Failure(page.error) else Success(channels + page.value.0);
        return;
      }
      NextRequest(net, base, limit, rank, channels, sent, nextKey);
      sent := sent + [q];
      channels := channels + page.value.0;
      nextKey := page.value.1;
    }
  }

  /** The loop's last request: what is left to fetch is this one page. */
  lemma LastRequest(net: Network, base: string, limit: int, rank: Option<string> -> nat,
                    channels: seq<Json>, sent: seq<PageQuery>, cursor: Option<string>)
    requires PagesTerminate(net, base, limit, rank)
    requires var resp := Response(net, base, PageQuery(limit, cursor));
      resp.Failure? || resp.value.1.None?
    ensures var resp := Response(net, base, PageQuery(limit, cursor));
      && Prepend(channels, Fetched(net, base, limit, rank, cursor)) ==
         (if resp.Failure? then Failure(resp.error) else Success(channels + resp.value.0))
      && sent + Requests(net, base, limit, rank, cursor) == sent + [PageQuery(limit, cursor)]
  {
    FetchStep(net, base, limit, rank, cursor);
  }

  /** A request whose page hands on a cursor: the loop moves on to it. */
  lemma NextRequest(net: Network, base: string, limit: int, rank: Option<string> -> nat,
                    channels: seq<Json>, sent: seq<PageQuery>, cursor: Option<string>)
    requires PagesTerminate(net, base, limit, rank)
    requires var resp := Response(net, base, PageQuery(limit, cursor));
      resp.Success? && resp.value.1.Some?
    ensures var resp := Response(net, base, PageQuery(limit, cursor));
      && rank(resp.value.1) < rank(cursor)
      && Prepend(channels, Fetched(net, base, limit, rank, cursor)) ==
         Prepend(channels + resp.value.0, Fetched(net, base, limit, rank, resp.value.1))
      && sent + Requests(net, base, limit, rank, cursor) ==
         (sent + [PageQuery(limit, cursor)]) + Requests(net, base, limit, rank, resp.value.1)
  {
    var resp := Response(net, base, PageQuery(limit, cursor));
    FetchStep(net, base, limit, rank, cursor);
    PrependTwice(channels, resp.value.0, Fetched(net, base, limit, rank, resp.value.1));
  }

  /** One request and the parsing of its answer. */
  method FetchPage(net: Network, base: string, q: PageQuery) returns (page: Result<(seq<Json>, Option<string>), string>)
    ensures page == Response(net, base, q)
  {
    var data := net.listChannels(base, q);
    if data.Failure? {
      return Failure(data.error);
    }
    page := ParsePage(data.value);
  }

  /** The request chain: the first request carries the starting cursor (no
      `pagination.key` when there is none), every later one carries the
      previous page's non-empty `next_key` verbatim, and the chain stops at the
      first request that fails or whose page has no further cursor. */
  lemma RequestChain(net: Network, base: string, limit: int, rank: Option<string> -> nat, cursor: Option<string>)
    requires PagesTerminate(net, base, limit, rank)
    ensures var t := Requests(net, base, limit, rank, cursor);
      && t[0].key == cursor
      && (forall i :: 0 <= i < |t| ==> t[i].limit == limit)
      && (forall i :: 0 < i < |t| ==> t[i].key.Some? && t[i].key.value != "")
      && (forall i :: 0 <= i < |t| - 1 ==>
            Response(net, base, t[i]).Success? && Response(net, base, t[i]).value.1 == t[i + 1].key)
      && (Response(net, base, t[|t| - 1]).Failure? || Response(net, base, t[|t| - 1]).value.1.None?)
  {
    RequestKeys(net, base, limit, rank, cursor);
    RequestLinks(net, base, limit, rank, cursor);
  }

  lemma {:induction false} RequestKeys(net: Network, base: string, limit: int, rank: Option<string> -> nat, cursor: Option<string>)
    requires PagesTerminate(net, base, limit, rank)
    ensures var t := Requests(net, base, limit, rank, cursor);
      && (forall i :: 0 <= i < |t| ==> t[i].limit == limit)
      && (forall i :: 0 < i < |t| ==> t[i].key.Some? && t[i].key.value != "")
    decreases rank(cursor)
  {
    RequestsStep(net, base, limit, rank, cursor);
    var resp := Response(net, base, PageQuery(limit, cursor));
    var t := Requests(net, base, limit, rank, cursor);
    if resp.Success? && resp.value.1.Some? {
      var next := resp.value.1;
      RequestKeys(net, base, limit, rank, next);
      var rest := Requests(net, base, limit, rank, next);
      assert t == [PageQuery(limit, cursor)] + rest;
      forall i | 0 < i < |t|
        ensures t[i].limit == limit && t[i].key.Some? && t[i].key.value != ""
      {
        assert t[i] == rest[i - 1];
      }
    } else {
      assert t == [PageQuery(limit, cursor)];
    }
  }

  lemma {:induction false} RequestLinks(net: Network, base: string, limit: int, rank: Option<string> -> nat, cursor: Option<string>)
    requires PagesTerminate(net, base, limit, rank)
    ensures var t := Requests(net, base, limit, rank, cursor);
      && (forall i :: 0 <= i < |t| - 1 ==>
            Response(net, base, t[i]).Success? && Response(net, base, t[i]).value.1 == t[i + 1].key)
      && (Response(net, base, t[|t| - 1]).Failure? || Response(net, base, t[|t| - 1]).value.1.None?)
    decreases rank(cursor)
  {
    RequestsStep(net, base, limit, rank, cursor);
    var resp := Response(net, base, PageQuery(limit, cursor));
    var t := Requests(net, base, limit, rank, cursor);
    if resp.Success? && resp.value.1.Some? {
      var next := resp.value.1;
      RequestLinks(net, base, limit, rank, next);
      var rest := Requests(net, base, limit, rank, next);
      assert t == [PageQuery(limit, cursor)] + rest;
      forall i | 0 <= i < |t| - 1
        ensures Response(net, base, t[i]).Success? && Response(net, base, t[i]).value.1 == t[i + 1].key
      {
        if i > 0 {
          assert t[i] == rest[i - 1] && t[i + 1] == rest[i];
        }
      }
      assert t[|t| - 1] == rest[|rest| - 1];
    } else {
      assert t == [PageQuery(limit, cursor)];
    }
  }

  /** The result is the in-order concatenation of every page's channels when
      every request succeeds, and otherwise the failure of the request that
      ended the chain: no partial result is returned. */
  lemma {:induction false} FetchedIsConcatenation(net: Network, base: string, limit: int, rank: Option<string> -> nat, cursor: Option<string>)
    requires PagesTerminate(net, base, limit, rank)
    ensures var t := Requests(net, base, limit, rank, cursor);
      var r := Fetched(net, base, limit, rank, cursor);
      && (r.Success? <==> Response(net, base, t[|t| - 1]).Success?)
      && (r.Success? ==> r.value == AllChannels(net, base, t))
      && (r.Failure? ==> r.error == Response(net, base, t[|t| - 1]).error)
    decreases rank(cursor)
  {
    FetchStep(net, base, limit, rank, cursor);
    var resp := Response(net, base, PageQuery(limit, cursor));
    var t := Requests(net, base, limit, rank, cursor);
    if resp.Success? && resp.value.1.Some? {
      var next := resp.value.1;
      FetchedIsConcatenation(net, base, limit, rank, next);
      var rest := Requests(net, base, limit, rank, next);
      assert t == [PageQuery(limit, cursor)] + rest;
      assert t[1..] == rest;
      assert t[|t| - 1] == rest[|rest| - 1];
    } else if resp.Success? {
      assert t == [PageQuery(limit, cursor)];
      assert AllChannels(net, base, t) == resp.value.0 + AllChannels(net, base, t[1..]);
    }
  }
}
