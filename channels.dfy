/** `map_channels`: list an endpoint's channels, keep those on the wanted port
    (and in the wanted state, when one is given), and resolve each one's
    counterparty chain through channel detail, its first connection hop, that
    connection's client and the client's state. */
module Channels {
  import opened Wrappers
  import opened JsonModel
  import opened Lookups
  import opened Normalize
  import Pagination

  /** One output record. `Resolved` carries the enrichment; `Stub` is what a
      failed lookup leaves: only the channel's id and port and the error. The
      two fields aggregation reads as strings, the counterparty chain id and
      the state, are typed as optional strings. */
  datatype Row =
    | Resolved(channelId: Json, portId: Json, counterpartyChannelId: Json, counterpartyPortId: Json,
               connectionId: Json, clientId: Json, counterpartyChainId: Option<string>, state: Option<string>)
    | Stub(channelId: Json, portId: Json, error: string)

  /** The dictionary that the following `.get(next)` is applied to; a value
      that is not one makes that `.get` raise. */
  function AsObject(j: Json, next: string): (r: Result<map<string, Json>, string>)
    ensures r.Success? <==> j.JObj?
    ensures r.Success? ==> r.value == j.fields
  {
    if j.JObj? then Success(j.fields) else Failure(Get(j, next).error)
  }

  /** A field aggregation reads as a label: a falsy value is `None` (as
      `normalize_state` and `x or "UNKNOWN"` read it), a non-empty string is
      itself, and any other value is a failure of the lookup. */
  function AsString(j: Json, what: string): (r: Result<Option<string>, string>)
    ensures r.Success? <==> !Truthy(j) || j.JStr?
    ensures !Truthy(j) ==> r == Success(None)
    ensures j.JStr? && j.s != "" ==> r == Success(Some(j.s))
  {
    if !Truthy(j) then Success(None)
    else if j.JStr? then Success(Some(j.s))
    else Failure(what + " is a '" + TypeName(j) + "', not a string")
  }

  /** `hops[0]` of a truthy `hops`. */
  function FirstHop(hops: Json): (r: Result<Json, string>)
    requires Truthy(hops)
    ensures hops.JArr? ==> r == Success(hops.items[0])
    ensures hops.JStr? ==> r == Success(JStr([hops.s[0]]))
    ensures r.Success? <==> hops.JArr? || hops.JStr?
  {
    match hops
    case JArr(items) => Success(items[0])
    case JStr(s) => Success(JStr([s[0]]))
    // a dictionary has no key 0
    case JObj(_) => Failure("0")
    case _ => Failure("'" + TypeName(hops) + "' object is not subscriptable")
  }

  /** The port and state filters; an empty filter lets everything through. */
  predicate Selected(ch: map<string, Json>, portFilter: string, stateFilter: Option<string>)
    ensures portFilter == "" && (stateFilter.None? || stateFilter.value == "") ==> Selected(ch, portFilter, stateFilter)
    ensures Selected(ch, portFilter, stateFilter) && portFilter != "" ==> Lookup(ch, "port_id") == JStr(portFilter)
    ensures Selected(ch, portFilter, stateFilter) && stateFilter.Some? && stateFilter.value != "" ==>
      Lookup(ch, "state") == JStr(stateFilter.value)
    ensures var portMatches := portFilter == "" || Lookup(ch, "port_id") == JStr(portFilter);
      var stateMatches := stateFilter.None? || stateFilter.value == "" || Lookup(ch, "state") == JStr(stateFilter.value);
      portMatches && stateMatches ==> Selected(ch, portFilter, stateFilter)
  {
    && (portFilter == "" || Lookup(ch, "port_id") == JStr(portFilter))
    && (stateFilter.None? || stateFilter.value == "" || Lookup(ch, "state") == JStr(stateFilter.value))
  }

  /** Channel detail: the `channel` object and its `counterparty` object of
      the detail lookup, each read as `{}` when falsy. It fails with the
      lookup's error, or when one of the three is not an object. */
  function ChannelDetail(net: Network, base: string, ch: map<string, Json>): (r: Result<(map<string, Json>, map<string, Json>), string>)
    ensures var full := net.channel(base, Lookup(ch, "channel_id"), Lookup(ch, "port_id"));
      full.Failure? ==> r == Failure(full.error)
    ensures var full := net.channel(base, Lookup(ch, "channel_id"), Lookup(ch, "port_id"));
      r.Success? <==>
        && full.Success? && full.value.JObj?
        && Or(Lookup(full.value.fields, "channel"), EmptyObject).JObj?
        && Or(Lookup(Or(Lookup(full.value.fields, "channel"), EmptyObject).fields, "counterparty"), EmptyObject).JObj?
    ensures var full := net.channel(base, Lookup(ch, "channel_id"), Lookup(ch, "port_id"));
      r.Success? ==>
        && JObj(r.value.0) == Or(Lookup(full.value.fields, "channel"), EmptyObject)
        && JObj(r.value.1) == Or(Lookup(r.value.0, "counterparty"), EmptyObject)
  {
    var full :- net.channel(base, Lookup(ch, "channel_id"), Lookup(ch, "port_id"));
    var top :- AsObject(full, "channel");
    var channel :- AsObject(Or(Lookup(top, "channel"), EmptyObject), "counterparty");
    var cp :- AsObject(Or(Lookup(channel, "counterparty"), EmptyObject), "channel_id");
    Success((channel, cp))
  }

  /** `(channel.get("connection_hops") or [])` */
  function Hops(channel: map<string, Json>): (hops: Json)
    ensures Truthy(hops) <==> Truthy(Lookup(channel, "connection_hops"))
    ensures Truthy(hops) ==> hops == Lookup(channel, "connection_hops")
  {
    Or(Lookup(channel, "connection_hops"), JArr([]))
  }

  /** The connection lookup and its `client_id`: the `connection` object is
      read as `{}` when falsy; it fails with the lookup's error, or when the
      answer or its `connection` is not an object. */
  function ClientOf(net: Network, base: string, connectionId: Json): (r: Result<Json, string>)
    ensures var conn := net.connection(base, connectionId);
      conn.Failure? ==> r == Failure(conn.error)
    ensures var conn := net.connection(base, connectionId);
      r.Success? <==> conn.Success? && conn.value.JObj? && Or(Lookup(conn.value.fields, "connection"), EmptyObject).JObj?
    ensures var conn := net.connection(base, connectionId);
      r.Success? ==> r.value == Lookup(Or(Lookup(conn.value.fields, "connection"), EmptyObject).fields, "client_id")
  {
    var conn :- net.connection(base, connectionId);
    var top :- AsObject(conn, "connection");
    var connection :- AsObject(Or(Lookup(top, "connection"), EmptyObject), "client_id");
    Success(Lookup(connection, "client_id"))
  }

  /** The client-state lookup and the chain id it carries, read as a
      label. */
  function CounterpartyChainOf(net: Network, base: string, clientId: Json): (r: Result<Option<string>, string>)
    ensures var cs := net.clientState(base, clientId);
      cs.Failure? ==> r == Failure(cs.error)
    ensures var cs := net.clientState(base, clientId);
      r.Success? <==> cs.Success? && ExtractChainId(cs.value).Success? && AsString(ExtractChainId(cs.value).value, "").Success?
    ensures var cs := net.clientState(base, clientId);
      r.Success? ==> r == AsString(ExtractChainId(cs.value).value, "counterparty chain id")
  {
    var clientState :- net.clientState(base, clientId);
    var chainId :- ExtractChainId(clientState);
    AsString(chainId, "counterparty chain id")
  }

  /** The lookups after the hop check: the first hop, its connection's
      client, that client's chain id. The record resolves exactly when each
      of them succeeds and the listed state reads as a label. */
  function Enrich(net: Network, base: string, ch: map<string, Json>,
                  cp: map<string, Json>, hops: Json): (r: Result<Row, string>)
    requires Truthy(hops)
    ensures r.Success? <==>
      && FirstHop(hops).Success?
      && ClientOf(net, base, FirstHop(hops).value).Success?
      && CounterpartyChainOf(net, base, ClientOf(net, base, FirstHop(hops).value).value).Success?
      && AsString(Lookup(ch, "state"), "state").Success?
    ensures r.Success? ==> r.value.Resolved? && FirstHop(hops) == Success(r.value.connectionId)
    ensures r.Success? ==> r.value.channelId == Lookup(ch, "channel_id") && r.value.portId == Lookup(ch, "port_id")
    ensures r.Success? ==> r.value.counterpartyChannelId == Lookup(cp, "channel_id") && r.value.counterpartyPortId == Lookup(cp, "port_id")
    ensures r.Success? ==> ClientOf(net, base, r.value.connectionId) == Success(r.value.clientId)
    ensures r.Success? ==> CounterpartyChainOf(net, base, r.value.clientId) == Success(r.value.counterpartyChainId)
    ensures r.Success? ==> AsString(Lookup(ch, "state"), "state") == Success(r.value.state)
  {
    var connectionId :- FirstHop(hops);
    var clientId :- ClientOf(net, base, connectionId);
    var counterpartyChainId :- CounterpartyChainOf(net, base, clientId);
    var state :- AsString(Lookup(ch, "state"), "state");
    Success(Resolved(Lookup(ch, "channel_id"), Lookup(ch, "port_id"),
                     Lookup(cp, "channel_id"), Lookup(cp, "port_id"),
                     connectionId, clientId, counterpartyChainId, state))
  }

  /** One iteration of the loop: no record for a channel that is filtered
      out or has no connection hops, a resolved record, or a stub when a
      lookup fails. An entry that is not an object makes the error handler's
      own `ch.get` raise, which fails the whole call. */
  function ProcessChannel(net: Network, base: string, ch: Json, portFilter: string, stateFilter: Option<string>): (r: Result<Option<Row>, string>)
    ensures r.Success? <==> ch.JObj?
    ensures ch.JObj? && !Selected(ch.fields, portFilter, stateFilter) ==> r == Success(None)
    ensures ch.JObj? && Selected(ch.fields, portFilter, stateFilter) ==>
      var detail := ChannelDetail(net, base, ch.fields);
      && (r.value.None? <==> detail.Success? && !Truthy(Hops(detail.value.0)))
      && (detail.Failure? ==> r.value == Some(Stub(Lookup(ch.fields, "channel_id"), Lookup(ch.fields, "port_id"), detail.error)))
      && (detail.Success? && Truthy(Hops(detail.value.0)) ==>
            var e := Enrich(net, base, ch.fields, detail.value.1, Hops(detail.value.0));
            r.value == Some(if e.Success? then e.value else Stub(Lookup(ch.fields, "channel_id"), Lookup(ch.fields, "port_id"), e.error)))
  {
    if !ch.JObj? then Failure(Get(ch, "channel_id").error)
    else if !Selected(ch.fields, portFilter, stateFilter) then Success(None)
    else
      var stub := (e: string) => Stub(Lookup(ch.fields, "channel_id"), Lookup(ch.fields, "port_id"), e);
      match ChannelDetail(net, base, ch.fields)
      case Failure(e) => Success(Some(stub(e)))
      case Success((channel, cp)) =>
        var hops := Hops(channel);
        if !Truthy(hops) then Success(None)
        else
          match Enrich(net, base, ch.fields, cp, hops)
          case Success(row) => Success(Some(row))
          case Failure(e) => Success(Some(stub(e)))
  }

  /** A channel whose lookups all answer in the documented shapes resolves
      to the chain id its client tracks. */
  lemma WellFormedChannelResolves(net: Network, base: string, ch: map<string, Json>, portFilter: string,
                                  stateFilter: Option<string>, cp: map<string, Json>,
                                  connectionId: string, clientId: string, chainId: string, state: Option<string>)
    requires Selected(ch, portFilter, stateFilter) && AsString(Lookup(ch, "state"), "state") == Success(state)
    requires net.channel(base, Lookup(ch, "channel_id"), Lookup(ch, "port_id")) ==
      Success(JObj(map["channel" := JObj(map["counterparty" := JObj(cp), "connection_hops" := JArr([JStr(connectionId)])])]))
    requires net.connection(base, JStr(connectionId)) ==
      Success(JObj(map["connection" := JObj(map["client_id" := JStr(clientId)])]))
    requires net.clientState(base, JStr(clientId)) ==
      Success(JObj(map["client_state" := JObj(map["chain_id" := JStr(chainId)])]))
    requires chainId != ""
    ensures ProcessChannel(net, base, JObj(ch), portFilter, stateFilter) ==
      Success(Some(Resolved(Lookup(ch, "channel_id"), Lookup(ch, "port_id"), Lookup(cp, "channel_id"), Lookup(cp, "port_id"),
                            JStr(connectionId), JStr(clientId), Some(chainId), state)))
  {
    var channel := map["counterparty" := JObj(cp), "connection_hops" := JArr([JStr(connectionId)])];
    WellFormedDetail(net, base, ch, channel, cp);
    assert Hops(channel) == JArr([JStr(connectionId)]);
    WellFormedClient(net, base, connectionId, clientId);
    WellFormedChain(net, base, clientId, chainId);
  }

  lemma WellFormedDetail(net: Network, base: string, ch: map<string, Json>,
                         channel: map<string, Json>, cp: map<string, Json>)
    requires "counterparty" in channel && channel["counterparty"] == JObj(cp)
    requires net.channel(base, Lookup(ch, "channel_id"), Lookup(ch, "port_id")) == Success(JObj(map["channel" := JObj(channel)]))
    ensures ChannelDetail(net, base, ch) == Success((channel, cp))
  {
    assert "counterparty" in channel;
    assert Or(Lookup(channel, "counterparty"), EmptyObject) == JObj(cp);
  }

  lemma WellFormedClient(net: Network, base: string, connectionId: string, clientId: string)
    requires net.connection(base, JStr(connectionId)) ==
      Success(JObj(map["connection" := JObj(map["client_id" := JStr(clientId)])]))
    ensures ClientOf(net, base, JStr(connectionId)) == Success(JStr(clientId))
  {
    var connection := map["client_id" := JStr(clientId)];
    assert "client_id" in connection;
  }

  lemma WellFormedChain(net: Network, base: string, clientId: string, chainId: string)
    requires net.clientState(base, JStr(clientId)) ==
      Success(JObj(map["client_state" := JObj(map["chain_id" := JStr(chainId)])]))
    requires chainId != ""
    ensures CounterpartyChainOf(net, base, JStr(clientId)) == Success(Some(chainId))
  {
    var clientState := map["chain_id" := JStr(chainId)];
    assert ExtractChainId(JObj(map["client_state" := JObj(clientState)])) == Success(JStr(chainId));
  }

  /** The records of a run of channels, in input order; `Failure` as soon as
      one channel makes the call fail. */
  function ResolveRows(net: Network, base: string, chs: seq<Json>, portFilter: string, stateFilter: Option<string>): Result<seq<Row>, string>
  {
    if chs == [] then Success([])
    else
      var first :- ProcessChannel(net, base, chs[0], portFilter, stateFilter);
      var rest :- ResolveRows(net, base, chs[1..], portFilter, stateFilter);
      Success(Kept([first]) + rest)
  }

  /** The records present in a sequence of per-channel outcomes, in order. */
  function Kept(outcomes: seq<Option<Row>>): (r: seq<Row>)
    ensures |r| <= |outcomes|
  {
    if outcomes == [] then []
    else (if outcomes[0].Some? then [outcomes[0].value] else []) + Kept(outcomes[1..])
  }

  /** The per-channel outcome, `None` for a channel that fails the call. */
  function Outcome(net: Network, base: string, ch: Json, portFilter: string, stateFilter: Option<string>): Option<Row> {
    match ProcessChannel(net, base, ch, portFilter, stateFilter)
    case Success(o) => o
    case Failure(_) => None
  }

  function Outcomes(net: Network, base: string, chs: seq<Json>, portFilter: string, stateFilter: Option<string>): (r: seq<Option<Row>>)
    ensures |r| == |chs|
    ensures forall i :: 0 <= i < |chs| ==> r[i] == Outcome(net, base, chs[i], portFilter, stateFilter)
  {
    seq(|chs|, i requires 0 <= i < |chs| => Outcome(net, base, chs[i], portFilter, stateFilter))
  }

  /** What `map_channels` returns for an endpoint. */
  ghost function MapChannelsResult(net: Network, base: string, portFilter: string, stateFilter: Option<string>,
                                   limit: int, rank: Option<string> -> nat): Result<seq<Row>, string>
    requires Pagination.PagesTerminate(net, base, limit, rank)
  {
    var chs :- Pagination.Fetched(net, base, limit, rank, None);
    ResolveRows(net, base, chs, portFilter, stateFilter)
  }

  function PrependRows(rows: seq<Row>, r: Result<seq<Row>, string>): (p: Result<seq<Row>, string>)
    ensures p.Success? <==> r.Success?
    ensures p.Success? ==> p.value == rows + r.value
    ensures p.Failure? ==> p.error == r.error
  {
    match r
    case Success(more) => Success(rows + more)
    case Failure(e) => Failure(e)
  }

  lemma PrependRowsTwice(xs: seq<Row>, ys: seq<Row>, r: Result<seq<Row>, string>)
    ensures PrependRows(xs, PrependRows(ys, r)) == PrependRows(xs + ys, r)
  {
    if r.Success? {
      assert xs + (ys + r.value) == (xs + ys) + r.value;
    }
  }

  method MapChannels(net: Network, base: string, portFilter: string, stateFilter: Option<string>,
                     limit: int, ghost rank: Option<string> -> nat)
    returns (r: Result<seq<Row>, string>)
    requires Pagination.PagesTerminate(net, base, limit, rank)
    ensures r == MapChannelsResult(net, base, portFilter, stateFilter, limit, rank)
  {
    var all;
    ghost var sent;
    all, sent := Pagination.PaginateChannels(net, base, limit, rank);
    if all.Failure? {
      return Failure(all.error);
    }
    var chs := all.value;
    var out: seq<Row> := [];
    ghost var whole := ResolveRows(net, base, chs, portFilter, stateFilter);
    assert chs[0..] == chs;
    assert whole.Success? ==> [] + whole.value == whole.value;
    for i := 0 to |chs|
      invariant ResolveRows(net, base, chs, portFilter, stateFilter) ==
        PrependRows(out, ResolveRows(net, base, chs[i..], portFilter, stateFilter))
    {
      assert chs[i..][0] == chs[i] && chs[i..][1..] == chs[i + 1..];
      var outcome := ProcessChannel(net, base, chs[i], portFilter, stateFilter);
      if outcome.Failure? {
        return Failure(outcome.error);
      }
      ghost var kept := Kept([outcome.value]);
      assert [outcome.value][1..] == [];
      assert kept == if outcome.value.Some? then [outcome.value.value] else [];
      assert ResolveRows(net, base, chs[i..], portFilter, stateFilter) ==
        PrependRows(kept, ResolveRows(net, base, chs[i + 1..], portFilter, stateFilter));
      PrependRowsTwice(out, kept, ResolveRows(net, base, chs[i + 1..], portFilter, stateFilter));
      if outcome.value.Some? {
        out := out + [outcome.value.value];
      } else {
        assert out + kept == out;
      }
    }
    assert chs[|chs|..] == [];
    assert out + [] == out;
    assert MapChannelsResult(net, base, portFilter, stateFilter, limit, rank) == whole;
    return Success(out);
  }

  /** The call succeeds exactly when every listed entry is an object, and
      then gives one record at most per channel, in input order. */
  lemma ResolveRowsShape(net: Network, base: string, chs: seq<Json>, portFilter: string, stateFilter: Option<string>)
    ensures var r := ResolveRows(net, base, chs, portFilter, stateFilter);
      && (r.Success? <==> forall i :: 0 <= i < |chs| ==> chs[i].JObj?)
      && (r.Success? ==> r.value == Kept(Outcomes(net, base, chs, portFilter, stateFilter)))
  {
    ResolveRowsSucceeds(net, base, chs, portFilter, stateFilter);
    ResolveRowsKept(net, base, chs, portFilter, stateFilter);
  }

  lemma {:induction false} ResolveRowsSucceeds(net: Network, base: string, chs: seq<Json>, portFilter: string, stateFilter: Option<string>)
    ensures ResolveRows(net, base, chs, portFilter, stateFilter).Success? <==> forall i :: 0 <= i < |chs| ==> chs[i].JObj?
  {
    if chs != [] {
      ResolveRowsSucceeds(net, base, chs[1..], portFilter, stateFilter);
      assert forall i :: 1 <= i < |chs| ==> chs[i] == chs[1..][i - 1];
    }
  }

  lemma {:induction false} ResolveRowsKept(net: Network, base: string, chs: seq<Json>, portFilter: string, stateFilter: Option<string>)
    ensures var r := ResolveRows(net, base, chs, portFilter, stateFilter);
      r.Success? ==> r.value == Kept(Outcomes(net, base, chs, portFilter, stateFilter))
  {
    if chs != [] {
      ResolveRowsKept(net, base, chs[1..], portFilter, stateFilter);
      var outs := Outcomes(net, base, chs, portFilter, stateFilter);
      assert outs[1..] == Outcomes(net, base, chs[1..], portFilter, stateFilter);
      assert [outs[0]][1..] == [];
    }
  }
}
