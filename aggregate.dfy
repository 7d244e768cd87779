/** `aggregate_all`: the nested local-symbol -> counterparty-key -> entry
    result, built row by row with the `should_replace` conflict rule. Leaf
    dictionaries keep the source's literal keys, `"source channel"`,
    `"destiation channel"` (sic) and `"state"`, because the rule reads
    `"source channel"` back out of the stored entry. */
module Aggregate {
  import opened Wrappers
  import opened JsonModel
  import opened Strings
  import opened Lookups
  import opened Normalize
  import opened Channels
  import Pagination
  import Identity

  type Dict = map<string, Json>
  type LocalMap = map<string, Dict>
  type AggregateResult = map<string, LocalMap>

  const SourceKey: string := "source channel"
  const DestinationKey: string := "destiation channel"
  const StateKey: string := "state"
  const ErrorKey: string := "__error__"
  const TransferPort: string := "transfer"
  const Unknown: string := "UNKNOWN"
  const Open: string := "OPEN"
  const PageLimit: int := 200

  /** What one row proposes for its counterparty slot. */
  datatype Candidate = Candidate(source: Option<int>, destination: Option<int>, state: string)

  /** The leaf dictionary written for a candidate. */
  function Entry(c: Candidate): (d: Dict)
    ensures d.Keys == {SourceKey, DestinationKey, StateKey}
    ensures d[SourceKey] == FromOptInt(c.source)
    ensures d[DestinationKey] == FromOptInt(c.destination)
    ensures d[StateKey] == JStr(c.state)
  {
    map[SourceKey := FromOptInt(c.source), DestinationKey := FromOptInt(c.destination), StateKey := JStr(c.state)]
  }

  /** A stored entry gives back the source number it was written with. */
  lemma EntryReadBack(c: Candidate)
    ensures Entry(c) != map[]
    ensures ExistingNumber(Entry(c)) == c.source
    ensures Lookup(Entry(c), StateKey) == JStr(c.state)
  {
    assert StateKey in Entry(c);
  }

  /** `int(existing.get("source channel"))`, `None` when it is `None` or
      `int` raises. */
  function ExistingNumber(existing: Dict): (r: Option<int>)
    ensures Lookup(existing, SourceKey).JNum? ==> r == Some(Lookup(existing, SourceKey).n)
    ensures Lookup(existing, SourceKey).JNull? ==> r.None?
  {
    match Lookup(existing, SourceKey)
    case JNull => None
    case JNum(n) => Some(n)
    case JBool(b) => Some(if b then 1 else 0)
    case JStr(s) => (match DecimalValue(s) case Some(v) => Some(v) case None => None)
    case _ => None
  }

  /** `should_replace`: an empty slot is always filled; OPEN beats non-OPEN in
      both directions; with the same OPEN-ness a stored entry without a
      source number gives way, a candidate without one loses, and otherwise
      only a strictly smaller source number wins. */
  function ShouldReplace(existing: Option<Dict>, candidateState: string, candidateSource: Option<int>): (r: bool)
    ensures existing.None? || existing == Some(map[]) ==> r
    ensures existing.Some? && existing.value != map[] ==>
      var existingOpen := Lookup(existing.value, StateKey) == JStr(Open);
      && (!existingOpen && candidateState == Open ==> r)
      && (existingOpen && candidateState != Open ==> !r)
      && (existingOpen == (candidateState == Open) ==>
            match ExistingNumber(existing.value)
            case None => r
            case Some(e) => r == (candidateSource.Some? && candidateSource.value < e))
  {
    if existing.None? || existing.value == map[] then true
    else
      // `existing.get("state") or ""` compared with "OPEN"
      var existingOpen := Or(Lookup(existing.value, StateKey), JStr("")) == JStr(Open);
      if !existingOpen && candidateState == Open then true
      else if existingOpen && candidateState != Open then false
      else
        match ExistingNumber(existing.value)
        case None => true
        case Some(e) => candidateSource.Some? && candidateSource.value < e
  }

  /** The nested key: the mapped symbol, else the raw chain id, else
      `"UNKNOWN"`. */
  function CounterpartyKey(symbols: map<string, string>, chainId: Option<string>): (k: string)
    ensures chainId.Some? && chainId.value in symbols ==> k == symbols[chainId.value]
    ensures chainId.Some? && chainId.value !in symbols && chainId.value != "" ==> k == chainId.value
    ensures chainId.None? || (chainId.value !in symbols && chainId.value == "") ==> k == Unknown
  {
    match chainId
    case Some(c) => if c in symbols then symbols[c] else if c != "" then c else Unknown
    case None => Unknown
  }

  /** `normalize_state(state) or "UNKNOWN"` */
  function StateLabel(state: Option<string>): (s: string)
    ensures s != ""
    ensures NormalizeState(state).Some? && NormalizeState(state).value != "" ==> s == NormalizeState(state).value
    ensures NormalizeState(state).None? || NormalizeState(state).value == "" ==> s == Unknown
  {
    match NormalizeState(state)
    case Some(s) => if s != "" then s else Unknown
    case None => Unknown
  }

  /** A row the loop aggregates: no truthy `error`, and port `"transfer"`. */
  predicate Live(r: Row)
    ensures Live(r) ==> r.portId == JStr(TransferPort)
    ensures r.Stub? && r.error != "" ==> !Live(r)
    ensures r.Resolved? && r.portId == JStr(TransferPort) ==> Live(r)
  {
    !(r.Stub? && r.error != "") && r.portId == JStr(TransferPort)
  }

  /** The row's counterparty key; a stub has no chain id, so `"UNKNOWN"`. */
  function KeyOf(symbols: map<string, string>, r: Row): (k: string)
    ensures r.Stub? ==> k == Unknown
    ensures r.Resolved? ==> k == CounterpartyKey(symbols, r.counterpartyChainId)
  {
    CounterpartyKey(symbols, if r.Resolved? then r.counterpartyChainId else None)
  }

  /** The row's candidate; a stub has no counterparty channel and no state. */
  function CandidateOf(r: Row): (c: Candidate)
    ensures c.source == ParseChannelNumber(r.channelId)
    ensures c.state != ""
    ensures r.Stub? ==> c.destination.None? && c.state == Unknown
    ensures r.Resolved? ==> c.destination == ParseChannelNumber(r.counterpartyChannelId) && c.state == StateLabel(r.state)
  {
    Candidate(ParseChannelNumber(r.channelId),
              ParseChannelNumber(if r.Resolved? then r.counterpartyChannelId else JNull),
              StateLabel(if r.Resolved? then r.state else None))
  }

  function Slot(local: LocalMap, k: string): Option<Dict> {
    if k in local then Some(local[k]) else None
  }

  /** What a row asks for: its slot and its candidate. */
  datatype Proposal = Proposal(key: string, candidate: Candidate)

  function ProposalOf(symbols: map<string, string>, r: Row): Option<Proposal> {
    if Live(r) then Some(Proposal(KeyOf(symbols, r), CandidateOf(r))) else None
  }

  /** The conflict rule applied to one proposal: the slot is written when it
      is empty or `should_replace` says so, and nothing else changes. */
  function Place(local: LocalMap, p: Proposal): (out: LocalMap)
    ensures out.Keys == local.Keys + {p.key}
    ensures forall k :: k != p.key && k in local ==> out[k] == local[k]
    ensures p.key !in local ==> out[p.key] == Entry(p.candidate)
    ensures out[p.key] == Entry(p.candidate) || (p.key in local && out[p.key] == local[p.key])
  {
    var c := p.candidate;
    if ShouldReplace(Slot(local, p.key), c.state, c.source) then local[p.key := Entry(c)] else local
  }

  /** One proposal, or none for a row the loop skips. */
  function Apply(local: LocalMap, o: Option<Proposal>): LocalMap {
    match o
    case None => local
    case Some(p) => Place(local, p)
  }

  /** One iteration of the row loop. Only the row's own key can change. */
  function AddRow(symbols: map<string, string>, local: LocalMap, r: Row): (out: LocalMap)
    ensures !Live(r) ==> out == local
    ensures out.Keys == local.Keys || out.Keys == local.Keys + {KeyOf(symbols, r)}
    ensures forall k :: k != KeyOf(symbols, r) && k in local ==> out[k] == local[k]
    ensures Live(r) && KeyOf(symbols, r) !in local ==> KeyOf(symbols, r) in out && out[KeyOf(symbols, r)] == Entry(CandidateOf(r))
  {
    Apply(local, ProposalOf(symbols, r))
  }

  function FoldRows(symbols: map<string, string>, local: LocalMap, rows: seq<Row>): LocalMap
    decreases |rows|
  {
    if rows == [] then local else FoldRows(symbols, AddRow(symbols, local, rows[0]), rows[1..])
  }

  function Existing(result: AggregateResult, symbol: string): LocalMap {
    if symbol in result then result[symbol] else map[]
  }

  /** One endpoint: a failed call leaves an error stub under `"__error__"`;
      otherwise its rows are folded into that symbol's map. Other symbols are
      untouched either way. */
  function AddEndpoint(symbols: map<string, string>, result: AggregateResult, symbol: string,
                       outcome: Result<seq<Row>, string>): (out: AggregateResult)
    ensures out.Keys == result.Keys + {symbol}
    ensures forall s :: s in result && s != symbol ==> out[s] == result[s]
    ensures outcome.Failure? ==> out[symbol] == Existing(result, symbol)[ErrorKey := map["message" := JStr(outcome.error)]]
    ensures outcome.Success? ==> out[symbol] == FoldRows(symbols, Existing(result, symbol), outcome.value)
  {
    match outcome
    case Failure(e) => result[symbol := Existing(result, symbol)[ErrorKey := map["message" := JStr(e)]]]
    case Success(rows) => result[symbol := FoldRows(symbols, Existing(result, symbol), rows)]
  }

  /** Every call in the run terminates. */
  ghost predicate AllPagesTerminate(net: Network, endpoints: seq<Endpoint>, rank: string -> Option<string> -> nat) {
    forall i :: 0 <= i < |endpoints| ==>
      Pagination.PagesTerminate(net, RStripSlash(endpoints[i].base), PageLimit, rank(RStripSlash(endpoints[i].base)))
  }

  /** The result after the endpoints so far. */
  ghost function AggregateOver(net: Network, symbols: map<string, string>, endpoints: seq<Endpoint>,
                               rank: string -> Option<string> -> nat): AggregateResult
    requires AllPagesTerminate(net, endpoints, rank)
    decreases |endpoints|
  {
    if endpoints == [] then map[]
    else
      var n := |endpoints| - 1;
      var e := endpoints[n];
      var base := RStripSlash(e.base);
      assert AllPagesTerminate(net, endpoints[..n], rank) by {
        assert forall i :: 0 <= i < n ==> endpoints[..n][i] == endpoints[i];
      }
      AddEndpoint(symbols, AggregateOver(net, symbols, endpoints[..n], rank), e.symbol,
                  MapChannelsResult(net, base, TransferPort, None, PageLimit, rank(base)))
  }

  /** The row loop, updating one symbol's map in place. */
  method AddRows(symbols: map<string, string>, start: LocalMap, rows: seq<Row>) returns (local: LocalMap)
    ensures local == FoldRows(symbols, start, rows)
  {
    local := start;
    for j := 0 to |rows|
      invariant FoldRows(symbols, start, rows) == FoldRows(symbols, local, rows[j..])
    {
      var r := rows[j];
      assert rows[j..][0] == r && rows[j..][1..] == rows[j + 1..];
      if r.Stub? && r.error != "" {
        continue;
      }
      if r.portId != JStr(TransferPort) {
        continue;
      }
      var key := CounterpartyKey(symbols, if r.Resolved? then r.counterpartyChainId else None);
      var source := ParseChannelNumber(r.channelId);
      var destination := ParseChannelNumber(if r.Resolved? then r.counterpartyChannelId else JNull);
      var state := StateLabel(if r.Resolved? then r.state else None);
      var existing := if key in local then Some(local[key]) else None;
      if ShouldReplace(existing, state, source) {
        local := local[key := Entry(Candidate(source, destination, state))];
      }
    }
    assert rows[|rows|..] == [];
  }

  lemma AggregateStep(net: Network, symbols: map<string, string>, endpoints: seq<Endpoint>,
                      rank: string -> Option<string> -> nat, i: nat)
    requires AllPagesTerminate(net, endpoints, rank) && i < |endpoints|
    ensures AllPagesTerminate(net, endpoints[..i], rank) && AllPagesTerminate(net, endpoints[..i + 1], rank)
    ensures var base := RStripSlash(endpoints[i].base);
      AggregateOver(net, symbols, endpoints[..i + 1], rank) ==
      AddEndpoint(symbols, AggregateOver(net, symbols, endpoints[..i], rank), endpoints[i].symbol,
                  MapChannelsResult(net, base, TransferPort, None, PageLimit, rank(base)))
  {
    assert endpoints[..i + 1][..i] == endpoints[..i];
    assert forall j :: 0 <= j <= i ==> endpoints[..i + 1][j] == endpoints[j];
  }

  /** The source's endpoint table is a dictionary: no symbol twice. */
  predicate DistinctSymbols(endpoints: seq<Endpoint>) {
    forall i, j :: 0 <= i < j < |endpoints| ==> endpoints[i].symbol != endpoints[j].symbol
  }

  /** What `AddEndpoint` gives a symbol not yet in the result: its rows
      folded into a fresh map, or the error stub alone. */
  function EndpointMap(symbols: map<string, string>, outcome: Result<seq<Row>, string>): (local: LocalMap)
    ensures outcome.Failure? ==> local == map[ErrorKey := map["message" := JStr(outcome.error)]]
    ensures outcome.Success? ==> local == FoldRows(symbols, map[], outcome.value)
  {
    AddEndpoint(symbols, map[], "", outcome)[""]
  }

  lemma {:induction false} AbsentSymbol(net: Network, symbols: map<string, string>, endpoints: seq<Endpoint>,
                                        rank: string -> Option<string> -> nat, s: string)
    requires AllPagesTerminate(net, endpoints, rank)
    requires forall i :: 0 <= i < |endpoints| ==> endpoints[i].symbol != s
    ensures s !in AggregateOver(net, symbols, endpoints, rank)
    decreases |endpoints|
  {
    if endpoints != [] {
      var n := |endpoints| - 1;
      AggregateStep(net, symbols, endpoints, rank, n);
      assert endpoints[..n + 1] == endpoints;
      assert forall i :: 0 <= i < n ==> endpoints[..n][i] == endpoints[i];
      AbsentSymbol(net, symbols, endpoints[..n], rank, s);
    }
  }

  /** With distinct symbols, each endpoint's entry in the result is its own
      call's outcome on a fresh map: no other endpoint touches it. */
  lemma {:induction false} EndpointResult(net: Network, symbols: map<string, string>, endpoints: seq<Endpoint>,
                                          rank: string -> Option<string> -> nat, i: nat)
    requires AllPagesTerminate(net, endpoints, rank)
    requires DistinctSymbols(endpoints) && i < |endpoints|
    ensures var base := RStripSlash(endpoints[i].base);
      var result := AggregateOver(net, symbols, endpoints, rank);
      && endpoints[i].symbol in result
      && result[endpoints[i].symbol] == EndpointMap(symbols, MapChannelsResult(net, base, TransferPort, None, PageLimit, rank(base)))
    decreases |endpoints|
  {
    var n := |endpoints| - 1;
    if i == n {
      LastEndpointResult(net, symbols, endpoints, rank);
    } else {
      var prefix := endpoints[..n];
      AggregateStep(net, symbols, endpoints, rank, n);
      assert endpoints[..n + 1] == endpoints;
      assert prefix[i] == endpoints[i];
      assert DistinctSymbols(prefix) by {
        assert forall j :: 0 <= j < n ==> prefix[j] == endpoints[j];
      }
      EndpointResult(net, symbols, prefix, rank, i);
      assert endpoints[n].symbol != endpoints[i].symbol;
    }
  }

  lemma LastEndpointResult(net: Network, symbols: map<string, string>, endpoints: seq<Endpoint>,
                           rank: string -> Option<string> -> nat)
    requires AllPagesTerminate(net, endpoints, rank)
    requires DistinctSymbols(endpoints) && endpoints != []
    ensures var e := endpoints[|endpoints| - 1];
      var base := RStripSlash(e.base);
      var result := AggregateOver(net, symbols, endpoints, rank);
      && e.symbol in result
      && result[e.symbol] == EndpointMap(symbols, MapChannelsResult(net, base, TransferPort, None, PageLimit, rank(base)))
  {
    var n := |endpoints| - 1;
    var s := endpoints[n].symbol;
    var prefix := endpoints[..n];
    AggregateStep(net, symbols, endpoints, rank, n);
    assert endpoints[..n + 1] == endpoints;
    forall j | 0 <= j < n
      ensures prefix[j].symbol != s
    {
      assert prefix[j] == endpoints[j];
    }
    AbsentSymbol(net, symbols, prefix, rank, s);
    assert Existing(AggregateOver(net, symbols, prefix, rank), s) == map[];
  }

  method AggregateAll(net: Network, endpoints: seq<Endpoint>, ghost rank: string -> Option<string> -> nat)
    returns (result: AggregateResult)
    requires AllPagesTerminate(net, endpoints, rank)
    ensures result == AggregateOver(net, Identity.IdentityMap(net, endpoints), endpoints, rank)
  {
    var symbols := Identity.BuildChainIdSymbolMap(net, endpoints);
    result := map[];
    for i := 0 to |endpoints|
      invariant AllPagesTerminate(net, endpoints[..i], rank)
      invariant result == AggregateOver(net, symbols, endpoints[..i], rank)
    {
      var symbol := endpoints[i].symbol;
      var base := RStripSlash(endpoints[i].base);
      AggregateStep(net, symbols, endpoints, rank, i);
      var rows := MapChannels(net, base, TransferPort, None, PageLimit, rank(base));
      if rows.Failure? {
        result := result[symbol := Existing(result, symbol)[ErrorKey := map["message" := JStr(rows.error)]]];
        continue;
      }
      var local := AddRows(symbols, Existing(result, symbol), rows.value);
      result := result[symbol := local];
    }
    assert endpoints[..|endpoints|] == endpoints;
  }
}
