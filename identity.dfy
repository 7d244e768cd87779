/** `get_local_chain_id` and `build_chain_id_symbol_map`: which chain each
    configured endpoint serves, as a chain-id to symbol table. */
module Identity {
  import opened Wrappers
  import opened JsonModel
  import opened Strings
  import opened Lookups
  import Urls

  const NetworkPath: seq<string> := ["default_node_info", "network"]
  const BlockChainIdPath: seq<string> := ["block", "header", "chain_id"]

  /** The source's `(d.get(k1) or {}).get(k2)...` chain: each step's falsy
      value reads as `{}`, and `None` is a raised AttributeError. */
  function Dig(j: Json, path: seq<string>): (r: Option<Json>)
    requires path != []
    ensures !j.JObj? ==> r.None?
    ensures j.JObj? && |path| == 1 ==> r == Some(Lookup(j.fields, path[0]))
    ensures j == EmptyObject ==> r == Some(JNull)
    ensures j.JObj? && |path| > 1 && !Truthy(Lookup(j.fields, path[0])) ==> r == Some(JNull)
    decreases |path|
  {
    if !j.JObj? then None
    else if |path| == 1 then Some(Lookup(j.fields, path[0]))
    else Dig(Or(Lookup(j.fields, path[0]), EmptyObject), path[1..])
  }

  /** A truthy leaf is reached by the chain exactly when the keys are there. */
  lemma {:induction false} DigAt(j: Json, path: seq<string>, leaf: Json)
    requires path != [] && Truthy(leaf)
    ensures Dig(j, path) == Some(leaf) <==> At(j, path) == Some(leaf)
    decreases |path|
  {
    if j.JObj? && |path| > 1 {
      var next := Lookup(j.fields, path[0]);
      DigAt(Or(next, EmptyObject), path[1..], leaf);
      if !Truthy(next) {
        if path[0] in j.fields {
          FalsyHasNoPath(next, path[1..]);
        }
      }
    }
  }

  lemma FalsyHasNoPath(j: Json, path: seq<string>)
    requires !Truthy(j) && path != []
    ensures At(j, path).None?
  {
  }

  /** A non-empty string at `path` of a successful response. */
  function IdAt(resp: Result<Json, string>, path: seq<string>): (r: Option<string>)
    requires path != []
    ensures r.Some? <==> (resp.Success? &&
      exists s: string {:trigger JStr(s)} :: s != "" && At(resp.value, path) == Some(JStr(s)))
    ensures r.Some? ==> r.value != "" && At(resp.value, path) == Some(JStr(r.value))
  {
    match resp
    case Failure(_) => None
    case Success(data) =>
      match Dig(data, path)
      case Some(JStr(s)) =>
        if s != "" then
          DigAt(data, path, JStr(s));
          Some(s)
        else
          NoOtherLeaf(data, path);
          None
      case other =>
        NoOtherLeaf(data, path);
        None
  }

  lemma NoOtherLeaf(data: Json, path: seq<string>)
    requires path != []
    ensures forall t: string :: t != "" && At(data, path) == Some(JStr(t)) ==> Dig(data, path) == Some(JStr(t))
  {
    forall t: string | t != "" && At(data, path) == Some(JStr(t))
      ensures Dig(data, path) == Some(JStr(t))
    {
      DigAt(data, path, JStr(t));
    }
  }

  /** Primary source, node_info's `default_node_info.network`; fallback, the
      latest block's `block.header.chain_id`; otherwise `None`. */
  function GetLocalChainId(net: Network, base: string): (r: Option<string>)
    ensures r.Some? ==> r.value != ""
    ensures IdAt(net.nodeInfo(base), NetworkPath).Some? ==> r == IdAt(net.nodeInfo(base), NetworkPath)
    ensures IdAt(net.nodeInfo(base), NetworkPath).None? ==> r == IdAt(net.latestBlock(base), BlockChainIdPath)
  {
    var primary := IdAt(net.nodeInfo(base), NetworkPath);
    if primary.Some? then primary else IdAt(net.latestBlock(base), BlockChainIdPath)
  }

  /** The identity of one configured endpoint (its base URL loses trailing
      slashes first). */
  function LocalId(net: Network, e: Endpoint): (r: Option<string>)
    ensures r.Some? ==> r.value != ""
  {
    GetLocalChainId(net, RStripSlash(e.base))
  }

  /** Trailing slashes on a configured base URL do not change the identity
      the endpoint reports. */
  lemma LocalIdIgnoresTrailingSlashes(net: Network, e: Endpoint, k: nat)
    ensures LocalId(net, Endpoint(e.symbol, e.base + Repeat('/', k))) == LocalId(net, e)
  {
    Urls.RStripTrailingSlashes(e.base, k);
  }

  /** The table after the endpoints so far: each resolved id maps to the
      symbol of the endpoint that resolved it, a later one overwriting. */
  function IdentityMap(net: Network, endpoints: seq<Endpoint>): map<string, string> {
    Assign(LocalIds(net, endpoints), Symbols(endpoints))
  }

  function LocalIds(net: Network, endpoints: seq<Endpoint>): seq<Option<string>> {
    seq(|endpoints|, i requires 0 <= i < |endpoints| => LocalId(net, endpoints[i]))
  }

  function Symbols(endpoints: seq<Endpoint>): seq<string> {
    seq(|endpoints|, i requires 0 <= i < |endpoints| => endpoints[i].symbol)
  }

  /** Each present id mapped to the symbol beside it, a later one
      overwriting an earlier one. */
  function Assign(ids: seq<Option<string>>, symbols: seq<string>): map<string, string>
    requires |ids| == |symbols|
    decreases |ids|
  {
    if ids == [] then map[]
    else
      var n := |ids| - 1;
      var before := Assign(ids[..n], symbols[..n]);
      match ids[n]
      case Some(id) => before[id := symbols[n]]
      case None => before
  }

  method BuildChainIdSymbolMap(net: Network, endpoints: seq<Endpoint>) returns (mapping: map<string, string>)
    ensures mapping == IdentityMap(net, endpoints)
  {
    ghost var ids := LocalIds(net, endpoints);
    ghost var symbols := Symbols(endpoints);
    mapping := map[];
    for i := 0 to |endpoints|
      invariant mapping == Assign(ids[..i], symbols[..i])
    {
      AssignStep(ids, symbols, i);
      var base := RStripSlash(endpoints[i].base);
      var chainId := GetLocalChainId(net, base);
      assert ids[i] == chainId && symbols[i] == endpoints[i].symbol;
      if chainId.Some? {
        mapping := mapping[chainId.value := endpoints[i].symbol];
      }
    }
    assert ids[..|endpoints|] == ids && symbols[..|endpoints|] == symbols;
  }

  lemma AssignStep(ids: seq<Option<string>>, symbols: seq<string>, i: nat)
    requires |ids| == |symbols| && i < |ids|
    ensures Assign(ids[..i + 1], symbols[..i + 1]) ==
      match ids[i]
      case Some(id) => Assign(ids[..i], symbols[..i])[id := symbols[i]]
      case None => Assign(ids[..i], symbols[..i])
  {
    assert ids[..i + 1][..i] == ids[..i] && symbols[..i + 1][..i] == symbols[..i];
    assert ids[..i + 1][i] == ids[i] && symbols[..i + 1][i] == symbols[i];
  }

  /** Every key of `Assign` is one of the ids. */
  lemma {:induction false} AssignKeys(ids: seq<Option<string>>, symbols: seq<string>, k: string)
    requires |ids| == |symbols|
    requires k in Assign(ids, symbols)
    ensures exists i :: 0 <= i < |ids| && ids[i] == Some(k)
    decreases |ids|
  {
    var n := |ids| - 1;
    if ids[n] != Some(k) {
      AssignKeys(ids[..n], symbols[..n], k);
      var i :| 0 <= i < n && ids[..n][i] == Some(k);
      assert ids[i] == Some(k);
    }
  }

  /** A present id maps to the symbol of its last occurrence. */
  lemma {:induction false} AssignLastWins(ids: seq<Option<string>>, symbols: seq<string>, i: nat)
    requires |ids| == |symbols|
    requires i < |ids| && ids[i].Some?
    requires forall j :: i < j < |ids| ==> ids[j] != ids[i]
    ensures ids[i].value in Assign(ids, symbols)
    ensures Assign(ids, symbols)[ids[i].value] == symbols[i]
    decreases |ids|
  {
    var n := |ids| - 1;
    if i < n {
      var init := ids[..n];
      assert init[i] == ids[i] && symbols[..n][i] == symbols[i];
      assert forall j :: i < j < |init| ==> init[j] == ids[j];
      AssignLastWins(init, symbols[..n], i);
    }
  }

  /** Only non-empty ids become keys, and every key is some endpoint's id. */
  lemma IdentityMapKeys(net: Network, endpoints: seq<Endpoint>, k: string)
    requires k in IdentityMap(net, endpoints)
    ensures k != ""
    ensures exists i :: 0 <= i < |endpoints| && LocalId(net, endpoints[i]) == Some(k)
  {
    var ids := LocalIds(net, endpoints);
    AssignKeys(ids, Symbols(endpoints), k);
    var i :| 0 <= i < |ids| && ids[i] == Some(k);
    assert LocalId(net, endpoints[i]) == Some(k);
  }

  /** Every resolved id is a key, mapped to the symbol of the last endpoint
      that resolved to it. */
  lemma IdentityMapLastWins(net: Network, endpoints: seq<Endpoint>, i: nat)
    requires i < |endpoints| && LocalId(net, endpoints[i]).Some?
    requires forall j :: i < j < |endpoints| ==> LocalId(net, endpoints[j]) != LocalId(net, endpoints[i])
    ensures LocalId(net, endpoints[i]).value in IdentityMap(net, endpoints)
    ensures IdentityMap(net, endpoints)[LocalId(net, endpoints[i]).value] == endpoints[i].symbol
  {
    var ids := LocalIds(net, endpoints);
    assert forall j :: i < j < |ids| ==> ids[j] != ids[i];
    AssignLastWins(ids, Symbols(endpoints), i);
  }
}
