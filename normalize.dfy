/** The normalisers: channel identifiers to numbers, channel states to their
    unprefixed names, and a client state to the chain id it tracks. */
module Normalize {
  import opened Wrappers
  import opened JsonModel
  import opened Strings

  const ChannelPrefix: string := "channel-"
  const StatePrefix: string := "STATE_"

  /** `parse_channel_number`: `"channel-N"` and `"N"` give N, an integer is
      returned as it is, and everything else (a falsy value, a non-numeric
      suffix, a list or an object) gives `None`; it never raises. A JSON
      `true` is Python's `True`, an `int` equal to 1. */
  function ParseChannelNumber(id: Json): (r: Option<int>)
    ensures !Truthy(id) ==> r.None?
    ensures id.JNum? && id.n != 0 ==> r == Some(id.n)
    ensures id.JStr? && ChannelPrefix <= id.s ==>
      (r.Some? <==> id.s[8..] != [] && AllDigits(id.s[8..]))
    ensures id.JStr? && !(ChannelPrefix <= id.s) ==>
      (r.Some? <==> id.s != [] && AllDigits(id.s))
    ensures id.JArr? || id.JObj? || id.JNull? ==> r.None?
    ensures id.JStr? && r.Some? ==> r.value >= 0
  {
    if !Truthy(id) then None
    else
      match id
      case JNum(n) => Some(n)
      case JBool(_) => Some(1)
      case JStr(s) =>
        // `s.split("-", 1)[1]` is everything after the prefix's hyphen
        if ChannelPrefix <= s then DecimalValue(s[|ChannelPrefix|..]) else DecimalValue(s)
      case _ => None
  }

  lemma ParseChannelNumberRoundTrip(n: nat)
    ensures ParseChannelNumber(JStr(ChannelPrefix + DecimalString(n))) == Some(n)
    ensures n != 0 ==> ParseChannelNumber(JNum(n)) == Some(n)
  {
    var s := ChannelPrefix + DecimalString(n);
    assert ChannelPrefix <= s;
    assert s[|ChannelPrefix|..] == DecimalString(n);
    DecimalRoundTrip(n);
  }

  /** Zero-padded numbers such as `"channel-07"` parse to their value. */
  lemma ParsePaddedChannelNumber(k: nat, n: nat)
    ensures ParseChannelNumber(JStr(ChannelPrefix + Repeat('0', k) + DecimalString(n))) == Some(n)
  {
    PaddedDecimalValue(k, n);
    PrefixedValue(Repeat('0', k) + DecimalString(n));
    assert ChannelPrefix + Repeat('0', k) + DecimalString(n) == ChannelPrefix + (Repeat('0', k) + DecimalString(n));
  }

  /** Text after the prefix is read as plain decimal text. */
  lemma PrefixedValue(digits: string)
    ensures ParseChannelNumber(JStr(ChannelPrefix + digits)) == DecimalValue(digits)
  {
    var s := ChannelPrefix + digits;
    assert ChannelPrefix <= s;
    assert s[|ChannelPrefix|..] == digits;
  }

  /** A bare number parses as itself unless it happens to start with the
      prefix, which digits never do. */
  lemma ParseBareNumber(n: nat)
    ensures ParseChannelNumber(JStr(DecimalString(n))) == Some(n)
  {
    var s := DecimalString(n);
    assert !IsDigit(ChannelPrefix[0]);
    DecimalRoundTrip(n);
  }

  /** `normalize_state`: `None` and `""` give `None`; a leading `STATE_` is
      removed, exactly once; any other string is returned unchanged. */
  function NormalizeState(state: Option<string>): (r: Option<string>)
    ensures r.None? <==> state.None? || state.value == ""
    ensures r.Some? && StatePrefix <= state.value ==> StatePrefix + r.value == state.value
    ensures r.Some? && !(StatePrefix <= state.value) ==> r == state
  {
    match state
    case None => None
    case Some(s) =>
      if s == "" then None
      // `s.split("_", 1)[1]` is everything after the prefix's underscore
      else if StatePrefix <= s then Some(s[|StatePrefix|..])
      else Some(s)
  }

  /** Removing the prefix only once makes the normaliser not idempotent. */
  lemma NormalizeStateNotIdempotent()
    ensures NormalizeState(Some("STATE_STATE_OPEN")) == Some("STATE_OPEN")
    ensures NormalizeState(NormalizeState(Some("STATE_STATE_OPEN"))) == Some("OPEN")
  {
    assert StatePrefix <= "STATE_STATE_OPEN";
    assert StatePrefix <= "STATE_OPEN";
  }

  /** `extract_chain_id_from_client_state`: the client state is
      `(obj.get("client_state") or {})`; its own `chain_id` wins when truthy,
      else the `chain_id` of a packed `value` object, else `None`. A response
      or client state that is not an object makes `.get` raise. */
  function ExtractChainId(response: Json): (r: Result<Json, string>)
    ensures r.Success? <==>
      response.JObj? && Or(Get(response, "client_state").value, EmptyObject).JObj?
    ensures response.JObj? && !Truthy(Lookup(response.fields, "client_state")) ==> r == Success(JNull)
    ensures (response.JObj? && "client_state" in response.fields &&
      response.fields["client_state"].JObj?) ==>
        var cs := response.fields["client_state"].fields;
        if "chain_id" in cs && Truthy(cs["chain_id"]) then r == Success(cs["chain_id"])
        else if "value" in cs && cs["value"].JObj? then
          r == Success(if "chain_id" in cs["value"].fields then cs["value"].fields["chain_id"] else JNull)
        else r == Success(JNull)
  {
    var cs :- GetObject(response, "client_state");
    if !cs.JObj? then Failure(Get(cs, "chain_id").error)
    else
      var direct := Lookup(cs.fields, "chain_id");
      if Truthy(direct) then Success(direct)
      else
        var value := Lookup(cs.fields, "value");
        if value.JObj? then Success(Lookup(value.fields, "chain_id"))
        else Success(JNull)
  }

  /** The two payload shapes carry the same chain id. */
  lemma ExtractChainIdBothShapes(id: string)
    requires id != ""
    ensures ExtractChainId(JObj(map["client_state" := JObj(map["chain_id" := JStr(id)])])) == Success(JStr(id))
    ensures ExtractChainId(JObj(map["client_state" := JObj(map["value" := JObj(map["chain_id" := JStr(id)])])])) == Success(JStr(id))
  {
  }
}
