/** What the conflict rule guarantees about the row fold: an OPEN entry is
    never given up, and when every competing row for a key has its own,
    parseable source channel number, the stored entry is the best candidate
    under "OPEN first, then the smaller source channel", whatever order the
    rows arrive in. Without distinct numbers that is not so: see
    `NullSourcesLastWriteWins`. */
module Conflict {
  import opened Wrappers
  import opened JsonModel
  import opened Channels
  import opened Aggregate
  import Lookups
  import Strings

  /** OPEN-ness as a rank: OPEN is 0, everything else 1. */
  function OpenRank(c: Candidate): nat {
    if c.state == Open then 0 else 1
  }

  /** The reference order: lexicographic on (OPEN-ness, source number). */
  predicate Better(d: Candidate, c: Candidate) {
    && d.source.Some? && c.source.Some?
    && (OpenRank(d) < OpenRank(c) || (OpenRank(d) == OpenRank(c) && d.source.value < c.source.value))
  }

  lemma BetterIsStrictTotal(a: Candidate, b: Candidate, c: Candidate)
    requires a.source.Some? && b.source.Some? && c.source.Some?
    ensures !(Better(a, b) && Better(b, a))
    ensures Better(a, b) && Better(b, c) ==> Better(a, c)
    ensures a.source != b.source ==> Better(a, b) || Better(b, a)
  {
  }

  /** When the stored candidate and the new one both have a source number,
      `should_replace` is exactly the reference order. */
  lemma ReplaceIsBetter(stored: Candidate, c: Candidate)
    requires stored.source.Some? && c.source.Some?
    ensures ShouldReplace(Some(Entry(stored)), c.state, c.source) == Better(c, stored)
  {
    EntryReadBack(stored);
  }

  /** The rows' proposals, in order. */
  function Proposals(symbols: map<string, string>, rows: seq<Row>): seq<Option<Proposal>> {
    seq(|rows|, i requires 0 <= i < |rows| => ProposalOf(symbols, rows[i]))
  }

  function FoldProposals(local: LocalMap, ps: seq<Option<Proposal>>): LocalMap
    decreases |ps|
  {
    if ps == [] then local else FoldProposals(Apply(local, ps[0]), ps[1..])
  }

  /** The row fold is the fold of the rows' proposals. */
  lemma {:induction false} FoldRowsIsFoldProposals(symbols: map<string, string>, local: LocalMap, rows: seq<Row>)
    ensures FoldRows(symbols, local, rows) == FoldProposals(local, Proposals(symbols, rows))
    decreases |rows|
  {
    if rows != [] {
      assert Proposals(symbols, rows)[1..] == Proposals(symbols, rows[1..]);
      FoldRowsIsFoldProposals(symbols, AddRow(symbols, local, rows[0]), rows[1..]);
    }
  }

  /** The candidates proposed for slot `k`. */
  ghost function Competing(ps: seq<Option<Proposal>>, k: string): set<Candidate> {
    set o | o in ps && o.Some? && o.value.key == k :: o.value.candidate
  }

  /** The candidates the live rows propose for slot `k`. */
  ghost function Competitors(symbols: map<string, string>, rows: seq<Row>, k: string): set<Candidate> {
    Competing(Proposals(symbols, rows), k)
  }

  /** Every candidate has a source number, and different candidates have
      different ones. */
  ghost predicate Distinguished(cs: set<Candidate>) {
    forall c, d :: c in cs && d in cs ==> c.source.Some? && (c == d || c.source != d.source)
  }

  ghost predicate IsBest(m: Candidate, cs: set<Candidate>) {
    m in cs && forall d :: d in cs && d != m ==> Better(m, d)
  }

  function AsSet(o: Option<Candidate>): set<Candidate> {
    if o.Some? then {o.value} else {}
  }

  lemma CompetingSplit(ps: seq<Option<Proposal>>, k: string)
    requires ps != []
    ensures Competing(ps, k) ==
      Competing(ps[1..], k) + (if ps[0].Some? && ps[0].value.key == k then {ps[0].value.candidate} else {})
  {
    assert forall o :: o in ps <==> o == ps[0] || o in ps[1..];
  }

  /** One competing proposal: the slot ends up holding the better of the
      proposed candidate and the incumbent. */
  lemma StepWinner(local: LocalMap, p: Proposal, incumbent: Option<Candidate>) returns (winner: Candidate)
    requires incumbent.None? <==> p.key !in local
    requires incumbent.Some? ==> local[p.key] == Entry(incumbent.value)
    requires Distinguished({p.candidate} + AsSet(incumbent))
    ensures Place(local, p)[p.key] == Entry(winner)
    ensures winner in {p.candidate} + AsSet(incumbent)
    ensures forall d :: d in {p.candidate} + AsSet(incumbent) && d != winner ==> Better(winner, d)
  {
    var c := p.candidate;
    if incumbent.None? {
      winner := c;
    } else {
      var c0 := incumbent.value;
      ReplaceIsBetter(c0, c);
      BetterIsStrictTotal(c, c0, c);
      winner := if Better(c, c0) then c else c0;
    }
  }

  /** If `m` is best among the rest and the step winner, and the winner beat
      the other candidate of the step, then `m` is best among them all. */
  lemma BestAfterStep(m: Candidate, rest: set<Candidate>, pair: set<Candidate>, winner: Candidate)
    requires Distinguished(rest + pair)
    requires winner in pair
    requires forall d :: d in pair && d != winner ==> Better(winner, d)
    requires IsBest(m, rest + {winner})
    ensures IsBest(m, rest + pair)
  {
    forall d | d in rest + pair && d != m
      ensures Better(m, d)
    {
      if d !in rest + {winner} {
        BetterIsStrictTotal(m, winner, d);
      }
    }
  }

  /** A proposal for another slot leaves slot `k` as it was. */
  lemma ApplyElsewhere(local: LocalMap, o: Option<Proposal>, k: string)
    requires !(o.Some? && o.value.key == k)
    ensures var next := Apply(local, o);
      (k in next <==> k in local) && (k in local ==> next[k] == local[k])
  {
  }

  /** What the fold leaves in slot `k` given its candidates `cs`: nothing
      when there are none, else the best of them. */
  ghost predicate HoldsBest(out: LocalMap, k: string, cs: set<Candidate>) {
    && (cs == {} ==> k !in out)
    && (cs != {} ==> k in out && exists m :: IsBest(m, cs) && out[k] == Entry(m))
  }

  /** The slot after the fold holds the best of the incumbent and the
      competing proposals. */
  lemma {:induction false} SlotHoldsBest(local: LocalMap, ps: seq<Option<Proposal>>,
                                         k: string, incumbent: Option<Candidate>)
    requires incumbent.None? <==> k !in local
    requires incumbent.Some? ==> local[k] == Entry(incumbent.value)
    requires Distinguished(Competing(ps, k) + AsSet(incumbent))
    ensures HoldsBest(FoldProposals(local, ps), k, Competing(ps, k) + AsSet(incumbent))
    decreases |ps|, 1
  {
    var cs := Competing(ps, k) + AsSet(incumbent);
    if ps == [] {
      if incumbent.Some? {
        assert IsBest(incumbent.value, cs);
      }
    } else if ps[0].Some? && ps[0].value.key == k {
      CompetingStep(local, ps, k, incumbent);
    } else {
      CompetingSplit(ps, k);
      assert cs == Competing(ps[1..], k) + AsSet(incumbent);
      ApplyElsewhere(local, ps[0], k);
      SlotHoldsBest(Apply(local, ps[0]), ps[1..], k, incumbent);
    }
  }

  /** `SlotHoldsBest` when the first proposal competes for slot `k`. */
  lemma {:induction false} CompetingStep(local: LocalMap, ps: seq<Option<Proposal>>,
                                         k: string, incumbent: Option<Candidate>)
    requires ps != [] && ps[0].Some? && ps[0].value.key == k
    requires incumbent.None? <==> k !in local
    requires incumbent.Some? ==> local[k] == Entry(incumbent.value)
    requires Distinguished(Competing(ps, k) + AsSet(incumbent))
    ensures HoldsBest(FoldProposals(local, ps), k, Competing(ps, k) + AsSet(incumbent))
    decreases |ps|, 0
  {
    var p := ps[0].value;
    CompetingSplit(ps, k);
    var rest := Competing(ps[1..], k);
    var pair := {p.candidate} + AsSet(incumbent);
    assert Competing(ps, k) + AsSet(incumbent) == rest + pair;
    var winner := StepWinner(local, p, incumbent);
    var next := Place(local, p);
    assert Apply(local, ps[0]) == next;
    assert k in next && next[k] == Entry(winner);
    assert rest + {winner} <= rest + pair;
    SlotHoldsBest(next, ps[1..], k, Some(winner));
    var out := FoldProposals(next, ps[1..]);
    assert FoldProposals(local, ps) == out;
    var m :| IsBest(m, rest + {winner}) && out[k] == Entry(m);
    BestAfterStep(m, rest, pair, winner);
    assert IsBest(m, rest + pair) && k in out && out[k] == Entry(m);
  }

  /** Starting from a symbol's fresh map, a slot is filled exactly when some
      row competes for it, and then with the best competitor. */
  lemma FinalEntryIsBest(symbols: map<string, string>, rows: seq<Row>, k: string)
    requires Distinguished(Competitors(symbols, rows, k))
    ensures var out := FoldRows(symbols, map[], rows);
      var cs := Competitors(symbols, rows, k);
      && (k in out <==> cs != {})
      && (k in out ==> exists m :: IsBest(m, cs) && out[k] == Entry(m))
  {
    var ps := Proposals(symbols, rows);
    FoldRowsIsFoldProposals(symbols, map[], rows);
    assert Competing(ps, k) + AsSet(None) == Competing(ps, k);
    SlotHoldsBest(map[], ps, k, None);
    assert HoldsBest(FoldProposals(map[], ps), k, Competing(ps, k));
  }

  /** The guarantee carried to the whole result: with distinct symbols, a
      successful endpoint's slot is filled exactly when one of its rows
      competes for it, and then with the best competitor. `AggregateAll`
      returns `AggregateOver` for the identity map it builds. */
  lemma AggregateEntryIsBest(net: Lookups.Network, symbols: map<string, string>, endpoints: seq<Lookups.Endpoint>,
                             rank: string -> Option<string> -> nat, i: nat, k: string)
    requires AllPagesTerminate(net, endpoints, rank)
    requires DistinctSymbols(endpoints) && i < |endpoints|
    requires var base := Strings.RStripSlash(endpoints[i].base);
      var outcome := MapChannelsResult(net, base, TransferPort, None, PageLimit, rank(base));
      outcome.Success? && Distinguished(Competitors(symbols, outcome.value, k))
    ensures var base := Strings.RStripSlash(endpoints[i].base);
      var rows := MapChannelsResult(net, base, TransferPort, None, PageLimit, rank(base)).value;
      var result := AggregateOver(net, symbols, endpoints, rank);
      var cs := Competitors(symbols, rows, k);
      && endpoints[i].symbol in result
      && (k in result[endpoints[i].symbol] <==> cs != {})
      && (k in result[endpoints[i].symbol] ==> exists m :: IsBest(m, cs) && result[endpoints[i].symbol][k] == Entry(m))
  {
    var base := Strings.RStripSlash(endpoints[i].base);
    var rows := MapChannelsResult(net, base, TransferPort, None, PageLimit, rank(base)).value;
    EndpointResult(net, symbols, endpoints, rank, i);
    FinalEntryIsBest(symbols, rows, k);
  }

  lemma BestIsUnique(m1: Candidate, m2: Candidate, cs: set<Candidate>)
    requires Distinguished(cs) && IsBest(m1, cs) && IsBest(m2, cs)
    ensures m1 == m2
  {
    if m1 != m2 {
      BetterIsStrictTotal(m1, m2, m1);
    }
  }

  /** Two proposal lists with the same elements fold to the same map when
      every slot's candidates are distinguished. */
  lemma SameProposalsSameFold(ps: seq<Option<Proposal>>, qs: seq<Option<Proposal>>)
    requires forall o :: o in ps <==> o in qs
    requires forall k :: Distinguished(Competing(ps, k))
    ensures FoldProposals(map[], ps) == FoldProposals(map[], qs)
  {
    var a := FoldProposals(map[], ps);
    var b := FoldProposals(map[], qs);
    forall k
      ensures (k in a <==> k in b) && (k in a ==> a[k] == b[k])
    {
      var cs := Competing(ps, k);
      assert Competing(qs, k) == cs;
      assert cs + AsSet(None) == cs;
      SlotHoldsBest(map[], ps, k, None);
      SlotHoldsBest(map[], qs, k, None);
      if k in a {
        var m1 :| IsBest(m1, cs) && a[k] == Entry(m1);
        var m2 :| IsBest(m2, cs) && b[k] == Entry(m2);
        BestIsUnique(m1, m2, cs);
      }
    }
    assert a.Keys == b.Keys;
  }

  /** Arrival order does not matter when every competing row has its own
      source number: any reordering of the rows gives the same map. */
  lemma OrderIndependent(symbols: map<string, string>, rows: seq<Row>, reordered: seq<Row>)
    requires multiset(rows) == multiset(reordered)
    requires forall k :: Distinguished(Competitors(symbols, rows, k))
    ensures FoldRows(symbols, map[], rows) == FoldRows(symbols, map[], reordered)
  {
    var ps := Proposals(symbols, rows);
    var qs := Proposals(symbols, reordered);
    SameRowsSameProposals(symbols, rows, reordered);
    SameRowsSameProposals(symbols, reordered, rows);
    forall k ensures Distinguished(Competing(ps, k)) {
      assert Competitors(symbols, rows, k) == Competing(ps, k);
    }
    FoldRowsIsFoldProposals(symbols, map[], rows);
    FoldRowsIsFoldProposals(symbols, map[], reordered);
    SameProposalsSameFold(ps, qs);
  }

  lemma SameRowsSameProposals(symbols: map<string, string>, rows: seq<Row>, reordered: seq<Row>)
    requires multiset(rows) == multiset(reordered)
    ensures forall o :: o in Proposals(symbols, rows) ==> o in Proposals(symbols, reordered)
  {
    var ps := Proposals(symbols, rows);
    var qs := Proposals(symbols, reordered);
    forall o | o in ps ensures o in qs {
      var i :| 0 <= i < |rows| && ps[i] == o;
      assert rows[i] in multiset(reordered);
      var j :| 0 <= j < |reordered| && reordered[j] == rows[i];
      assert qs[j] == o;
    }
  }

  /** Once a slot holds an OPEN entry it keeps one. */
  lemma {:induction false} OpenStaysOpen(symbols: map<string, string>, local: LocalMap, rows: seq<Row>, k: string)
    requires k in local && Lookup(local[k], StateKey) == JStr(Open)
    ensures var out := FoldRows(symbols, local, rows);
      k in out && Lookup(out[k], StateKey) == JStr(Open)
    decreases |rows|
  {
    if rows != [] {
      var next := AddRow(symbols, local, rows[0]);
      assert k in next && Lookup(next[k], StateKey) == JStr(Open);
      OpenStaysOpen(symbols, next, rows[1..], k);
    }
  }

  /** A transfer row to chain `foo-7` whose own channel id does not parse. */
  function UnparsedRow(counterpartyChannel: int): Row {
    Resolved(JStr("channel-x"), JStr("transfer"), JNum(counterpartyChannel), JStr("transfer"),
             JStr("connection-0"), JStr("07-tendermint-0"), Some("foo-7"), Some("INIT"))
  }

  lemma UnparsedRowProposal(n: int)
    requires n != 0
    ensures ProposalOf(map[], UnparsedRow(n)) == Some(Proposal("foo-7", Candidate(None, Some(n), "INIT")))
  {
    assert Normalize.ChannelPrefix <= "channel-x" && "channel-x"[8..] == "x";
    assert !Strings.IsDigit('x');
    assert !(Normalize.StatePrefix <= "INIT");
  }

  /** Two non-OPEN candidates without a source number for the same slot: the
      second always replaces the first. */
  lemma LaterUnnumberedWins(k: string, c1: Candidate, c2: Candidate)
    requires c1.source.None? && c2.source.None? && c1.state != Open && c2.state != Open
    ensures Place(Place(map[], Proposal(k, c1)), Proposal(k, c2)) == map[k := Entry(c2)]
  {
    var one := map[k := Entry(c1)];
    assert Place(map[], Proposal(k, c1)) == one;
    EntryReadBack(c1);
  }

  lemma FoldTwo(local: LocalMap, p: Proposal, q: Proposal)
    ensures FoldProposals(local, [Some(p), Some(q)]) == Place(Place(local, p), q)
  {
    var ps := [Some(p), Some(q)];
    assert ps[1..] == [Some(q)];
    assert [Some(q)][1..] == [];
    var one := Place(local, p);
    assert FoldProposals(local, ps) == FoldProposals(one, [Some(q)]);
    assert FoldProposals(one, [Some(q)]) == FoldProposals(Place(one, q), []);
  }

  /** Two non-OPEN rows to the same chain whose channel ids do not parse:
      whichever comes last is kept, so arrival order changes the result. */
  lemma NullSourcesLastWriteWins()
    ensures FoldRows(map[], map[], [UnparsedRow(1), UnparsedRow(2)]) !=
            FoldRows(map[], map[], [UnparsedRow(2), UnparsedRow(1)])
  {
    var a, b := UnparsedRow(1), UnparsedRow(2);
    var ca, cb := Candidate(None, Some(1), "INIT"), Candidate(None, Some(2), "INIT");
    UnparsedRowProposal(1);
    UnparsedRowProposal(2);
    var pa, pb := Proposal("foo-7", ca), Proposal("foo-7", cb);
    LaterUnnumberedWins("foo-7", ca, cb);
    LaterUnnumberedWins("foo-7", cb, ca);
    assert Proposals(map[], [a, b]) == [Some(pa), Some(pb)];
    assert Proposals(map[], [b, a]) == [Some(pb), Some(pa)];
    FoldRowsIsFoldProposals(map[], map[], [a, b]);
    FoldRowsIsFoldProposals(map[], map[], [b, a]);
    FoldTwo(map[], pa, pb);
    FoldTwo(map[], pb, pa);
    assert Entry(ca)[DestinationKey] != Entry(cb)[DestinationKey];
  }
}
