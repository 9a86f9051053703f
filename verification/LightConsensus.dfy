/**
 The light client against the consensus network itself: what the trust theorem
 assumes about signers and commits is what every run of the network provides.
 */
module LightConsensus {
  import opened Basics
  import opened Validators
  import opened VoteSets
  import opened ConsensusRules
  import opened ConsensusInvariant
  import C = ConsensusAgreement
  import V = LightVerifier
  import L = LightClient

  /** Headers and their hashes. */
  datatype Headers = Headers(of: Hash -> V.Header, hash: V.Header -> Hash)

  /** Hashing loses nothing, and a valid block's header says its height, its validators and the next ones, and a later time. */
  ghost predicate HeadersFit(net: C.Network, hs: Headers) {
    && (forall h: V.Header :: hs.of(hs.hash(h)) == h)
    && (forall c: seq<Hash>, x: Hash :: net.validAfter(c, x) ==> HeaderFits(net, hs, c, x))
  }

  ghost predicate HeaderFits(net: C.Network, hs: Headers, c: seq<Hash>, x: Hash) {
    var h := hs.of(x);
    && h.height == net.initialHeight + |c| && h.valsHash == net.valsAfter(c) && h.nextValsHash == net.valsAfter(c + [x])
    && (c != [] ==> hs.of(c[|c| - 1]).time < h.time)
  }

  ghost predicate Precommitted(g: C.Global, hs: Headers, a: Address, r: int, parts: nat, h: V.Header) {
    Vote(PrecommitType, h.height, r, a, BlockID(Some(hs.hash(h)), parts)) in C.VotesOf(g.log)
  }

  /** The chain node n has decided, as the light client's canonical chain. */
  ghost function CanonOf(net: C.Network, g: C.Global, n: Address, hs: Headers): L.Canon
    requires n in g.nodes
  {
    var chain, first := g.nodes[n].chain, net.initialHeight;
    L.Canon(first, first + |chain| - 1,
            h => hs.of(if 0 <= h - first < |chain| then chain[h - first] else 0),
            net.faulty,
            (a: Address, r: int, p: nat, h: V.Header) => Precommitted(g, hs, a, r, p, h))
  }

  ghost predicate Setting(net: C.Network, g: C.Global, n: Address, hs: Headers) {
    C.GlobalOk(net, g) && C.FaultBound(net, g) && n in g.nodes && HeadersFit(net, hs)
  }

  lemma HashFits(net: C.Network, g: C.Global, n: Address, hs: Headers, c: seq<Hash>, h: V.Header)
    requires n in g.nodes && Setting(net, g, n, hs)
    ensures C.GlobalOk(net, g) && n in g.nodes
    ensures hs.of(hs.hash(h)) == h
    ensures net.validAfter(c, hs.hash(h)) ==> h.valsHash == net.valsAfter(c)
  {
    hide C.GlobalOk; hide C.FaultBound;
    assert net.validAfter(c, hs.hash(h)) ==> HeaderFits(net, hs, c, hs.hash(h));
  }

  lemma DecidedFits(net: C.Network, g: C.Global, n: Address, hs: Headers, i: nat)
    requires n in g.nodes && Setting(net, g, n, hs) && i < |g.nodes[n].chain|
    ensures HeaderFits(net, hs, g.nodes[n].chain[..i], g.nodes[n].chain[i])
    ensures Distinct(net.valsAfter(g.nodes[n].chain[..i]))
    ensures C.AllAgreeOn(g, g.nodes[n].chain[..i])
    ensures C.FewFaulty(net, g.nodes[n].chain[..i]) && C.FewFaulty(net, g.nodes[n].chain[..i + 1])
  {
    var s := g.nodes[n];
    C.NodeUsesNet(net, g, n);
    assert NodeOk(net.params[n], s);
    C.AgreeOnPrefix(net, g, n, i);
    C.BoundAt(net, g, n, i);
    C.BoundAt(net, g, n, i + 1);
    assert net.validAfter(s.chain[..i], s.chain[i]);
    hide NodeOk; hide C.FaultBound; hide C.AllAgreeOn; hide C.FewFaulty; hide HeaderFits;
  }

  /** What the network says about one decided height. */
  lemma DecidedHeight(net: C.Network, g: C.Global, n: Address, hs: Headers, i: nat)
    requires n in g.nodes && Setting(net, g, n, hs) && i < |g.nodes[n].chain|
    ensures var chain, h := g.nodes[n].chain, hs.of(g.nodes[n].chain[i]);
            && h.height == net.initialHeight + i && h.valsHash == net.valsAfter(chain[..i])
            && h.nextValsHash == net.valsAfter(chain[..i + 1])
            && (i + 1 < |chain| ==> h.nextValsHash == hs.of(chain[i + 1]).valsHash && h.time < hs.of(chain[i + 1]).time)
  {
    hide Setting; hide C.AllAgreeOn; hide C.FewFaulty; hide Distinct; hide C.GlobalOk; hide C.FaultBound; hide HeadersFit;
    var chain := g.nodes[n].chain;
    assert chain[..i + 1] == chain[..i] + [chain[i]];
    DecidedFits(net, g, n, hs, i);
    if i + 1 < |chain| { DecidedFits(net, g, n, hs, i + 1); }
  }

  lemma CanonAt(net: C.Network, g: C.Global, n: Address, hs: Headers, h: int)
    requires n in g.nodes && L.Covers(CanonOf(net, g, n, hs), h)
    ensures 0 <= h - net.initialHeight < |g.nodes[n].chain|
    ensures CanonOf(net, g, n, hs).header(h) == hs.of(g.nodes[n].chain[h - net.initialHeight])
  {
    hide Precommitted;
  }

  lemma CanonChainedAt(net: C.Network, g: C.Global, n: Address, hs: Headers, k: L.Canon, h: int)
    requires n in g.nodes && Setting(net, g, n, hs) && k == CanonOf(net, g, n, hs) && L.Covers(k, h)
    ensures k.header(h).height == h && Distinct(k.header(h).valsHash)
    ensures L.FewFaulty(k, k.header(h).valsHash) && L.FewFaulty(k, k.header(h).nextValsHash)
    ensures h < k.last ==> k.header(h).nextValsHash == k.header(h + 1).valsHash && k.header(h).time < k.header(h + 1).time
  {
    hide C.GlobalOk; hide C.FaultBound; hide HeadersFit; hide Precommitted;
    assert n in g.nodes && k.faulty == net.faulty && k.last == net.initialHeight + |g.nodes[n].chain| - 1;
    hide Setting; hide C.AllAgreeOn; hide CanonOf; hide HeaderFits; hide Distinct; hide PowerOf; hide TotalPower;
    CanonAt(net, g, n, hs, h);
    DecidedHeight(net, g, n, hs, h - net.initialHeight);
    DecidedFits(net, g, n, hs, h - net.initialHeight);
    if h < k.last { CanonAt(net, g, n, hs, h + 1); }
  }

  lemma CanonChained(net: C.Network, g: C.Global, n: Address, hs: Headers, c: V.Config)
    requires n in g.nodes && Setting(net, g, n, hs)
    ensures L.Chained(CanonOf(net, g, n, hs)) && L.FaultsBounded(CanonOf(net, g, n, hs), c)
  {
    hide C.GlobalOk; hide C.FaultBound; hide HeadersFit;
    assert n in g.nodes;
    hide Setting; hide CanonOf; hide L.FewFaulty; hide Distinct;
    var k := CanonOf(net, g, n, hs);
    forall h | L.Covers(k, h)
      ensures k.header(h).height == h && Distinct(k.header(h).valsHash)
      ensures L.FewFaulty(k, k.header(h).valsHash) && L.FewFaulty(k, k.header(h).nextValsHash)
      ensures h < k.last ==> k.header(h).nextValsHash == k.header(h + 1).valsHash && k.header(h).time < k.header(h + 1).time
    {
      CanonChainedAt(net, g, n, hs, k, h);
    }
  }

  /** A correct validator's precommit rests on a polka. */
  lemma PrecommitHasPolka(net: C.Network, g: C.Global, c: seq<Hash>, k: nat)
    requires C.GlobalOk(net, g) && C.AllAgreeOn(g, c) && k < |g.log| && g.log[k].vote.address !in net.faulty
    requires g.log[k].vote.kind.PrecommitType? && g.log[k].vote.block.hash.Some?
    requires g.log[k].vote.height == net.initialHeight + |c|
    ensures var v := g.log[k].vote;
            Quorum(net.valsAfter(c), C.VotesOf(g.log), PrevoteType, v.height, v.round, v.block)
  {
    hide C.GlobalOk; hide C.AllAgreeOn; hide SentReleased; hide LockMemory; hide SentPlaced; hide Quorum;
    var x := g.log[k];
    var a := x.vote.address;
    C.VoteOnChain(net, g, c, k);
    C.NodeUsesNet(net, g, a);
    assert Backed(net.params[a], g.nodes[a].chain, x);
    EarlierVotes(g.log, k);
    QuorumGrows(net.valsAfter(c), x.basis, C.VotesOf(g.log), PrevoteType, x.vote.height, x.vote.round, x.vote.block);
  }

  /** A correct validator's precommit is for a valid block, which carries the canonical validators. */
  lemma CorrectPrecommitFits(net: C.Network, g: C.Global, n: Address, hs: Headers, a: Address, r: int, p: nat, h: V.Header)
    requires n in g.nodes && Setting(net, g, n, hs) && a !in net.faulty && Precommitted(g, hs, a, r, p, h)
    requires 0 <= h.height - net.initialHeight < |g.nodes[n].chain|
    ensures h.valsHash == net.valsAfter(g.nodes[n].chain[..h.height - net.initialHeight])
  {
    hide Setting; hide C.GlobalOk; hide C.FaultBound; hide C.AllAgreeOn; hide C.FewFaulty; hide HeadersFit; hide HeaderFits;
    hide Quorum; hide Distinct;
    var i := h.height - net.initialHeight;
    var c := g.nodes[n].chain[..i];
    var b := BlockID(Some(hs.hash(h)), p);
    DecidedFits(net, g, n, hs, i);
    HashFits(net, g, n, hs, c, h);
    var x :| x in g.log && x.vote == Vote(PrecommitType, h.height, r, a, b);
    var k: nat :| k < |g.log| && g.log[k] == x;
    PrecommitHasPolka(net, g, c, k);
    C.PolkaIsForValidBlock(net, g, c, r, b);
  }

  lemma EarlierVotes(log: seq<Signed>, k: nat)
    requires k <= |log|
    ensures C.VotesOf(log[..k]) <= C.VotesOf(log)
  {
  }

  lemma SignersAreQuorum(net: C.Network, g: C.Global, hs: Headers, vals: ValidatorSet, r: int, p: nat, h: V.Header,
                         who: set<Address>)
    requires IsQuorum(vals, PowerOf(vals, who)) && forall a :: a in who ==> Precommitted(g, hs, a, r, p, h)
    ensures Quorum(vals, C.VotesOf(g.log), PrecommitType, h.height, r, BlockID(Some(hs.hash(h)), p))
  {
    hide PowerOf;
    var b := BlockID(Some(hs.hash(h)), p);
    forall a | a in who ensures a in Supporters(C.VotesOf(g.log), PrecommitType, h.height, r, b) {
      assert Precommitted(g, hs, a, r, p, h);
    }
    PowerMonotone(vals, who, Supporters(C.VotesOf(g.log), PrecommitType, h.height, r, b));
  }

  /** Two commits of one height are for one header. */
  lemma CommitIsDecided(net: C.Network, g: C.Global, n: Address, hs: Headers, r: int, p: nat, h: V.Header, who: set<Address>)
    requires n in g.nodes && Setting(net, g, n, hs) && 0 <= h.height - net.initialHeight < |g.nodes[n].chain|
    requires var vals := net.valsAfter(g.nodes[n].chain[..h.height - net.initialHeight]);
             IsQuorum(vals, PowerOf(vals, who)) && forall a :: a in who ==> Precommitted(g, hs, a, r, p, h)
    ensures h == hs.of(g.nodes[n].chain[h.height - net.initialHeight])
  {
    hide *;
    var i := h.height - net.initialHeight;
    var c := g.nodes[n].chain[..i];
    var b := BlockID(Some(hs.hash(h)), p);
    DecidedFits(net, g, n, hs, i);
    HashFits(net, g, n, hs, c, h);
    SignersAreQuorum(net, g, hs, net.valsAfter(c), r, p, h, who);
    var r0, b0 := C.DecisionOnNetwork(net, g, n, i);
    if r <= r0 {
      C.CommitsAgree(net, g, c, r, b, r0, b0);
    } else {
      C.CommitsAgree(net, g, c, r0, b0, r, b);
    }
  }

  lemma CanonPrecommits(net: C.Network, g: C.Global, n: Address, hs: Headers, a: Address, r: int, p: nat, h: V.Header)
    requires n in g.nodes
    ensures CanonOf(net, g, n, hs).precommitted(a, r, p, h) <==> Precommitted(g, hs, a, r, p, h)
  {
    hide Precommitted;
  }

  lemma CanonSigner(net: C.Network, g: C.Global, n: Address, hs: Headers, k: L.Canon, a: Address, r: int, p: nat, h: V.Header)
    requires n in g.nodes && Setting(net, g, n, hs) && k == CanonOf(net, g, n, hs)
    requires a !in k.faulty && k.precommitted(a, r, p, h) && L.Covers(k, h.height)
    ensures h.valsHash == k.header(h.height).valsHash
  {
    hide C.GlobalOk; hide C.FaultBound; hide HeadersFit; hide Precommitted;
    assert n in g.nodes && k.faulty == net.faulty;
    hide Setting; hide CanonOf;
    CanonAt(net, g, n, hs, h.height);
    CanonPrecommits(net, g, n, hs, a, r, p, h);
    CorrectPrecommitFits(net, g, n, hs, a, r, p, h);
    DecidedHeight(net, g, n, hs, h.height - net.initialHeight);
  }

  lemma CanonCommit(net: C.Network, g: C.Global, n: Address, hs: Headers, k: L.Canon, r: int, p: nat, h: V.Header,
                    who: set<Address>)
    requires n in g.nodes && Setting(net, g, n, hs) && k == CanonOf(net, g, n, hs)
    requires L.Covers(k, h.height) && L.CommittedBy(k, k.header(h.height).valsHash, r, p, h, who)
    ensures h == k.header(h.height)
  {
    hide C.GlobalOk; hide C.FaultBound; hide HeadersFit; hide Precommitted;
    assert n in g.nodes;
    hide Setting; hide CanonOf; hide PowerOf; hide TotalPower;
    CanonAt(net, g, n, hs, h.height);
    DecidedHeight(net, g, n, hs, h.height - net.initialHeight);
    forall a | a in who ensures Precommitted(g, hs, a, r, p, h) {
      assert k.precommitted(a, r, p, h);
      CanonPrecommits(net, g, n, hs, a, r, p, h);
    }
    CommitIsDecided(net, g, n, hs, r, p, h, who);
  }

  lemma CanonTrusted(net: C.Network, g: C.Global, n: Address, hs: Headers, c: V.Config)
    requires n in g.nodes && Setting(net, g, n, hs)
    ensures L.CorrectSigners(CanonOf(net, g, n, hs)) && L.OneCommit(CanonOf(net, g, n, hs), c)
  {
    hide C.GlobalOk; hide C.FaultBound; hide HeadersFit;
    assert n in g.nodes;
    var k := CanonOf(net, g, n, hs);
    hide Setting; hide CanonOf; hide L.CommittedBy; hide L.Covers;
    forall a: Address, r: int, p: nat, h: V.Header | a !in k.faulty && k.precommitted(a, r, p, h) && L.Covers(k, h.height)
      ensures h.valsHash == k.header(h.height).valsHash
    {
      CanonSigner(net, g, n, hs, k, a, r, p, h);
    }
    forall r: int, p: nat, h: V.Header, who: set<Address> |
      L.Covers(k, h.height) && L.CommittedBy(k, k.header(h.height).valsHash, r, p, h, who)
      ensures h == k.header(h.height)
    {
      CanonCommit(net, g, n, hs, k, r, p, h, who);
    }
  }

  /**
   In every run with faulty power below a third, a light client that starts from
   a block node n decided, and follows genuine signatures up to a height n has
   decided, accepts only blocks n decided.
   */
  lemma LightClientFollowsConsensus(net: C.Network, gs: seq<C.Global>, j: nat, n: Address, hs: Headers, c: V.Config,
                                    trace: seq<V.LightBlock>, i: nat)
    requires C.NetOk(net) && C.IsRun(net, gs) && j < |gs| && C.FaultBound(net, gs[j]) && n in gs[j].nodes
    requires HeadersFit(net, hs) && V.ValidTrustLevel(c.trustLevel)
    requires i < |trace| && L.Linked(c, trace)
    requires var k := CanonOf(net, gs[j], n, hs);
             && L.IsCanonical(k, trace[0]) && trace[|trace| - 1].header.height <= k.last
             && forall x :: 0 <= x < |trace| ==> L.Genuine(k, trace[x])
    ensures var h := trace[i].header.height - net.initialHeight;
            0 <= h < |gs[j].nodes[n].chain| && trace[i].header == hs.of(gs[j].nodes[n].chain[h])
  {
    hide C.GlobalOk; hide C.FaultBound; hide HeadersFit; hide L.Genuine; hide C.IsRun; hide C.NetOk;
    var g := gs[j];
    C.RunOk(net, gs, j);
    assert Setting(net, g, n, hs);
    CanonChained(net, g, n, hs, c);
    CanonTrusted(net, g, n, hs, c);
    L.TraceIsCanonical(CanonOf(net, g, n, hs), c, trace, i);
    hide L.Linked; hide L.Chained; hide L.FaultsBounded; hide L.CorrectSigners; hide L.OneCommit;
  }
}
