/**
 N nodes and any number of faulty signers.  The network is the list of votes
 signed so far; a node may be handed any vote on it, any proposal, any block
 part and any timeout it scheduled, in any order and any number of times.  Nodes
 may restart.  Validator sets change with the chain.
 */
module ConsensusAgreement {
  import opened Basics
  import opened Validators
  import opened VoteSets
  import opened ConsensusRules
  import opened ConsensusInvariant
  import opened ConsensusSteps
  import R = ConsensusRuns

  datatype Network = Network(
    initialHeight: int,
    valsAfter: seq<Hash> -> ValidatorSet,
    validAfter: (seq<Hash>, Hash) -> bool,
    params: map<Address, Params>,
    faulty: set<Address>)

  datatype Global = Global(nodes: map<Address, RoundState>, log: seq<Signed>)

  /** All nodes run the same chain; no node shares an address with a faulty signer. */
  ghost predicate NetOk(net: Network) {
    && (forall c: seq<Hash> :: Distinct(net.valsAfter(c)))
    && forall n :: n in net.params ==>
         && n !in net.faulty && net.params[n].me == n && net.params[n].initialHeight == net.initialHeight
         && net.params[n].valsAfter == net.valsAfter && net.params[n].validAfter == net.validAfter
  }

  ghost function VotesOf(log: seq<Signed>): set<Vote> { set x | x in log :: x.vote }

  ghost predicate Init(net: Network, g: Global) {
    && g.nodes.Keys == net.params.Keys && g.log == []
    && forall n :: n in g.nodes ==> g.nodes[n] == Start(net.params[n])
  }

  /** Signatures cannot be forged: a vote with a good signature was signed by its validator. */
  ghost predicate Receivable(g: Global, s: RoundState, i: Input) {
    Deliverable(s, i) && (i.VoteMsg? && i.voteSignatureOk ==> i.vote in VotesOf(g.log))
  }

  /** A node handles one input; the votes it signs join the log. */
  ghost predicate NodeStep(net: Network, g: Global, g': Global, n: Address, e: Env, i: Input) {
    && n in g.nodes && n in net.params && Receivable(g, g.nodes[n], i)
    && var s' := Handle(net.params[n], e, g.nodes[n], i);
       && g'.nodes == g.nodes[n := s']
       && g.nodes[n].sent <= s'.sent && g'.log == g.log + s'.sent[|g.nodes[n].sent|..]
  }

  /** A faulty validator signs anything. */
  ghost predicate FaultyStep(net: Network, g: Global, g': Global, v: Vote) {
    v.address in net.faulty && g'.nodes == g.nodes && g'.log == g.log + [Signed(v, {})]
  }

  /**
   A restarted node replays its log of inputs.  Its own votes and decisions are
   synced before they leave the node, so it comes back in a state it can reach
   with all of them; votes of others counted since the last sync may be lost,
   and with them what the node made of them.
   */
  ghost predicate RestartStep(net: Network, g: Global, g': Global, n: Address, s: RoundState) {
    && n in g.nodes && n in net.params && R.Reachable(net.params[n], s)
    && s.sent == g.nodes[n].sent && s.chain == g.nodes[n].chain && s.seen <= VotesOf(g.log)
    && g'.nodes == g.nodes[n := s] && g'.log == g.log
  }

  ghost predicate Next(net: Network, g: Global, g': Global) {
    || (exists n: Address, e: Env, i: Input :: NodeStep(net, g, g', n, e, i))
    || (exists v: Vote :: FaultyStep(net, g, g', v))
    || (exists n: Address, s: RoundState :: RestartStep(net, g, g', n, s))
  }

  ghost predicate IsRun(net: Network, gs: seq<Global>) {
    && |gs| > 0 && Init(net, gs[0])
    && forall k :: 0 <= k < |gs| - 1 ==> Next(net, gs[k], gs[k + 1])
  }

  // --- the invariant of every reachable state ------------------------------

  /** A vote of a correct validator was signed by its node, on votes signed before it. */
  ghost predicate Genuine(net: Network, g: Global, k: int)
    requires 0 <= k < |g.log|
  {
    var x := g.log[k];
    x.vote.address in net.faulty
    || (x.vote.address in g.nodes && x in g.nodes[x.vote.address].sent && x.basis <= VotesOf(g.log[..k]))
  }

  ghost predicate GlobalOk(net: Network, g: Global) {
    && NetOk(net) && g.nodes.Keys == net.params.Keys
    && (forall n :: n in g.nodes ==> NodeOk(net.params[n], g.nodes[n]))
    && (forall n :: n in g.nodes ==> g.nodes[n].seen <= VotesOf(g.log))
    && (forall k :: 0 <= k < |g.log| ==> Genuine(net, g, k))
  }

  lemma EntersKeepSeen(p: Params, e: Env, s: RoundState, h: int, r: int)
    ensures EnterPrevote(p, e, s, h, r).seen == s.seen
    ensures EnterPropose(p, e, s, h, r).seen == s.seen
    ensures EnterNewRound(p, e, s, h, r).seen == s.seen
    ensures EnterPrecommit(p, e, s, h, r).seen == s.seen
    ensures EnterPrevoteWait(s, h, r).seen == s.seen
    ensures EnterPrecommitWait(s, h, r).seen == s.seen
    ensures TryFinalizeCommit(p, e, s).seen == s.seen
    ensures EnterCommit(p, e, s, h, r).seen == s.seen
  {
    hide EnterPrevote; hide EnterPropose; hide EnterNewRound; hide EnterPrecommit; hide EnterPrevoteWait;
    hide EnterPrecommitWait; hide TryFinalizeCommit; hide EnterCommit;
    StepsKeepSeen(p, e, s, h, r);
    CommitKeepsSeen(p, e, s, h, r);
  }

  lemma ProposeKeepsSeen(p: Params, e: Env, s: RoundState, h: int, r: int)
    ensures EnterPrevote(p, e, s, h, r).seen == s.seen
    ensures EnterPropose(p, e, s, h, r).seen == s.seen
    ensures EnterPrevoteWait(s, h, r).seen == s.seen
    ensures EnterPrecommitWait(s, h, r).seen == s.seen
  {
    hide HasAddress; hide PrevoteChoice; hide IsProposalComplete; hide HasTwoThirdsAny;
  }

  lemma PrecommitKeepsSeen(p: Params, e: Env, s: RoundState, h: int, r: int)
    ensures EnterPrecommit(p, e, s, h, r).seen == s.seen
  {
    hide PolRound; hide HasAddress; hide TwoThirdsMajority; hide HashesTo; hide HasHeader;
  }

  lemma StepsKeepSeen(p: Params, e: Env, s: RoundState, h: int, r: int)
    ensures EnterPrevote(p, e, s, h, r).seen == s.seen
    ensures EnterPropose(p, e, s, h, r).seen == s.seen
    ensures EnterNewRound(p, e, s, h, r).seen == s.seen
    ensures EnterPrecommit(p, e, s, h, r).seen == s.seen
    ensures EnterPrevoteWait(s, h, r).seen == s.seen
    ensures EnterPrecommitWait(s, h, r).seen == s.seen
  {
    hide TrackRounds; hide EnterPrevote; hide EnterPropose; hide EnterPrevoteWait; hide EnterPrecommitWait;
    hide EnterPrecommit;
    ProposeKeepsSeen(p, e, s, h, r);
    PrecommitKeepsSeen(p, e, s, h, r);
    var s1 := At(s, r, NewRound);
    var s2 := if r == 0 then s1 else s1.(proposal := None, proposalBlock := None, proposalParts := None);
    ProposeKeepsSeen(p, e, s2.(votes := TrackRounds(s.votes, r + 1), triggeredPrecommitWait := false), h, r);
  }

  lemma CommitKeepsSeen(p: Params, e: Env, s: RoundState, h: int, r: int)
    ensures TryFinalizeCommit(p, e, s).seen == s.seen
    ensures EnterCommit(p, e, s, h, r).seen == s.seen
  {
    hide NewHeightVotes; hide TwoThirdsMajority; hide HashesTo; hide HasHeader; hide Precommits;
  }

  lemma OnPrecommitKeepsSeen(p: Params, e: Env, s: RoundState, r: int)
    ensures OnPrecommit(p, e, s, r).seen == s.seen
  {
    hide EnterNewRound; hide EnterPrecommit; hide EnterCommit; hide EnterPrecommitWait;
    EntersKeepSeen(p, e, s, s.height, r);
    var s1 := EnterNewRound(p, e, s, s.height, r);
    EntersKeepSeen(p, e, s1, s.height, r);
    var s2 := EnterPrecommit(p, e, s1, s.height, r);
    EntersKeepSeen(p, e, s2, s.height, r);
    var s3 := EnterCommit(p, e, s2, s.height, r);
    EntersKeepSeen(p, e, s3, s3.height, 0);
  }

  /** Handling an input counts at most the vote it carries. */
  lemma HandleSees(p: Params, e: Env, s: RoundState, i: Input)
    ensures Handle(p, e, s, i).seen <= s.seen + (if i.VoteMsg? && i.voteSignatureOk then {i.vote} else {})
  {
    hide EnterNewRound; hide EnterPropose; hide EnterPrevote; hide EnterPrecommit; hide EnterCommit;
    hide EnterPrecommitWait; hide EnterPrevoteWait; hide TryFinalizeCommit; hide OnPrecommit;
    if s.panic.None? {
      match i
      case ProposalMsg(_, _) =>
      case BlockPartMsg(height, outcome) => CompleteProposalSees(p, e, s, height, outcome);
      case VoteMsg(v, peer, ok) => AddVoteSees(p, e, s, v, peer, ok);
      case TimeoutMsg(t) =>
        EntersKeepSeen(p, e, s, t.height, 0);
        EntersKeepSeen(p, e, s, t.height, t.round);
        EntersKeepSeen(p, e, EnterPrecommit(p, e, s, t.height, t.round), t.height, t.round + 1);
      case TxsAvailable => EntersKeepSeen(p, e, s, s.height, 0);
      case PeerMajority(_, _, _, _) =>
    }
  }

  lemma CompleteProposalSees(p: Params, e: Env, s: RoundState, height: int, outcome: PartOutcome)
    ensures AddBlockPart(p, e, s, height, outcome).seen == s.seen
  {
    hide EnterPrevote; hide EnterPrecommit; hide TryFinalizeCommit; hide IsProposalComplete; hide TwoThirdsMajority;
    if outcome.Added? {
      var s0 := if outcome.decoded.Some? then s.(proposalBlock := outcome.decoded) else s;
      var s1 := UpdateValidFromProposal(s0);
      EntersKeepSeen(p, e, s1, height, s1.round);
      var s2 := EnterPrevote(p, e, s1, height, s1.round);
      EntersKeepSeen(p, e, s2, height, s2.round);
    }
  }

  lemma AddVoteSees(p: Params, e: Env, s: RoundState, v: Vote, peer: Peer, ok: bool)
    ensures AddVoteMsg(p, e, s, v, peer, ok).seen <= s.seen + (if ok then {v} else {})
  {
    hide AddLastCommitVote; hide OnPrecommit; hide OnPrevote; hide AddToHeight; hide OnPolka;
    LastCommitSees(p, e, s, v, ok);
    var (votes', added) := AddToHeight(s.votes, v, peer, ok);
    AddedIsSigned(s.votes, v, peer, ok);
    var s2 := s.(votes := votes', seen := s.seen + {v});
    PrevoteSees(p, e, s2, v.round);
    OnPrecommitKeepsSeen(p, e, s2, v.round);
  }

  lemma AddedIsSigned(hv: HeightVotes, v: Vote, peer: Peer, ok: bool)
    ensures AddToHeight(hv, v, peer, ok).1 ==> ok
  {
    hide AddVerifiedVote; hide HasAddress; hide Known;
  }

  lemma OnPolkaKeepsSeen(s: RoundState, round: int)
    ensures OnPolka(s, round).seen == s.seen
  {
    hide HashesTo; hide HasHeader; hide TwoThirdsMajority; hide Prevotes;
  }

  lemma PrevoteSees(p: Params, e: Env, s: RoundState, round: int)
    ensures OnPrevote(p, e, OnPolka(s, round), round).seen == s.seen
  {
    hide EnterNewRound; hide EnterPrevote; hide EnterPrecommit; hide EnterPrevoteWait; hide IsProposalComplete;
    hide HasTwoThirdsAny; hide TwoThirdsMajority; hide Prevotes; hide OnPolka;
    var s1 := OnPolka(s, round);
    OnPolkaKeepsSeen(s, round);
    EntersKeepSeen(p, e, s1, s1.height, round);
    EntersKeepSeen(p, e, s1, s1.height, s1.round);
  }

  lemma LastCommitSees(p: Params, e: Env, s: RoundState, v: Vote, ok: bool)
    ensures AddLastCommitVote(p, e, s, v, ok).seen <= s.seen + (if ok then {v} else {})
  {
    hide EnterNewRound; hide AddVerifiedVote; hide HasAddress; hide Known;
    if s.lastCommit.Some? {
      var r := AddVote(s.lastCommit.value, v, ok);
      var s1 := s.(lastCommit := Some(r.voteSet), seen := s.seen + {v});
      EntersKeepSeen(p, e, s1, s1.height, 0);
    }
  }

  lemma VotesOfGrows(log: seq<Signed>, more: seq<Signed>)
    ensures VotesOf(log) <= VotesOf(log + more)
  {
    forall v | v in VotesOf(log) ensures v in VotesOf(log + more) {
      var x :| x in log && x.vote == v;
      assert x in log + more;
    }
  }

  lemma VotesOfPrefix(log: seq<Signed>, k: int)
    requires 0 <= k <= |log|
    ensures VotesOf(log[..k]) <= VotesOf(log)
  {
    assert log == log[..k] + log[k..];
    VotesOfGrows(log[..k], log[k..]);
  }

  lemma InitOk(net: Network, g: Global)
    requires NetOk(net) && Init(net, g)
    ensures GlobalOk(net, g)
  {
    forall n | n in g.nodes ensures NodeOk(net.params[n], g.nodes[n]) { StartOk(net.params[n]); }
  }

  lemma FaultyStepOk(net: Network, g: Global, g': Global, v: Vote)
    requires GlobalOk(net, g) && FaultyStep(net, g, g', v)
    ensures GlobalOk(net, g')
  {
    hide NodeOk;
    VotesOfGrows(g.log, [Signed(v, {})]);
    forall k | 0 <= k < |g'.log| ensures Genuine(net, g', k) {
      if k < |g.log| {
        assert Genuine(net, g, k);
        assert g'.log[..k] == g.log[..k];
      }
    }
  }

  /** The acting node keeps its invariant, and everything it has seen and signed is on the network. */
  lemma ActingNodeOk(net: Network, g: Global, g': Global, n: Address, e: Env, i: Input)
    requires GlobalOk(net, g) && NodeStep(net, g, g', n, e, i)
    ensures NodeOk(net.params[n], g'.nodes[n]) && Evolves(g.nodes[n], g'.nodes[n])
    ensures g'.nodes[n].seen <= VotesOf(g.log) <= VotesOf(g'.log)
    ensures forall x :: x in g'.nodes[n].sent ==> x.basis <= g'.nodes[n].seen && x.vote.address == n
  {
    hide Handle;
    var p, s := net.params[n], g.nodes[n];
    HandleOk(p, e, s, i);
    HandleSees(p, e, s, i);
    VotesOfGrows(g.log, Handle(p, e, s, i).sent[|s.sent|..]);
    SentFacts(p, Handle(p, e, s, i));
    hide NodeOk; hide Evolves;
  }

  lemma SentFacts(p: Params, s: RoundState)
    requires NodeOk(p, s)
    ensures forall x :: x in s.sent ==> x.basis <= s.seen && x.vote.address == p.me
  {
    assert SentPlaced(p, s);
  }

  lemma NodeStepOk(net: Network, g: Global, g': Global, n: Address, e: Env, i: Input)
    requires GlobalOk(net, g) && NodeStep(net, g, g', n, e, i)
    ensures GlobalOk(net, g') && Evolves(g.nodes[n], g'.nodes[n])
  {
    hide Handle; hide NodeOk; hide LockKept; hide MajoritiesStay;
    ActingNodeOk(net, g, g', n, e, i);
    forall k | 0 <= k < |g'.log| ensures Genuine(net, g', k) {
      StepGenuine(net, g, g', n, e, i, k);
    }
  }

  lemma StepGenuine(net: Network, g: Global, g': Global, n: Address, e: Env, i: Input, k: int)
    requires NodeStep(net, g, g', n, e, i) && 0 <= k < |g'.log|
    requires forall j :: 0 <= j < |g.log| ==> Genuine(net, g, j)
    requires Evolves(g.nodes[n], g'.nodes[n]) && g'.nodes[n].seen <= VotesOf(g.log)
    requires forall x :: x in g'.nodes[n].sent ==> x.basis <= g'.nodes[n].seen && x.vote.address == n
    ensures Genuine(net, g', k)
  {
    hide Handle; hide LockKept; hide MajoritiesStay; hide Forward;
    if k < |g.log| {
      assert Genuine(net, g, k);
      assert g'.log[..k] == g.log[..k];
    } else {
      var signed := g'.nodes[n].sent[|g.nodes[n].sent|..];
      var x := g'.log[k];
      assert x == signed[k - |g.log|];
      assert x in g'.nodes[n].sent && x.vote.address == n;
      assert x.basis <= VotesOf(g.log);
      assert g'.log[..k] == g.log + signed[..k - |g.log|];
      VotesOfGrows(g.log, signed[..k - |g.log|]);
    }
  }

  lemma NextOk(net: Network, g: Global, g': Global)
    requires GlobalOk(net, g) && Next(net, g, g')
    ensures GlobalOk(net, g') && (forall n :: n in g.nodes ==> n in g'.nodes && g.nodes[n].chain <= g'.nodes[n].chain)
  {
    hide GlobalOk; hide FaultyStep; hide RestartStep; hide LockKept; hide MajoritiesStay;
    if n: Address, e: Env, i: Input :| NodeStep(net, g, g', n, e, i) {
      NodeStepOk(net, g, g', n, e, i);
    } else if v: Vote :| FaultyStep(net, g, g', v) {
      FaultyStepOk(net, g, g', v);
      FaultyStepChains(net, g, g', v);
    } else {
      var n: Address, s: RoundState :| RestartStep(net, g, g', n, s);
      RestartStepOk(net, g, g', n, s);
    }
  }

  lemma RestartStepOk(net: Network, g: Global, g': Global, n: Address, s: RoundState)
    requires GlobalOk(net, g) && RestartStep(net, g, g', n, s)
    ensures GlobalOk(net, g') && forall m :: m in g.nodes ==> m in g'.nodes && g.nodes[m].chain <= g'.nodes[m].chain
  {
    hide NodeOk; hide R.Reachable; hide NetOk; hide VotesOf;
    R.ReachableOk(net.params[n], s);
    forall k | 0 <= k < |g'.log| ensures Genuine(net, g', k) { assert Genuine(net, g, k); }
    hide Genuine;
    assert forall m :: m in g.nodes && m != n ==> g'.nodes[m] == g.nodes[m];
  }

  lemma FaultyStepChains(net: Network, g: Global, g': Global, v: Vote)
    requires FaultyStep(net, g, g', v)
    ensures forall n :: n in g.nodes ==> n in g'.nodes && g.nodes[n].chain <= g'.nodes[n].chain
  {
  }

  /** Every state of every run satisfies the invariant. */
  lemma {:induction false} RunOk(net: Network, gs: seq<Global>, k: nat)
    requires NetOk(net) && IsRun(net, gs) && k < |gs|
    ensures GlobalOk(net, gs[k])
  {
    hide GlobalOk; hide Next; hide Init;
    if k == 0 {
      InitOk(net, gs[0]);
    } else {
      RunOk(net, gs, k - 1);
      assert Next(net, gs[k - 1], gs[k - 1 + 1]);
      NextOk(net, gs[k - 1], gs[k]);
    }
  }

  /** What a node has decided, it never takes back. */
  lemma {:induction false} ChainsGrow(net: Network, gs: seq<Global>, j: nat, k: nat, n: Address)
    requires NetOk(net) && IsRun(net, gs) && j <= k < |gs| && n in gs[j].nodes
    ensures n in gs[k].nodes && gs[j].nodes[n].chain <= gs[k].nodes[n].chain
    decreases k - j
  {
    hide GlobalOk; hide Next; hide Init;
    if j < k {
      RunOk(net, gs, j);
      assert Next(net, gs[j], gs[j + 1]);
      NextOk(net, gs[j], gs[j + 1]);
      ChainsGrow(net, gs, j + 1, k, n);
    }
  }

  // --- replaying the log -----------------------------------------------------

  lemma StepReaches(net: Network, g: Global, g': Global, n: Address)
    requires NetOk(net) && Next(net, g, g') && n in g.nodes && n in net.params && R.Reachable(net.params[n], g.nodes[n])
    ensures n in g'.nodes && R.Reachable(net.params[n], g'.nodes[n]) && VotesOf(g.log) <= VotesOf(g'.log)
  {
    hide R.Reachable; hide NetOk; hide Handle;
    if m: Address, e: Env, i: Input :| NodeStep(net, g, g', m, e, i) {
      if m == n { R.ReachesOn(net.params[n], g.nodes[n], e, i); }
    }
  }

  lemma {:induction false} RunReaches(net: Network, gs: seq<Global>, k: nat, n: Address)
    requires NetOk(net) && IsRun(net, gs) && k < |gs| && n in net.params
    ensures n in gs[k].nodes && R.Reachable(net.params[n], gs[k].nodes[n])
  {
    hide Next; hide R.Reachable;
    if k == 0 {
      R.StartReachable(net.params[n]);
    } else {
      RunReaches(net, gs, k - 1, n);
      assert Next(net, gs[k - 1], gs[k - 1 + 1]);
      StepReaches(net, gs[k - 1], gs[k], n);
    }
  }

  lemma {:induction false} LogGrows(net: Network, gs: seq<Global>, j: nat, k: nat, n: Address)
    requires NetOk(net) && IsRun(net, gs) && j <= k < |gs| && n in net.params
    ensures VotesOf(gs[j].log) <= VotesOf(gs[k].log)
    decreases k - j
  {
    hide Next; hide R.Reachable; hide VotesOf;
    if j < k {
      LogGrows(net, gs, j, k - 1, n);
      RunReaches(net, gs, k - 1, n);
      assert Next(net, gs[k - 1], gs[k - 1 + 1]);
      StepReaches(net, gs[k - 1], gs[k], n);
    }
  }

  /**
   A node may come back in any state it was in since its last signature and
   decision: replaying a part of its log that reaches this far is enough.
   */
  lemma EarlierStateRestarts(net: Network, gs: seq<Global>, j: nat, k: nat, n: Address)
    requires NetOk(net) && IsRun(net, gs) && j <= k < |gs| && n in gs[j].nodes && n in gs[k].nodes
    requires gs[j].nodes[n].sent == gs[k].nodes[n].sent && gs[j].nodes[n].chain == gs[k].nodes[n].chain
    ensures RestartStep(net, gs[k], gs[k].(nodes := gs[k].nodes[n := gs[j].nodes[n]]), n, gs[j].nodes[n])
  {
    RunOk(net, gs, j);
    assert n in net.params && gs[j].nodes[n].seen <= VotesOf(gs[j].log);
    hide GlobalOk; hide IsRun; hide R.Reachable; hide VotesOf; hide NetOk;
    RunReaches(net, gs, j, n);
    LogGrows(net, gs, j, k, n);
  }

  // --- agreement -----------------------------------------------------------

  /** At every height some node has reached, faulty validators hold less than a third of the power. */
  ghost predicate FaultBound(net: Network, g: Global) {
    forall n, i :: n in g.nodes && 0 <= i <= |g.nodes[n].chain| ==> FewFaulty(net, g.nodes[n].chain[..i])
  }

  predicate FewFaulty(net: Network, chain: seq<Hash>) {
    3 * PowerOf(net.valsAfter(chain), net.faulty) < TotalPower(net.valsAfter(chain))
  }

  lemma BoundAt(net: Network, g: Global, n: Address, i: nat)
    requires FaultBound(net, g) && n in g.nodes && i <= |g.nodes[n].chain|
    ensures FewFaulty(net, g.nodes[n].chain[..i])
  {
  }

  /** Every node that got past height `net.initialHeight + |c|` did so on the chain `c`. */
  ghost predicate AllAgreeOn(g: Global, c: seq<Hash>) {
    forall n :: n in g.nodes && |g.nodes[n].chain| >= |c| ==> c <= g.nodes[n].chain
  }

  /** A correct vote of the height after `c` comes from a node that decided `c`, so its quorums are `c`'s. */
  lemma VoteOnChain(net: Network, g: Global, c: seq<Hash>, k: int)
    requires GlobalOk(net, g) && AllAgreeOn(g, c) && 0 <= k < |g.log|
    requires g.log[k].vote.address !in net.faulty && g.log[k].vote.height == net.initialHeight + |c|
    ensures var n := g.log[k].vote.address;
            && n in g.nodes && g.log[k] in g.nodes[n].sent && g.log[k].basis <= VotesOf(g.log[..k])
            && ChainBefore(net.params[n], g.nodes[n].chain, net.initialHeight + |c|) == c
            && SentOk(net.params[n], g.nodes[n])
  {
    hide SentBacked; hide SentReleased; hide LockMemory; hide DecidedBacked; hide VotesOk; hide LockJustified;
    assert Genuine(net, g, k);
    var n := g.log[k].vote.address;
    var s := g.nodes[n];
    assert NodeOk(net.params[n], s);
    assert Placed(g.log[k].vote, s.height, s.round, s.step);
    assert c <= s.chain;
    assert s.chain[..|c|] == c;
  }

  /** The log entry behind a supporter of a quorum. */
  lemma Supporting(log: seq<Signed>, kind: VoteType, h: int, r: int, b: BlockID, a: Address) returns (k: int)
    requires a in Supporters(VotesOf(log), kind, h, r, b)
    ensures 0 <= k < |log| && log[k].vote == Vote(kind, h, r, a, b)
  {
    var v :| v in VotesOf(log) && v.kind == kind && v.height == h && v.round == r && v.block == b && v.address == a;
    var x :| x in log && x.vote == v;
    k :| 0 <= k < |log| && log[k] == x;
  }

  /** Two quorums of prevotes of one round are for the same block. */
  lemma OnePolkaPerRound(net: Network, g: Global, c: seq<Hash>, r: int, b1: BlockID, b2: BlockID)
    requires GlobalOk(net, g) && AllAgreeOn(g, c) && FewFaulty(net, c)
    requires Quorum(net.valsAfter(c), VotesOf(g.log), PrevoteType, net.initialHeight + |c|, r, b1)
    requires Quorum(net.valsAfter(c), VotesOf(g.log), PrevoteType, net.initialHeight + |c|, r, b2)
    ensures b1 == b2
  {
    hide GlobalOk; hide AllAgreeOn; hide SentBacked; hide SentReleased; hide LockMemory; hide SentPlaced;
    var h := net.initialHeight + |c|;
    var n := QuorumsShareCorrect(net.valsAfter(c), Supporters(VotesOf(g.log), PrevoteType, h, r, b1),
                                 Supporters(VotesOf(g.log), PrevoteType, h, r, b2), net.faulty);
    var k1 := Supporting(g.log, PrevoteType, h, r, b1, n);
    var k2 := Supporting(g.log, PrevoteType, h, r, b2, n);
    VoteOnChain(net, g, c, k1);
    VoteOnChain(net, g, c, k2);
    assert SameSlot(g.log[k1].vote, g.log[k2].vote);
  }

  /** +2/3 precommits for a block rest on a polka for it in the same round. */
  lemma CommitHasPolka(net: Network, g: Global, c: seq<Hash>, r: int, b: BlockID)
    requires GlobalOk(net, g) && AllAgreeOn(g, c) && FewFaulty(net, c) && b.hash.Some?
    requires Quorum(net.valsAfter(c), VotesOf(g.log), PrecommitType, net.initialHeight + |c|, r, b)
    ensures Quorum(net.valsAfter(c), VotesOf(g.log), PrevoteType, net.initialHeight + |c|, r, b)
  {
    var h := net.initialHeight + |c|;
    var n := QuorumHasCorrect(net.valsAfter(c), Supporters(VotesOf(g.log), PrecommitType, h, r, b), net.faulty);
    hide GlobalOk; hide AllAgreeOn; hide SentReleased; hide LockMemory; hide SentPlaced; hide Quorum;
    var k := Supporting(g.log, PrecommitType, h, r, b, n);
    VoteOnChain(net, g, c, k);
    assert Backed(net.params[n], g.nodes[n].chain, g.log[k]);
    VotesOfPrefix(g.log, k);
    assert net.params[n].valsAfter == net.valsAfter by { NodeUsesNet(net, g, n); }
    QuorumGrows(net.valsAfter(c), g.log[k].basis, VotesOf(g.log), PrevoteType, h, r, b);
  }

  lemma NodeUsesNet(net: Network, g: Global, n: Address)
    requires GlobalOk(net, g) && n in g.nodes
    ensures n in net.params && net.params[n].valsAfter == net.valsAfter && net.params[n].validAfter == net.validAfter
    ensures net.params[n].initialHeight == net.initialHeight
  {
  }

  /**
   Once +2/3 precommit a block, no polka for another block or for nil ever
   arises in that round or a later one.  The induction is over the moments at
   which votes were signed.
   */
  lemma {:induction false} NoPolkaAgainstCommit(net: Network, g: Global, c: seq<Hash>, r: int, b: BlockID,
                                                k: nat, r': int, b': BlockID)
    requires GlobalOk(net, g) && AllAgreeOn(g, c) && FewFaulty(net, c) && b.hash.Some? && k <= |g.log|
    requires Quorum(net.valsAfter(c), VotesOf(g.log), PrecommitType, net.initialHeight + |c|, r, b)
    requires r <= r' && b'.hash != b.hash
    ensures !Quorum(net.valsAfter(c), VotesOf(g.log[..k]), PrevoteType, net.initialHeight + |c|, r', b')
    decreases k
  {
    var vals, h := net.valsAfter(c), net.initialHeight + |c|;
    if Quorum(vals, VotesOf(g.log[..k]), PrevoteType, h, r', b') {
      if r' == r {
        VotesOfPrefix(g.log, k);
        QuorumGrows(vals, VotesOf(g.log[..k]), VotesOf(g.log), PrevoteType, h, r, b');
        CommitHasPolka(net, g, c, r, b);
        OnePolkaPerRound(net, g, c, r, b, b');
        assert false;
      }
      var n := QuorumsShareCorrect(vals, Supporters(VotesOf(g.log), PrecommitType, h, r, b),
                                   Supporters(VotesOf(g.log[..k]), PrevoteType, h, r', b'), net.faulty);
      var i := Supporting(g.log, PrecommitType, h, r, b, n);
      var j := Supporting(g.log[..k], PrevoteType, h, r', b', n);
      var r'', b'' := DepartureNeedsPolka(net, g, c, i, j);
      NoPolkaAgainstCommit(net, g, c, r, b, j, r'', b'');
    }
  }

  /** A correct node that precommitted a block and later prevoted otherwise had seen a polka in between. */
  lemma DepartureNeedsPolka(net: Network, g: Global, c: seq<Hash>, i: int, j: int) returns (r: int, b: BlockID)
    requires GlobalOk(net, g) && AllAgreeOn(g, c) && 0 <= i < |g.log| && 0 <= j < |g.log|
    requires g.log[i].vote.address == g.log[j].vote.address && g.log[i].vote.address !in net.faulty
    requires Departs(g.log[i].vote, g.log[j].vote) && g.log[i].vote.height == net.initialHeight + |c|
    ensures g.log[i].vote.round < r <= g.log[j].vote.round && b.hash != g.log[i].vote.block.hash
    ensures Quorum(net.valsAfter(c), VotesOf(g.log[..j]), PrevoteType, net.initialHeight + |c|, r, b)
  {
    hide GlobalOk; hide AllAgreeOn; hide SentBacked; hide LockMemory; hide SentPlaced; hide Quorum;
    VoteOnChain(net, g, c, i);
    VoteOnChain(net, g, c, j);
    var x, y := g.log[i], g.log[j];
    var n, h := y.vote.address, y.vote.height;
    NodeUsesNet(net, g, n);
    assert Released(net.valsAfter(c), y.basis, h, x.vote.round, y.vote.round, x.vote.block.hash);
    r, b :| x.vote.round < r <= y.vote.round && b.hash != x.vote.block.hash
            && Quorum(net.valsAfter(c), y.basis, PrevoteType, h, r, b);
    QuorumGrows(net.valsAfter(c), y.basis, VotesOf(g.log[..j]), PrevoteType, h, r, b);
  }

  /** +2/3 precommits for two blocks at one height, in whatever rounds, are for one hash. */
  lemma CommitsAgree(net: Network, g: Global, c: seq<Hash>, r1: int, b1: BlockID, r2: int, b2: BlockID)
    requires GlobalOk(net, g) && AllAgreeOn(g, c) && FewFaulty(net, c) && b1.hash.Some? && b2.hash.Some? && r1 <= r2
    requires Quorum(net.valsAfter(c), VotesOf(g.log), PrecommitType, net.initialHeight + |c|, r1, b1)
    requires Quorum(net.valsAfter(c), VotesOf(g.log), PrecommitType, net.initialHeight + |c|, r2, b2)
    ensures b1.hash == b2.hash
  {
    hide GlobalOk; hide AllAgreeOn; hide Quorum; hide FewFaulty;
    if b1.hash != b2.hash {
      CommitHasPolka(net, g, c, r2, b2);
      assert g.log[..|g.log|] == g.log;
      NoPolkaAgainstCommit(net, g, c, r1, b1, |g.log|, r2, b2);
    }
  }

  /** What a node decided at index `i` has +2/3 precommits on the network. */
  lemma DecisionOnNetwork(net: Network, g: Global, n: Address, i: nat) returns (r: int, b: BlockID)
    requires GlobalOk(net, g) && n in g.nodes && i < |g.nodes[n].chain|
    ensures b.hash == Some(g.nodes[n].chain[i])
    ensures Quorum(net.valsAfter(g.nodes[n].chain[..i]), VotesOf(g.log), PrecommitType, net.initialHeight + i, r, b)
  {
    var s := g.nodes[n];
    assert NodeOk(net.params[n], s);
    NodeUsesNet(net, g, n);
    assert Committed(net.valsAfter(s.chain[..i]), s.seen, net.initialHeight + i, s.chain[i]);
    assert s.seen <= VotesOf(g.log);
    hide GlobalOk; hide NodeOk; hide Quorum;
    r, b :| b.hash == Some(s.chain[i])
            && Quorum(net.valsAfter(s.chain[..i]), s.seen, PrecommitType, net.initialHeight + i, r, b);
    QuorumGrows(net.valsAfter(s.chain[..i]), s.seen, VotesOf(g.log), PrecommitType, net.initialHeight + i, r, b);
  }

  /** Two nodes past the same chain decided the same block next. */
  lemma NextDecisionsAgree(net: Network, g: Global, c: seq<Hash>, n: Address, m: Address)
    requires GlobalOk(net, g) && AllAgreeOn(g, c) && FewFaulty(net, c) && n in g.nodes && m in g.nodes
    requires |c| < |g.nodes[n].chain| && |c| < |g.nodes[m].chain|
    requires g.nodes[n].chain[..|c|] == c == g.nodes[m].chain[..|c|]
    ensures g.nodes[n].chain[|c|] == g.nodes[m].chain[|c|]
  {
    hide GlobalOk; hide AllAgreeOn; hide Quorum; hide FewFaulty;
    var r1, b1 := DecisionOnNetwork(net, g, n, |c|);
    var r2, b2 := DecisionOnNetwork(net, g, m, |c|);
    if r1 <= r2 {
      CommitsAgree(net, g, c, r1, b1, r2, b2);
    } else {
      CommitsAgree(net, g, c, r2, b2, r1, b1);
    }
  }

  lemma OneMoreAgrees(a: seq<Hash>, b: seq<Hash>, i: int)
    requires 0 < i <= |a| && i <= |b| && a[..i - 1] == b[..i - 1] && a[i - 1] == b[i - 1]
    ensures a[..i] == b[..i]
  {
    assert a[..i] == a[..i - 1] + [a[i - 1]];
    assert b[..i] == b[..i - 1] + [b[i - 1]];
  }

  /** The agreement theorem at one reachable state: any two nodes' chains agree as far as both go. */
  lemma {:induction false} ChainsAgree(net: Network, g: Global, n: Address, m: Address, i: nat)
    requires GlobalOk(net, g) && FaultBound(net, g) && n in g.nodes && m in g.nodes
    requires i <= |g.nodes[n].chain| && i <= |g.nodes[m].chain|
    ensures g.nodes[n].chain[..i] == g.nodes[m].chain[..i]
    decreases i, 0
  {
    if i > 0 {
      hide GlobalOk; hide FaultBound; hide AllAgreeOn; hide FewFaulty;
      var cn, cm := g.nodes[n].chain, g.nodes[m].chain;
      BoundAt(net, g, n, i - 1);
      ChainsAgree(net, g, n, m, i - 1);
      AgreeOnPrefix(net, g, n, i - 1);
      NextDecisionsAgree(net, g, cn[..i - 1], n, m);
      OneMoreAgrees(cn, cm, i);
    }
  }

  lemma {:induction false} AgreeOnPrefix(net: Network, g: Global, n: Address, i: nat)
    requires GlobalOk(net, g) && FaultBound(net, g) && n in g.nodes && i <= |g.nodes[n].chain|
    ensures AllAgreeOn(g, g.nodes[n].chain[..i])
    decreases i, 1
  {
    hide GlobalOk; hide FaultBound;
    forall k | k in g.nodes && |g.nodes[k].chain| >= i ensures g.nodes[n].chain[..i] <= g.nodes[k].chain {
      ChainsAgree(net, g, n, k, i);
    }
  }

  /**
   Agreement over whole runs: whenever faulty validators stay below a third of
   the power at every height reached, what one node has decided at any moment
   of the run and what another has decided at any moment agree as far as both go.
   */
  lemma Agreement(net: Network, gs: seq<Global>, j: nat, k: nat, n: Address, m: Address, i: nat)
    requires NetOk(net) && IsRun(net, gs) && j < |gs| && k < |gs| && FaultBound(net, gs[|gs| - 1])
    requires n in gs[j].nodes && m in gs[k].nodes
    requires i < |gs[j].nodes[n].chain| && i < |gs[k].nodes[m].chain|
    ensures gs[j].nodes[n].chain[i] == gs[k].nodes[m].chain[i]
  {
    hide GlobalOk; hide FaultBound;
    var last := |gs| - 1;
    RunOk(net, gs, last);
    ChainsGrow(net, gs, j, last, n);
    ChainsGrow(net, gs, k, last, m);
    var g := gs[last];
    ChainsAgree(net, g, n, m, i + 1);
    assert g.nodes[n].chain[i] == g.nodes[n].chain[..i + 1][i] == g.nodes[m].chain[..i + 1][i] == g.nodes[m].chain[i];
  }

  /** The same over whole runs for polkas: none against a decided block, in its round or a later one, ever. */
  lemma NoPolkaAgainstDecision(net: Network, gs: seq<Global>, k: nat, n: Address, i: nat, r: int, b: BlockID,
                               r': int, b': BlockID)
    requires NetOk(net) && IsRun(net, gs) && k < |gs| && FaultBound(net, gs[k]) && n in gs[k].nodes
    requires i <= |gs[k].nodes[n].chain| && b.hash.Some? && r <= r' && b'.hash != b.hash
    requires var c := gs[k].nodes[n].chain[..i];
             Quorum(net.valsAfter(c), VotesOf(gs[k].log), PrecommitType, net.initialHeight + i, r, b)
    ensures var c := gs[k].nodes[n].chain[..i];
            !Quorum(net.valsAfter(c), VotesOf(gs[k].log), PrevoteType, net.initialHeight + i, r', b')
  {
    hide GlobalOk; hide Quorum; hide AllAgreeOn; hide FaultBound; hide FewFaulty;
    var g := gs[k];
    RunOk(net, gs, k);
    AgreeOnPrefix(net, g, n, i);
    BoundAt(net, g, n, i);
    assert g.log[..|g.log|] == g.log;
    NoPolkaAgainstCommit(net, g, g.nodes[n].chain[..i], r, b, |g.log|, r', b');
  }

  /** A quorum of prevotes for a block means the block is valid: some correct node checked it. */
  lemma PolkaIsForValidBlock(net: Network, g: Global, c: seq<Hash>, r: int, b: BlockID)
    requires GlobalOk(net, g) && AllAgreeOn(g, c) && FewFaulty(net, c) && b.hash.Some?
    requires Quorum(net.valsAfter(c), VotesOf(g.log), PrevoteType, net.initialHeight + |c|, r, b)
    ensures net.validAfter(c, b.hash.value)
  {
    hide GlobalOk; hide AllAgreeOn; hide SentReleased; hide LockMemory; hide SentPlaced; hide PowerOf; hide TotalPower;
    var h := net.initialHeight + |c|;
    var n := QuorumHasCorrect(net.valsAfter(c), Supporters(VotesOf(g.log), PrevoteType, h, r, b), net.faulty);
    hide Quorum;
    var k := Supporting(g.log, PrevoteType, h, r, b, n);
    hide VotesOf; hide Supporters;
    VoteOnChain(net, g, c, k);
    NodeUsesNet(net, g, n);
    assert Backed(net.params[n], g.nodes[n].chain, g.log[k]);
  }

  lemma NodeFacts(net: Network, g: Global, n: Address)
    requires GlobalOk(net, g) && n in g.nodes && n in net.params
    ensures PanicKnown(net.params[n], g.nodes[n]) && Shape(net.params[n], g.nodes[n])
    ensures g.nodes[n].seen <= VotesOf(g.log)
  {
    assert NodeOk(net.params[n], g.nodes[n]);
  }

  /**
   Validity: the two panics about +2/3 of the power backing an invalid block
   never happen while faulty validators stay below a third.  What can still stop
   a node is a committed block it holds under another part set header, or a
   precommit from before the first height.
   */
  lemma NoQuorumForInvalidBlock(net: Network, gs: seq<Global>, k: nat, n: Address)
    requires NetOk(net) && IsRun(net, gs) && k < |gs| && FaultBound(net, gs[k]) && n in gs[k].nodes
    ensures var s := gs[k].nodes[n];
            || s.panic == None
            || (s.panic == Some(CommitPartsMismatch) && n in net.params && HoldsOtherParts(net.params[n], s))
            || (s.panic == Some(NoLastCommit) && s.chain == [] && s.step == NewHeight)
  {
    hide GlobalOk; hide AllAgreeOn; hide Quorum; hide FaultBound; hide FewFaulty; hide IsRun;
    var g := gs[k];
    var s := g.nodes[n];
    RunOk(net, gs, k);
    NodeUsesNet(net, g, n);
    NodeFacts(net, g, n);
    var p := net.params[n];
    assert s.chain[..|s.chain|] == s.chain;
    AgreeOnPrefix(net, g, n, |s.chain|);
    BoundAt(net, g, n, |s.chain|);
    if s.panic == Some(PolkaForInvalidBlock) || s.panic == Some(CommitOfInvalidBlock) {
      var kind := if s.panic == Some(PolkaForInvalidBlock) then PrevoteType else PrecommitType;
      var r: int, b: BlockID :| b.hash.Some? && !p.validAfter(s.chain, b.hash.value)
                                && Quorum(p.valsAfter(s.chain), s.seen, kind, s.height, r, b);
      QuorumGrows(net.valsAfter(s.chain), s.seen, VotesOf(g.log), kind, s.height, r, b);
      if kind.PrecommitType? { CommitHasPolka(net, g, s.chain, r, b); }
      PolkaIsForValidBlock(net, g, s.chain, r, b);
    }
  }
}
