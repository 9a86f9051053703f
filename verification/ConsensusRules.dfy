/**
 The consensus state machine of one node: what every handled message, timeout
 and block part does to the round state, as functions on values.  The class in
 ConsensusNode.dfy performs the same steps in place; the lemmas are about these
 functions.

 Blocks are identified with their hashes.  `seen` and `sent` record every vote
 the node has counted and every vote it has handed to its signer, each with the
 votes counted by then; no branch reads them.
 */
module ConsensusRules {
  import opened Basics
  import opened Validators
  import opened VoteSets

  datatype Step = NewHeight | NewRound | Propose | Prevote | PrevoteWait | Precommit | PrecommitWait | Commit

  /** The numeric order of the step constants. */
  function Rank(s: Step): nat {
    match s
    case NewHeight => 1
    case NewRound => 2
    case Propose => 3
    case Prevote => 4
    case PrevoteWait => 5
    case Precommit => 6
    case PrecommitWait => 7
    case Commit => 8
  }

  /**
   What is fixed for a node: the chain's rules (first height, the validators and
   the valid blocks after a given chain of decided hashes), its own address and
   its configuration.
   */
  datatype Params = Params(
    initialHeight: int,
    valsAfter: seq<Hash> -> ValidatorSet,
    validAfter: (seq<Hash>, Hash) -> bool,
    me: Address,
    skipTimeoutCommit: bool,
    waitForTxs: bool,
    emptyBlocksInterval: bool)

  /** What the surroundings decide while one input is handled. */
  datatype Env = Env(signPrevote: bool, signPrecommit: bool, applyOk: bool, needProofBlock: bool)

  datatype Proposal = Proposal(height: int, round: int, polRound: int, parts: Parts)

  datatype Timeout = Timeout(height: int, round: int, step: Step)

  datatype RoundVotes = RoundVotes(prevotes: VoteSet, precommits: VoteSet)

  datatype HeightVotes = HeightVotes(
    height: int,
    vals: ValidatorSet,
    maxRound: int,
    rounds: map<int, RoundVotes>,
    catchup: map<Peer, seq<int>>)

  /** A vote as it left the node, with everything the node had counted by then. */
  datatype Signed = Signed(vote: Vote, basis: set<Vote>)

  datatype Panic =
    | PolkaForInvalidBlock
    | CommitOfInvalidBlock
    | CommitPartsMismatch
    | PolRoundBehind
    | NoTwoThirdsAny
    | NoCommitMajority
    | RoundNotIncreasing
    | InvalidTimeoutStep
    | NoLastCommit

  datatype RoundState = RoundState(
    chain: seq<Hash>,
    height: int,
    round: int,
    step: Step,
    proposal: Option<Proposal>,
    proposalBlock: Option<Hash>,
    proposalParts: Option<Parts>,
    lockedRound: int,
    lockedBlock: Option<Hash>,
    lockedParts: Option<Parts>,
    validRound: int,
    validBlock: Option<Hash>,
    validParts: Option<Parts>,
    votes: HeightVotes,
    commitRound: int,
    lastCommit: Option<VoteSet>,
    triggeredPrecommitWait: bool,
    timeouts: set<Timeout>,
    seen: set<Vote>,
    sent: seq<Signed>,
    panic: Option<Panic>)

  datatype PartOutcome = NotAdded | Added(complete: bool, decoded: Option<Hash>)

  datatype Input =
    | ProposalMsg(proposal: Proposal, signatureOk: bool)
    | BlockPartMsg(partHeight: int, outcome: PartOutcome)
    | VoteMsg(vote: Vote, peer: Peer, voteSignatureOk: bool)
    | TimeoutMsg(timeout: Timeout)
    | TxsAvailable
    | PeerMajority(majRound: int, majKind: VoteType, majPeer: Peer, majBlock: BlockID)

  // --- the votes of one height ---------------------------------------------

  function NewRoundVotes(height: int, round: int, vals: ValidatorSet): RoundVotes {
    RoundVotes(NewVoteSet(height, round, PrevoteType, vals), NewVoteSet(height, round, PrecommitType, vals))
  }

  function NewHeightVotes(height: int, vals: ValidatorSet): HeightVotes {
    HeightVotes(height, vals, 0, map[0 := NewRoundVotes(height, 0, vals)], map[])
  }

  function VoteSetAt(hv: HeightVotes, round: int, kind: VoteType): Option<VoteSet> {
    if round !in hv.rounds then None
    else if kind.PrevoteType? then Some(hv.rounds[round].prevotes) else Some(hv.rounds[round].precommits)
  }

  function Prevotes(hv: HeightVotes, round: int): Option<VoteSet> { VoteSetAt(hv, round, PrevoteType) }

  function Precommits(hv: HeightVotes, round: int): Option<VoteSet> { VoteSetAt(hv, round, PrecommitType) }

  function PutVoteSet(hv: HeightVotes, round: int, kind: VoteType, vs: VoteSet): HeightVotes
    requires round in hv.rounds
  {
    var rv := hv.rounds[round];
    hv.(rounds := hv.rounds[round := if kind.PrevoteType? then rv.(prevotes := vs) else rv.(precommits := vs)])
  }

  /** SetRound: start tracking every round up to `round` (from one below the last tracked maximum). */
  function TrackRounds(hv: HeightVotes, round: int): HeightVotes {
    var added := set r: int | hv.maxRound - 1 <= r <= round && r !in hv.rounds;
    hv.(maxRound := round,
        rounds := map r | r in hv.rounds.Keys + added ::
                    if r in hv.rounds then hv.rounds[r] else NewRoundVotes(hv.height, r, hv.vals))
  }

  /** A vote for an untracked round is counted only while its peer has opened fewer than two such rounds. */
  function AddToHeight(hv: HeightVotes, v: Vote, peer: Peer, signatureOk: bool): (HeightVotes, bool) {
    var rounds := if peer in hv.catchup then hv.catchup[peer] else [];
    if v.round !in hv.rounds && |rounds| >= 2 then (hv, false)
    else
      var hv1 := if v.round in hv.rounds then hv
                 else hv.(rounds := hv.rounds[v.round := NewRoundVotes(hv.height, v.round, hv.vals)],
                          catchup := hv.catchup[peer := rounds + [v.round]]);
      var r := AddVote(VoteSetAt(hv1, v.round, v.kind).value, v, signatureOk);
      (PutVoteSet(hv1, v.round, v.kind, r.voteSet), r.added)
  }

  /** POLInfo: the last tracked round with a prevote majority, -1 if none. */
  function PolRound(hv: HeightVotes, from: int): int
    decreases from + 1
  {
    if from < 0 then -1
    else if HasTwoThirdsMajority(Prevotes(hv, from)) then from
    else PolRound(hv, from - 1)
  }

  // --- small tests ---------------------------------------------------------

  function Header(parts: Option<Parts>): Parts { if parts.Some? then parts.value else 0 }

  predicate HashesTo(block: Option<Hash>, hash: Option<Hash>) { hash.Some? && block == hash }

  predicate HasHeader(parts: Option<Parts>, header: Parts) { parts == Some(header) }

  predicate IsProposalComplete(s: RoundState) {
    && s.proposal.Some? && s.proposalBlock.Some?
    && (s.proposal.value.polRound < 0 || HasTwoThirdsMajority(Prevotes(s.votes, s.proposal.value.polRound)))
  }

  function CurrentVals(p: Params, s: RoundState): ValidatorSet { p.valsAfter(s.chain) }

  function Schedule(s: RoundState, round: int, step: Step): RoundState {
    s.(timeouts := s.timeouts + {Timeout(s.height, round, step)})
  }

  function Unlock(s: RoundState): RoundState {
    s.(lockedRound := -1, lockedBlock := None, lockedParts := None)
  }

  function At(s: RoundState, round: int, step: Step): RoundState { s.(round := round, step := step) }

  function Halt(s: RoundState, why: Panic): RoundState { s.(panic := Some(why)) }

  // --- signing -------------------------------------------------------------

  /** signAddVote: the vote carries the node's current round, whatever round the caller was asked for. */
  function SignAddVote(p: Params, e: Env, s: RoundState, kind: VoteType, block: BlockID): RoundState {
    if !HasAddress(CurrentVals(p, s), p.me) then s
    else if !(if kind.PrevoteType? then e.signPrevote else e.signPrecommit) then s
    else s.(sent := s.sent + [Signed(Vote(kind, s.height, s.round, p.me, block), s.seen)])
  }

  /** The block defaultDoPrevote votes for: the locked block, else a valid proposal, else nil. */
  function PrevoteChoice(p: Params, s: RoundState): BlockID {
    if s.lockedBlock.Some? then BlockID(s.lockedBlock, Header(s.lockedParts))
    else if s.proposalBlock.None? then NIL_ID
    else if !p.validAfter(s.chain, s.proposalBlock.value) then NIL_ID
    else BlockID(s.proposalBlock, Header(s.proposalParts))
  }

  // --- the steps -----------------------------------------------------------

  function EnterNewRound(p: Params, e: Env, s: RoundState, height: int, round: int): RoundState {
    if s.panic.Some? || s.height != height || round < s.round || (s.round == round && s.step != NewHeight) then s
    else
      var s1 := At(s, round, NewRound);
      var s2 := if round == 0 then s1 else s1.(proposal := None, proposalBlock := None, proposalParts := None);
      if s.votes.maxRound != 0 && round + 1 < s.votes.maxRound - 1 then Halt(s2, RoundNotIncreasing)
      else
        var s3 := s2.(votes := TrackRounds(s.votes, round + 1), triggeredPrecommitWait := false);
        if p.waitForTxs && round == 0 && !e.needProofBlock then
          if p.emptyBlocksInterval then Schedule(s3, round, NewRound) else s3
        else EnterPropose(p, e, s3, height, round)
  }

  function EnterPropose(p: Params, e: Env, s: RoundState, height: int, round: int): RoundState {
    if s.panic.Some? || s.height != height || round < s.round
       || (s.round == round && Rank(Propose) <= Rank(s.step)) then s
    else
      var s1 := At(Schedule(s, round, Propose), round, Propose);
      if IsProposalComplete(s1) then EnterPrevote(p, e, s1, height, s1.round) else s1
  }

  function EnterPrevote(p: Params, e: Env, s: RoundState, height: int, round: int): RoundState {
    if s.panic.Some? || s.height != height || round < s.round
       || (s.round == round && Rank(Prevote) <= Rank(s.step)) then s
    else At(SignAddVote(p, e, s, PrevoteType, PrevoteChoice(p, s)), round, Prevote)
  }

  function EnterPrevoteWait(s: RoundState, height: int, round: int): RoundState {
    if s.panic.Some? || s.height != height || round < s.round
       || (s.round == round && Rank(PrevoteWait) <= Rank(s.step)) then s
    else if !HasTwoThirdsAny(Prevotes(s.votes, round)) then Halt(s, NoTwoThirdsAny)
    else At(Schedule(s, round, PrevoteWait), round, PrevoteWait)
  }

  /** The body of enterPrecommit between its guard and its deferred step update. */
  function DoPrecommit(p: Params, e: Env, s: RoundState, round: int): RoundState {
    var polka := TwoThirdsMajority(Prevotes(s.votes, round));
    if polka.None? then SignAddVote(p, e, s, PrecommitType, NIL_ID)
    else if PolRound(s.votes, s.votes.maxRound) < round then Halt(s, PolRoundBehind)
    else if polka.value.hash.None? then
      SignAddVote(p, e, if s.lockedBlock.None? then s else Unlock(s), PrecommitType, NIL_ID)
    else if HashesTo(s.lockedBlock, polka.value.hash) then
      SignAddVote(p, e, s.(lockedRound := round), PrecommitType, polka.value)
    else if HashesTo(s.proposalBlock, polka.value.hash) then
      if !p.validAfter(s.chain, s.proposalBlock.value) then Halt(s, PolkaForInvalidBlock)
      else
        SignAddVote(p, e,
          s.(lockedRound := round, lockedBlock := s.proposalBlock, lockedParts := s.proposalParts),
          PrecommitType, polka.value)
    else
      var s1 := Unlock(s);
      var s2 := if HasHeader(s.proposalParts, polka.value.parts) then s1
                else s1.(proposalBlock := None, proposalParts := Some(polka.value.parts));
      SignAddVote(p, e, s2, PrecommitType, NIL_ID)
  }

  function EnterPrecommit(p: Params, e: Env, s: RoundState, height: int, round: int): RoundState {
    if s.panic.Some? || s.height != height || round < s.round
       || (s.round == round && Rank(Precommit) <= Rank(s.step)) then s
    else At(DoPrecommit(p, e, s, round), round, Precommit)
  }

  function EnterPrecommitWait(s: RoundState, height: int, round: int): RoundState {
    if s.panic.Some? || s.height != height || round < s.round
       || (s.round == round && s.triggeredPrecommitWait) then s
    else if !HasTwoThirdsAny(Precommits(s.votes, round)) then Halt(s, NoTwoThirdsAny)
    else Schedule(s, round, PrecommitWait).(triggeredPrecommitWait := true)
  }

  /** Point the proposal fields at the block being committed, if the node has it; otherwise make room for it. */
  function FetchCommitted(s: RoundState, block: BlockID): RoundState {
    var s1 := if HashesTo(s.lockedBlock, block.hash)
              then s.(proposalBlock := s.lockedBlock, proposalParts := s.lockedParts) else s;
    if HashesTo(s1.proposalBlock, block.hash) || HasHeader(s1.proposalParts, block.parts) then s1
    else s1.(proposalBlock := None, proposalParts := Some(block.parts))
  }

  function EnterCommit(p: Params, e: Env, s: RoundState, height: int, commitRound: int): RoundState {
    if s.panic.Some? || s.height != height || Rank(Commit) <= Rank(s.step) then s
    else
      var majority := TwoThirdsMajority(Precommits(s.votes, commitRound));
      if majority.None? then Halt(s, NoCommitMajority)
      else
        var s1 := FetchCommitted(s, majority.value);
        TryFinalizeCommit(p, e, s1.(step := Commit, commitRound := commitRound))
  }

  function TryFinalizeCommit(p: Params, e: Env, s: RoundState): RoundState {
    var majority := TwoThirdsMajority(Precommits(s.votes, s.commitRound));
    if s.panic.Some? || majority.None? || majority.value.hash.None? then s
    else if !HashesTo(s.proposalBlock, majority.value.hash) then s
    else FinalizeCommit(p, e, s, majority.value)
  }

  function FinalizeCommit(p: Params, e: Env, s: RoundState, block: BlockID): RoundState {
    if s.step != Commit || block.hash.None? then s
    else if !HasHeader(s.proposalParts, block.parts) then Halt(s, CommitPartsMismatch)
    else if !p.validAfter(s.chain, block.hash.value) then Halt(s, CommitOfInvalidBlock)
    else if !e.applyOk then s
    else UpdateToState(p, s, block.hash.value)
  }

  /** updateToState: the next height starts at round 0 with no lock, no valid block and no votes. */
  function UpdateToState(p: Params, s: RoundState, decided: Hash): RoundState {
    var chain := s.chain + [decided];
    var height := p.initialHeight + |chain|;
    Schedule(
      s.(chain := chain, height := height, round := 0, step := NewHeight,
         proposal := None, proposalBlock := None, proposalParts := None,
         lockedRound := -1, lockedBlock := None, lockedParts := None,
         validRound := -1, validBlock := None, validParts := None,
         votes := NewHeightVotes(height, p.valsAfter(chain)),
         commitRound := -1,
         lastCommit := Precommits(s.votes, s.commitRound),
         triggeredPrecommitWait := false),
      0, NewHeight)
  }

  // --- messages ------------------------------------------------------------

  function SetProposal(s: RoundState, proposal: Proposal, signatureOk: bool): RoundState {
    if s.proposal.Some? || proposal.height != s.height || proposal.round != s.round then s
    else if proposal.polRound < -1 || (proposal.polRound >= 0 && proposal.polRound >= proposal.round) then s
    else if !signatureOk then s
    else s.(proposal := Some(proposal),
            proposalParts := if s.proposalParts.None? then Some(proposal.parts) else s.proposalParts)
  }

  function AddBlockPart(p: Params, e: Env, s: RoundState, height: int, outcome: PartOutcome): RoundState {
    if s.height != height || s.proposalParts.None? || outcome.NotAdded? || !outcome.complete then s
    else
      var s1 := if outcome.decoded.Some? then s.(proposalBlock := outcome.decoded) else s;
      HandleCompleteProposal(p, e, s1, height)
  }

  function UpdateValidFromProposal(s: RoundState): RoundState {
    var polka := TwoThirdsMajority(Prevotes(s.votes, s.round));
    if polka.Some? && s.validRound < s.round && HashesTo(s.proposalBlock, polka.value.hash)
    then s.(validRound := s.round, validBlock := s.proposalBlock, validParts := s.proposalParts)
    else s
  }

  function HandleCompleteProposal(p: Params, e: Env, s: RoundState, height: int): RoundState {
    var polka := TwoThirdsMajority(Prevotes(s.votes, s.round));
    var s1 := UpdateValidFromProposal(s);
    if Rank(s1.step) <= Rank(Propose) && IsProposalComplete(s1) then
      var s2 := EnterPrevote(p, e, s1, height, s1.round);
      if polka.Some? then EnterPrecommit(p, e, s2, height, s2.round) else s2
    else if s1.step == Commit then TryFinalizeCommit(p, e, s1)
    else s1
  }

  /** A late precommit for the previous height only joins the last commit. */
  function AddLastCommitVote(p: Params, e: Env, s: RoundState, v: Vote, signatureOk: bool): RoundState {
    if s.step != NewHeight then s
    else if s.lastCommit.None? then Halt(s, NoLastCommit)
    else
      var r := AddVote(s.lastCommit.value, v, signatureOk);
      if !r.added then s.(lastCommit := Some(r.voteSet))
      else
        var s1 := s.(lastCommit := Some(r.voteSet), seen := s.seen + {v});
        if p.skipTimeoutCommit && HasAll(s1.lastCommit) then EnterNewRound(p, e, s1, s1.height, 0) else s1
  }

  function AddVoteMsg(p: Params, e: Env, s: RoundState, v: Vote, peer: Peer, signatureOk: bool): RoundState {
    if v.height + 1 == s.height && v.kind.PrecommitType? then AddLastCommitVote(p, e, s, v, signatureOk)
    else if v.height != s.height then s
    else
      var (votes', added) := AddToHeight(s.votes, v, peer, signatureOk);
      var s1 := s.(votes := votes');
      if !added then s1
      else
        var s2 := s1.(seen := s.seen + {v});
        if v.kind.PrevoteType? then OnPrevote(p, e, OnPolka(s2, v.round), v.round)
        else OnPrecommit(p, e, s2, v.round)
  }

  /** A polka of a round above the lock, for something else, releases the lock. */
  function UnlockOnPolka(s: RoundState, round: int): RoundState {
    var polka := TwoThirdsMajority(Prevotes(s.votes, round));
    if polka.Some? && s.lockedBlock.Some? && s.lockedRound < round <= s.round
       && !HashesTo(s.lockedBlock, polka.value.hash)
    then Unlock(s) else s
  }

  function UpdateValidOnPolka(s: RoundState, round: int): RoundState {
    var polka := TwoThirdsMajority(Prevotes(s.votes, round));
    if polka.Some? && polka.value.hash.Some? && s.validRound < round && round == s.round then
      var s1 := if HashesTo(s.proposalBlock, polka.value.hash)
                then s.(validRound := round, validBlock := s.proposalBlock, validParts := s.proposalParts)
                else s.(proposalBlock := None);
      if HasHeader(s1.proposalParts, polka.value.parts) then s1 else s1.(proposalParts := Some(polka.value.parts))
    else s
  }

  function OnPolka(s: RoundState, round: int): RoundState { UpdateValidOnPolka(UnlockOnPolka(s, round), round) }

  function OnPrevote(p: Params, e: Env, s: RoundState, round: int): RoundState {
    var prevotes := Prevotes(s.votes, round);
    if s.round < round && HasTwoThirdsAny(prevotes) then EnterNewRound(p, e, s, s.height, round)
    else if s.round == round && Rank(Prevote) <= Rank(s.step) then
      var polka := TwoThirdsMajority(prevotes);
      if polka.Some? && (IsProposalComplete(s) || polka.value.hash.None?) then EnterPrecommit(p, e, s, s.height, round)
      else if HasTwoThirdsAny(prevotes) then EnterPrevoteWait(s, s.height, round)
      else s
    else if s.proposal.Some? && 0 <= s.proposal.value.polRound == round && IsProposalComplete(s) then
      EnterPrevote(p, e, s, s.height, s.round)
    else s
  }

  function OnPrecommit(p: Params, e: Env, s: RoundState, round: int): RoundState {
    var precommits := Precommits(s.votes, round);
    var majority := TwoThirdsMajority(precommits);
    if majority.Some? then
      var s1 := EnterNewRound(p, e, s, s.height, round);
      var s2 := EnterPrecommit(p, e, s1, s.height, round);
      if majority.value.hash.Some? then
        var s3 := EnterCommit(p, e, s2, s.height, round);
        if p.skipTimeoutCommit && HasAll(precommits) then EnterNewRound(p, e, s3, s3.height, 0) else s3
      else EnterPrecommitWait(s2, s.height, round)
    else if s.round <= round && HasTwoThirdsAny(precommits) then
      EnterPrecommitWait(EnterNewRound(p, e, s, s.height, round), s.height, round)
    else s
  }

  function OnTimeout(p: Params, e: Env, s: RoundState, t: Timeout): RoundState {
    if t.height != s.height || t.round < s.round || (t.round == s.round && Rank(t.step) < Rank(s.step)) then s
    else
      match t.step
      case NewHeight => EnterNewRound(p, e, s, t.height, 0)
      case NewRound => EnterPropose(p, e, s, t.height, 0)
      case Propose => EnterPrevote(p, e, s, t.height, t.round)
      case PrevoteWait => EnterPrecommit(p, e, s, t.height, t.round)
      case PrecommitWait => EnterNewRound(p, e, EnterPrecommit(p, e, s, t.height, t.round), t.height, t.round + 1)
      case _ => Halt(s, InvalidTimeoutStep)
  }

  function OnTxsAvailable(p: Params, e: Env, s: RoundState): RoundState {
    if s.round != 0 then s
    else if s.step == NewHeight then if e.needProofBlock then s else Schedule(s, 0, NewRound)
    else if s.step == NewRound then EnterPropose(p, e, s, s.height, 0)
    else s
  }

  function OnPeerMajority(s: RoundState, round: int, kind: VoteType, peer: Peer, b: BlockID): RoundState {
    var vs := VoteSetAt(s.votes, round, kind);
    if vs.None? then s else s.(votes := PutVoteSet(s.votes, round, kind, SetPeerMaj23(vs.value, peer, b)))
  }

  /** One turn of the receive routine; a node that has panicked handles nothing more. */
  function Handle(p: Params, e: Env, s: RoundState, i: Input): RoundState {
    if s.panic.Some? then s
    else
      match i
      case ProposalMsg(proposal, ok) => SetProposal(s, proposal, ok)
      case BlockPartMsg(height, outcome) => AddBlockPart(p, e, s, height, outcome)
      case VoteMsg(v, peer, ok) => AddVoteMsg(p, e, s, v, peer, ok)
      case TimeoutMsg(t) => OnTimeout(p, e, s, t)
      case TxsAvailable => OnTxsAvailable(p, e, s)
      case PeerMajority(round, kind, peer, b) => OnPeerMajority(s, round, kind, peer, b)
  }

  /** A node at the first height, before anything was handled. */
  function Start(p: Params): RoundState {
    RoundState([], p.initialHeight, 0, NewHeight, None, None, None, -1, None, None, -1, None, None,
               NewHeightVotes(p.initialHeight, p.valsAfter([])), -1, None, false,
               {Timeout(p.initialHeight, 0, NewHeight)}, {}, [], None)
  }
}
