/**
 The replicated state, the block validation facts other parts rely on, and the
 function that computes the next state from a block and the application's
 responses.  Hashes are identified with what they hash; validator sets are
 compared by membership and power (proposer priorities are not modelled).
 */
module States {
  import opened Basics
  import opened Validators

  type Bytes = nat
  type ConsensusParams = nat

  datatype BlockRef = BlockRef(hash: Bytes, parts: Bytes)

  const ZERO_REF := BlockRef(0, 0)

  datatype State = State(
    chainID: Bytes,
    initialHeight: int,
    lastBlockHeight: int,
    lastBlockID: BlockRef,
    lastBlockTime: int,
    nextVals: ValidatorSet,
    vals: ValidatorSet,
    lastVals: ValidatorSet,
    lastHeightValsChanged: int,
    params: ConsensusParams,
    lastHeightParamsChanged: int,
    lastResultsHash: Bytes,
    appHash: Bytes)

  datatype Header = Header(
    chainID: Bytes,
    height: int,
    time: int,
    lastBlockID: BlockRef,
    valsHash: ValidatorSet,
    nextValsHash: ValidatorSet,
    consensusHash: ConsensusParams,
    appHash: Bytes,
    lastResultsHash: Bytes)

  /** `commitOk` stands for the remaining checks: well-formedness, last commit, proposer, median time, evidence size. */
  datatype Block = Block(id: BlockRef, header: Header, txs: seq<Bytes>, commitOk: bool)

  /** EndBlock's answer: a new validator set (after applying the updates) and new parameters, if any. */
  datatype Responses = Responses(newVals: Option<ValidatorSet>, newParams: Option<ConsensusParams>, resultsHash: Bytes)

  datatype Genesis = Genesis(chainID: Bytes, initialHeight: int, time: int, vals: ValidatorSet,
                             params: ConsensusParams, appHash: Bytes)

  function MakeGenesisState(g: Genesis): State {
    State(g.chainID, g.initialHeight, 0, ZERO_REF, g.time, g.vals, g.vals, [], g.initialHeight,
          g.params, g.initialHeight, 0, g.appHash)
  }

  function NextHeight(s: State): int {
    if s.lastBlockHeight == 0 then s.initialHeight else s.lastBlockHeight + 1
  }

  predicate ValidateBlock(s: State, b: Block) {
    && b.commitOk
    && b.header.chainID == s.chainID
    && (s.lastBlockHeight == 0 ==> b.header.height == s.initialHeight)
    && (s.lastBlockHeight > 0 ==> b.header.height == s.lastBlockHeight + 1)
    && b.header.lastBlockID == s.lastBlockID
    && b.header.appHash == s.appHash
    && b.header.consensusHash == s.params
    && b.header.lastResultsHash == s.lastResultsHash
    && b.header.valsHash == s.vals
    && b.header.nextValsHash == s.nextVals
    && (b.header.height > s.initialHeight ==> b.header.time > s.lastBlockTime)
    && (b.header.height == s.initialHeight ==> b.header.time == s.lastBlockTime)
    && b.header.height >= s.initialHeight
  }

  /** updateState: validator changes take effect two heights later, parameter changes at the next. */
  function UpdateState(s: State, id: BlockRef, h: Header, r: Responses): State {
    State(s.chainID, s.initialHeight, h.height, id, h.time,
          if r.newVals.Some? then r.newVals.value else s.nextVals,
          s.nextVals, s.vals,
          if r.newVals.Some? then h.height + 1 + 1 else s.lastHeightValsChanged,
          if r.newParams.Some? then r.newParams.value else s.params,
          if r.newParams.Some? then h.height + 1 else s.lastHeightParamsChanged,
          r.resultsHash, 0)
  }
}
