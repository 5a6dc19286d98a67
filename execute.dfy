/** The execute entry point: every message the contract accepts (except
    permit revocation), dispatched to its step, and the invariant every step
    keeps. */
module Execute {
  import opened Outcome
  import opened Seqs
  import opened Nft
  import opened PackState
  import opened Payment
  import opened Merge
  import opened Join
  import opened Relocate

  /** The message a batch of tokens carries. */
  datatype HandleReceiveMsg =
    | ReceivePackBuild(packBuild: PackBuildMsg)
    | ReceiveTransferBuild(transferBuild: PackTransferMsg)

  /** `try_batch_receive`: tokens arriving from the NFT contract; without a
      message there is nothing to do. */
  function BatchReceiveStep(s: Store, registry: Registry, sender: Addr, from: Addr, tokenIds: seq<TokenId>,
                            msg: Option<HandleReceiveMsg>, now: nat): (r: Result<(Store, Response)>)
    ensures msg.None? ==> r == Err(DataMissing)
  {
    match msg
    case None => Err(DataMissing)
    case Some(ReceivePackBuild(m)) => JoinPackStep(s, registry, sender, from, tokenIds, m, now)
    case Some(ReceiveTransferBuild(m)) => TransferStep(s, registry, sender, from, tokenIds, m, now)
  }

  /** `try_send_nft_back`: the owner alone may have the contract hand a
      token to an address; nothing is stored. */
  function SendNftBackStep(s: Store, sender: Addr, tokenId: TokenId, owner: Addr): (r: Result<(Store, Response)>)
    ensures r.Ok? <==> sender == s.config.owner
    ensures r.Err? ==> r.error == Unauthorized
    ensures r.Ok? ==> r.value.0 == s && r.value.1 == Response([TransferNft(owner, tokenId)], [])
  {
    if sender != s.config.owner then Err(Unauthorized)
    else Ok((s, Response([TransferNft(owner, tokenId)], [])))
  }

  datatype ExecuteMsg =
    | BatchReceiveNft(from: Addr, tokenIds: seq<TokenId>, msg: Option<HandleReceiveMsg>)
    | Receive(sender: Addr, from: Addr, amount: nat)
    | SendNftBack(tokenId: TokenId, owner: Addr)

  /** One execute call from `caller` (the message's immediate sender). */
  function ExecuteStep(s: Store, registry: Registry, caller: Addr, msg: ExecuteMsg, now: nat): Result<(Store, Response)>
  {
    match msg
    case BatchReceiveNft(from, tokenIds, m) => BatchReceiveStep(s, registry, caller, from, tokenIds, m, now)
    case Receive(sender, _, amount) => ReceiveStep(s, caller, sender, amount)
    case SendNftBack(tokenId, owner) => SendNftBackStep(s, caller, tokenId, owner)
  }

  /** Every execute call keeps the store well formed, whether it commits or not. */
  lemma ExecutePreservesWellFormed(s: Store, registry: Registry, caller: Addr, msg: ExecuteMsg, now: nat)
    requires WellFormed(s)
    ensures WellFormed(Committed(s, ExecuteStep(s, registry, caller, msg, now)))
  {
    var step := ExecuteStep(s, registry, caller, msg, now);
    if step.Ok? {
      match msg
      case BatchReceiveNft(from, tokenIds, m) =>
        match m.value {
          case ReceivePackBuild(b) => JoinPreservesWellFormed(s, registry, caller, from, tokenIds, b, now);
          case ReceiveTransferBuild(t) => TransferPreservesWellFormed(s, registry, caller, from, tokenIds, t, now);
        }
      case Receive(sender, _, amount) => ReceiveKeepsNoDup(s, caller, sender, amount);
      case SendNftBack(_, _) =>
    }
  }

  /** The stores a call commits from the initial one onward stay well formed. */
  lemma {:induction false} RunPreservesWellFormed(s: Store, calls: seq<Call>)
    requires WellFormed(s)
    ensures WellFormed(Run(s, calls))
    decreases |calls|
  {
    if calls != [] {
      var prefix := calls[..|calls| - 1];
      RunPreservesWellFormed(s, prefix);
      var c := calls[|calls| - 1];
      ExecutePreservesWellFormed(Run(s, prefix), c.registry, c.caller, c.msg, c.now);
    }
  }

  /** One call: who sends it, what it says, the block time, and the
      metadata the NFT contract holds at that moment. */
  datatype Call = Call(caller: Addr, msg: ExecuteMsg, now: nat, registry: Registry)

  /** The store after a sequence of calls, each committing only when it succeeds. */
  function Run(s: Store, calls: seq<Call>): Store
    decreases |calls|
  {
    if calls == [] then s
    else
      var before := Run(s, calls[..|calls| - 1]);
      var c := calls[|calls| - 1];
      Committed(before, ExecuteStep(before, c.registry, c.caller, c.msg, c.now))
  }

  /** The store `instantiate` creates is well formed, and so is every store
      a sequence of calls reaches from it. */
  lemma ReachableWellFormed(m: InstantiateMsg, owner: Addr, calls: seq<Call>)
    requires InstantiateFits(m)
    ensures WellFormed(Run(InitialStore(m, owner), calls))
  {
    RunPreservesWellFormed(InitialStore(m, owner), calls);
  }
}
