/** The contract's storage as one value: configuration, level table, paid
    addresses, rank pool, member lists, leaderboard rows and per-account
    history; the records it holds; and the commands a call hands back to the
    host. Every execute call is a step from one `Store` to the next that
    commits only when the call succeeds. */
module PackState {
  import opened Outcome
  import opened Decimal
  import opened Seqs
  import opened Nft
  import opened Levels

  type Addr = string

  /** An accepted payment token: its contract and the exact amount a build costs. */
  datatype PaymentContract = PaymentContract(codeHash: string, address: Addr, paymentNeeded: nat)

  datatype Config = Config(
    owner: Addr,
    nftContract: Addr,
    isPaymentNeeded: bool,
    validPayments: Option<seq<PaymentContract>>,
    receivingAddress: Addr,
    totalBurned: nat,
    packMax: nat,
    collectionSize: nat,
    levelCap: nat)

  /** A member merged into a leader: its id, its rank and its public attributes at merge time. */
  datatype PackMember = PackMember(tokenId: TokenId, rank: nat, attributes: seq<Trait>)

  /** A leaderboard row. */
  datatype PackMain = PackMain(tokenId: TokenId, packRank: nat, packCount: nat, name: string)

  datatype HistoryToken = HistoryToken(mainTokenId: TokenId, memberTokenIds: seq<TokenId>, buildDate: Option<nat>)

  /** The messages a call returns for the host to execute, in order. */
  datatype Command =
    | PaymentTransfer(paymentContract: Addr, recipient: Addr, amount: nat)
    | BurnNfts(tokenIds: seq<TokenId>)
    | SetMetadata(tokenId: TokenId, publicExtension: Extension, privateExtension: Extension)
    | TransferNft(recipient: Addr, tokenId: TokenId)
    | BatchTransferNfts(recipient: Addr, tokenIds: seq<TokenId>)

  datatype Attribute = Attribute(key: string, value: string)

  datatype Response = Response(messages: seq<Command>, attributes: seq<Attribute>)

  datatype Store = Store(
    config: Config,
    levels: seq<Level>,
    paid: seq<Addr>,
    ranks: map<TokenId, nat>,
    members: map<TokenId, seq<PackMember>>,
    packMain: map<TokenId, PackMain>,
    history: map<Addr, seq<HistoryToken>>)

  /** A leader's member list; a leader nobody joined has none. */
  function MembersOf(members: map<TokenId, seq<PackMember>>, id: TokenId): seq<PackMember>
  {
    if id in members then members[id] else []
  }

  function HistoryOf(history: map<Addr, seq<HistoryToken>>, account: Addr): seq<HistoryToken>
  {
    if account in history then history[account] else []
  }

  /** The append-store push under one account. */
  function AppendHistory(history: map<Addr, seq<HistoryToken>>, account: Addr, entry: HistoryToken): map<Addr, seq<HistoryToken>>
  {
    history[account := HistoryOf(history, account) + [entry]]
  }

  /** No stored member carries the "Alpha" trait. */
  predicate NoAlphaMembers(members: map<TokenId, seq<PackMember>>)
  {
    forall id, i | id in members && 0 <= i < |members[id]| :: !HasTrait(members[id][i].attributes, ALPHA)
  }

  /** Leaderboard values fit the widths they are stored with (u32 rank, u16 count). */
  predicate RowsFit(packMain: map<TokenId, PackMain>)
  {
    forall id | id in packMain :: packMain[id].packRank <= U32_MAX && packMain[id].packCount <= U16_MAX
  }

  predicate LevelsFit(levels: seq<Level>)
  {
    forall i | 0 <= i < |levels| :: levels[i].level <= U16_MAX && levels[i].xpNeeded <= U32_MAX
  }

  predicate ConfigFits(c: Config)
  {
    c.totalBurned <= U16_MAX && c.packMax <= U16_MAX && c.collectionSize <= U16_MAX && c.levelCap <= U16_MAX
  }

  /** What every reachable store satisfies. */
  predicate WellFormed(s: Store)
  {
    && NoDup(s.paid)
    && NoAlphaMembers(s.members)
    && RowsFit(s.packMain)
    && ConfigFits(s.config)
    && LevelsFit(s.levels)
    && (forall id | id in s.ranks :: s.ranks[id] <= U16_MAX)
  }

  /** The store a call leaves: the new one when it succeeded, the old one when it failed. */
  function Committed(s: Store, step: Result<(Store, Response)>): Store
  {
    if step.Ok? then step.value.0 else s
  }

  /** What the caller sees of a call. */
  function Reply(step: Result<(Store, Response)>): Result<Response>
  {
    if step.Ok? then Ok(step.value.1) else Err(step.error)
  }

  // ---------------------------------------------------------------------
  // Instantiation
  // ---------------------------------------------------------------------

  datatype RankEntry = RankEntry(tokenId: TokenId, rank: nat)

  datatype InstantiateMsg = InstantiateMsg(
    nftContract: Addr,
    isPaymentNeeded: bool,
    validPayments: Option<seq<PaymentContract>>,
    receivingAddress: Addr,
    packMax: nat,
    collectionSize: nat,
    levelCap: nat,
    levels: seq<Level>,
    ranks: seq<RankEntry>)

  /** The values of the message fit their Rust types. */
  predicate InstantiateFits(m: InstantiateMsg)
  {
    && m.packMax <= U16_MAX && m.collectionSize <= U16_MAX && m.levelCap <= U16_MAX
    && LevelsFit(m.levels)
    && (forall i | 0 <= i < |m.ranks| :: m.ranks[i].rank <= U16_MAX)
  }

  /** The rank pool after inserting the entries in order: a later entry for
      the same token replaces an earlier one. */
  function RankTable(entries: seq<RankEntry>): (t: map<TokenId, nat>)
    ensures forall id :: id in t <==> exists i | 0 <= i < |entries| :: entries[i].tokenId == id
    decreases |entries|
  {
    if entries == [] then map[]
    else
      var last := entries[|entries| - 1];
      var t := RankTable(entries[..|entries| - 1]);
      assert forall i | 0 <= i < |entries| - 1 :: entries[..|entries| - 1][i] == entries[i];
      t[last.tokenId := last.rank]
  }

  /** The last entry for a token decides its rank. */
  lemma {:induction false} RankTableLastWins(entries: seq<RankEntry>, i: nat)
    requires i < |entries|
    requires forall j | i < j < |entries| :: entries[j].tokenId != entries[i].tokenId
    ensures RankTable(entries)[entries[i].tokenId] == entries[i].rank
    decreases |entries|
  {
    if i < |entries| - 1 {
      var prefix := entries[..|entries| - 1];
      assert prefix[i] == entries[i];
      RankTableLastWins(prefix, i);
    }
  }

  /** The store `instantiate` creates: counters at zero, no payments, no packs, no history. */
  function InitialStore(m: InstantiateMsg, owner: Addr): (s: Store)
    requires InstantiateFits(m)
    ensures WellFormed(s)
    ensures s.paid == [] && s.members == map[] && s.packMain == map[] && s.history == map[]
    ensures s.config.totalBurned == 0
  {
    var table := RankTable(m.ranks);
    assert forall id | id in table :: table[id] <= U16_MAX by {
      forall id | id in table ensures table[id] <= U16_MAX {
        RankTableValue(m.ranks, id);
      }
    }
    Store(
      Config(owner, m.nftContract, m.isPaymentNeeded, m.validPayments, m.receivingAddress,
             0, m.packMax, m.collectionSize, m.levelCap),
      m.levels, [], table, map[], map[], map[])
  }

  /** Every rank in the pool is the rank of some entry for that token. */
  lemma {:induction false} RankTableValue(entries: seq<RankEntry>, id: TokenId)
    requires id in RankTable(entries)
    ensures exists i | 0 <= i < |entries| :: entries[i].tokenId == id && entries[i].rank == RankTable(entries)[id]
    decreases |entries|
  {
    var last := entries[|entries| - 1];
    if last.tokenId != id {
      var prefix := entries[..|entries| - 1];
      RankTableValue(prefix, id);
      var i :| 0 <= i < |prefix| && prefix[i].tokenId == id && prefix[i].rank == RankTable(prefix)[id];
      assert entries[i] == prefix[i];
    }
  }
}
