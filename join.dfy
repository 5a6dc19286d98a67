/** `join_pack`: a paid account sends a leader ("Alpha") and its members to
    the contract; the members are burned, their experience, pack size and
    rank score are merged into the leader, the leader gets their first media
    files and the pack's name, and goes back to the account. */
module Join {
  import opened Outcome
  import opened Decimal
  import opened Seqs
  import opened Nft
  import opened Levels
  import opened PackState
  import opened Payment
  import opened Merge

  /** The leader's public extension after the build, with what the
      attribute loop computed. Errors come in the contract's order: missing
      metadata, missing media list, missing attributes, not an Alpha, then
      the XP and LVL reads and the loop itself. */
  function MergeLeaderPublic(leader: Dossier, c: Collected, memberCount: nat, levelCap: nat,
                             levels: seq<Level>, name: string): Result<(Extension, Merged)>
  {
    var ext :- EditableExtension(leader.publicMetadata);
    var media :- PushMedia(ext.media, c.publicMedia);
    var attrs :- Unwrap(ext.attributes);
    if !HasTrait(attrs, ALPHA) then Err(MainNotAlpha)
    else
      var ctx :- LeaderContext(attrs, c, memberCount, levelCap, levels);
      var merged :- MergeAll(WithPackRank(attrs), ctx);
      Ok((Extension(Some(name), Some(merged.attrs), media), merged))
  }

  /** What the attribute loop needs from the leader: its experience plus the
      members' (a `u32`), and its level before the build (the first "LVL"
      trait, a `u16`). */
  function LeaderContext(attrs: seq<Trait>, c: Collected, memberCount: nat, levelCap: nat,
                         levels: seq<Level>): Result<MergeCtx>
  {
    var xp :- XpValue(attrs);
    var newXp :- CheckedAdd(xp, c.xpTotal, U32_MAX);
    var lvlTrait :- Unwrap(FindTrait(attrs, LVL));
    var lvl :- ParseNumber(lvlTrait.value, U16_MAX);
    Ok(MergeCtx(newXp, memberCount, c.scoreTotal, levelCap, levels, lvl))
  }

  /** The leader's public attributes as the registry holds them, empty when it has none. */
  function LeaderAttributes(leader: Dossier): seq<Trait>
  {
    match EditableExtension(leader.publicMetadata)
    case Ok(ext) => if ext.attributes.Some? then ext.attributes.value else []
    case Err(_) => []
  }

  /** The number the last trait of a type holds, when there is one and it
      parses within `max`: the value the attribute loop reads last. */
  function LastNumber(attrs: seq<Trait>, name: string, max: nat): Option<nat>
  {
    match LastTraitIndex(attrs, name)
    case None => None
    case Some(j) => ParseUnsigned(attrs[j].value, max)
  }

  /** The leader's private extension after the build: the members' private media appended. */
  function MergeLeaderPrivate(leader: Dossier, c: Collected): Result<Extension>
  {
    var ext :- EditableExtension(leader.privateMetadata);
    var media :- PushMedia(ext.media, c.privateMedia);
    Ok(ext.(media := media))
  }

  /** The whole call, committing only when it succeeds. */
  function JoinPackStep(s: Store, registry: Registry, sender: Addr, from: Addr, tokenIds: seq<TokenId>,
                        msg: PackBuildMsg, now: nat): Result<(Store, Response)>
  {
    var paid :- ConsumePayment(s.config.isPaymentNeeded, s.paid, from);
    var ids :- SplitMain(tokenIds, msg.mainTokenId);
    if sender != s.config.nftContract then Err(NotNftContract)
    else
      var c :- Collect(s, registry, ids);
      JoinLeader(s, registry, from, ids, msg, now, paid, c)
  }

  /** The part of the call after the members are collected: the leader's
      update, the stores and the commands. */
  function JoinLeader(s: Store, registry: Registry, from: Addr, ids: seq<TokenId>, msg: PackBuildMsg,
                      now: nat, paid: seq<Addr>, c: Collected): Result<(Store, Response)>
  {
    var leader :- Query(registry, msg.mainTokenId);
    var burned :- CheckedAdd(s.config.totalBurned, AsU16(|ids|), U16_MAX);
    var update :- MergeLeaderPublic(leader, c, AsU16(|ids|), s.config.levelCap, s.levels, msg.name);
    var privateExt :- MergeLeaderPrivate(leader, c);
    Ok(JoinCommit(s, from, ids, msg, now, paid, c, burned, update.0, update.1, privateExt))
  }

  /** The stores and the reply of a build whose checks all passed. */
  function JoinCommit(s: Store, from: Addr, ids: seq<TokenId>, msg: PackBuildMsg, now: nat, paid: seq<Addr>,
                      c: Collected, burned: nat, publicExt: Extension, merged: Merged,
                      privateExt: Extension): (Store, Response)
  {
    var main := msg.mainTokenId;
    var s' := Store(
      s.config.(totalBurned := burned),
      s.levels,
      paid,
      s.ranks,
      if ids == [] then s.members else s.members[main := MembersOf(s.members, main) + c.newMembers],
      s.packMain[main := PackMain(main, merged.packRank, merged.packSize, msg.name)],
      AppendHistory(s.history, from, HistoryToken(main, ids, Some(now))));
    (s', Response([BurnNfts(ids), SetMetadata(main, publicExt, privateExt), TransferNft(from, main)], merged.events))
  }

  // ---------------------------------------------------------------------
  // Properties
  // ---------------------------------------------------------------------

  /** A successful call passed the payment, list and sender checks and the
      member loop, and is the leader update on their results. */
  lemma JoinPackUnfold(s: Store, registry: Registry, sender: Addr, from: Addr, tokenIds: seq<TokenId>,
                       msg: PackBuildMsg, now: nat)
    requires JoinPackStep(s, registry, sender, from, tokenIds, msg, now).Ok?
    ensures ConsumePayment(s.config.isPaymentNeeded, s.paid, from).Ok?
    ensures SplitMain(tokenIds, msg.mainTokenId).Ok?
    ensures sender == s.config.nftContract
    ensures Collect(s, registry, SplitMain(tokenIds, msg.mainTokenId).value).Ok?
    ensures JoinPackStep(s, registry, sender, from, tokenIds, msg, now)
         == JoinLeader(s, registry, from, SplitMain(tokenIds, msg.mainTokenId).value, msg, now,
                       ConsumePayment(s.config.isPaymentNeeded, s.paid, from).value,
                       Collect(s, registry, SplitMain(tokenIds, msg.mainTokenId).value).value)
  {
  }

  /** A successful leader update found the leader, the burn counter did
      not overflow, both extensions could be edited, and the result is the
      commit of those values. */
  lemma JoinLeaderUnfold(s: Store, registry: Registry, from: Addr, ids: seq<TokenId>, msg: PackBuildMsg,
                         now: nat, paid: seq<Addr>, c: Collected)
    requires JoinLeader(s, registry, from, ids, msg, now, paid, c).Ok?
    ensures msg.mainTokenId in registry
    ensures var leader := registry[msg.mainTokenId];
            var update := MergeLeaderPublic(leader, c, AsU16(|ids|), s.config.levelCap, s.levels, msg.name);
            var privateExt := MergeLeaderPrivate(leader, c);
            && s.config.totalBurned + AsU16(|ids|) <= U16_MAX
            && update.Ok? && privateExt.Ok?
            && JoinLeader(s, registry, from, ids, msg, now, paid, c).value ==
               JoinCommit(s, from, ids, msg, now, paid, c, s.config.totalBurned + AsU16(|ids|),
                          update.value.0, update.value.1, privateExt.value)
  {
    var leader := registry[msg.mainTokenId];
    var update := MergeLeaderPublic(leader, c, AsU16(|ids|), s.config.levelCap, s.levels, msg.name);
    var privateExt := MergeLeaderPrivate(leader, c);
    assert update.Ok? && privateExt.Ok?;
    assert JoinLeader(s, registry, from, ids, msg, now, paid, c) ==
           Ok(JoinCommit(s, from, ids, msg, now, paid, c, s.config.totalBurned + AsU16(|ids|),
                         update.value.0, update.value.1, privateExt.value));
  }

  /** A successful public update: the leader is an Alpha, its XP and LVL
      traits were readable, the attribute loop succeeded on the attributes
      with "Pack Rank" ensured, and the extension carries the new name, the
      appended media and the rewritten attributes. */
  lemma MergeLeaderPublicUnfold(leader: Dossier, c: Collected, memberCount: nat, levelCap: nat,
                                levels: seq<Level>, name: string)
    requires MergeLeaderPublic(leader, c, memberCount, levelCap, levels, name).Ok?
    ensures var ext := EditableExtension(leader.publicMetadata);
            var r := MergeLeaderPublic(leader, c, memberCount, levelCap, levels, name).value;
            && ext.Ok? && ext.value.attributes.Some? && HasTrait(ext.value.attributes.value, ALPHA)
            && PushMedia(ext.value.media, c.publicMedia) == Ok(r.0.media)
            && r.0.name == Some(name)
            && r.0.attributes == Some(r.1.attrs)
            && var attrs := ext.value.attributes.value;
               var ctx := LeaderContext(attrs, c, memberCount, levelCap, levels);
               && ctx.Ok?
               && MergeAll(WithPackRank(attrs), ctx.value) == Ok(r.1)
  {
  }

  /** The leader's new experience is its old one plus the members', and its
      level before the build is read from its first "LVL" trait. */
  lemma LeaderContextValues(attrs: seq<Trait>, c: Collected, memberCount: nat, levelCap: nat, levels: seq<Level>)
    requires LeaderContext(attrs, c, memberCount, levelCap, levels).Ok?
    ensures var ctx := LeaderContext(attrs, c, memberCount, levelCap, levels).value;
            && XpValue(attrs).Ok? && ctx.newXp == XpValue(attrs).value + c.xpTotal && ctx.newXp <= U32_MAX
            && HasTrait(attrs, LVL) && ParseU16(FindTrait(attrs, LVL).value.value) == Some(ctx.currentLvl)
            && ctx.memberCount == memberCount && ctx.scoreTotal == c.scoreTotal
            && ctx.levelCap == levelCap && ctx.levels == levels
  {
  }

  /** The attribute loop ran on the leader's attributes, with "Pack Rank"
      ensured, in a context holding the leader's old experience plus the
      members', the leader's level before the build, the member count and
      the members' rank score. */
  lemma LeaderMerge(leader: Dossier, c: Collected, memberCount: nat, levelCap: nat,
                    levels: seq<Level>, name: string)
    requires MergeLeaderPublic(leader, c, memberCount, levelCap, levels, name).Ok?
    ensures var attrs := LeaderAttributes(leader);
            && XpValue(attrs).Ok? && HasTrait(attrs, LVL) && ParseU16(FindTrait(attrs, LVL).value.value).Some?
            && var ctx := MergeCtx(XpValue(attrs).value + c.xpTotal, memberCount, c.scoreTotal, levelCap, levels,
                                   ParseU16(FindTrait(attrs, LVL).value.value).value);
               MergeAll(WithPackRank(attrs), ctx) == Ok(MergeLeaderPublic(leader, c, memberCount, levelCap, levels, name).value.1)
  {
    MergeLeaderPublicUnfold(leader, c, memberCount, levelCap, levels, name);
    var attrs := LeaderAttributes(leader);
    LeaderContextValues(attrs, c, memberCount, levelCap, levels);
  }

  /** The public extension a successful update builds, read off the leader's
      stored attributes: the pack's name, every XP trait holding the leader's
      old experience plus the members', and traits the build does not count
      kept, with "Pack Rank" possibly appended. */
  lemma MergeLeaderAttributes(leader: Dossier, c: Collected, memberCount: nat, levelCap: nat,
                              levels: seq<Level>, name: string)
    requires MergeLeaderPublic(leader, c, memberCount, levelCap, levels, name).Ok?
    ensures var r := MergeLeaderPublic(leader, c, memberCount, levelCap, levels, name).value;
            var attrs := LeaderAttributes(leader);
            && XpValue(attrs).Ok?
            && r.0.name == Some(name)
            && r.0.attributes == Some(r.1.attrs) && |r.1.attrs| == |WithPackRank(attrs)|
            && (forall i | 0 <= i < |attrs| && IsType(attrs[i], XP) ::
                  r.1.attrs[i].value == Format(XpValue(attrs).value + c.xpTotal))
            && (forall i | 0 <= i < |attrs| && !IsCounter(attrs[i]) :: r.1.attrs[i] == attrs[i])
  {
    MergeLeaderPublicUnfold(leader, c, memberCount, levelCap, levels, name);
    LeaderMerge(leader, c, memberCount, levelCap, levels, name);
    var attrs := LeaderAttributes(leader);
    var before := WithPackRank(attrs);
    var ctx := MergeCtx(XpValue(attrs).value + c.xpTotal, memberCount, c.scoreTotal, levelCap, levels,
                        ParseU16(FindTrait(attrs, LVL).value.value).value);
    MergeRewrites(before, ctx);
    forall i | 0 <= i < |attrs| ensures before[i] == attrs[i] {
    }
  }

  /** The media a successful public update writes: the members' files after
      the leader's own, or the list untouched when there are none. */
  lemma MergeLeaderPublicMedia(leader: Dossier, c: Collected, memberCount: nat, levelCap: nat,
                               levels: seq<Level>, name: string)
    requires MergeLeaderPublic(leader, c, memberCount, levelCap, levels, name).Ok?
    ensures var ext := EditableExtension(leader.publicMetadata);
            var media := MergeLeaderPublic(leader, c, memberCount, levelCap, levels, name).value.0.media;
            && ext.Ok?
            && (c.publicMedia == [] ==> media == ext.value.media)
            && (c.publicMedia != [] ==> media == Some(MediaOf(leader.publicMetadata) + c.publicMedia))
  {
    MergeLeaderPublicUnfold(leader, c, memberCount, levelCap, levels, name);
  }

  /** A successful private update appends the members' files after the
      leader's own and changes nothing else. */
  lemma MergeLeaderPrivateValues(leader: Dossier, c: Collected)
    requires MergeLeaderPrivate(leader, c).Ok?
    ensures var ext := EditableExtension(leader.privateMetadata);
            var r := MergeLeaderPrivate(leader, c).value;
            && ext.Ok?
            && (c.privateMedia == [] ==> r == ext.value)
            && (c.privateMedia != [] ==> r == ext.value.(media := Some(MediaOf(leader.privateMetadata) + c.privateMedia)))
  {
  }

  /** The leaderboard values a successful update computes, read off the
      leader's stored attributes: "Pack Rank" the members' score on top of the
      last stored rank (the score alone when the trait was missing); "Pack"
      the member count on top of the last stored size (0 when the leader has
      no "Pack" trait). */
  lemma MergeLeaderCounters(leader: Dossier, c: Collected, memberCount: nat, levelCap: nat,
                            levels: seq<Level>, name: string)
    requires MergeLeaderPublic(leader, c, memberCount, levelCap, levels, name).Ok?
    ensures var m := MergeLeaderPublic(leader, c, memberCount, levelCap, levels, name).value.1;
            var attrs := LeaderAttributes(leader);
            && (!HasTrait(attrs, PACK_RANK) ==> m.packRank == c.scoreTotal)
            && (HasTrait(attrs, PACK_RANK) ==>
                  LastNumber(attrs, PACK_RANK, U32_MAX).Some?
                  && m.packRank == c.scoreTotal + LastNumber(attrs, PACK_RANK, U32_MAX).value)
            && (!HasTrait(attrs, PACK) ==> m.packSize == 0)
            && (HasTrait(attrs, PACK) ==>
                  LastNumber(attrs, PACK, U16_MAX).Some?
                  && m.packSize == memberCount + LastNumber(attrs, PACK, U16_MAX).value)
  {
    LeaderMerge(leader, c, memberCount, levelCap, levels, name);
    var attrs := LeaderAttributes(leader);
    var ctx := MergeCtx(XpValue(attrs).value + c.xpTotal, memberCount, c.scoreTotal, levelCap, levels,
                        ParseU16(FindTrait(attrs, LVL).value.value).value);
    MergePackRank(attrs, ctx);
    MergePackSize(WithPackRank(attrs), ctx);
    WithPackRankKeepsPack(attrs);
  }

  /** Ensuring "Pack Rank" does not change which trait is the last "Pack". */
  lemma WithPackRankKeepsPack(attrs: seq<Trait>)
    ensures HasTrait(WithPackRank(attrs), PACK) == HasTrait(attrs, PACK)
    ensures LastTraitIndex(WithPackRank(attrs), PACK) == LastTraitIndex(attrs, PACK)
  {
    var before := WithPackRank(attrs);
    if before != attrs {
      assert before == attrs + [ZERO_PACK_RANK];
      assert before[..|attrs|] == attrs;
      assert !IsType(before[|attrs|], PACK);
      if HasTrait(before, PACK) {
        var i :| 0 <= i < |before| && IsType(before[i], PACK);
        assert i < |attrs| && IsType(attrs[i], PACK);
      }
    }
  }

  /** What a successful build required: the account had paid (or payment
      was off and it was listed anyway), the leader was among the tokens
      sent, the tokens came from the NFT contract, every member passed the
      member checks, and the leader is an Alpha. */
  lemma JoinPackChecks(s: Store, registry: Registry, sender: Addr, from: Addr, tokenIds: seq<TokenId>,
                       msg: PackBuildMsg, now: nat)
    requires JoinPackStep(s, registry, sender, from, tokenIds, msg, now).Ok?
    ensures from in s.paid
    ensures msg.mainTokenId in tokenIds
    ensures sender == s.config.nftContract
    ensures var ids := SplitMain(tokenIds, msg.mainTokenId).value;
            && Collect(s, registry, ids).Ok?
            && |Collect(s, registry, ids).value.newMembers| == |ids|
            && forall i | 0 <= i < |ids| :: Accepted(s, registry, ids[i], Collect(s, registry, ids).value.newMembers[i])
    ensures msg.mainTokenId in registry
    ensures var ext := EditableExtension(registry[msg.mainTokenId].publicMetadata);
            ext.Ok? && ext.value.attributes.Some? && HasTrait(ext.value.attributes.value, ALPHA)
  {
    JoinPackUnfold(s, registry, sender, from, tokenIds, msg, now);
    var ids := SplitMain(tokenIds, msg.mainTokenId).value;
    var paid := ConsumePayment(s.config.isPaymentNeeded, s.paid, from).value;
    var c := Collect(s, registry, ids).value;
    CollectShape(s, registry, ids);
    JoinLeaderUnfold(s, registry, from, ids, msg, now, paid, c);
    MergeLeaderPublicUnfold(registry[msg.mainTokenId], c, AsU16(|ids|), s.config.levelCap, s.levels, msg.name);
  }

  /** A build takes the account off the paid list, exactly once: a second
      build needs a second payment. */
  lemma JoinPackConsumesPayment(s: Store, registry: Registry, sender: Addr, from: Addr, tokenIds: seq<TokenId>,
                                msg: PackBuildMsg, now: nat)
    requires NoDup(s.paid)
    requires JoinPackStep(s, registry, sender, from, tokenIds, msg, now).Ok?
    ensures var s' := JoinPackStep(s, registry, sender, from, tokenIds, msg, now).value.0;
            && from !in s'.paid && NoDup(s'.paid)
            && multiset(s'.paid) + multiset{from} == multiset(s.paid)
  {
    JoinPackUnfold(s, registry, sender, from, tokenIds, msg, now);
    ConsumeExactlyOnce(s.config.isPaymentNeeded, s.paid, from);
    var ids := SplitMain(tokenIds, msg.mainTokenId).value;
    var paid := ConsumePayment(s.config.isPaymentNeeded, s.paid, from).value;
    JoinLeaderUnfold(s, registry, from, ids, msg, now, paid, Collect(s, registry, ids).value);
  }

  /** The members are appended, in the order sent, after the leader's
      existing ones; no other leader's list changes. */
  lemma JoinPackMembers(s: Store, registry: Registry, sender: Addr, from: Addr, tokenIds: seq<TokenId>,
                        msg: PackBuildMsg, now: nat)
    requires JoinPackStep(s, registry, sender, from, tokenIds, msg, now).Ok?
    ensures var s' := JoinPackStep(s, registry, sender, from, tokenIds, msg, now).value.0;
            var main := msg.mainTokenId;
            var ids := SplitMain(tokenIds, main).value;
            && Collect(s, registry, ids).Ok?
            && MembersOf(s'.members, main) == MembersOf(s.members, main) + Collect(s, registry, ids).value.newMembers
            && |MembersOf(s'.members, main)| == |MembersOf(s.members, main)| + |tokenIds| - 1
            && (forall id | id != main :: MembersOf(s'.members, id) == MembersOf(s.members, id))
  {
    JoinPackUnfold(s, registry, sender, from, tokenIds, msg, now);
    var ids := SplitMain(tokenIds, msg.mainTokenId).value;
    var paid := ConsumePayment(s.config.isPaymentNeeded, s.paid, from).value;
    var c := Collect(s, registry, ids).value;
    CollectShape(s, registry, ids);
    JoinLeaderUnfold(s, registry, from, ids, msg, now, paid, c);
    if ids == [] {
      assert c.newMembers == [];
    }
  }

  /** The leader gets its leaderboard row under the pack's name, the account
      one more history entry, and the burn counter the number of members
      (truncated to a `u16`, as `len() as u16` does);
      nothing else in those stores, and neither the rank pool nor the level
      table, changes. */
  lemma JoinPackRecords(s: Store, registry: Registry, sender: Addr, from: Addr, tokenIds: seq<TokenId>,
                        msg: PackBuildMsg, now: nat)
    requires JoinPackStep(s, registry, sender, from, tokenIds, msg, now).Ok?
    ensures var s' := JoinPackStep(s, registry, sender, from, tokenIds, msg, now).value.0;
            var main := msg.mainTokenId;
            var ids := SplitMain(tokenIds, main).value;
            && main in s'.packMain && s'.packMain[main].tokenId == main && s'.packMain[main].name == msg.name
            && (forall id | id != main && id in s.packMain :: id in s'.packMain && s'.packMain[id] == s.packMain[id])
            && HistoryOf(s'.history, from) == HistoryOf(s.history, from) + [HistoryToken(main, ids, Some(now))]
            && (forall a | a != from :: HistoryOf(s'.history, a) == HistoryOf(s.history, a))
            && s'.config == s.config.(totalBurned := s.config.totalBurned + AsU16(|tokenIds| - 1))
            && s'.ranks == s.ranks && s'.levels == s.levels
  {
    JoinPackUnfold(s, registry, sender, from, tokenIds, msg, now);
    var ids := SplitMain(tokenIds, msg.mainTokenId).value;
    var paid := ConsumePayment(s.config.isPaymentNeeded, s.paid, from).value;
    JoinLeaderUnfold(s, registry, from, ids, msg, now, paid, Collect(s, registry, ids).value);
  }

  /** The commands, in order: burn the members, write the leader's new
      metadata, send the leader back to the account. */
  lemma JoinPackCommands(s: Store, registry: Registry, sender: Addr, from: Addr, tokenIds: seq<TokenId>,
                         msg: PackBuildMsg, now: nat)
    requires JoinPackStep(s, registry, sender, from, tokenIds, msg, now).Ok?
    ensures var resp := JoinPackStep(s, registry, sender, from, tokenIds, msg, now).value.1;
            var ids := SplitMain(tokenIds, msg.mainTokenId).value;
            && |resp.messages| == 3
            && resp.messages[0] == BurnNfts(ids)
            && resp.messages[1].SetMetadata? && resp.messages[1].tokenId == msg.mainTokenId
            && resp.messages[2] == TransferNft(from, msg.mainTokenId)
            && multiset(ids) + multiset{msg.mainTokenId} == multiset(tokenIds)
  {
  }

  /** The leader's leaderboard row: the pack's name, the members' rank score
      on top of the leader's last stored "Pack Rank" (the score alone when it
      had none), and the member count on top of its last stored "Pack" (0 when
      it has no "Pack" trait). */
  lemma JoinPackRow(s: Store, registry: Registry, sender: Addr, from: Addr, tokenIds: seq<TokenId>,
                    msg: PackBuildMsg, now: nat)
    requires JoinPackStep(s, registry, sender, from, tokenIds, msg, now).Ok?
    ensures var s' := JoinPackStep(s, registry, sender, from, tokenIds, msg, now).value.0;
            var main := msg.mainTokenId;
            var ids := SplitMain(tokenIds, main).value;
            && Collect(s, registry, ids).Ok? && main in registry && main in s'.packMain
            && var score := ScoreSum(Collect(s, registry, ids).value.newMembers, s.config.collectionSize);
               var attrs := LeaderAttributes(registry[main]);
               var row := s'.packMain[main];
               && row.tokenId == main && row.name == msg.name
               && (!HasTrait(attrs, PACK_RANK) ==> row.packRank == score)
               && (HasTrait(attrs, PACK_RANK) ==>
                     LastNumber(attrs, PACK_RANK, U32_MAX).Some?
                     && row.packRank == score + LastNumber(attrs, PACK_RANK, U32_MAX).value)
               && (!HasTrait(attrs, PACK) ==> row.packCount == 0)
               && (HasTrait(attrs, PACK) ==>
                     LastNumber(attrs, PACK, U16_MAX).Some?
                     && row.packCount == AsU16(|tokenIds| - 1) + LastNumber(attrs, PACK, U16_MAX).value)
  {
    JoinPackUnfold(s, registry, sender, from, tokenIds, msg, now);
    var main := msg.mainTokenId;
    var ids := SplitMain(tokenIds, main).value;
    var paid := ConsumePayment(s.config.isPaymentNeeded, s.paid, from).value;
    var c := Collect(s, registry, ids).value;
    CollectTotals(s, registry, ids);
    JoinLeaderUnfold(s, registry, from, ids, msg, now, paid, c);
    var update := MergeLeaderPublic(registry[main], c, AsU16(|ids|), s.config.levelCap, s.levels, msg.name).value;
    MergeLeaderCounters(registry[main], c, AsU16(|ids|), s.config.levelCap, s.levels, msg.name);
    var s' := JoinPackStep(s, registry, sender, from, tokenIds, msg, now).value.0;
    assert s'.packMain[main] == PackMain(main, update.1.packRank, update.1.packSize, msg.name);
  }

  /** The metadata command of a successful call carries the two extensions
      the leader update built from the collected members. */
  lemma JoinPackSetMetadata(s: Store, registry: Registry, sender: Addr, from: Addr, tokenIds: seq<TokenId>,
                            msg: PackBuildMsg, now: nat)
    requires JoinPackStep(s, registry, sender, from, tokenIds, msg, now).Ok?
    ensures var main := msg.mainTokenId;
            var ids := SplitMain(tokenIds, main).value;
            && Collect(s, registry, ids).Ok? && main in registry
            && var c := Collect(s, registry, ids).value;
               var update := MergeLeaderPublic(registry[main], c, AsU16(|ids|), s.config.levelCap, s.levels, msg.name);
               var privateExt := MergeLeaderPrivate(registry[main], c);
               && update.Ok? && privateExt.Ok?
               && JoinPackStep(s, registry, sender, from, tokenIds, msg, now).value.1.messages
                  == [BurnNfts(ids), SetMetadata(main, update.value.0, privateExt.value), TransferNft(from, main)]
  {
    JoinPackUnfold(s, registry, sender, from, tokenIds, msg, now);
    var ids := SplitMain(tokenIds, msg.mainTokenId).value;
    var paid := ConsumePayment(s.config.isPaymentNeeded, s.paid, from).value;
    JoinLeaderUnfold(s, registry, from, ids, msg, now, paid, Collect(s, registry, ids).value);
  }

  /** The leader's new public metadata carries the pack's name, and each
      member's first public file appended to the leader's media in the order
      sent. */
  lemma JoinPackPublicMedia(s: Store, registry: Registry, sender: Addr, from: Addr, tokenIds: seq<TokenId>,
                            msg: PackBuildMsg, now: nat)
    requires JoinPackStep(s, registry, sender, from, tokenIds, msg, now).Ok?
    ensures var cmd := JoinPackStep(s, registry, sender, from, tokenIds, msg, now).value.1.messages[1];
            var main := msg.mainTokenId;
            var ids := SplitMain(tokenIds, main).value;
            && Collect(s, registry, ids).Ok? && main in registry
            && var c := Collect(s, registry, ids).value;
               var leader := registry[main];
               && EditableExtension(leader.publicMetadata).Ok?
               && cmd.SetMetadata? && cmd.tokenId == main
               && cmd.publicExtension.name == Some(msg.name)
               && |c.publicMedia| == |ids|
               && (forall i | 0 <= i < |ids| ::
                     ids[i] in registry && FirstMedia(registry[ids[i]].publicMetadata) == Ok(c.publicMedia[i]))
               && (ids == [] ==> cmd.publicExtension.media == EditableExtension(leader.publicMetadata).value.media)
               && (ids != [] ==> cmd.publicExtension.media == Some(MediaOf(leader.publicMetadata) + c.publicMedia))
  {
    JoinPackSetMetadata(s, registry, sender, from, tokenIds, msg, now);
    var main := msg.mainTokenId;
    var ids := SplitMain(tokenIds, main).value;
    var c := Collect(s, registry, ids).value;
    CollectMedia(s, registry, ids);
    var leader := registry[main];
    var n := AsU16(|ids|);
    MergeLeaderPublicUnfold(leader, c, n, s.config.levelCap, s.levels, msg.name);
    MergeLeaderPublicMedia(leader, c, n, s.config.levelCap, s.levels, msg.name);
    var cmd := JoinPackStep(s, registry, sender, from, tokenIds, msg, now).value.1.messages[1];
    assert cmd.publicExtension == MergeLeaderPublic(leader, c, n, s.config.levelCap, s.levels, msg.name).value.0;
    assert ids == [] <==> c.publicMedia == [];
  }

  /** The leader's new public attributes: every XP trait holds the leader's
      old experience plus the members', the traits the build does not count
      are kept, and at most a "Pack Rank" trait is added. */
  lemma JoinPackAttributes(s: Store, registry: Registry, sender: Addr, from: Addr, tokenIds: seq<TokenId>,
                           msg: PackBuildMsg, now: nat)
    requires JoinPackStep(s, registry, sender, from, tokenIds, msg, now).Ok?
    ensures var cmd := JoinPackStep(s, registry, sender, from, tokenIds, msg, now).value.1.messages[1];
            var main := msg.mainTokenId;
            var ids := SplitMain(tokenIds, main).value;
            && Collect(s, registry, ids).Ok? && main in registry
            && var members := Collect(s, registry, ids).value.newMembers;
               var attrs := LeaderAttributes(registry[main]);
               && XpValue(attrs).Ok?
               && cmd.SetMetadata? && cmd.publicExtension.attributes.Some?
               && var after := cmd.publicExtension.attributes.value;
                  && |after| == |WithPackRank(attrs)|
                  && (forall i | 0 <= i < |attrs| && IsType(attrs[i], XP) ::
                        after[i].value == Format(XpValue(attrs).value + XpSum(members)))
                  && (forall i | 0 <= i < |attrs| && !IsCounter(attrs[i]) :: after[i] == attrs[i])
  {
    JoinPackSetMetadata(s, registry, sender, from, tokenIds, msg, now);
    var main := msg.mainTokenId;
    var ids := SplitMain(tokenIds, main).value;
    var c := Collect(s, registry, ids).value;
    CollectTotals(s, registry, ids);
    var leader := registry[main];
    var n := AsU16(|ids|);
    MergeLeaderAttributes(leader, c, n, s.config.levelCap, s.levels, msg.name);
    var update := MergeLeaderPublic(leader, c, n, s.config.levelCap, s.levels, msg.name).value;
    var cmd := JoinPackStep(s, registry, sender, from, tokenIds, msg, now).value.1.messages[1];
    assert cmd.publicExtension.attributes == Some(update.1.attrs);
    var attrs := LeaderAttributes(leader);
    var newXp := XpValue(attrs).value + c.xpTotal;
    assert newXp == XpValue(attrs).value + XpSum(c.newMembers);
    forall i | 0 <= i < |attrs| && IsType(attrs[i], XP)
      ensures update.1.attrs[i].value == Format(newXp)
    {
    }
  }

  /** The leader's new private metadata: each member's first private file
      appended to the leader's private media in the order sent, and nothing
      else changed. */
  lemma JoinPackPrivateMetadata(s: Store, registry: Registry, sender: Addr, from: Addr, tokenIds: seq<TokenId>,
                                msg: PackBuildMsg, now: nat)
    requires JoinPackStep(s, registry, sender, from, tokenIds, msg, now).Ok?
    ensures var cmd := JoinPackStep(s, registry, sender, from, tokenIds, msg, now).value.1.messages[1];
            var main := msg.mainTokenId;
            var ids := SplitMain(tokenIds, main).value;
            && Collect(s, registry, ids).Ok? && main in registry
            && var c := Collect(s, registry, ids).value;
               var leader := registry[main];
               && EditableExtension(leader.privateMetadata).Ok?
               && cmd.SetMetadata? && cmd.tokenId == main
               && var oldPriv := EditableExtension(leader.privateMetadata).value;
                  && |c.privateMedia| == |ids|
                  && (forall i | 0 <= i < |ids| :: ids[i] in registry && FirstMedia(registry[ids[i]].privateMetadata) == Ok(c.privateMedia[i]))
                  && (ids == [] ==> cmd.privateExtension == oldPriv)
                  && (ids != [] ==>
                        cmd.privateExtension == oldPriv.(media := Some(MediaOf(leader.privateMetadata) + c.privateMedia)))
  {
    JoinPackSetMetadata(s, registry, sender, from, tokenIds, msg, now);
    var main := msg.mainTokenId;
    var ids := SplitMain(tokenIds, main).value;
    var c := Collect(s, registry, ids).value;
    CollectMedia(s, registry, ids);
    MergeLeaderPrivateValues(registry[main], c);
    var cmd := JoinPackStep(s, registry, sender, from, tokenIds, msg, now).value.1.messages[1];
    assert cmd.privateExtension == MergeLeaderPrivate(registry[main], c).value;
    assert ids == [] <==> c.privateMedia == [];
  }

  /** The leaderboard values a public update computes fit their widths. */
  lemma MergedFits(leader: Dossier, c: Collected, memberCount: nat, levelCap: nat,
                   levels: seq<Level>, name: string)
    requires MergeLeaderPublic(leader, c, memberCount, levelCap, levels, name).Ok?
    ensures var m := MergeLeaderPublic(leader, c, memberCount, levelCap, levels, name).value.1;
            m.packSize <= U16_MAX && m.packRank <= U32_MAX
  {
    MergeLeaderPublicUnfold(leader, c, memberCount, levelCap, levels, name);
    var attrs := EditableExtension(leader.publicMetadata).value.attributes.value;
    var ctx := LeaderContext(attrs, c, memberCount, levelCap, levels).value;
    MergeAllPackSize(WithPackRank(attrs), ctx);
    MergeAllPackRank(WithPackRank(attrs), ctx);
  }

  /** The leader's new leaderboard row and the new burn counter fit their widths. */
  lemma JoinPackFits(s: Store, registry: Registry, sender: Addr, from: Addr, tokenIds: seq<TokenId>,
                     msg: PackBuildMsg, now: nat)
    requires JoinPackStep(s, registry, sender, from, tokenIds, msg, now).Ok?
    ensures var s' := JoinPackStep(s, registry, sender, from, tokenIds, msg, now).value.0;
            && msg.mainTokenId in s'.packMain
            && s'.packMain[msg.mainTokenId].packRank <= U32_MAX
            && s'.packMain[msg.mainTokenId].packCount <= U16_MAX
            && s'.config.totalBurned <= U16_MAX
  {
    JoinPackUnfold(s, registry, sender, from, tokenIds, msg, now);
    var ids := SplitMain(tokenIds, msg.mainTokenId).value;
    var paid := ConsumePayment(s.config.isPaymentNeeded, s.paid, from).value;
    var c := Collect(s, registry, ids).value;
    JoinLeaderUnfold(s, registry, from, ids, msg, now, paid, c);
    MergedFits(registry[msg.mainTokenId], c, AsU16(|ids|), s.config.levelCap, s.levels, msg.name);
  }

  /** A build keeps the store well formed: the paid list stays free of
      duplicates, no Alpha becomes a member, the leaderboard row and the
      burn counter fit their widths. */
  lemma JoinPreservesWellFormed(s: Store, registry: Registry, sender: Addr, from: Addr, tokenIds: seq<TokenId>,
                                msg: PackBuildMsg, now: nat)
    requires WellFormed(s)
    requires JoinPackStep(s, registry, sender, from, tokenIds, msg, now).Ok?
    ensures WellFormed(JoinPackStep(s, registry, sender, from, tokenIds, msg, now).value.0)
  {
    var s' := JoinPackStep(s, registry, sender, from, tokenIds, msg, now).value.0;
    var main := msg.mainTokenId;
    var ids := SplitMain(tokenIds, main).value;
    JoinPackConsumesPayment(s, registry, sender, from, tokenIds, msg, now);
    JoinPackChecks(s, registry, sender, from, tokenIds, msg, now);
    JoinPackMembers(s, registry, sender, from, tokenIds, msg, now);
    JoinPackRecords(s, registry, sender, from, tokenIds, msg, now);
    JoinPackFits(s, registry, sender, from, tokenIds, msg, now);
    var added := Collect(s, registry, ids).value.newMembers;
    assert forall k | 0 <= k < |added| :: !HasTrait(added[k].attributes, ALPHA) by {
      forall k | 0 <= k < |added| ensures !HasTrait(added[k].attributes, ALPHA) {
        assert Accepted(s, registry, ids[k], added[k]);
      }
    }
    AppendKeepsNoAlpha(s.members, s'.members, main, added);
  }

  /** Appending non-Alpha members to one leader's list keeps every list free of Alphas. */
  lemma AppendKeepsNoAlpha(before: map<TokenId, seq<PackMember>>, after: map<TokenId, seq<PackMember>>,
                           main: TokenId, added: seq<PackMember>)
    requires NoAlphaMembers(before)
    requires forall k | 0 <= k < |added| :: !HasTrait(added[k].attributes, ALPHA)
    requires MembersOf(after, main) == MembersOf(before, main) + added
    requires forall id | id != main :: MembersOf(after, id) == MembersOf(before, id)
    ensures NoAlphaMembers(after)
  {
    forall id, i | id in after && 0 <= i < |after[id]|
      ensures !HasTrait(after[id][i].attributes, ALPHA)
    {
      assert after[id] == MembersOf(after, id);
      if id == main && i >= |MembersOf(before, main)| {
        assert after[id][i] == added[i - |MembersOf(before, main)|];
      } else {
        assert after[id][i] == MembersOf(before, id)[i];
      }
    }
  }

  /** The payment a build consumes is gone: the same account's next build
      fails at the payment check, whatever it sends. */
  lemma JoinTwiceFails(s: Store, registry: Registry, sender: Addr, from: Addr, tokenIds: seq<TokenId>,
                       msg: PackBuildMsg, now: nat,
                       registry2: Registry, sender2: Addr, tokenIds2: seq<TokenId>, msg2: PackBuildMsg, now2: nat)
    requires NoDup(s.paid)
    requires JoinPackStep(s, registry, sender, from, tokenIds, msg, now).Ok?
    ensures var s' := JoinPackStep(s, registry, sender, from, tokenIds, msg, now).value.0;
            JoinPackStep(s', registry2, sender2, from, tokenIds2, msg2, now2)
              == Err(if s.config.isPaymentNeeded then PaymentNotReceived else Panicked(MissingValue))
  {
    JoinPackConsumesPayment(s, registry, sender, from, tokenIds, msg, now);
    JoinPackRecords(s, registry, sender, from, tokenIds, msg, now);
  }
}
