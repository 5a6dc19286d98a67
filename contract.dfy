/** The contract as an object: its storage items are fields, and each
    execute handler is a method that checks first and then writes, so that
    the fields change only when the handler succeeds (the call is one
    transaction). Each method is proved to leave exactly the store its step
    function describes and to keep the store well formed. */
module Contract {
  import opened Outcome
  import opened Decimal
  import opened Seqs
  import opened Nft
  import opened Levels
  import opened PackState
  import opened Payment
  import opened Merge
  import opened Join
  import opened Relocate
  import opened Queries
  import opened Execute

  class PackBuilder {
    var config: Config
    var levels: seq<Level>
    var paid: seq<Addr>
    var ranks: map<TokenId, nat>
    var members: map<TokenId, seq<PackMember>>
    var packMain: map<TokenId, PackMain>
    var history: map<Addr, seq<HistoryToken>>

    /** The storage as one value. */
    function Snapshot(): Store
      reads this
    {
      Store(config, levels, paid, ranks, members, packMain, history)
    }

    predicate Valid()
      reads this
    {
      WellFormed(Snapshot())
    }

    /** `instantiate`: the settings, the level table and the rank pool from
        the message; no payments, packs or history. */
    constructor(m: InstantiateMsg, owner: Addr)
      requires InstantiateFits(m)
      ensures Snapshot() == InitialStore(m, owner)
      ensures Valid()
    {
      config := Config(owner, m.nftContract, m.isPaymentNeeded, m.validPayments, m.receivingAddress,
                       0, m.packMax, m.collectionSize, m.levelCap);
      levels := m.levels;
      paid := [];
      ranks := RankTable(m.ranks);
      members := map[];
      packMain := map[];
      history := map[];
    }

    /** `receive`. */
    method Receive(tokenContract: Addr, sender: Addr, amount: nat) returns (r: Result<Response>)
      requires Valid()
      modifies this
      ensures Valid()
      ensures r == Reply(ReceiveStep(old(Snapshot()), tokenContract, sender, amount))
      ensures Snapshot() == Committed(old(Snapshot()), ReceiveStep(old(Snapshot()), tokenContract, sender, amount))
    {
      ghost var s := Snapshot();
      var contracts :- Unwrap(config.validPayments);
      var found := FindPayment(contracts, tokenContract);
      if found.None? {
        return Err(NotPaymentContract);
      }
      if found.value.paymentNeeded != amount {
        return Err(WrongAmount);
      }
      if sender in paid {
        return Err(AlreadyBuilding);
      }
      paid := paid + [sender];
      r := Ok(Response([PaymentTransfer(found.value.address, config.receivingAddress, amount)], []));
      ReceiveKeepsNoDup(s, tokenContract, sender, amount);
    }

    /** `join_pack`. */
    method JoinPack(registry: Registry, sender: Addr, from: Addr, tokenIds: seq<TokenId>, msg: PackBuildMsg,
                    now: nat) returns (r: Result<Response>)
      requires Valid()
      modifies this
      ensures Valid()
      ensures r == Reply(JoinPackStep(old(Snapshot()), registry, sender, from, tokenIds, msg, now))
      ensures Snapshot() == Committed(old(Snapshot()), JoinPackStep(old(Snapshot()), registry, sender, from, tokenIds, msg, now))
    {
      ghost var s := Snapshot();
      var checked :- JoinChecks(registry, sender, from, tokenIds, msg, now);
      var (newPaid, ids, c) := checked;
      var update :- LeaderUpdate(registry, from, ids, msg, now, newPaid, c);
      var (burned, publicExt, merged, privateExt) := update;
      ghost var post := JoinCommit(s, from, ids, msg, now, newPaid, c, burned, publicExt, merged, privateExt);
      assert JoinPackStep(s, registry, sender, from, tokenIds, msg, now) == Ok(post);
      JoinPreservesWellFormed(s, registry, sender, from, tokenIds, msg, now);
      var response := WriteJoin(from, ids, msg, now, newPaid, c, burned, publicExt, merged, privateExt);
      r := Ok(response);
      assert Snapshot() == post.0 && r == Ok(post.1);
    }

    /** The writes of a build whose checks all passed: the burn counter,
        the paid list, the member list, the leaderboard row and the history. */
    method WriteJoin(from: Addr, ids: seq<TokenId>, msg: PackBuildMsg, now: nat, newPaid: seq<Addr>, c: Collected,
                     burned: nat, publicExt: Extension, merged: Merged, privateExt: Extension)
      returns (response: Response)
      modifies this
      ensures (Snapshot(), response)
           == JoinCommit(old(Snapshot()), from, ids, msg, now, newPaid, c, burned, publicExt, merged, privateExt)
    {
      var main := msg.mainTokenId;
      config := config.(totalBurned := burned);
      paid := newPaid;
      if ids != [] {
        members := members[main := MembersOf(members, main) + c.newMembers];
      }
      packMain := packMain[main := PackMain(main, merged.packRank, merged.packSize, msg.name)];
      history := AppendHistory(history, from, HistoryToken(main, ids, Some(now)));
      response := Response([BurnNfts(ids), SetMetadata(main, publicExt, privateExt), TransferNft(from, main)],
                           merged.events);
    }

    /** The part of `join_pack` up to the member loop: the payment is
        consumed, the leader is split from the list, the sender is the NFT
        contract, and every member is collected. */
    method JoinChecks(registry: Registry, sender: Addr, from: Addr, tokenIds: seq<TokenId>, msg: PackBuildMsg,
                      ghost now: nat) returns (r: Result<(seq<Addr>, seq<TokenId>, Collected)>)
      ensures r.Err? ==> JoinPackStep(Snapshot(), registry, sender, from, tokenIds, msg, now) == Err(r.error)
      ensures r.Ok? ==>
                (JoinPackStep(Snapshot(), registry, sender, from, tokenIds, msg, now)
                 == JoinLeader(Snapshot(), registry, from, r.value.1, msg, now, r.value.0, r.value.2))
    {
      var newPaid :- ConsumePayment(config.isPaymentNeeded, paid, from);
      var ids :- SplitMain(tokenIds, msg.mainTokenId);
      if sender != config.nftContract {
        return Err(NotNftContract);
      }
      var c :- CollectMembers(Snapshot(), registry, ids);
      return Ok((newPaid, ids, c));
    }

    /** The part of `join_pack` after the member loop: the leader's lookup,
        the burn counter and both extensions, computed before anything is
        written. */
    method LeaderUpdate(registry: Registry, ghost from: Addr, ids: seq<TokenId>, msg: PackBuildMsg, ghost now: nat,
                        ghost newPaid: seq<Addr>, c: Collected)
      returns (r: Result<(nat, Extension, Merged, Extension)>)
      ensures r.Err? ==> JoinLeader(Snapshot(), registry, from, ids, msg, now, newPaid, c) == Err(r.error)
      ensures r.Ok? ==>
                (JoinLeader(Snapshot(), registry, from, ids, msg, now, newPaid, c)
                 == Ok(JoinCommit(Snapshot(), from, ids, msg, now, newPaid, c, r.value.0, r.value.1, r.value.2, r.value.3)))
    {
      var leader :- Query(registry, msg.mainTokenId);
      var burned :- CheckedAdd(config.totalBurned, AsU16(|ids|), U16_MAX);
      var update :- PublicUpdate(leader, c, AsU16(|ids|), msg.name);
      var privateExt :- PrivateUpdate(leader, c);
      return Ok((burned, update.0, update.1, privateExt));
    }

    /** The leader's public update in the order the handler makes it: name,
        appended media, the Alpha check, the XP and LVL reads, "Pack Rank"
        created when missing, and the attribute loop. */
    method PublicUpdate(leader: Dossier, c: Collected, memberCount: nat, name: string)
      returns (r: Result<(Extension, Merged)>)
      ensures r == MergeLeaderPublic(leader, c, memberCount, config.levelCap, levels, name)
    {
      var ext :- EditableExtension(leader.publicMetadata);
      var media :- AppendMedia(ext.media, c.publicMedia);
      var attrs :- Unwrap(ext.attributes);
      if !HasTrait(attrs, ALPHA) {
        return Err(MainNotAlpha);
      }
      var ctx :- LeaderContext(attrs, c, memberCount, config.levelCap, levels);
      var merged :- MergeAttributes(WithPackRank(attrs), ctx);
      return Ok((Extension(Some(name), Some(merged.attrs), media), merged));
    }

    /** The leader's private update: the members' private media appended. */
    method PrivateUpdate(leader: Dossier, c: Collected) returns (r: Result<Extension>)
      ensures r == MergeLeaderPrivate(leader, c)
    {
      var ext :- EditableExtension(leader.privateMetadata);
      var media :- AppendMedia(ext.media, c.privateMedia);
      return Ok(ext.(media := media));
    }

    /** `transfer_pack`. The member lists are written at the end, together
        with everything else, since a failing call keeps none of its writes. */
    method TransferPack(registry: Registry, sender: Addr, from: Addr, tokenIds: seq<TokenId>,
                        msg: PackTransferMsg, now: nat) returns (r: Result<Response>)
      requires Valid()
      modifies this
      ensures Valid()
      ensures r == Reply(TransferStep(old(Snapshot()), registry, sender, from, tokenIds, msg, now))
      ensures Snapshot() == Committed(old(Snapshot()), TransferStep(old(Snapshot()), registry, sender, from, tokenIds, msg, now))
    {
      ghost var s := Snapshot();
      var main := msg.mainTokenId;
      var to := msg.transferToTokenId;
      if main !in tokenIds {
        return Err(MainTokenNotInList);
      }
      if to !in tokenIds {
        return Err(TransferToTokenNotInList);
      }
      if main !in members {
        return Err(PackNotFound);
      }
      var move :- MoveMember(members[main], MembersOf(members, to), msg.tokenId);
      if sender != config.nftContract {
        return Err(NotNftContract);
      }
      var moved := MovedMembers(members, main, to, move);
      var update :- TransferUpdate(registry, moved, from, tokenIds, msg, now, move.member);
      var (rows, sourcePublic, sourcePrivate, destPublic, destShifted, destPrivate) := update;
      ghost var post := TransferCommit(s.(members := moved), from, tokenIds, msg, now, rows, sourcePublic, sourcePrivate,
                                       destPublic, destShifted, destPrivate);
      assert TransferStep(s, registry, sender, from, tokenIds, msg, now) == Ok(post);
      TransferPreservesWellFormed(s, registry, sender, from, tokenIds, msg, now);
      var response := WriteTransfer(moved, from, tokenIds, msg, now, rows, sourcePublic, sourcePrivate, destPublic,
                                    destShifted, destPrivate);
      r := Ok(response);
      assert Snapshot() == post.0 && r == Ok(post.1);
    }

    /** The writes of a transfer whose checks all passed: both member
        lists, both leaderboard rows and the account's history. */
    method WriteTransfer(moved: map<TokenId, seq<PackMember>>, from: Addr, tokenIds: seq<TokenId>, msg: PackTransferMsg,
                         now: nat, rows: map<TokenId, PackMain>, sourcePublic: Extension, sourcePrivate: Extension,
                         destPublic: Extension, destShifted: Shifted, destPrivate: Extension)
      returns (response: Response)
      modifies this
      ensures (Snapshot(), response)
           == TransferCommit(old(Snapshot()).(members := moved), from, tokenIds, msg, now, rows, sourcePublic,
                             sourcePrivate, destPublic, destShifted, destPrivate)
    {
      var main := msg.mainTokenId;
      var to := msg.transferToTokenId;
      members := moved;
      var row := if to in rows then rows[to] else PackMain(to, 0, 0, EMPTY_NAME);
      packMain := rows[to := Recount(row, destShifted)];
      history := AppendHistory(history, from, HistoryToken(to, [msg.tokenId], Some(now)));
      response := Response([SetMetadata(main, sourcePublic, sourcePrivate), SetMetadata(to, destPublic, destPrivate),
                            BatchTransferNfts(from, tokenIds)], []);
    }

    /** The part of `transfer_pack` after the member lists: both leaders'
        metadata and the source's leaderboard row, computed before anything
        is written; `moved` is what the member lists become. */
    method TransferUpdate(registry: Registry, ghost moved: map<TokenId, seq<PackMember>>, ghost from: Addr,
                          ghost tokenIds: seq<TokenId>, msg: PackTransferMsg, ghost now: nat, member: PackMember)
      returns (r: Result<(map<TokenId, PackMain>, Extension, Extension, Extension, Shifted, Extension)>)
      ensures var s1 := Snapshot().(members := moved);
              r.Err? ==> TransferLeaders(s1, registry, from, tokenIds, msg, now, member) == Err(r.error)
      ensures var s1 := Snapshot().(members := moved);
              r.Ok? ==>
                (TransferLeaders(s1, registry, from, tokenIds, msg, now, member)
                 == Ok(TransferCommit(s1, from, tokenIds, msg, now, r.value.0, r.value.1, r.value.2, r.value.3,
                                      r.value.4, r.value.5)))
    {
      var main := msg.mainTokenId;
      var cs := config.collectionSize;
      var source :- Query(registry, main);
      var dest :- Query(registry, msg.transferToTokenId);
      var sourceAttrs :- PublicAttributes(source);
      if !HasTrait(sourceAttrs, ALPHA) {
        return Err(NonAlpha);
      }
      var destAttrs :- PublicAttributes(dest);
      if !HasTrait(destAttrs, ALPHA) {
        return Err(NonAlpha);
      }
      var shrunk :- Shrink(source, msg.memberIndex, cs, member.rank);
      if main !in packMain {
        return Err(Panicked(MissingValue));
      }
      var rows := packMain[main := Recount(packMain[main], shrunk.2)];
      var sourcePrivate :- ShrinkPrivate(source, msg.memberIndex);
      var grown :- Grow(dest, shrunk.1, cs, member.rank);
      var destPrivate :- GrowPrivate(dest, sourcePrivate.1);
      return Ok((rows, shrunk.0, sourcePrivate.0, grown.0, grown.1, destPrivate));
    }

    /** The source's public update with its attribute loop run in place. */
    method Shrink(leader: Dossier, memberIndex: nat, collectionSize: nat, rank: nat)
      returns (r: Result<(Extension, MediaFile, Shifted)>)
      ensures r == ShrinkPublic(leader, memberIndex, collectionSize, rank)
    {
      var ext :- EditableExtension(leader.publicMetadata);
      var taken :- TakeMedia(ext.media, memberIndex + 1);
      var attrs :- Unwrap(ext.attributes);
      var shifted :- ShiftAttributes(attrs, Leaving, collectionSize, rank);
      return Ok((ext.(media := Some(taken.0), attributes := Some(shifted.attrs)), taken.1, shifted));
    }

    /** The destination's public update with its attribute loop run in place. */
    method Grow(leader: Dossier, file: MediaFile, collectionSize: nat, rank: nat)
      returns (r: Result<(Extension, Shifted)>)
      ensures r == GrowPublic(leader, file, collectionSize, rank)
    {
      var ext :- EditableExtension(leader.publicMetadata);
      var media :- PushMedia(ext.media, [file]);
      var attrs :- Unwrap(ext.attributes);
      var shifted :- ShiftAttributes(WithPackRank(attrs), Arriving, collectionSize, rank);
      return Ok((ext.(media := media, attributes := Some(shifted.attrs)), shifted));
    }

    /** `try_batch_receive`. */
    method BatchReceive(registry: Registry, sender: Addr, from: Addr, tokenIds: seq<TokenId>,
                        msg: Option<HandleReceiveMsg>, now: nat) returns (r: Result<Response>)
      requires Valid()
      modifies this
      ensures Valid()
      ensures r == Reply(BatchReceiveStep(old(Snapshot()), registry, sender, from, tokenIds, msg, now))
      ensures Snapshot() == Committed(old(Snapshot()), BatchReceiveStep(old(Snapshot()), registry, sender, from, tokenIds, msg, now))
    {
      match msg {
        case None =>
          r := Err(DataMissing);
        case Some(ReceivePackBuild(m)) =>
          r := JoinPack(registry, sender, from, tokenIds, m, now);
        case Some(ReceiveTransferBuild(m)) =>
          r := TransferPack(registry, sender, from, tokenIds, m, now);
      }
    }

    /** `try_send_nft_back`: reads the owner, writes nothing. */
    method SendNftBack(sender: Addr, tokenId: TokenId, owner: Addr) returns (r: Result<Response>)
      ensures r == Reply(SendNftBackStep(Snapshot(), sender, tokenId, owner))
    {
      if sender != config.owner {
        return Err(Unauthorized);
      }
      return Ok(Response([TransferNft(owner, tokenId)], []));
    }

    /** `query_pack_member_traits`, with its nested loop. */
    method QueryPackMemberTraits(mainTokenId: TokenId) returns (r: seq<Trait>)
      ensures r == PackMemberTraits(Snapshot(), mainTokenId)
    {
      var list := if mainTokenId in members then members[mainTokenId] else [];
      r := DistinctTraits(list);
    }
  }
}
