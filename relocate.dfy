/** `transfer_pack`: one member moves from the pack of one leader (the
    source) to the pack of another (the destination). The member record
    moves between the two member lists, the source's "Pack" and "Pack Rank"
    go down by one and by the member's rank score, the destination's go up
    by the same amounts, one public and one private media file move along,
    and both leaders and the sent tokens go back to the account. */
module Relocate {
  import opened Outcome
  import opened Decimal
  import opened Seqs
  import opened Nft
  import opened PackState

  /** The request: source leader, destination leader, the member that
      moves and the position of its media in the source's lists. */
  datatype PackTransferMsg = PackTransferMsg(mainTokenId: TokenId, transferToTokenId: TokenId,
                                             tokenId: TokenId, memberIndex: nat)

  // ---------------------------------------------------------------------
  // Moving the member record
  // ---------------------------------------------------------------------

  /** `iter().position(|x| x.token_id == id)` over a member list. */
  function MemberPosition(ms: seq<PackMember>, id: TokenId): (r: Option<nat>)
    ensures r.None? <==> forall k | 0 <= k < |ms| :: ms[k].tokenId != id
    ensures r.Some? ==> r.value < |ms| && ms[r.value].tokenId == id
    ensures r.Some? ==> forall k | 0 <= k < r.value :: ms[k].tokenId != id
    decreases |ms|
  {
    if ms == [] then None
    else if ms[0].tokenId == id then Some(0)
    else match MemberPosition(ms[1..], id)
      case None => None
      case Some(i) => Some(i + 1)
  }

  /** The source list without the member, the destination list with it
      appended, and the member itself. */
  datatype Move = Move(remaining: seq<PackMember>, grown: seq<PackMember>, member: PackMember)

  function MoveMember(source: seq<PackMember>, dest: seq<PackMember>, id: TokenId): Result<Move>
  {
    match MemberPosition(source, id)
    case None => Err(NotPackMember)
    case Some(i) => Ok(Move(RemoveAt(source, i), dest + [source[i]], source[i]))
  }

  /** The member stores after a move: the source's list, then the
      destination's, written in that order, so that when the two leaders
      are the same token the second write wins. */
  function MovedMembers(members: map<TokenId, seq<PackMember>>, main: TokenId, to: TokenId, m: Move)
    : map<TokenId, seq<PackMember>>
  {
    members[main := m.remaining][to := m.grown]
  }

  // ---------------------------------------------------------------------
  // The counter loops
  // ---------------------------------------------------------------------

  /** The leader the member leaves, or the one it joins. */
  datatype Direction = Leaving | Arriving

  /** What one leader's attribute loop leaves: the rewritten attributes and
      the last values written to "Pack" and "Pack Rank" (0 when there is none). */
  datatype Shifted = Shifted(attrs: seq<Trait>, packSize: nat, packRank: nat)

  predicate IsShifted(t: Trait)
  {
    IsType(t, PACK) || IsType(t, PACK_RANK)
  }

  /** A counter moved by `delta` within its width: down for the source,
      up for the destination. */
  function Shift(dir: Direction, stored: nat, delta: nat, max: nat): Result<nat>
  {
    match dir
    case Leaving => CheckedSub(stored, delta)
    case Arriving => CheckedAdd(stored, delta, max)
  }

  /** The number a "Pack" or "Pack Rank" trait is rewritten to: the stored
      size moved by one (`u16`), the stored rank moved by the member's score
      `collection_size - rank` (`u16`, then `u32`). */
  function ShiftNumber(t: Trait, dir: Direction, collectionSize: nat, rank: nat): Result<nat>
    requires IsShifted(t)
  {
    if IsType(t, PACK) then
      var stored :- ParseNumber(t.value, U16_MAX);
      Shift(dir, stored, 1, U16_MAX)
    else
      var stored :- ParseNumber(t.value, U32_MAX);
      var score :- CheckedSub(collectionSize, rank);
      Shift(dir, stored, score, U32_MAX)
  }

  /** The loop body for one attribute. */
  function ShiftTrait(acc: Shifted, t: Trait, dir: Direction, collectionSize: nat, rank: nat): Result<Shifted>
  {
    if !IsShifted(t) then Ok(acc.(attrs := acc.attrs + [t]))
    else
      var n :- ShiftNumber(t, dir, collectionSize, rank);
      Ok(Shifted(acc.attrs + [t.(value := Format(n))],
                 if IsType(t, PACK) then n else acc.packSize,
                 if IsType(t, PACK_RANK) then n else acc.packRank))
  }

  /** The attribute loop as a fold. */
  function ShiftAll(attrs: seq<Trait>, dir: Direction, collectionSize: nat, rank: nat): Result<Shifted>
    decreases |attrs|
  {
    if attrs == [] then Ok(Shifted([], 0, 0))
    else
      var acc :- ShiftAll(attrs[..|attrs| - 1], dir, collectionSize, rank);
      ShiftTrait(acc, attrs[|attrs| - 1], dir, collectionSize, rank)
  }

  lemma {:induction false} ShiftAllStopsAtError(attrs: seq<Trait>, dir: Direction, collectionSize: nat, rank: nat, n: nat)
    requires n <= |attrs|
    ensures ShiftAll(attrs[..n], dir, collectionSize, rank).Err? ==>
            ShiftAll(attrs, dir, collectionSize, rank) == ShiftAll(attrs[..n], dir, collectionSize, rank)
    decreases |attrs| - n
  {
    if n < |attrs| && ShiftAll(attrs[..n], dir, collectionSize, rank).Err? {
      ShiftAllStopsAtError(attrs[..|attrs| - 1], dir, collectionSize, rank, n);
      assert attrs[..|attrs| - 1][..n] == attrs[..n];
    } else if n == |attrs| {
      assert attrs[..n] == attrs;
    }
  }

  lemma ShiftAllSnoc(attrs: seq<Trait>, dir: Direction, collectionSize: nat, rank: nat, i: nat, acc: Shifted)
    requires i < |attrs| && ShiftAll(attrs[..i], dir, collectionSize, rank) == Ok(acc)
    ensures ShiftAll(attrs[..i + 1], dir, collectionSize, rank) == ShiftTrait(acc, attrs[i], dir, collectionSize, rank)
  {
    assert attrs[..i + 1][..i] == attrs[..i];
  }

  /** The attribute loop, rewriting the list in place. */
  method ShiftAttributes(attrs: seq<Trait>, dir: Direction, collectionSize: nat, rank: nat) returns (r: Result<Shifted>)
    ensures r == ShiftAll(attrs, dir, collectionSize, rank)
  {
    var a := attrs;
    var packSize, packRank := 0, 0;
    for i := 0 to |a|
      invariant |a| == |attrs| && forall j | i <= j < |a| :: a[j] == attrs[j]
      invariant ShiftAll(attrs[..i], dir, collectionSize, rank) == Ok(Shifted(a[..i], packSize, packRank))
    {
      ShiftAllStopsAtError(attrs, dir, collectionSize, rank, i + 1);
      ghost var acc := Shifted(a[..i], packSize, packRank);
      ShiftAllSnoc(attrs, dir, collectionSize, rank, i, acc);
      assert a[i] == attrs[i];
      var t := a[i];
      if IsShifted(t) {
        var n :- ShiftNumber(t, dir, collectionSize, rank);
        a := a[i := t.(value := Format(n))];
        if IsType(t, PACK) {
          packSize := n;
        } else {
          packRank := n;
        }
      }
      assert a[..i + 1] == acc.attrs + [a[i]];
      assert ShiftTrait(acc, t, dir, collectionSize, rank) == Ok(Shifted(acc.attrs + [a[i]], packSize, packRank));
    }
    assert attrs[..|attrs|] == attrs && a[..|a|] == a;
    return Ok(Shifted(a, packSize, packRank));
  }

  /** The fold after its last attribute, from the fold of the others. */
  lemma ShiftStep(attrs: seq<Trait>, dir: Direction, collectionSize: nat, rank: nat)
    requires attrs != [] && ShiftAll(attrs, dir, collectionSize, rank).Ok?
    ensures ShiftAll(attrs[..|attrs| - 1], dir, collectionSize, rank).Ok?
    ensures ShiftTrait(ShiftAll(attrs[..|attrs| - 1], dir, collectionSize, rank).value, attrs[|attrs| - 1],
                       dir, collectionSize, rank)
         == ShiftAll(attrs, dir, collectionSize, rank)
  {
  }

  /** The number a "Pack" or "Pack Rank" trait is rewritten to, when it can be. */
  function Moved(t: Trait, dir: Direction, collectionSize: nat, rank: nat): nat
    requires IsShifted(t)
  {
    match ShiftNumber(t, dir, collectionSize, rank)
    case Ok(n) => n
    case Err(_) => 0
  }

  /** A trait as the loop leaves it when nothing fails. */
  function ShiftedTrait(t: Trait, dir: Direction, collectionSize: nat, rank: nat): (r: Trait)
    ensures r.traitType == t.traitType && r.displayType == t.displayType && r.maxValue == t.maxValue
  {
    if IsShifted(t) && ShiftNumber(t, dir, collectionSize, rank).Ok?
    then t.(value := Format(ShiftNumber(t, dir, collectionSize, rank).value))
    else t
  }

  /** A successful loop rewrites each trait in place: the list keeps its
      length and order, and only "Pack" and "Pack Rank" values change. */
  lemma {:induction false} ShiftAllPointwise(attrs: seq<Trait>, dir: Direction, collectionSize: nat, rank: nat)
    requires ShiftAll(attrs, dir, collectionSize, rank).Ok?
    ensures var r := ShiftAll(attrs, dir, collectionSize, rank).value;
            && |r.attrs| == |attrs|
            && (forall i | 0 <= i < |attrs| :: r.attrs[i] == ShiftedTrait(attrs[i], dir, collectionSize, rank))
            && (forall i | 0 <= i < |attrs| && !IsShifted(attrs[i]) :: r.attrs[i] == attrs[i])
    decreases |attrs|
  {
    if attrs != [] {
      var prefix := attrs[..|attrs| - 1];
      ShiftStep(attrs, dir, collectionSize, rank);
      ShiftAllPointwise(prefix, dir, collectionSize, rank);
      assert forall i | 0 <= i < |prefix| :: prefix[i] == attrs[i];
    }
  }

  /** The loop succeeds exactly when every "Pack" and "Pack Rank" trait can be moved. */
  lemma {:induction false} ShiftAllSucceeds(attrs: seq<Trait>, dir: Direction, collectionSize: nat, rank: nat)
    ensures ShiftAll(attrs, dir, collectionSize, rank).Ok? <==>
            forall i | 0 <= i < |attrs| && IsShifted(attrs[i]) :: ShiftNumber(attrs[i], dir, collectionSize, rank).Ok?
    decreases |attrs|
  {
    if attrs != [] {
      var prefix := attrs[..|attrs| - 1];
      ShiftAllSucceeds(prefix, dir, collectionSize, rank);
      assert forall i | 0 <= i < |prefix| :: prefix[i] == attrs[i];
    }
  }

  /** The arithmetic a direction applies. */
  function Apply(dir: Direction, stored: nat, delta: nat): int
  {
    match dir
    case Leaving => stored - delta
    case Arriving => stored + delta
  }

  /** A moved "Pack" trait: the stored size, readable as a `u16`, one less
      or one more. */
  lemma ShiftNumberPack(t: Trait, dir: Direction, collectionSize: nat, rank: nat)
    requires IsType(t, PACK) && ShiftNumber(t, dir, collectionSize, rank).Ok?
    ensures ParseU16(t.value).Some?
    ensures ShiftNumber(t, dir, collectionSize, rank).value == Apply(dir, ParseU16(t.value).value, 1)
    ensures ShiftNumber(t, dir, collectionSize, rank).value <= U16_MAX
  {
  }

  /** A moved "Pack Rank" trait: the stored rank, readable as a `u32`,
      less or plus the member's score. */
  lemma ShiftNumberRank(t: Trait, dir: Direction, collectionSize: nat, rank: nat)
    requires IsType(t, PACK_RANK) && ShiftNumber(t, dir, collectionSize, rank).Ok?
    ensures ParseU32(t.value).Some? && rank <= collectionSize
    ensures ShiftNumber(t, dir, collectionSize, rank).value == Apply(dir, ParseU32(t.value).value, collectionSize - rank)
    ensures ShiftNumber(t, dir, collectionSize, rank).value <= U32_MAX
  {
    assert !IsType(t, PACK);
  }

  /** The pack size the loop leaves is the moved value of the last "Pack"
      trait, 0 for a leader without one. */
  lemma {:induction false} ShiftAllPackSize(attrs: seq<Trait>, dir: Direction, collectionSize: nat, rank: nat)
    requires ShiftAll(attrs, dir, collectionSize, rank).Ok?
    ensures var r := ShiftAll(attrs, dir, collectionSize, rank).value;
            r.packSize == (match LastTraitIndex(attrs, PACK)
                           case None => 0
                           case Some(i) => Moved(attrs[i], dir, collectionSize, rank))
    decreases |attrs|
  {
    if attrs != [] {
      var prefix := attrs[..|attrs| - 1];
      ShiftStep(attrs, dir, collectionSize, rank);
      ShiftAllPackSize(prefix, dir, collectionSize, rank);
      ShiftAllSucceeds(attrs, dir, collectionSize, rank);
      var t := attrs[|attrs| - 1];
      if !IsType(t, PACK) {
        assert LastTraitIndex(attrs, PACK) == LastTraitIndex(prefix, PACK);
        match LastTraitIndex(prefix, PACK)
        case Some(i) => assert prefix[i] == attrs[i];
        case None =>
      }
    }
  }

  /** The pack rank the loop leaves is the moved value of the last
      "Pack Rank" trait, 0 for a leader without one. */
  lemma {:induction false} ShiftAllPackRank(attrs: seq<Trait>, dir: Direction, collectionSize: nat, rank: nat)
    requires ShiftAll(attrs, dir, collectionSize, rank).Ok?
    ensures var r := ShiftAll(attrs, dir, collectionSize, rank).value;
            r.packRank == (match LastTraitIndex(attrs, PACK_RANK)
                           case None => 0
                           case Some(i) => Moved(attrs[i], dir, collectionSize, rank))
    decreases |attrs|
  {
    if attrs != [] {
      var prefix := attrs[..|attrs| - 1];
      ShiftStep(attrs, dir, collectionSize, rank);
      ShiftAllPackRank(prefix, dir, collectionSize, rank);
      ShiftAllSucceeds(attrs, dir, collectionSize, rank);
      var t := attrs[|attrs| - 1];
      if !IsType(t, PACK_RANK) {
        assert LastTraitIndex(attrs, PACK_RANK) == LastTraitIndex(prefix, PACK_RANK);
        match LastTraitIndex(prefix, PACK_RANK)
        case Some(i) => assert prefix[i] == attrs[i];
        case None =>
      }
    }
  }

  /** The stored value of the last trait of a type, 0 when there is none or
      it does not read as a number of that width. */
  function LastNumber(attrs: seq<Trait>, name: string, max: nat): nat
  {
    match LastTraitIndex(attrs, name)
    case None => 0
    case Some(i) => if ParseUnsigned(attrs[i].value, max).Some? then ParseUnsigned(attrs[i].value, max).value else 0
  }

  /** The leaderboard values one leader's loop computes: the last stored
      size and rank, moved by one and by the member's score, or 0 for a
      counter the leader does not carry. */
  lemma ShiftCounters(attrs: seq<Trait>, dir: Direction, collectionSize: nat, rank: nat)
    requires ShiftAll(attrs, dir, collectionSize, rank).Ok?
    ensures var r := ShiftAll(attrs, dir, collectionSize, rank).value;
            && r.packSize <= U16_MAX && r.packRank <= U32_MAX
            && r.packSize == (if HasTrait(attrs, PACK) then Apply(dir, LastNumber(attrs, PACK, U16_MAX), 1) else 0)
            && (HasTrait(attrs, PACK_RANK) ==> rank <= collectionSize)
            && r.packRank == (if HasTrait(attrs, PACK_RANK)
                              then Apply(dir, LastNumber(attrs, PACK_RANK, U32_MAX), collectionSize - rank)
                              else 0)
  {
    ShiftAllPackSize(attrs, dir, collectionSize, rank);
    ShiftAllPackRank(attrs, dir, collectionSize, rank);
    ShiftAllSucceeds(attrs, dir, collectionSize, rank);
    if HasTrait(attrs, PACK) {
      ShiftNumberPack(attrs[LastTraitIndex(attrs, PACK).value], dir, collectionSize, rank);
    }
    if HasTrait(attrs, PACK_RANK) {
      ShiftNumberRank(attrs[LastTraitIndex(attrs, PACK_RANK).value], dir, collectionSize, rank);
    }
  }

  /** What leaves one leader arrives at the other: when both carry
      "Pack Rank", the two ranks written add up to the two ranks stored. */
  lemma RankConserved(source: seq<Trait>, dest: seq<Trait>, collectionSize: nat, rank: nat)
    requires HasTrait(source, PACK_RANK) && HasTrait(dest, PACK_RANK)
    requires ShiftAll(source, Leaving, collectionSize, rank).Ok?
    requires ShiftAll(dest, Arriving, collectionSize, rank).Ok?
    ensures ShiftAll(source, Leaving, collectionSize, rank).value.packRank
          + ShiftAll(dest, Arriving, collectionSize, rank).value.packRank
         == LastNumber(source, PACK_RANK, U32_MAX) + LastNumber(dest, PACK_RANK, U32_MAX)
  {
    ShiftCounters(source, Leaving, collectionSize, rank);
    ShiftCounters(dest, Arriving, collectionSize, rank);
  }

  // ---------------------------------------------------------------------
  // The two leaders' metadata
  // ---------------------------------------------------------------------

  /** The source's public extension: the media file at `memberIndex + 1`
      taken out, the counters moved down. Returns the extension, the file
      and the loop's result. */
  function ShrinkPublic(leader: Dossier, memberIndex: nat, collectionSize: nat, rank: nat)
    : Result<(Extension, MediaFile, Shifted)>
  {
    var ext :- EditableExtension(leader.publicMetadata);
    var taken :- TakeMedia(ext.media, memberIndex + 1);
    var attrs :- Unwrap(ext.attributes);
    var shifted :- ShiftAll(attrs, Leaving, collectionSize, rank);
    Ok((ext.(media := Some(taken.0), attributes := Some(shifted.attrs)), taken.1, shifted))
  }

  /** The source's private extension: the media file at `memberIndex` taken out. */
  function ShrinkPrivate(leader: Dossier, memberIndex: nat): Result<(Extension, MediaFile)>
  {
    var ext :- EditableExtension(leader.privateMetadata);
    var taken :- TakeMedia(ext.media, memberIndex);
    Ok((ext.(media := Some(taken.0)), taken.1))
  }

  /** The destination's public extension: the file appended, "Pack Rank"
      created as "0" when missing, the counters moved up. */
  function GrowPublic(leader: Dossier, file: MediaFile, collectionSize: nat, rank: nat): Result<(Extension, Shifted)>
  {
    var ext :- EditableExtension(leader.publicMetadata);
    var media :- PushMedia(ext.media, [file]);
    var attrs :- Unwrap(ext.attributes);
    var shifted :- ShiftAll(WithPackRank(attrs), Arriving, collectionSize, rank);
    Ok((ext.(media := media, attributes := Some(shifted.attrs)), shifted))
  }

  /** The destination's private extension: the file appended. */
  function GrowPrivate(leader: Dossier, file: MediaFile): Result<Extension>
  {
    var ext :- EditableExtension(leader.privateMetadata);
    var media :- PushMedia(ext.media, [file]);
    Ok(ext.(media := media))
  }

  /** A leaderboard row with new counters. */
  function Recount(row: PackMain, s: Shifted): PackMain
  {
    row.(packRank := s.packRank, packCount := s.packSize)
  }

  const EMPTY_NAME: string := ""

  // ---------------------------------------------------------------------
  // The call
  // ---------------------------------------------------------------------

  /** The whole call, committing only when it succeeds. */
  function TransferStep(s: Store, registry: Registry, sender: Addr, from: Addr, tokenIds: seq<TokenId>,
                        msg: PackTransferMsg, now: nat): Result<(Store, Response)>
  {
    var main := msg.mainTokenId;
    var to := msg.transferToTokenId;
    if main !in tokenIds then Err(MainTokenNotInList)
    else if to !in tokenIds then Err(TransferToTokenNotInList)
    else if main !in s.members then Err(PackNotFound)
    else
      var move :- MoveMember(s.members[main], MembersOf(s.members, to), msg.tokenId);
      if sender != s.config.nftContract then Err(NotNftContract)
      else TransferLeaders(s.(members := MovedMembers(s.members, main, to, move)), registry, from, tokenIds, msg, now,
                           move.member)
  }

  /** The part of the call after the member lists are written: both
      leaders' metadata, the leaderboard, the history and the commands. */
  function TransferLeaders(s: Store, registry: Registry, from: Addr, tokenIds: seq<TokenId>,
                           msg: PackTransferMsg, now: nat, member: PackMember): Result<(Store, Response)>
  {
    var main := msg.mainTokenId;
    var to := msg.transferToTokenId;
    var cs := s.config.collectionSize;
    var source :- Query(registry, main);
    var dest :- Query(registry, to);
    var sourceAttrs :- PublicAttributes(source);
    if !HasTrait(sourceAttrs, ALPHA) then Err(NonAlpha)
    else
      var destAttrs :- PublicAttributes(dest);
      if !HasTrait(destAttrs, ALPHA) then Err(NonAlpha)
      else
        var shrunk :- ShrinkPublic(source, msg.memberIndex, cs, member.rank);
        if main !in s.packMain then Err(Panicked(MissingValue))
        else
          var rows := s.packMain[main := Recount(s.packMain[main], shrunk.2)];
          var sourcePrivate :- ShrinkPrivate(source, msg.memberIndex);
          var grown :- GrowPublic(dest, shrunk.1, cs, member.rank);
          var destPrivate :- GrowPrivate(dest, sourcePrivate.1);
          Ok(TransferCommit(s, from, tokenIds, msg, now, rows, shrunk.0, sourcePrivate.0, grown.0, grown.1, destPrivate))
  }

  /** The stores and the reply of a transfer whose checks all passed. The
      destination's row is read after the source's was written. */
  function TransferCommit(s: Store, from: Addr, tokenIds: seq<TokenId>, msg: PackTransferMsg, now: nat,
                          rows: map<TokenId, PackMain>, sourcePublic: Extension, sourcePrivate: Extension,
                          destPublic: Extension, destShifted: Shifted, destPrivate: Extension): (Store, Response)
  {
    var main := msg.mainTokenId;
    var to := msg.transferToTokenId;
    var row := if to in rows then rows[to] else PackMain(to, 0, 0, EMPTY_NAME);
    var s' := s.(packMain := rows[to := Recount(row, destShifted)],
                 history := AppendHistory(s.history, from, HistoryToken(to, [msg.tokenId], Some(now))));
    (s', Response([SetMetadata(main, sourcePublic, sourcePrivate), SetMetadata(to, destPublic, destPrivate),
                   BatchTransferNfts(from, tokenIds)], []))
  }

  // ---------------------------------------------------------------------
  // Properties
  // ---------------------------------------------------------------------

  /** The checks before any metadata is read, in the contract's order. */
  lemma TransferRejects(s: Store, registry: Registry, sender: Addr, from: Addr, tokenIds: seq<TokenId>,
                        msg: PackTransferMsg, now: nat)
    ensures var r := TransferStep(s, registry, sender, from, tokenIds, msg, now);
            && (msg.mainTokenId !in tokenIds ==> r == Err(MainTokenNotInList))
            && (msg.mainTokenId in tokenIds && msg.transferToTokenId !in tokenIds ==> r == Err(TransferToTokenNotInList))
            && (msg.mainTokenId in tokenIds && msg.transferToTokenId in tokenIds && msg.mainTokenId !in s.members
                ==> r == Err(PackNotFound))
            && ((msg.mainTokenId in tokenIds && msg.transferToTokenId in tokenIds && msg.mainTokenId in s.members
                 && MemberPosition(s.members[msg.mainTokenId], msg.tokenId).None?) ==> r == Err(NotPackMember))
            && ((msg.mainTokenId in tokenIds && msg.transferToTokenId in tokenIds && msg.mainTokenId in s.members
                 && MemberPosition(s.members[msg.mainTokenId], msg.tokenId).Some? && sender != s.config.nftContract)
                ==> r == Err(NotNftContract))
  {
  }

  /** A successful call passed the list, pack, membership and sender
      checks, and is the leader update on the moved member lists. */
  lemma TransferUnfold(s: Store, registry: Registry, sender: Addr, from: Addr, tokenIds: seq<TokenId>,
                       msg: PackTransferMsg, now: nat)
    requires TransferStep(s, registry, sender, from, tokenIds, msg, now).Ok?
    ensures msg.mainTokenId in tokenIds && msg.transferToTokenId in tokenIds
    ensures msg.mainTokenId in s.members && sender == s.config.nftContract
    ensures var move := MoveMember(s.members[msg.mainTokenId], MembersOf(s.members, msg.transferToTokenId), msg.tokenId);
            && move.Ok?
            && TransferStep(s, registry, sender, from, tokenIds, msg, now)
               == TransferLeaders(s.(members := MovedMembers(s.members, msg.mainTokenId, msg.transferToTokenId, move.value)),
                                  registry, from, tokenIds, msg, now, move.value.member)
  {
  }

  /** A successful leader update found both leaders, both are Alphas, each
      metadata edit succeeded, the source had a leaderboard row, and the
      result is the commit of those values. */
  lemma TransferLeadersUnfold(s: Store, registry: Registry, from: Addr, tokenIds: seq<TokenId>,
                              msg: PackTransferMsg, now: nat, member: PackMember)
    requires TransferLeaders(s, registry, from, tokenIds, msg, now, member).Ok?
    ensures msg.mainTokenId in registry && msg.transferToTokenId in registry
    ensures var source := registry[msg.mainTokenId];
            var dest := registry[msg.transferToTokenId];
            var cs := s.config.collectionSize;
            && PublicAttributes(source).Ok? && HasTrait(PublicAttributes(source).value, ALPHA)
            && PublicAttributes(dest).Ok? && HasTrait(PublicAttributes(dest).value, ALPHA)
            && msg.mainTokenId in s.packMain
            && var shrunk := ShrinkPublic(source, msg.memberIndex, cs, member.rank);
               var sourcePrivate := ShrinkPrivate(source, msg.memberIndex);
               && shrunk.Ok? && sourcePrivate.Ok?
               && var grown := GrowPublic(dest, shrunk.value.1, cs, member.rank);
                  var destPrivate := GrowPrivate(dest, sourcePrivate.value.1);
                  && grown.Ok? && destPrivate.Ok?
                  && TransferLeaders(s, registry, from, tokenIds, msg, now, member).value ==
                     TransferCommit(s, from, tokenIds, msg, now,
                                    s.packMain[msg.mainTokenId := Recount(s.packMain[msg.mainTokenId], shrunk.value.2)],
                                    shrunk.value.0, sourcePrivate.value.0, grown.value.0, grown.value.1,
                                    destPrivate.value)
  {
    var source := registry[msg.mainTokenId];
    var dest := registry[msg.transferToTokenId];
    var cs := s.config.collectionSize;
    var shrunk := ShrinkPublic(source, msg.memberIndex, cs, member.rank);
    var sourcePrivate := ShrinkPrivate(source, msg.memberIndex);
    assert shrunk.Ok? && sourcePrivate.Ok?;
    var grown := GrowPublic(dest, shrunk.value.1, cs, member.rank);
    var destPrivate := GrowPrivate(dest, sourcePrivate.value.1);
    assert grown.Ok? && destPrivate.Ok?;
  }

  /** The member moves: it is the first record with the requested id in
      the source's list; it leaves that list, the others keeping their
      order, and goes to the end of the destination's list (empty when the
      destination had none). When source and destination are the same
      leader the destination write wins: the member stays and is appended
      once more. No other leader's list changes. */
  lemma TransferMembers(s: Store, registry: Registry, sender: Addr, from: Addr, tokenIds: seq<TokenId>,
                        msg: PackTransferMsg, now: nat)
    requires TransferStep(s, registry, sender, from, tokenIds, msg, now).Ok?
    ensures msg.mainTokenId in s.members
    ensures var s' := TransferStep(s, registry, sender, from, tokenIds, msg, now).value.0;
            var main := msg.mainTokenId;
            var to := msg.transferToTokenId;
            var source := s.members[main];
            var pos := MemberPosition(source, msg.tokenId);
            && pos.Some?
            && var m := source[pos.value];
               && m.tokenId == msg.tokenId
               && (main != to ==> MembersOf(s'.members, main) == RemoveAt(source, pos.value))
               && (main != to ==> MembersOf(s'.members, to) == MembersOf(s.members, to) + [m])
               && (main == to ==> MembersOf(s'.members, main) == source + [m])
               && (forall id | id != main && id != to :: MembersOf(s'.members, id) == MembersOf(s.members, id))
  {
    TransferUnfold(s, registry, sender, from, tokenIds, msg, now);
    var move := MoveMember(s.members[msg.mainTokenId], MembersOf(s.members, msg.transferToTokenId), msg.tokenId).value;
    var s1 := s.(members := MovedMembers(s.members, msg.mainTokenId, msg.transferToTokenId, move));
    TransferLeadersUnfold(s1, registry, from, tokenIds, msg, now, move.member);
  }

  /** Between two different leaders, the two lists together hold the same
      records before and after. */
  lemma TransferKeepsRecords(s: Store, registry: Registry, sender: Addr, from: Addr, tokenIds: seq<TokenId>,
                             msg: PackTransferMsg, now: nat)
    requires msg.mainTokenId != msg.transferToTokenId
    requires TransferStep(s, registry, sender, from, tokenIds, msg, now).Ok?
    ensures var s' := TransferStep(s, registry, sender, from, tokenIds, msg, now).value.0;
            var main := msg.mainTokenId;
            var to := msg.transferToTokenId;
            multiset(MembersOf(s'.members, main)) + multiset(MembersOf(s'.members, to))
            == multiset(MembersOf(s.members, main)) + multiset(MembersOf(s.members, to))
  {
    TransferMembers(s, registry, sender, from, tokenIds, msg, now);
  }

  /** A successful source update: the public file at `memberIndex + 1` is
      taken out, the others keep their order, and the attributes are the
      loop's output on the leader's public attributes. */
  lemma ShrinkPublicFacts(leader: Dossier, memberIndex: nat, collectionSize: nat, rank: nat)
    requires ShrinkPublic(leader, memberIndex, collectionSize, rank).Ok?
    ensures var r := ShrinkPublic(leader, memberIndex, collectionSize, rank).value;
            var media := MediaOf(leader.publicMetadata);
            && PublicAttributes(leader).Ok?
            && ShiftAll(PublicAttributes(leader).value, Leaving, collectionSize, rank) == Ok(r.2)
            && memberIndex + 1 < |media|
            && r.1 == media[memberIndex + 1]
            && r.0.media == Some(RemoveAt(media, memberIndex + 1))
            && r.0.attributes == Some(r.2.attrs)
            && r.0.name == leader.publicMetadata.value.extension.value.name
  {
  }

  /** A successful destination update: the file is appended to the public
      media, and the attributes are the loop's output on the leader's
      public attributes with "Pack Rank" ensured. */
  lemma GrowPublicFacts(leader: Dossier, file: MediaFile, collectionSize: nat, rank: nat)
    requires GrowPublic(leader, file, collectionSize, rank).Ok?
    ensures var r := GrowPublic(leader, file, collectionSize, rank).value;
            && PublicAttributes(leader).Ok?
            && ShiftAll(WithPackRank(PublicAttributes(leader).value), Arriving, collectionSize, rank) == Ok(r.1)
            && r.0.media == Some(MediaOf(leader.publicMetadata) + [file])
            && r.0.attributes == Some(r.1.attrs)
            && r.0.name == leader.publicMetadata.value.extension.value.name
  {
  }

  /** The private files move the same way, from position `memberIndex`. */
  lemma PrivateFacts(source: Dossier, dest: Dossier, memberIndex: nat)
    requires ShrinkPrivate(source, memberIndex).Ok?
    requires GrowPrivate(dest, ShrinkPrivate(source, memberIndex).value.1).Ok?
    ensures var media := MediaOf(source.privateMetadata);
            var shrunk := ShrinkPrivate(source, memberIndex).value;
            && memberIndex < |media|
            && shrunk.1 == media[memberIndex]
            && shrunk.0.media == Some(RemoveAt(media, memberIndex))
            && GrowPrivate(dest, shrunk.1).value.media == Some(MediaOf(dest.privateMetadata) + [media[memberIndex]])
  {
  }

  /** The commands, in order: the source's new metadata, the destination's,
      and one batch transfer of every sent token back to the account. The
      public file at `memberIndex + 1` and the private file at `memberIndex`
      leave the source's lists and go to the end of the destination's. */
  lemma TransferCommands(s: Store, registry: Registry, sender: Addr, from: Addr, tokenIds: seq<TokenId>,
                         msg: PackTransferMsg, now: nat)
    requires TransferStep(s, registry, sender, from, tokenIds, msg, now).Ok?
    ensures msg.mainTokenId in registry && msg.transferToTokenId in registry
    ensures var resp := TransferStep(s, registry, sender, from, tokenIds, msg, now).value.1;
            var source := registry[msg.mainTokenId];
            var dest := registry[msg.transferToTokenId];
            var pub := MediaOf(source.publicMetadata);
            var priv := MediaOf(source.privateMetadata);
            var i := msg.memberIndex;
            && |resp.messages| == 3 && resp.attributes == []
            && resp.messages[0].SetMetadata? && resp.messages[0].tokenId == msg.mainTokenId
            && resp.messages[1].SetMetadata? && resp.messages[1].tokenId == msg.transferToTokenId
            && resp.messages[2] == BatchTransferNfts(from, tokenIds)
            && i + 1 < |pub| && i < |priv|
            && resp.messages[0].publicExtension.media == Some(RemoveAt(pub, i + 1))
            && resp.messages[0].privateExtension.media == Some(RemoveAt(priv, i))
            && resp.messages[1].publicExtension.media == Some(MediaOf(dest.publicMetadata) + [pub[i + 1]])
            && resp.messages[1].privateExtension.media == Some(MediaOf(dest.privateMetadata) + [priv[i]])
  {
    TransferUnfold(s, registry, sender, from, tokenIds, msg, now);
    var move := MoveMember(s.members[msg.mainTokenId], MembersOf(s.members, msg.transferToTokenId), msg.tokenId).value;
    var s1 := s.(members := MovedMembers(s.members, msg.mainTokenId, msg.transferToTokenId, move));
    TransferLeadersUnfold(s1, registry, from, tokenIds, msg, now, move.member);
    var source := registry[msg.mainTokenId];
    var dest := registry[msg.transferToTokenId];
    var cs := s.config.collectionSize;
    ShrinkPublicFacts(source, msg.memberIndex, cs, move.member.rank);
    var shrunk := ShrinkPublic(source, msg.memberIndex, cs, move.member.rank).value;
    GrowPublicFacts(dest, shrunk.1, cs, move.member.rank);
    PrivateFacts(source, dest, msg.memberIndex);
  }

  /** The leaderboard: the source's row gets the counters its loop left,
      then the destination's row (a new one named "" when it had none, or
      the row just written when both leaders are the same) gets the
      counters its loop left. No other row changes. */
  lemma TransferRows(s: Store, registry: Registry, sender: Addr, from: Addr, tokenIds: seq<TokenId>,
                     msg: PackTransferMsg, now: nat)
    requires TransferStep(s, registry, sender, from, tokenIds, msg, now).Ok?
    ensures msg.mainTokenId in s.members && MemberPosition(s.members[msg.mainTokenId], msg.tokenId).Some?
    ensures msg.mainTokenId in registry && msg.transferToTokenId in registry
    ensures PublicAttributes(registry[msg.mainTokenId]).Ok? && PublicAttributes(registry[msg.transferToTokenId]).Ok?
    ensures msg.mainTokenId in s.packMain
    ensures var s' := TransferStep(s, registry, sender, from, tokenIds, msg, now).value.0;
            var main := msg.mainTokenId;
            var to := msg.transferToTokenId;
            var rank := s.members[main][MemberPosition(s.members[main], msg.tokenId).value].rank;
            var cs := s.config.collectionSize;
            var leaving := ShiftAll(PublicAttributes(registry[main]).value, Leaving, cs, rank);
            var arriving := ShiftAll(WithPackRank(PublicAttributes(registry[to]).value), Arriving, cs, rank);
            && leaving.Ok? && arriving.Ok?
            && main in s'.packMain && to in s'.packMain
            && (main != to ==> s'.packMain[main] == Recount(s.packMain[main], leaving.value))
            && s'.packMain[to] == Recount(if to in s.packMain then s.packMain[to] else PackMain(to, 0, 0, EMPTY_NAME),
                                          arriving.value)
            && (forall id | id != main && id != to ::
                  (id in s'.packMain <==> id in s.packMain) && (id in s.packMain ==> s'.packMain[id] == s.packMain[id]))
  {
    TransferUnfold(s, registry, sender, from, tokenIds, msg, now);
    var move := MoveMember(s.members[msg.mainTokenId], MembersOf(s.members, msg.transferToTokenId), msg.tokenId).value;
    var s1 := s.(members := MovedMembers(s.members, msg.mainTokenId, msg.transferToTokenId, move));
    TransferLeadersUnfold(s1, registry, from, tokenIds, msg, now, move.member);
    var cs := s.config.collectionSize;
    ShrinkPublicFacts(registry[msg.mainTokenId], msg.memberIndex, cs, move.member.rank);
    var shrunk := ShrinkPublic(registry[msg.mainTokenId], msg.memberIndex, cs, move.member.rank).value;
    GrowPublicFacts(registry[msg.transferToTokenId], shrunk.1, cs, move.member.rank);
  }

  /** Ensuring "Pack Rank" does not change the last stored rank: a leader
      without one counts as 0. */
  lemma LastRankWithPackRank(attrs: seq<Trait>)
    ensures LastNumber(WithPackRank(attrs), PACK_RANK, U32_MAX) == LastNumber(attrs, PACK_RANK, U32_MAX)
  {
    if !HasTrait(attrs, PACK_RANK) {
      var r := WithPackRank(attrs);
      assert LastTraitIndex(r, PACK_RANK) == Some(|attrs|);
      ParseFormat(0, U32_MAX);
      assert Format(0) == "0";
    }
  }

  /** Between two different leaders: the source's "Pack" goes down by one
      and its "Pack Rank" by the member's score `collection_size - rank`,
      the destination's go up by the same amounts ("Pack Rank" counting
      from 0 when it had none), a leader without "Pack" gets 0, and so the
      two rows together keep the pack rank the two leaders carried. */
  lemma TransferCounters(s: Store, registry: Registry, sender: Addr, from: Addr, tokenIds: seq<TokenId>,
                         msg: PackTransferMsg, now: nat)
    requires msg.mainTokenId != msg.transferToTokenId
    requires TransferStep(s, registry, sender, from, tokenIds, msg, now).Ok?
    ensures msg.mainTokenId in s.members && MemberPosition(s.members[msg.mainTokenId], msg.tokenId).Some?
    ensures msg.mainTokenId in registry && msg.transferToTokenId in registry
    ensures PublicAttributes(registry[msg.mainTokenId]).Ok? && PublicAttributes(registry[msg.transferToTokenId]).Ok?
    ensures var s' := TransferStep(s, registry, sender, from, tokenIds, msg, now).value.0;
            var main := msg.mainTokenId;
            var to := msg.transferToTokenId;
            var rank := s.members[main][MemberPosition(s.members[main], msg.tokenId).value].rank;
            var cs := s.config.collectionSize;
            var src := PublicAttributes(registry[main]).value;
            var dst := PublicAttributes(registry[to]).value;
            && main in s'.packMain && to in s'.packMain
            && rank <= cs
            && s'.packMain[main].packCount == (if HasTrait(src, PACK) then LastNumber(src, PACK, U16_MAX) - 1 else 0)
            && s'.packMain[main].packRank
               == (if HasTrait(src, PACK_RANK) then LastNumber(src, PACK_RANK, U32_MAX) - (cs - rank) else 0)
            && s'.packMain[to].packCount == (if HasTrait(dst, PACK) then LastNumber(dst, PACK, U16_MAX) + 1 else 0)
            && s'.packMain[to].packRank == LastNumber(dst, PACK_RANK, U32_MAX) + (cs - rank)
            && (HasTrait(src, PACK_RANK) ==>
                  s'.packMain[main].packRank + s'.packMain[to].packRank
                  == LastNumber(src, PACK_RANK, U32_MAX) + LastNumber(dst, PACK_RANK, U32_MAX))
  {
    TransferRows(s, registry, sender, from, tokenIds, msg, now);
    var main := msg.mainTokenId;
    var to := msg.transferToTokenId;
    var rank := s.members[main][MemberPosition(s.members[main], msg.tokenId).value].rank;
    var cs := s.config.collectionSize;
    var src := PublicAttributes(registry[main]).value;
    var dst := PublicAttributes(registry[to]).value;
    ShiftCounters(src, Leaving, cs, rank);
    ShiftCounters(WithPackRank(dst), Arriving, cs, rank);
    LastRankWithPackRank(dst);
    assert WithPackRank(dst)[..|dst|] == dst;
    if HasTrait(dst, PACK) {
      assert HasTrait(WithPackRank(dst), PACK);
    }
    assert HasTrait(dst, PACK) <==> HasTrait(WithPackRank(dst), PACK);
    assert LastNumber(WithPackRank(dst), PACK, U16_MAX) == LastNumber(dst, PACK, U16_MAX);
  }

  /** The account gets one history entry naming the destination and the
      moved member; configuration, level table, paid list and rank pool do
      not change. */
  lemma TransferRecords(s: Store, registry: Registry, sender: Addr, from: Addr, tokenIds: seq<TokenId>,
                        msg: PackTransferMsg, now: nat)
    requires TransferStep(s, registry, sender, from, tokenIds, msg, now).Ok?
    ensures var s' := TransferStep(s, registry, sender, from, tokenIds, msg, now).value.0;
            && HistoryOf(s'.history, from)
               == HistoryOf(s.history, from) + [HistoryToken(msg.transferToTokenId, [msg.tokenId], Some(now))]
            && (forall a | a != from :: HistoryOf(s'.history, a) == HistoryOf(s.history, a))
            && s'.config == s.config && s'.levels == s.levels && s'.paid == s.paid && s'.ranks == s.ranks
  {
    TransferUnfold(s, registry, sender, from, tokenIds, msg, now);
    var move := MoveMember(s.members[msg.mainTokenId], MembersOf(s.members, msg.transferToTokenId), msg.tokenId).value;
    var s1 := s.(members := MovedMembers(s.members, msg.mainTokenId, msg.transferToTokenId, move));
    TransferLeadersUnfold(s1, registry, from, tokenIds, msg, now, move.member);
  }

  /** Moving a record between lists of non-Alpha members keeps every list free of Alphas. */
  lemma MovedKeepsNoAlpha(members: map<TokenId, seq<PackMember>>, main: TokenId, to: TokenId, id: TokenId)
    requires NoAlphaMembers(members) && main in members
    requires MoveMember(members[main], MembersOf(members, to), id).Ok?
    ensures NoAlphaMembers(MovedMembers(members, main, to, MoveMember(members[main], MembersOf(members, to), id).value))
  {
    var source := members[main];
    var i := MemberPosition(source, id).value;
    var move := MoveMember(source, MembersOf(members, to), id).value;
    var after: map<TokenId, seq<PackMember>> := MovedMembers(members, main, to, move);
    forall k | 0 <= k < |move.remaining| ensures !HasTrait(move.remaining[k].attributes, ALPHA) {
      var k' := if k < i then k else k + 1;
      assert move.remaining[k] == source[k'];
    }
    forall k | 0 <= k < |move.grown| ensures !HasTrait(move.grown[k].attributes, ALPHA) {
      if k < |MembersOf(members, to)| {
        assert move.grown[k] == members[to][k];
      } else {
        assert move.grown[k] == source[i];
      }
    }
    forall key: TokenId, k: int | key in after && 0 <= k < |after[key]| ensures !HasTrait(after[key][k].attributes, ALPHA) {
      if key == to {
        assert after[key] == move.grown;
      } else if key == main {
        assert after[key] == move.remaining;
      } else {
        assert after[key] == members[key];
      }
    }
  }

  /** Both rows the call writes fit their widths. */
  lemma TransferRowsFit(s: Store, registry: Registry, sender: Addr, from: Addr, tokenIds: seq<TokenId>,
                        msg: PackTransferMsg, now: nat)
    requires RowsFit(s.packMain)
    requires TransferStep(s, registry, sender, from, tokenIds, msg, now).Ok?
    ensures RowsFit(TransferStep(s, registry, sender, from, tokenIds, msg, now).value.0.packMain)
  {
    TransferRows(s, registry, sender, from, tokenIds, msg, now);
    var main := msg.mainTokenId;
    var to := msg.transferToTokenId;
    var rank := s.members[main][MemberPosition(s.members[main], msg.tokenId).value].rank;
    var cs := s.config.collectionSize;
    ShiftCounters(PublicAttributes(registry[main]).value, Leaving, cs, rank);
    ShiftCounters(WithPackRank(PublicAttributes(registry[to]).value), Arriving, cs, rank);
  }

  /** A transfer keeps the store well formed. */
  lemma TransferPreservesWellFormed(s: Store, registry: Registry, sender: Addr, from: Addr, tokenIds: seq<TokenId>,
                                    msg: PackTransferMsg, now: nat)
    requires WellFormed(s)
    requires TransferStep(s, registry, sender, from, tokenIds, msg, now).Ok?
    ensures WellFormed(TransferStep(s, registry, sender, from, tokenIds, msg, now).value.0)
  {
    TransferUnfold(s, registry, sender, from, tokenIds, msg, now);
    var move := MoveMember(s.members[msg.mainTokenId], MembersOf(s.members, msg.transferToTokenId), msg.tokenId).value;
    var s1 := s.(members := MovedMembers(s.members, msg.mainTokenId, msg.transferToTokenId, move));
    TransferLeadersUnfold(s1, registry, from, tokenIds, msg, now, move.member);
    MovedKeepsNoAlpha(s.members, msg.mainTokenId, msg.transferToTokenId, msg.tokenId);
    TransferRowsFit(s, registry, sender, from, tokenIds, msg, now);
  }
}
