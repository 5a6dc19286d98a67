/** The two loops of a pack build: collecting the members (each checked,
    its experience and rank score summed, its first media files and public
    attributes kept) and rewriting the leader's attributes in place (XP,
    "Pack", "Pack Rank" and "LVL"). Each loop is a method proved equal to a
    fold written by recursion on the prefix it has processed. */
module Merge {
  import opened Outcome
  import opened Decimal
  import opened Seqs
  import opened Nft
  import opened Levels
  import opened PackState

  /** The least experience a member must carry to be merged. */
  const MIN_MEMBER_XP: nat := 464

  const LVL_INCREASE: string := "lvl_increase"

  /** The build request: the leader and the name the pack takes. */
  datatype PackBuildMsg = PackBuildMsg(mainTokenId: TokenId, name: string)

  /** The leader's id is taken out of the sent tokens; the rest are the members. */
  function SplitMain(tokenIds: seq<TokenId>, main: TokenId): (r: Result<seq<TokenId>>)
    ensures r.Ok? <==> main in tokenIds
    ensures r.Err? ==> r.error == MainTokenNotInList
    ensures r.Ok? ==> multiset(r.value) + multiset{main} == multiset(tokenIds) && |r.value| == |tokenIds| - 1
  {
    match IndexOf(tokenIds, main)
    case None => Err(MainTokenNotInList)
    case Some(i) => Ok(RemoveAt(tokenIds, i))
  }

  /** Only the first occurrence of the leader's id is removed, and the other
      tokens keep the order they were sent in. */
  lemma SplitMainOrder(tokenIds: seq<TokenId>, main: TokenId)
    requires SplitMain(tokenIds, main).Ok?
    ensures exists i | 0 <= i < |tokenIds| ::
              && tokenIds[i] == main && main !in tokenIds[..i]
              && SplitMain(tokenIds, main).value == tokenIds[..i] + tokenIds[i + 1..]
  {
    var i := IndexOf(tokenIds, main).value;
    assert SplitMain(tokenIds, main).value == tokenIds[..i] + tokenIds[i + 1..];
  }

  // ---------------------------------------------------------------------
  // Collecting the members
  // ---------------------------------------------------------------------

  /** What the member loop accumulates. */
  datatype Collected = Collected(
    xpTotal: nat,
    scoreTotal: nat,
    publicMedia: seq<MediaFile>,
    privateMedia: seq<MediaFile>,
    newMembers: seq<PackMember>)

  const NOTHING_COLLECTED := Collected(0, 0, [], [], [])

  function RankOf(ranks: map<TokenId, nat>, id: TokenId): Result<nat>
  {
    if id in ranks then Ok(ranks[id]) else Err(RankMissing)
  }

  /** The value of the first "XP" trait, read as a `u32`. */
  function XpValue(attrs: seq<Trait>): Result<nat>
  {
    var t :- Unwrap(FindTrait(attrs, XP));
    ParseNumber(t.value, U32_MAX)
  }

  /** One pass of the member loop, with its checks in the order the contract makes them. */
  function CollectOne(s: Store, registry: Registry, acc: Collected, id: TokenId): Result<Collected>
  {
    var rank :- RankOf(s.ranks, id);
    var d :- Query(registry, id);
    var attrs :- PublicAttributes(d);
    if HasTrait(attrs, ALPHA) then Err(CombineTwoAlphas)
    else
      var xp :- XpValue(attrs);
      var xpTotal :- CheckedAdd(acc.xpTotal, xp, U32_MAX);
      var score :- CheckedSub(s.config.collectionSize, rank);
      var scoreTotal :- CheckedAdd(acc.scoreTotal, score, U32_MAX);
      if xp < MIN_MEMBER_XP then Err(LevelTooLow)
      else
        var publicFile :- FirstMedia(d.publicMetadata);
        var privateFile :- FirstMedia(d.privateMetadata);
        Ok(Collected(xpTotal, scoreTotal, acc.publicMedia + [publicFile], acc.privateMedia + [privateFile],
                     acc.newMembers + [PackMember(id, rank, attrs)]))
  }

  /** The member loop as a fold: the first failing member ends it. */
  function Collect(s: Store, registry: Registry, ids: seq<TokenId>): Result<Collected>
    decreases |ids|
  {
    if ids == [] then Ok(NOTHING_COLLECTED)
    else
      var acc :- Collect(s, registry, ids[..|ids| - 1]);
      CollectOne(s, registry, acc, ids[|ids| - 1])
  }

  /** Once a prefix fails, the whole loop fails the same way. */
  lemma {:induction false} CollectStopsAtError(s: Store, registry: Registry, ids: seq<TokenId>, n: nat)
    requires n <= |ids|
    ensures Collect(s, registry, ids[..n]).Err? ==> Collect(s, registry, ids) == Collect(s, registry, ids[..n])
    decreases |ids| - n
  {
    if n < |ids| && Collect(s, registry, ids[..n]).Err? {
      CollectStopsAtError(s, registry, ids[..|ids| - 1], n);
      assert ids[..|ids| - 1][..n] == ids[..n];
    } else if n == |ids| {
      assert ids[..n] == ids;
    }
  }

  /** The member loop: every sent token other than the leader is checked and gathered. */
  method CollectMembers(s: Store, registry: Registry, ids: seq<TokenId>) returns (r: Result<Collected>)
    ensures r == Collect(s, registry, ids)
  {
    var acc := NOTHING_COLLECTED;
    for i := 0 to |ids|
      invariant Collect(s, registry, ids[..i]) == Ok(acc)
    {
      CollectStopsAtError(s, registry, ids, i + 1);
      assert ids[..i + 1][..i] == ids[..i];
      var id := ids[i];
      var rank :- RankOf(s.ranks, id);
      var d :- Query(registry, id);
      var attrs :- PublicAttributes(d);
      if HasTrait(attrs, ALPHA) {
        return Err(CombineTwoAlphas);
      }
      var xp :- XpValue(attrs);
      var xpTotal :- CheckedAdd(acc.xpTotal, xp, U32_MAX);
      var score :- CheckedSub(s.config.collectionSize, rank);
      var scoreTotal :- CheckedAdd(acc.scoreTotal, score, U32_MAX);
      if xp < MIN_MEMBER_XP {
        return Err(LevelTooLow);
      }
      var publicFile :- FirstMedia(d.publicMetadata);
      var privateFile :- FirstMedia(d.privateMetadata);
      acc := Collected(xpTotal, scoreTotal, acc.publicMedia + [publicFile], acc.privateMedia + [privateFile],
                       acc.newMembers + [PackMember(id, rank, attrs)]);
    }
    assert ids[..|ids|] == ids;
    return Ok(acc);
  }

  /** A member the loop lets through: ranked, known to the registry, not an
      Alpha, with enough experience, recorded with its public attributes. */
  predicate Accepted(s: Store, registry: Registry, id: TokenId, m: PackMember)
  {
    && m.tokenId == id
    && id in s.ranks && m.rank == s.ranks[id] && m.rank <= s.config.collectionSize
    && id in registry && PublicAttributes(registry[id]) == Ok(m.attributes)
    && !HasTrait(m.attributes, ALPHA)
    && XpValue(m.attributes).Ok? && XpValue(m.attributes).value >= MIN_MEMBER_XP
  }

  function XpOf(m: PackMember): nat
  {
    match XpValue(m.attributes)
    case Ok(x) => x
    case Err(_) => 0
  }

  /** The experience the members bring. */
  function XpSum(ms: seq<PackMember>): nat
    decreases |ms|
  {
    if ms == [] then 0 else XpSum(ms[..|ms| - 1]) + XpOf(ms[|ms| - 1])
  }

  /** The rank score the members bring: the collection size less each rank. */
  function ScoreSum(ms: seq<PackMember>, collectionSize: nat): int
    decreases |ms|
  {
    if ms == [] then 0 else ScoreSum(ms[..|ms| - 1], collectionSize) + (collectionSize - ms[|ms| - 1].rank)
  }

  /** One successful pass appends one accepted member and its two media
      files, and adds its experience and rank score to the totals. */
  lemma CollectOneFacts(s: Store, registry: Registry, acc: Collected, id: TokenId)
    requires CollectOne(s, registry, acc, id).Ok?
    ensures var c := CollectOne(s, registry, acc, id).value;
            && |c.newMembers| == |acc.newMembers| + 1 && c.newMembers[..|acc.newMembers|] == acc.newMembers
            && Accepted(s, registry, id, c.newMembers[|acc.newMembers|])
            && |c.publicMedia| == |acc.publicMedia| + 1 && c.publicMedia[..|acc.publicMedia|] == acc.publicMedia
            && |c.privateMedia| == |acc.privateMedia| + 1 && c.privateMedia[..|acc.privateMedia|] == acc.privateMedia
            && MediaKept(registry, id, c.publicMedia[|acc.publicMedia|], c.privateMedia[|acc.privateMedia|])
            && c.xpTotal == acc.xpTotal + XpOf(c.newMembers[|acc.newMembers|]) && c.xpTotal <= U32_MAX
            && c.scoreTotal == acc.scoreTotal + (s.config.collectionSize - s.ranks[id]) && c.scoreTotal <= U32_MAX
  {
    var c := CollectOne(s, registry, acc, id).value;
    assert c.newMembers[..|acc.newMembers|] == acc.newMembers;
    assert c.publicMedia[..|acc.publicMedia|] == acc.publicMedia;
    assert c.privateMedia[..|acc.privateMedia|] == acc.privateMedia;
  }

  /** The fold after one more member. */
  lemma CollectSnoc(s: Store, registry: Registry, ids: seq<TokenId>)
    requires ids != [] && Collect(s, registry, ids).Ok?
    ensures Collect(s, registry, ids[..|ids| - 1]).Ok?
    ensures Collect(s, registry, ids)
         == CollectOne(s, registry, Collect(s, registry, ids[..|ids| - 1]).value, ids[|ids| - 1])
  {
  }

  /** One more member: the records, media files and totals of the prefix
      are kept, and the new member's are added after them. */
  lemma CollectStep(s: Store, registry: Registry, ids: seq<TokenId>)
    requires ids != [] && Collect(s, registry, ids).Ok?
    ensures var acc := Collect(s, registry, ids[..|ids| - 1]);
            var c := Collect(s, registry, ids).value;
            var n := |ids| - 1;
            && acc.Ok?
            && |c.newMembers| == |acc.value.newMembers| + 1 && c.newMembers[..|acc.value.newMembers|] == acc.value.newMembers
            && Accepted(s, registry, ids[n], c.newMembers[|acc.value.newMembers|])
            && |c.publicMedia| == |acc.value.publicMedia| + 1 && c.publicMedia[..|acc.value.publicMedia|] == acc.value.publicMedia
            && |c.privateMedia| == |acc.value.privateMedia| + 1 && c.privateMedia[..|acc.value.privateMedia|] == acc.value.privateMedia
            && MediaKept(registry, ids[n], c.publicMedia[|acc.value.publicMedia|], c.privateMedia[|acc.value.privateMedia|])
            && c.xpTotal == acc.value.xpTotal + XpOf(c.newMembers[|acc.value.newMembers|]) && c.xpTotal <= U32_MAX
            && c.scoreTotal == acc.value.scoreTotal + (s.config.collectionSize - s.ranks[ids[n]]) && c.scoreTotal <= U32_MAX
  {
    CollectSnoc(s, registry, ids);
    CollectOneFacts(s, registry, Collect(s, registry, ids[..|ids| - 1]).value, ids[|ids| - 1]);
  }

  /** The per-member facts of a prefix and of the last member give them for the whole list. */
  lemma AcceptedSnoc(s: Store, registry: Registry, ids: seq<TokenId>, ms: seq<PackMember>,
                     prefix: seq<TokenId>, pms: seq<PackMember>)
    requires |ids| > 0 && |ms| == |ids| && prefix == ids[..|ids| - 1] && pms == ms[..|ids| - 1]
    requires forall i | 0 <= i < |prefix| :: Accepted(s, registry, prefix[i], pms[i])
    requires Accepted(s, registry, ids[|ids| - 1], ms[|ids| - 1])
    ensures forall i | 0 <= i < |ids| :: Accepted(s, registry, ids[i], ms[i])
  {
    forall i | 0 <= i < |prefix| ensures Accepted(s, registry, ids[i], ms[i]) {
      assert prefix[i] == ids[i] && pms[i] == ms[i];
    }
  }

  lemma MediaKeptSnoc(registry: Registry, ids: seq<TokenId>, pub: seq<MediaFile>, priv: seq<MediaFile>,
                      prefix: seq<TokenId>, ppub: seq<MediaFile>, ppriv: seq<MediaFile>)
    requires |ids| > 0 && |pub| == |ids| && |priv| == |ids|
    requires prefix == ids[..|ids| - 1] && ppub == pub[..|ids| - 1] && ppriv == priv[..|ids| - 1]
    requires forall i | 0 <= i < |prefix| :: MediaKept(registry, prefix[i], ppub[i], ppriv[i])
    requires MediaKept(registry, ids[|ids| - 1], pub[|ids| - 1], priv[|ids| - 1])
    ensures forall i | 0 <= i < |ids| :: MediaKept(registry, ids[i], pub[i], priv[i])
  {
    forall i | 0 <= i < |prefix| ensures MediaKept(registry, ids[i], pub[i], priv[i]) {
      assert prefix[i] == ids[i] && ppub[i] == pub[i] && ppriv[i] == priv[i];
    }
  }

  /** A successful member loop keeps one record per member, in the order
      sent, and every member passed the checks. */
  lemma {:induction false} CollectShape(s: Store, registry: Registry, ids: seq<TokenId>)
    requires Collect(s, registry, ids).Ok?
    ensures var c := Collect(s, registry, ids).value;
            && |c.newMembers| == |ids|
            && (forall i | 0 <= i < |ids| :: Accepted(s, registry, ids[i], c.newMembers[i]))
    decreases |ids|
  {
    if ids != [] {
      CollectStep(s, registry, ids);
      CollectShape(s, registry, ids[..|ids| - 1]);
      var c := Collect(s, registry, ids).value;
      var acc := Collect(s, registry, ids[..|ids| - 1]).value;
      AcceptedSnoc(s, registry, ids, c.newMembers, ids[..|ids| - 1], acc.newMembers);
    }
  }

  /** The media files the loop keeps for a member: the first of its public
      and the first of its private media. */
  predicate MediaKept(registry: Registry, id: TokenId, publicFile: MediaFile, privateFile: MediaFile)
  {
    && id in registry
    && FirstMedia(registry[id].publicMetadata) == Ok(publicFile)
    && FirstMedia(registry[id].privateMetadata) == Ok(privateFile)
  }

  /** A successful member loop keeps each member's first public and first
      private media file, in the order sent. */
  lemma {:induction false} CollectMedia(s: Store, registry: Registry, ids: seq<TokenId>)
    requires Collect(s, registry, ids).Ok?
    ensures var c := Collect(s, registry, ids).value;
            && |c.publicMedia| == |ids| && |c.privateMedia| == |ids|
            && (forall i | 0 <= i < |ids| :: MediaKept(registry, ids[i], c.publicMedia[i], c.privateMedia[i]))
    decreases |ids|
  {
    if ids != [] {
      CollectStep(s, registry, ids);
      CollectMedia(s, registry, ids[..|ids| - 1]);
      var c := Collect(s, registry, ids).value;
      var acc := Collect(s, registry, ids[..|ids| - 1]).value;
      MediaKeptSnoc(registry, ids, c.publicMedia, c.privateMedia, ids[..|ids| - 1], acc.publicMedia, acc.privateMedia);
    }
  }

  /** The totals are the sums over the recorded members, and they fit a `u32`. */
  lemma {:induction false} CollectTotals(s: Store, registry: Registry, ids: seq<TokenId>)
    requires Collect(s, registry, ids).Ok?
    ensures var c := Collect(s, registry, ids).value;
            && c.xpTotal == XpSum(c.newMembers) && c.xpTotal <= U32_MAX
            && c.scoreTotal == ScoreSum(c.newMembers, s.config.collectionSize) && c.scoreTotal <= U32_MAX
    decreases |ids|
  {
    if ids == [] {
    } else {
      var prefix := ids[..|ids| - 1];
      var id := ids[|ids| - 1];
      CollectStep(s, registry, ids);
      CollectTotals(s, registry, prefix);
      var acc := Collect(s, registry, prefix).value;
      var c := Collect(s, registry, ids).value;
      assert c.newMembers[..|c.newMembers| - 1] == acc.newMembers;
    }
  }

  // ---------------------------------------------------------------------
  // Rewriting the leader's attributes
  // ---------------------------------------------------------------------

  /** What the attribute loop reads besides the attributes: the leader's new
      experience, how many members joined (as a `u16`), their rank score, the
      level cap and table, and the leader's level before the build. */
  datatype MergeCtx = MergeCtx(newXp: nat, memberCount: nat, scoreTotal: nat, levelCap: nat,
                               levels: seq<Level>, currentLvl: nat)

  /** What the attribute loop leaves: the rewritten attributes, the last
      values written to "Pack" and "Pack Rank" (0 when there is none), and
      the level-increase events. */
  datatype Merged = Merged(attrs: seq<Trait>, packSize: nat, packRank: nat, events: seq<Attribute>)

  predicate IsCounter(t: Trait)
  {
    IsType(t, XP) || IsType(t, PACK) || IsType(t, PACK_RANK) || IsType(t, LVL)
  }

  /** The number a counter trait is rewritten to: the new experience; the
      old pack size plus the members (`u16`); the old pack rank plus their
      score (`u32`); the level from the table while below the cap. */
  function NewNumber(t: Trait, ctx: MergeCtx): Result<nat>
    requires IsCounter(t)
  {
    if IsType(t, XP) then Ok(ctx.newXp)
    else if IsType(t, PACK) then
      var stored :- ParseNumber(t.value, U16_MAX);
      CheckedAdd(ctx.memberCount, stored, U16_MAX)
    else if IsType(t, PACK_RANK) then
      var stored :- ParseNumber(t.value, U32_MAX);
      CheckedAdd(ctx.scoreTotal, stored, U32_MAX)
    else
      var stored :- ParseNumber(t.value, U16_MAX);
      NextLevel(stored, ctx.levelCap, ctx.levels, ctx.newXp)
  }

  /** The number a counter trait is rewritten to, when it can be. */
  function Written(t: Trait, ctx: MergeCtx): nat
    requires IsCounter(t)
  {
    match NewNumber(t, ctx)
    case Ok(n) => n
    case Err(_) => 0
  }

  /** The loop body for one attribute. */
  function MergeTrait(acc: Merged, t: Trait, ctx: MergeCtx): Result<Merged>
  {
    if !IsCounter(t) then Ok(acc.(attrs := acc.attrs + [t]))
    else
      var n :- NewNumber(t, ctx);
      Ok(Merged(acc.attrs + [t.(value := Format(n))],
                if IsType(t, PACK) then n else acc.packSize,
                if IsType(t, PACK_RANK) then n else acc.packRank,
                if IsType(t, LVL) && n > ctx.currentLvl
                then acc.events + [Attribute(LVL_INCREASE, Format(n))]
                else acc.events))
  }

  /** The attribute loop as a fold. */
  function MergeAll(attrs: seq<Trait>, ctx: MergeCtx): Result<Merged>
    decreases |attrs|
  {
    if attrs == [] then Ok(Merged([], 0, 0, []))
    else
      var acc :- MergeAll(attrs[..|attrs| - 1], ctx);
      MergeTrait(acc, attrs[|attrs| - 1], ctx)
  }

  /** A trait as the loop leaves it when nothing fails. */
  function Rewritten(t: Trait, ctx: MergeCtx): (r: Trait)
    ensures r.traitType == t.traitType && r.displayType == t.displayType && r.maxValue == t.maxValue
  {
    if IsCounter(t) && NewNumber(t, ctx).Ok? then t.(value := Format(Written(t, ctx))) else t
  }

  lemma {:induction false} MergeAllStopsAtError(attrs: seq<Trait>, ctx: MergeCtx, n: nat)
    requires n <= |attrs|
    ensures MergeAll(attrs[..n], ctx).Err? ==> MergeAll(attrs, ctx) == MergeAll(attrs[..n], ctx)
    decreases |attrs| - n
  {
    if n < |attrs| && MergeAll(attrs[..n], ctx).Err? {
      MergeAllStopsAtError(attrs[..|attrs| - 1], ctx, n);
      assert attrs[..|attrs| - 1][..n] == attrs[..n];
    } else if n == |attrs| {
      assert attrs[..n] == attrs;
    }
  }

  /** The fold after one more attribute. */
  lemma MergeAllSnoc(attrs: seq<Trait>, ctx: MergeCtx, i: nat, acc: Merged)
    requires i < |attrs| && MergeAll(attrs[..i], ctx) == Ok(acc)
    ensures MergeAll(attrs[..i + 1], ctx) == MergeTrait(acc, attrs[i], ctx)
  {
    assert attrs[..i + 1][..i] == attrs[..i];
  }

  /** The attribute loop, rewriting the list in place. */
  method MergeAttributes(attrs: seq<Trait>, ctx: MergeCtx) returns (r: Result<Merged>)
    ensures r == MergeAll(attrs, ctx)
  {
    var a := attrs;
    var packSize: nat, packRank: nat, events: seq<Attribute> := 0, 0, [];
    for i := 0 to |a|
      invariant |a| == |attrs| && forall j | i <= j < |a| :: a[j] == attrs[j]
      invariant MergeAll(attrs[..i], ctx) == Ok(Merged(a[..i], packSize, packRank, events))
    {
      MergeAllStopsAtError(attrs, ctx, i + 1);
      ghost var acc := Merged(a[..i], packSize, packRank, events);
      MergeAllSnoc(attrs, ctx, i, acc);
      assert a[i] == attrs[i];
      var t := a[i];
      if IsCounter(t) {
        var n :- NewNumber(t, ctx);
        a := a[i := t.(value := Format(n))];
        if IsType(t, PACK) {
          packSize := n;
        } else if IsType(t, PACK_RANK) {
          packRank := n;
        } else if IsType(t, LVL) && n > ctx.currentLvl {
          events := events + [Attribute(LVL_INCREASE, Format(n))];
        }
      }
      assert a[..i + 1] == acc.attrs + [a[i]];
      assert MergeTrait(acc, t, ctx) == Ok(Merged(acc.attrs + [a[i]], packSize, packRank, events));
    }
    assert attrs[..|attrs|] == attrs && a[..|a|] == a;
    return Ok(Merged(a, packSize, packRank, events));
  }

  /** The loop succeeds exactly when every counter trait can be rewritten. */
  lemma {:induction false} MergeAllSucceeds(attrs: seq<Trait>, ctx: MergeCtx)
    ensures MergeAll(attrs, ctx).Ok? <==>
            forall i | 0 <= i < |attrs| && IsCounter(attrs[i]) :: NewNumber(attrs[i], ctx).Ok?
    decreases |attrs|
  {
    if attrs != [] {
      var prefix := attrs[..|attrs| - 1];
      MergeAllSucceeds(prefix, ctx);
      assert forall i | 0 <= i < |prefix| :: prefix[i] == attrs[i];
    }
  }

  /** A successful loop rewrites every trait in place and nothing else: the
      list keeps its length and order, and position `i` holds trait `i` rewritten. */
  lemma {:induction false} MergeAllPointwise(attrs: seq<Trait>, ctx: MergeCtx)
    requires MergeAll(attrs, ctx).Ok?
    ensures var m := MergeAll(attrs, ctx).value;
            |m.attrs| == |attrs| && forall i | 0 <= i < |attrs| :: m.attrs[i] == Rewritten(attrs[i], ctx)
    decreases |attrs|
  {
    if attrs != [] {
      var prefix := attrs[..|attrs| - 1];
      MergeAllPointwise(prefix, ctx);
      assert forall i | 0 <= i < |prefix| :: prefix[i] == attrs[i];
    }
  }

  /** The fold after its last attribute, from the fold of the others. */
  lemma MergeStep(attrs: seq<Trait>, ctx: MergeCtx)
    requires attrs != [] && MergeAll(attrs, ctx).Ok?
    ensures MergeAll(attrs[..|attrs| - 1], ctx).Ok?
    ensures MergeTrait(MergeAll(attrs[..|attrs| - 1], ctx).value, attrs[|attrs| - 1], ctx) == MergeAll(attrs, ctx)
  {
  }

  /** The pack size the loop leaves is the value the last "Pack" trait was
      rewritten to, 0 when there is none, and fits a `u16`. */
  lemma {:induction false} MergeAllPackSize(attrs: seq<Trait>, ctx: MergeCtx)
    requires MergeAll(attrs, ctx).Ok?
    ensures var m := MergeAll(attrs, ctx).value;
            && m.packSize == (match LastTraitIndex(attrs, PACK)
                              case None => 0
                              case Some(i) => Written(attrs[i], ctx))
            && m.packSize <= U16_MAX
    decreases |attrs|
  {
    if attrs != [] {
      var prefix := attrs[..|attrs| - 1];
      MergeStep(attrs, ctx);
      MergeAllPackSize(prefix, ctx);
      var t := attrs[|attrs| - 1];
      if !IsType(t, PACK) {
        assert LastTraitIndex(attrs, PACK) == LastTraitIndex(prefix, PACK);
        match LastTraitIndex(prefix, PACK)
        case Some(i) => assert prefix[i] == attrs[i];
        case None =>
      }
    }
  }

  /** The pack rank the loop leaves is the value the last "Pack Rank" trait
      was rewritten to, 0 when there is none, and fits a `u32`. */
  lemma {:induction false} MergeAllPackRank(attrs: seq<Trait>, ctx: MergeCtx)
    requires MergeAll(attrs, ctx).Ok?
    ensures var m := MergeAll(attrs, ctx).value;
            && m.packRank == (match LastTraitIndex(attrs, PACK_RANK)
                              case None => 0
                              case Some(i) => Written(attrs[i], ctx))
            && m.packRank <= U32_MAX
    decreases |attrs|
  {
    if attrs != [] {
      var prefix := attrs[..|attrs| - 1];
      MergeStep(attrs, ctx);
      MergeAllPackRank(prefix, ctx);
      var t := attrs[|attrs| - 1];
      if !IsType(t, PACK_RANK) {
        assert LastTraitIndex(attrs, PACK_RANK) == LastTraitIndex(prefix, PACK_RANK);
        match LastTraitIndex(prefix, PACK_RANK)
        case Some(i) => assert prefix[i] == attrs[i];
        case None =>
      }
    }
  }

  /** Every event announces a level some "LVL" trait was raised to, above
      the leader's level before the build. */
  lemma {:induction false} MergeAllEventsSound(attrs: seq<Trait>, ctx: MergeCtx)
    requires MergeAll(attrs, ctx).Ok?
    ensures var m := MergeAll(attrs, ctx).value;
            forall k | 0 <= k < |m.events| :: LevelEvent(attrs, ctx, m.events[k])
    decreases |attrs|
  {
    if attrs != [] {
      var prefix := attrs[..|attrs| - 1];
      MergeAllEventsSound(prefix, ctx);
      MergeStep(attrs, ctx);
      var acc := MergeAll(prefix, ctx).value;
      MergeTraitEvents(acc, attrs[|attrs| - 1], ctx);
      EventsSnoc(attrs, ctx, acc.events, MergeAll(attrs, ctx).value.events);
    }
  }

  /** The events of one more loop step are still each justified by some
      "LVL" trait of the longer list. */
  lemma EventsSnoc(attrs: seq<Trait>, ctx: MergeCtx, before: seq<Attribute>, after: seq<Attribute>)
    requires attrs != []
    requires forall k | 0 <= k < |before| :: LevelEvent(attrs[..|attrs| - 1], ctx, before[k])
    requires var t := attrs[|attrs| - 1];
             after == if IsCounter(t) && IsType(t, LVL) && Written(t, ctx) > ctx.currentLvl
                      then before + [Attribute(LVL_INCREASE, Format(Written(t, ctx)))]
                      else before
    ensures forall k | 0 <= k < |after| :: LevelEvent(attrs, ctx, after[k])
  {
    var prefix := attrs[..|attrs| - 1];
    var t := attrs[|attrs| - 1];
    assert attrs == prefix + [t];
    forall k | 0 <= k < |after|
      ensures LevelEvent(attrs, ctx, after[k])
    {
      if k < |before| {
        assert after[k] == before[k];
        LevelEventSnoc(prefix, t, ctx, before[k]);
      } else {
        var i := |attrs| - 1;
        assert IsType(attrs[i], LVL) && Written(attrs[i], ctx) > ctx.currentLvl;
        assert after[k] == Attribute(LVL_INCREASE, Format(Written(attrs[i], ctx)));
      }
    }
  }

  /** One loop step adds an event exactly when it raises an "LVL" trait
      above the level before the build. */
  lemma MergeTraitEvents(acc: Merged, t: Trait, ctx: MergeCtx)
    requires MergeTrait(acc, t, ctx).Ok?
    ensures MergeTrait(acc, t, ctx).value.events ==
            if IsCounter(t) && IsType(t, LVL) && Written(t, ctx) > ctx.currentLvl
            then acc.events + [Attribute(LVL_INCREASE, Format(Written(t, ctx)))]
            else acc.events
  {
  }

  /** An event announcing a level that some "LVL" trait of `attrs` rose to. */
  predicate LevelEvent(attrs: seq<Trait>, ctx: MergeCtx, e: Attribute)
  {
    exists i | 0 <= i < |attrs| && IsType(attrs[i], LVL) ::
      && Written(attrs[i], ctx) > ctx.currentLvl
      && e == Attribute(LVL_INCREASE, Format(Written(attrs[i], ctx)))
  }

  lemma LevelEventSnoc(prefix: seq<Trait>, t: Trait, ctx: MergeCtx, e: Attribute)
    requires LevelEvent(prefix, ctx, e)
    ensures LevelEvent(prefix + [t], ctx, e)
  {
    var i :| 0 <= i < |prefix| && IsType(prefix[i], LVL) && Written(prefix[i], ctx) > ctx.currentLvl
             && e == Attribute(LVL_INCREASE, Format(Written(prefix[i], ctx)));
    assert (prefix + [t])[i] == prefix[i];
  }

  /** An event is emitted exactly when some "LVL" trait rises above the
      leader's level before the build. */
  lemma {:induction false} MergeAllEventsComplete(attrs: seq<Trait>, ctx: MergeCtx)
    requires MergeAll(attrs, ctx).Ok?
    ensures MergeAll(attrs, ctx).value.events == [] <==>
            forall i | 0 <= i < |attrs| && IsType(attrs[i], LVL) :: Written(attrs[i], ctx) <= ctx.currentLvl
    decreases |attrs|
  {
    if attrs != [] {
      var prefix := attrs[..|attrs| - 1];
      MergeAllEventsComplete(prefix, ctx);
      assert forall i | 0 <= i < |prefix| :: prefix[i] == attrs[i];
    }
  }

  /** Each trait keeps its type, XP traits hold the new experience, and
      traits the build does not count are left as they were. */
  lemma MergeRewrites(attrs: seq<Trait>, ctx: MergeCtx)
    requires MergeAll(attrs, ctx).Ok?
    ensures var m := MergeAll(attrs, ctx).value;
            && |m.attrs| == |attrs|
            && (forall i | 0 <= i < |attrs| :: m.attrs[i].traitType == attrs[i].traitType)
            && (forall i | 0 <= i < |attrs| && IsType(attrs[i], XP) :: m.attrs[i].value == Format(ctx.newXp))
            && (forall i | 0 <= i < |attrs| && !IsCounter(attrs[i]) :: m.attrs[i] == attrs[i])
  {
    MergeAllPointwise(attrs, ctx);
  }

  /** The level rule: each "LVL" trait is recomputed from the table with the
      new experience while below the cap and kept at or above it; an event
      is emitted exactly when a resulting level exceeds the level before. */
  lemma MergeLevelRule(attrs: seq<Trait>, ctx: MergeCtx)
    requires MergeAll(attrs, ctx).Ok?
    ensures var m := MergeAll(attrs, ctx).value;
            && |m.attrs| == |attrs|
            && (forall i | 0 <= i < |attrs| && IsType(attrs[i], LVL) ::
                  && ParseU16(attrs[i].value).Some?
                  && NextLevel(ParseU16(attrs[i].value).value, ctx.levelCap, ctx.levels, ctx.newXp).Ok?
                  && m.attrs[i].value == Format(NextLevel(ParseU16(attrs[i].value).value, ctx.levelCap, ctx.levels, ctx.newXp).value))
            && (m.events == [] <==>
                  forall i | 0 <= i < |attrs| && IsType(attrs[i], LVL) ::
                    NextLevel(ParseU16(attrs[i].value).value, ctx.levelCap, ctx.levels, ctx.newXp).value <= ctx.currentLvl)
  {
    MergeAllSucceeds(attrs, ctx);
    MergeAllPointwise(attrs, ctx);
    MergeAllEventsComplete(attrs, ctx);
  }

  /** "Pack Rank" is created with value 0 when missing and then increased:
      the rank written is the members' score plus the last stored rank, or
      just the score when there was none. */
  lemma MergePackRank(attrs: seq<Trait>, ctx: MergeCtx)
    requires MergeAll(WithPackRank(attrs), ctx).Ok?
    ensures var m := MergeAll(WithPackRank(attrs), ctx).value;
            && HasTrait(m.attrs, PACK_RANK)
            && (!HasTrait(attrs, PACK_RANK) ==> m.packRank == ctx.scoreTotal)
            && (HasTrait(attrs, PACK_RANK) ==>
                  var j := LastTraitIndex(attrs, PACK_RANK).value;
                  ParseU32(attrs[j].value).Some? && m.packRank == ctx.scoreTotal + ParseU32(attrs[j].value).value)
  {
    var before := WithPackRank(attrs);
    MergeAllSucceeds(before, ctx);
    MergeAllPointwise(before, ctx);
    MergeAllPackRank(before, ctx);
    var j := LastTraitIndex(before, PACK_RANK).value;
    if !HasTrait(attrs, PACK_RANK) {
      assert j == |attrs| && before[j] == ZERO_PACK_RANK;
      assert ParseU32("0") == Some(0);
    }
    var m := MergeAll(before, ctx).value;
    assert IsType(m.attrs[j], PACK_RANK);
  }

  /** The pack size written is the member count plus the last stored size,
      or 0 for a leader without a "Pack" trait. */
  lemma MergePackSize(attrs: seq<Trait>, ctx: MergeCtx)
    requires MergeAll(attrs, ctx).Ok?
    ensures var m := MergeAll(attrs, ctx).value;
            && (!HasTrait(attrs, PACK) ==> m.packSize == 0)
            && (HasTrait(attrs, PACK) ==>
                  var j := LastTraitIndex(attrs, PACK).value;
                  ParseU16(attrs[j].value).Some? && m.packSize == ctx.memberCount + ParseU16(attrs[j].value).value)
  {
    MergeAllSucceeds(attrs, ctx);
    MergeAllPackSize(attrs, ctx);
  }
}
