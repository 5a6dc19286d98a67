# Pack builder — a Dafny model

The pack builder is a Secret Network (CosmWasm) contract for a wolf NFT
collection. An account pays a fixed amount in an accepted SNIP-20 token
(`receive`) and is recorded as paid. It then sends a leader (an "Alpha"
wolf) together with member wolves to the contract (`join_pack`). The
members are burned. Their experience, pack size and rank score are merged
into the leader's attributes. The leader gets the members' first media
files and the pack's name, and goes back to the account. A member can later
be moved from one leader to another (`transfer_pack`). The owner can hand
any token the contract holds back to an address (`try_send_nft_back`). Three
queries read the stored packs and settings.

The model keeps the contract's storage as one value, `PackState.Store`:
configuration, level table, paid list, rank pool, member lists, leaderboard
rows and per-account history. Each execute handler is a function from a
store to `Result<(Store, Response)>`. A CosmWasm call is one transaction, so
`Committed` keeps the old store when the call fails. The NFT contract's
metadata, which the handlers query, is an input map `Registry` from token id
to `Dossier` (public and private metadata). The messages a handler returns
are the abstract commands of `PackState.Command`.

The same handlers appear a second time, written the way the contract is
written, in `Contract.PackBuilder`. That class keeps the storage items as
fields. Its methods run the member loop, the in-place attribute loops, the
media push loops and the nested distinct-traits loop as `for` loops. Each
method is proved to return exactly the reply of the store-level function
and to leave exactly the store that function commits. Each loop method is
proved equal to a fold over the prefix it has processed.

Trait values are strings. `parse::<u16>()` and `parse::<u32>()` are
`Decimal.ParseUnsigned` with the type's bound, and `to_string` is
`Decimal.Format`. A panic (an `unwrap` of nothing, an arithmetic overflow
or underflow, `Vec::remove` out of range) is the error `Panicked(cause)`.
The contract's own error messages are the other `Outcome.Error` values.

Files:
- `outcome.dfy`: the Option and Result types and the errors.
- `decimal.dfy`: number parsing and formatting, and checked arithmetic.
- `seqs.dfy`: first index, removal, and lists without duplicates.
- `nft.dfy`: metadata records and the trait and media helpers.
- `levels.dfy`: the level table.
- `pack_state.dfy`: the store, the commands and `instantiate`.
- `payment.dfy`: `receive` and the consumption of a payment.
- `merge.dfy`: the two loops of `join_pack`.
- `join.dfy`: `join_pack`.
- `relocate.dfy`: `transfer_pack`.
- `queries.dfy`: the queries.
- `execute.dfy`: dispatch and the invariant over any sequence of calls.
- `contract.dfy`: the class.

## Model

| member | source | states |
|---|---|---|
| Contract.PackBuilder.constructor | src/contract.rs:32-54 | The new contract's storage is the initial store: the instantiator is the owner, the burn counter is 0, the paid list, member lists, leaderboard and history are empty, and the levels and ranks come from the message; the store is well formed |
| PackState.InitialStore | src/contract.rs:32-54 | The initial store is well formed, holds no payments, packs or history, and has burned nothing |
| PackState.RankTable | src/contract.rs:52-54 | A token has a rank in the pool exactly when some entry of the message names it |
| PackState.RankTableLastWins | src/contract.rs:52-54 | When a token appears several times in the message, its last entry decides its rank |
| PackState.RankTableValue | src/contract.rs:52-54 | Every rank in the pool is the rank given by an entry for that token |
| Contract.PackBuilder.Receive | src/contract.rs:121-163 | The method's reply and new fields are those of `ReceiveStep`, and the store stays well formed |
| Payment.FindPayment | src/contract.rs:132 | The result is the first accepted payment token at the calling address; there is none exactly when no accepted token has that address |
| Payment.ReceiveOutcome | src/contract.rs:131-162 | `receive` succeeds exactly when payment tokens are configured, the caller is one of them, the amount equals its price and the sender is not yet listed; then the sender is appended to the paid list and the only command forwards the amount from the caller's token to the receiving address |
| Payment.ReceiveKeepsNoDup | src/contract.rs:144-148 | A successful `receive` never lists an account twice |
| Payment.ConsumeExactlyOnce | src/contract.rs:217-229 | Consuming a payment succeeds exactly when the account is listed, and then removes exactly that one entry; otherwise the error is "Payment not received" when payment is required and a panic of `position.unwrap()` when it is not |
| Merge.SplitMain | src/contract.rs:233-240 | Splitting off the leader succeeds exactly when the leader is among the sent tokens, and leaves the other tokens as the members (the same multiset, one fewer); otherwise the error is "Main Token is not in the list" |
| Merge.SplitMainOrder | src/contract.rs:233-240 | Only the first occurrence of the leader's id is removed; the other tokens keep the order they were sent in |
| Contract.PackBuilder.JoinPack | src/contract.rs:204-471 | The method's reply and new fields are those of `JoinPackStep`, and the store stays well formed |
| Contract.PackBuilder.JoinChecks | src/contract.rs:215-292 | The payment check, the leader check, the sender check and the member loop fail exactly as `JoinPackStep` does; on success the rest of the call is `JoinLeader` on their results |
| Contract.PackBuilder.LeaderUpdate | src/contract.rs:314-424 | The leader lookup, the burn counter and both extension updates fail exactly as `JoinLeader` does; on success `JoinLeader` commits exactly the values the method computed |
| Contract.PackBuilder.PublicUpdate | src/contract.rs:329-407 | The leader's public update, with its loops run in place, equals `MergeLeaderPublic` |
| Contract.PackBuilder.PrivateUpdate | src/contract.rs:410-424 | The leader's private update, with its push loop run in place, equals `MergeLeaderPrivate` |
| Contract.PackBuilder.WriteJoin | src/contract.rs:286-464 | The writes of a successful build leave exactly the store, and give exactly the reply, of `JoinCommit` |
| Merge.CollectMembers | src/contract.rs:258-292 | The member loop equals the fold `Collect`, including which member's check fails first |
| Merge.CollectShape | src/contract.rs:258-291 | A successful member loop records one member per sent member, in order. Each record has the token's id, its rank from the pool (at most the collection size) and its public attributes. That member is not an Alpha and has at least 464 XP |
| Merge.CollectMedia | src/contract.rs:283-284 | A successful member loop keeps each member's first public and first private media file, in the order sent |
| Merge.CollectTotals | src/contract.rs:255-278 | The experience total is the members' XP summed and the score total is the sum of `collection_size - rank`; both fit a `u32` |
| Merge.MergeAttributes | src/contract.rs:358-389 | The in-place attribute loop equals the fold `MergeAll` |
| Merge.MergeRewrites | src/contract.rs:361-374 | Every trait keeps its position and type; every XP trait holds the leader's new experience; traits other than XP, Pack, Pack Rank and LVL are unchanged |
| Merge.MergeLevelRule | src/contract.rs:376-388 | Every LVL trait below the cap is recomputed from the table with the new experience, and one at or above the cap keeps its value; no "lvl_increase" event exists exactly when no resulting level exceeds the level before the build |
| Merge.MergeAllEventsSound | src/contract.rs:385-387 | Every event names the level some LVL trait rose to, above the level before the build |
| Merge.MergeAllEventsComplete | src/contract.rs:385-387 | There are no events exactly when no LVL trait was written above the level before the build |
| Merge.MergePackSize | src/contract.rs:358-369 | The leaderboard pack size is the last Pack trait's stored value plus the member count, or 0 when the leader has no Pack trait |
| Merge.MergePackRank | src/contract.rs:348-374 | Pack Rank is created at 0 when missing; the leaderboard rank is the members' score plus the last stored rank, or just the score when there was none |
| Nft.AppendMedia | src/contract.rs:335-337 | The push loop equals `PushMedia`: the media list is extended by the files in order, and a missing list panics only when there is something to push |
| Nft.WithPackRank | src/contract.rs:348-356 | After the update the attributes have a Pack Rank trait, and at most one trait was appended at the end |
| Levels.FirstAbove | src/contract.rs:378 | The result is the first table entry whose threshold exceeds the experience; there is none exactly when no threshold does |
| Levels.LevelForMonotone | src/contract.rs:377-379 | In an ascending table, more experience never gives a lower level |
| Levels.LevelNeverDecreases | src/contract.rs:377-382 | A leader whose level agrees with its experience never loses a level by gaining experience, and one at or above the cap keeps its level |
| Join.LeaderContextValues | src/contract.rs:343-346 | The new experience is the leader's XP plus the members' total and fits a `u32`; the level before the build is the leader's first LVL trait read as a `u16` |
| Join.LeaderMerge | src/contract.rs:329-389 | A successful public update is the attribute loop on the leader's attributes, with Pack Rank ensured, given the new experience, the level before, the member count and the score total |
| Join.MergeLeaderPublicUnfold | src/contract.rs:329-407 | A successful public update found an editable extension whose attributes include Alpha; it carries the new name, the media with the members' files appended, and the rewritten attributes |
| Join.JoinPackChecks | src/contract.rs:219-341 | A successful build had a paid account, the leader among the sent tokens, the NFT contract as sender, every member accepted, and an Alpha leader |
| Join.JoinPackConsumesPayment | src/contract.rs:219-326 | A successful build takes the account off the paid list, exactly once |
| Join.JoinPackMembers | src/contract.rs:231-291 | The members' records are appended after the leader's existing ones, one per member; no other leader's list changes |
| Join.JoinPackRecords | src/contract.rs:324-464 | The leader's leaderboard row carries its id and the pack name (its values are stated by `Join.JoinPackRow`), and no other row changes. The account's history gains one entry naming the leader and the members. The burn counter grows by the member count. The rank pool and the level table do not change |
| Join.JoinPackCommands | src/contract.rs:294-453 | The commands are, in order: burn the members, write the leader's metadata, send the leader back to the account (the metadata's contents are stated by `Join.JoinPackPublicMedia`, `Join.JoinPackAttributes` and `Join.JoinPackPrivateMetadata`) |
| Join.MergeLeaderAttributes | src/contract.rs:329-366 | A successful public update takes the pack's name; every XP trait holds the leader's old experience plus the members' total; traits the build does not count are kept; only a Pack Rank trait may be added |
| Join.MergeLeaderCounters | src/contract.rs:345-389 | The rank the update leaves is the members' score plus the last stored Pack Rank, or the score alone when Pack Rank was missing; the size is the member count plus the last stored Pack, or 0 without a Pack trait |
| Join.MergeLeaderPublicMedia | src/contract.rs:329-337 | The public media list gets the members' files after the leader's own, and is untouched when there are no members |
| Join.MergeLeaderPrivateValues | src/contract.rs:410-418 | The private extension gets the members' files after the leader's own media and is otherwise unchanged |
| Join.JoinPackRow | src/contract.rs:345-397 | The leader's leaderboard row holds the pack's name. Its rank is the sum of (collection size - rank) over the merged members, on top of the leader's last stored Pack Rank or alone when the leader had none. Its count is the number of members on top of the last stored Pack, or 0 when the leader has no Pack trait |
| Join.JoinPackSetMetadata | src/contract.rs:420-453 | The commands are the burn, the metadata update carrying the two extensions the leader update built, and the transfer back |
| Join.JoinPackPublicMedia | src/contract.rs:329-337 | The new public metadata carries the pack's name. Each member's first public file is appended to the leader's media, in the order the members were sent |
| Join.JoinPackAttributes | src/contract.rs:339-366 | In the new public attributes every XP trait holds the leader's old XP plus the sum of the members' XP; every trait the build does not count is kept; at most a Pack Rank trait is added |
| Join.JoinPackPrivateMetadata | src/contract.rs:410-418 | The new private metadata is the leader's own with each member's first private file appended, in the order sent, and nothing else changed |
| Join.JoinPackFits | src/contract.rs:324-397 | The new leaderboard row's rank fits a `u32` and its count a `u16`, and so does the burn counter |
| Join.JoinPreservesWellFormed | src/contract.rs:204-471 | A successful build keeps the store well formed: no duplicate payments, no Alpha among members, all values within their widths |
| Join.JoinTwiceFails | src/contract.rs:219-229 | After a successful build, the same account's next build fails at the payment check, whatever it sends |
| Contract.PackBuilder.TransferPack | src/contract.rs:473-744 | The method's reply and new fields are those of `TransferStep`, and the store stays well formed |
| Contract.PackBuilder.TransferUpdate | src/contract.rs:514-684 | Both leaders' lookups and metadata updates fail exactly as `TransferLeaders` does; on success `TransferLeaders` commits exactly the values the method computed |
| Contract.PackBuilder.Shrink | src/contract.rs:555-591 | The source leader's public update, with its attribute loop run in place, equals `ShrinkPublic` |
| Contract.PackBuilder.Grow | src/contract.rs:620-670 | The destination leader's public update, with its attribute loop run in place, equals `GrowPublic` |
| Contract.PackBuilder.WriteTransfer | src/contract.rs:509-737 | The writes of a successful transfer leave exactly the store, and give exactly the reply, of `TransferCommit` |
| Relocate.MemberPosition | src/contract.rs:499 | The result is the first position of a record with the token's id; there is none exactly when no record has it |
| Relocate.ShiftAttributes | src/contract.rs:564-575 | The in-place counter loop equals the fold `ShiftAll` |
| Relocate.ShiftCounters | src/contract.rs:564-648 | The leaderboard values one leader's loop computes are its last stored size moved by one and its last stored rank moved by the member's score, or 0 for a counter it does not carry; they fit their widths |
| Relocate.RankConserved | src/contract.rs:571-646 | When both leaders carry Pack Rank, the two new ranks add up to the two stored ranks |
| Relocate.TransferRejects | src/contract.rs:488-741 | The checks come in the contract's order: leader not sent, destination not sent, no pack, not a member, sender not the NFT contract |
| Relocate.TransferMembers | src/contract.rs:497-510 | The record leaves the source list at its first position and is appended to the destination list. When source and destination are the same leader, the list gains a second copy. No other list changes |
| Relocate.TransferKeepsRecords | src/contract.rs:497-510 | Between two different leaders, the two lists together hold the same records before and after |
| Relocate.ShrinkPublicFacts | src/contract.rs:555-591 | The source's public file at `member_index + 1` is taken out and the others keep their order; the attributes are the counter loop's output |
| Relocate.GrowPublicFacts | src/contract.rs:620-648 | The file is appended to the destination's public media; the attributes are the counter loop's output on its attributes with Pack Rank ensured |
| Relocate.PrivateFacts | src/contract.rs:594-684 | The source's private file at `member_index` moves to the end of the destination's private media |
| Relocate.TransferCommands | src/contract.rs:686-737 | The commands are the source's new metadata, the destination's new metadata and one batch transfer of every sent token back to the account. The media lists are exactly the source's lists minus the moved files and the destination's lists plus them |
| Relocate.TransferRows | src/contract.rs:576-660 | The source's leaderboard row gets its loop's counters. Then the destination's row gets its own loop's counters: a new row named "" when it had none, or the row just written when both leaders are the same. No other row changes |
| Relocate.TransferCounters | src/contract.rs:564-660 | Between two different leaders, the source's size drops by one and its rank by the member's score. The destination's size rises by one and its rank by the same score. A leader without Pack gets size 0. The two ranks together are conserved |
| Relocate.TransferRecords | src/contract.rs:608-617 | The account's history gains one entry naming the destination and the moved member; configuration, levels, paid list and rank pool do not change |
| Relocate.TransferPreservesWellFormed | src/contract.rs:473-744 | A successful transfer keeps the store well formed |
| Contract.PackBuilder.BatchReceive | src/contract.rs:165-202 | The method's reply and new fields are those of `BatchReceiveStep`, and the store stays well formed |
| Execute.BatchReceiveStep | src/contract.rs:180-201 | Without a message the call fails with "data should be given" |
| Contract.PackBuilder.SendNftBack | src/contract.rs:746-770 | The reply is that of `SendNftBackStep` |
| Execute.SendNftBackStep | src/contract.rs:746-770 | The call succeeds exactly when the sender is the owner, and then changes nothing and sends the token to the given address; otherwise it is refused |
| Execute.ExecutePreservesWellFormed | src/contract.rs:96-119 | Every execute call keeps the store well formed, whether it commits or not |
| Execute.ReachableWellFormed | src/contract.rs:22-119 | Every store reached from `instantiate` by any sequence of execute calls is well formed |
| Queries.PackMembers | src/contract.rs:854-860 | The leader's stored member records, or none for an unknown leader |
| Contract.PackBuilder.QueryPackMemberTraits | src/contract.rs:862-877 | The nested loop over the stored members returns `PackMemberTraits` of the current store |
| Queries.DistinctTraits | src/contract.rs:868-876 | The nested loop equals `Distinct` of all the members' traits |
| Queries.PackMemberTraitsSpec | src/contract.rs:862-877 | The result holds no trait twice. It holds exactly the traits some member carries, in order of first appearance, and nothing for an unknown leader |
| Queries.DistinctOfDistinct | src/contract.rs:869-875 | A list without repeats comes back unchanged |
| Queries.AllTraitsContents | src/contract.rs:869-870 | A trait is among the flattened traits exactly when some member carries it |
| Queries.PackBuildInfo | src/contract.rs:800-806 | The pack maximum, the burn counter and the accepted payments, as configured |
| Decimal.ParseFormat | src/contract.rs:364-373 | A number written with `to_string` reads back as the same number with any bound it fits |
| Decimal.AsU16 | src/contract.rs:324-367 | `len() as u16` keeps a length that fits and always gives a `u16` |
| Seqs.RemoveAt | src/contract.rs:228-239 | Removing position `i` keeps the other elements in order and removes exactly one occurrence |

## Left out

- Viewing key and entropy (`instantiate` lines 28-29) are left out, and so are query permits and their revocation (`get_querier`, `try_revoke_permit`). The history queries that need a permit are left out with them. They concern access, not pack state.
- The leaderboard and history paging queries (`query_num_packs`, `query_packs`, `query_num_user_history`, `query_user_history`) are left out. They only read stored rows a page at a time.
- `nft_dossier_query` is the input map `Registry`, given for each call. A token missing from it is the error `QueryFailed`. The NFT contract's own behaviour is not part of this model.
- The message builders (`transfer_msg`, `batch_burn_nft_msg`, `set_metadata_msg`, `transfer_nft_msg`, `batch_transfer_nft_msg`) are abstract commands. Their encoding, code hashes, memos and padding are not modelled.
- `instantiate`'s register-receive and set-viewing-key messages are not modelled, nor its admin and own-address items. None of them is read by the modelled handlers.
- Decoding the batch message from `Binary` is not modelled: the message arrives already decoded, and a malformed one is not represented.
- Debug logging and address canonicalisation are left out; addresses are compared as strings.
- Arithmetic overflow and underflow are panics, as in a build with overflow checks. The one exception is `len() as u16`, which wraps (`Decimal.AsU16`).
- Relocate.PackTransferMsg: the width of `member_index` is not known, since the message file does not match the code. It is a `nat`, so the overflow of `member_index + 1` is not modelled.
- The transfer writes the member lists last, together with the other writes, while the contract writes them before its later checks. A failing call keeps none of its writes, so the committed store is the same.
- Metadata fields other than name, attributes and media (description, image, token URI and so on) are carried unchanged or left out.
- The `pack_max` setting is stored and reported, but no handler enforces it; the model does not enforce it either.
