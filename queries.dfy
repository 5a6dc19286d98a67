/** The read-only queries: a leader's members, the distinct traits of a
    leader's members, and the build settings. None of them changes the store. */
module Queries {
  import opened Outcome
  import opened Seqs
  import opened Nft
  import opened PackState

  /** `query_pack_members`: the leader's member records, in the order they
      joined; an unknown leader has none. */
  function PackMembers(s: Store, mainTokenId: TokenId): (r: seq<PackMember>)
    ensures mainTokenId !in s.members ==> r == []
    ensures mainTokenId in s.members ==> r == s.members[mainTokenId]
  {
    MembersOf(s.members, mainTokenId)
  }

  /** Every trait of every member, members in order and each member's traits in order. */
  function AllTraits(ms: seq<PackMember>): seq<Trait>
    decreases |ms|
  {
    if ms == [] then [] else AllTraits(ms[..|ms| - 1]) + ms[|ms| - 1].attributes
  }

  /** The traits of a list with later repeats dropped. */
  function Distinct(ts: seq<Trait>): seq<Trait>
    decreases |ts|
  {
    if ts == [] then []
    else
      var kept := Distinct(ts[..|ts| - 1]);
      if ts[|ts| - 1] in kept then kept else kept + [ts[|ts| - 1]]
  }

  /** `query_pack_member_traits`: the distinct traits of the leader's
      members; an unknown leader has none. */
  function PackMemberTraits(s: Store, mainTokenId: TokenId): seq<Trait>
  {
    Distinct(AllTraits(MembersOf(s.members, mainTokenId)))
  }

  /** The nested loop that builds the list, skipping traits already in it. */
  method DistinctTraits(members: seq<PackMember>) returns (r: seq<Trait>)
    ensures r == Distinct(AllTraits(members))
  {
    r := [];
    for i := 0 to |members|
      invariant r == Distinct(AllTraits(members[..i]))
    {
      r := AddNewTraits(r, AllTraits(members[..i]), members[i].attributes);
      AllTraitsSnoc(members, i);
    }
    assert members[..|members|] == members;
  }

  /** The inner loop: one member's traits added to the list built from
      `seen`, each unless it is already there. */
  method AddNewTraits(r0: seq<Trait>, ghost seen: seq<Trait>, attrs: seq<Trait>) returns (r: seq<Trait>)
    requires r0 == Distinct(seen)
    ensures r == Distinct(seen + attrs)
  {
    r := r0;
    assert seen + attrs[..0] == seen;
    for k := 0 to |attrs|
      invariant r == Distinct(seen + attrs[..k])
    {
      DistinctSnoc(seen + attrs[..k], attrs[k]);
      assert seen + attrs[..k + 1] == (seen + attrs[..k]) + [attrs[k]];
      if attrs[k] !in r {
        r := r + [attrs[k]];
      }
    }
    assert attrs[..|attrs|] == attrs;
  }

  lemma DistinctSnoc(ts: seq<Trait>, t: Trait)
    ensures Distinct(ts + [t]) == if t in Distinct(ts) then Distinct(ts) else Distinct(ts) + [t]
  {
    assert (ts + [t])[..|ts|] == ts;
  }

  lemma AllTraitsSnoc(ms: seq<PackMember>, i: nat)
    requires i < |ms|
    ensures AllTraits(ms[..i + 1]) == AllTraits(ms[..i]) + ms[i].attributes
  {
    assert ms[..i + 1][..i] == ms[..i];
  }

  /** The result holds exactly the traits of the input, each once. */
  lemma {:induction false} DistinctContents(ts: seq<Trait>)
    ensures forall t :: t in Distinct(ts) <==> t in ts
    ensures NoDup(Distinct(ts))
    decreases |ts|
  {
    if ts != [] {
      var prefix := ts[..|ts| - 1];
      DistinctContents(prefix);
      assert ts == prefix + [ts[|ts| - 1]];
    }
  }

  /** The first position of a value does not move when something is appended. */
  lemma IndexOfSnoc(s: seq<Trait>, x: Trait, y: Trait)
    requires y in s
    ensures IndexOf(s + [x], y) == IndexOf(s, y)
  {
    var a := IndexOf(s, y).value;
    var b := IndexOf(s + [x], y).value;
    assert (s + [x])[a] == y;
    assert (s + [x])[..b] == s[..b] by {
      assert b <= a;
    }
    assert s[b] == y;
  }

  /** A value appended to a list it was not in is first seen at the end. */
  lemma IndexOfNew(s: seq<Trait>, x: Trait)
    requires x !in s
    ensures IndexOf(s + [x], x) == Some(|s|)
  {
    var b := IndexOf(s + [x], x).value;
    assert (s + [x])[..|s|] == s;
  }

  /** Two kept traits in first-seen order stay in that order when a trait is
      appended to the input. */
  lemma FirstSeenPair(prefix: seq<Trait>, x: Trait, a: Trait, b: Trait)
    requires a in prefix
    requires b in prefix ==> IndexOf(prefix, a).value < IndexOf(prefix, b).value
    requires b !in prefix ==> b == x
    ensures IndexOf(prefix + [x], a).Some? && IndexOf(prefix + [x], b).Some?
    ensures IndexOf(prefix + [x], a).value < IndexOf(prefix + [x], b).value
  {
    IndexOfSnoc(prefix, x, a);
    if b in prefix {
      IndexOfSnoc(prefix, x, b);
    } else {
      IndexOfNew(prefix, x);
    }
  }

  /** Every trait of `r` occurs in `ts`, and they come in the order of their
      first occurrence there. */
  predicate FirstSeenOrder(ts: seq<Trait>, r: seq<Trait>)
  {
    forall i, j | 0 <= i < j < |r| ::
      IndexOf(ts, r[i]).Some? && IndexOf(ts, r[j]).Some? && IndexOf(ts, r[i]).value < IndexOf(ts, r[j]).value
  }

  /** The traits come in the order of their first appearance. */
  lemma {:induction false} DistinctFirstSeen(ts: seq<Trait>)
    ensures FirstSeenOrder(ts, Distinct(ts))
    decreases |ts|
  {
    if ts != [] {
      var prefix := ts[..|ts| - 1];
      var x := ts[|ts| - 1];
      assert ts == prefix + [x];
      DistinctFirstSeen(prefix);
      DistinctContents(prefix);
      var kept := Distinct(prefix);
      var r := Distinct(ts);
      assert r == kept || (r == kept + [x] && x !in prefix);
      forall i, j | 0 <= i < j < |r|
        ensures IndexOf(ts, r[i]).Some? && IndexOf(ts, r[j]).Some? && IndexOf(ts, r[i]).value < IndexOf(ts, r[j]).value
      {
        assert r[i] == kept[i] && r[i] in prefix;
        if j < |kept| {
          assert r[j] == kept[j] && r[j] in prefix;
          assert IndexOf(prefix, kept[i]).value < IndexOf(prefix, kept[j]).value;
        }
        FirstSeenPair(prefix, x, r[i], r[j]);
      }
    }
  }

  /** A list without repeats comes back unchanged. */
  lemma {:induction false} DistinctOfDistinct(ts: seq<Trait>)
    requires NoDup(ts)
    ensures Distinct(ts) == ts
    decreases |ts|
  {
    if ts != [] {
      var prefix := ts[..|ts| - 1];
      DistinctOfDistinct(prefix);
      assert ts == prefix + [ts[|ts| - 1]];
    }
  }

  /** The trait query on a leader: only traits some member carries, every
      such trait, each once, in first-seen order; none for an unknown leader. */
  lemma PackMemberTraitsSpec(s: Store, mainTokenId: TokenId)
    ensures var r := PackMemberTraits(s, mainTokenId);
            var all := AllTraits(MembersOf(s.members, mainTokenId));
            && NoDup(r)
            && (forall t :: t in r <==> t in all)
            && FirstSeenOrder(all, r)
            && (mainTokenId !in s.members ==> r == [])
  {
    var all := AllTraits(MembersOf(s.members, mainTokenId));
    assert PackMemberTraits(s, mainTokenId) == Distinct(all);
    DistinctContents(all);
    DistinctFirstSeen(all);
  }

  /** A trait is in the flattened list exactly when some member carries it. */
  lemma {:induction false} AllTraitsContents(ms: seq<PackMember>, t: Trait)
    ensures t in AllTraits(ms) <==> exists i | 0 <= i < |ms| :: t in ms[i].attributes
    decreases |ms|
  {
    if ms != [] {
      var prefix := ms[..|ms| - 1];
      AllTraitsContents(prefix, t);
      if t in AllTraits(prefix) {
        var i :| 0 <= i < |prefix| && t in prefix[i].attributes;
        assert ms[i] == prefix[i];
      }
      if exists i | 0 <= i < |ms| :: t in ms[i].attributes {
        var i :| 0 <= i < |ms| && t in ms[i].attributes;
        if i < |prefix| {
          assert prefix[i] == ms[i];
        }
      }
    }
  }

  /** What `query_pack_build_info` reports. */
  datatype BuildInfo = BuildInfo(packMax: nat, totalBurned: nat, validPayments: Option<seq<PaymentContract>>)

  /** The build settings and the burn counter, read from the configuration. */
  function PackBuildInfo(s: Store): (r: BuildInfo)
    ensures r.packMax == s.config.packMax && r.totalBurned == s.config.totalBurned
    ensures r.validPayments == s.config.validPayments
  {
    BuildInfo(s.config.packMax, s.config.totalBurned, s.config.validPayments)
  }
}
