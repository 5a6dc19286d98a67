/** Token metadata as the NFT registry returns it and accepts it back:
    traits, media files, the public and private extensions, and the lookups
    the contract performs on them. The registry itself is an input map from
    token id to the metadata a dossier query would return. */
module Nft {
  import opened Outcome
  import opened Seqs

  type TokenId = string

  /** One attribute; equality compares all four fields. */
  datatype Trait = Trait(displayType: Option<string>, traitType: Option<string>, value: string, maxValue: Option<string>)

  datatype MediaFile = MediaFile(fileType: Option<string>, extension: Option<string>, url: string)

  datatype Extension = Extension(name: Option<string>, attributes: Option<seq<Trait>>, media: Option<seq<MediaFile>>)

  datatype Metadata = Metadata(tokenUri: Option<string>, extension: Option<Extension>)

  /** What a dossier query returns about one token. */
  datatype Dossier = Dossier(publicMetadata: Option<Metadata>, privateMetadata: Option<Metadata>)

  type Registry = map<TokenId, Dossier>

  const ALPHA: string := "Alpha"
  const XP: string := "XP"
  const LVL: string := "LVL"
  const PACK: string := "Pack"
  const PACK_RANK: string := "Pack Rank"

  predicate IsType(t: Trait, name: string) { t.traitType == Some(name) }

  predicate HasTrait(attrs: seq<Trait>, name: string)
  {
    exists i | 0 <= i < |attrs| :: IsType(attrs[i], name)
  }

  /** `iter().find(|x| x.trait_type == Some(name))`, as a position: the first trait of that type. */
  function TraitIndex(attrs: seq<Trait>, name: string): (r: Option<nat>)
    ensures r.None? <==> !HasTrait(attrs, name)
    ensures r.Some? ==> r.value < |attrs| && IsType(attrs[r.value], name)
    ensures r.Some? ==> forall j | 0 <= j < r.value :: !IsType(attrs[j], name)
    decreases |attrs|
  {
    if attrs == [] then None
    else if IsType(attrs[0], name) then Some(0)
    else match TraitIndex(attrs[1..], name)
      case None => None
      case Some(i) => Some(i + 1)
  }

  function FindTrait(attrs: seq<Trait>, name: string): Option<Trait>
  {
    match TraitIndex(attrs, name)
    case Some(i) => Some(attrs[i])
    case None => None
  }

  /** The position of the last trait of a type: the one whose value an
      attribute loop leaves in its accumulator. */
  function LastTraitIndex(attrs: seq<Trait>, name: string): (r: Option<nat>)
    ensures r.None? <==> !HasTrait(attrs, name)
    ensures r.Some? ==> r.value < |attrs| && IsType(attrs[r.value], name)
    ensures r.Some? ==> forall j | r.value < j < |attrs| :: !IsType(attrs[j], name)
    decreases |attrs|
  {
    if attrs == [] then None
    else if IsType(attrs[|attrs| - 1], name) then Some(|attrs| - 1)
    else LastTraitIndex(attrs[..|attrs| - 1], name)
  }

  /** The dossier query: the registry's answer, or the query's error. */
  function Query(registry: Registry, id: TokenId): Result<Dossier>
  {
    if id in registry then Ok(registry[id]) else Err(QueryFailed)
  }

  /** `public_metadata.unwrap().extension.unwrap().attributes.unwrap()`. */
  function PublicAttributes(d: Dossier): Result<seq<Trait>>
  {
    if d.publicMetadata.None? || d.publicMetadata.value.extension.None?
       || d.publicMetadata.value.extension.value.attributes.None?
    then Err(Panicked(MissingValue))
    else Ok(d.publicMetadata.value.extension.value.attributes.value)
  }

  /** `metadata.unwrap().extension.unwrap().media.unwrap().first().unwrap()`. */
  function FirstMedia(m: Option<Metadata>): Result<MediaFile>
  {
    if m.None? || m.value.extension.None? || m.value.extension.value.media.None?
       || m.value.extension.value.media.value == []
    then Err(Panicked(MissingValue))
    else Ok(m.value.extension.value.media.value[0])
  }

  /** The extension a leader update edits, or the error returned when the
      metadata or its extension is absent. */
  function EditableExtension(m: Option<Metadata>): Result<Extension>
  {
    if m.None? then Err(MetadataMissing)
    else if m.value.extension.None? then Err(ExtensionMissing)
    else Ok(m.value.extension.value)
  }

  /** `for f in add { media.as_mut().unwrap().push(f) }`: the unwrap happens
      only when there is something to push. */
  function PushMedia(media: Option<seq<MediaFile>>, add: seq<MediaFile>): Result<Option<seq<MediaFile>>>
  {
    if add == [] then Ok(media)
    else if media.None? then Err(Panicked(MissingValue))
    else Ok(Some(media.value + add))
  }

  /** The push loop itself, one file at a time. */
  method AppendMedia(media: Option<seq<MediaFile>>, add: seq<MediaFile>) returns (r: Result<Option<seq<MediaFile>>>)
    ensures r == PushMedia(media, add)
  {
    var m := media;
    assert media.Some? ==> media.value + add[..0] == media.value;
    for i := 0 to |add|
      invariant media.None? ==> m.None? && i == 0
      invariant media.Some? ==> m == Some(media.value + add[..i])
    {
      if m.None? {
        return Err(Panicked(MissingValue));
      }
      m := Some(m.value + [add[i]]);
      assert media.value + add[..i + 1] == media.value + add[..i] + [add[i]];
    }
    assert add[..|add|] == add;
    if add == [] {
      assert m == media;
    }
    return Ok(m);
  }

  /** `media.as_mut().unwrap().remove(i)`: the remaining list and the removed file. */
  function TakeMedia(media: Option<seq<MediaFile>>, i: nat): Result<(seq<MediaFile>, MediaFile)>
  {
    if media.None? then Err(Panicked(MissingValue))
    else if i >= |media.value| then Err(Panicked(IndexOutOfRange))
    else Ok((RemoveAt(media.value, i), media.value[i]))
  }

  /** The "Pack Rank" trait a leader receives, with value "0", when it has none. */
  const ZERO_PACK_RANK: Trait := Trait(None, Some(PACK_RANK), "0", None)

  function WithPackRank(attrs: seq<Trait>): (r: seq<Trait>)
    ensures HasTrait(r, PACK_RANK)
    ensures attrs <= r && |r| <= |attrs| + 1
  {
    if HasTrait(attrs, PACK_RANK) then attrs
    else
      assert IsType((attrs + [ZERO_PACK_RANK])[|attrs|], PACK_RANK);
      attrs + [ZERO_PACK_RANK]
  }

  /** The media list of some metadata, empty when any part of it is absent. */
  function MediaOf(m: Option<Metadata>): seq<MediaFile>
  {
    if m.Some? && m.value.extension.Some? && m.value.extension.value.media.Some?
    then m.value.extension.value.media.value
    else []
  }
}
