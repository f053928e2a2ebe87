/**
  The page of one collection: its initial state, the outfits it holds, the
  metadata editor, the archive switch, and adding and removing outfits.
 */
module CollectionDetail {
  import opened Wrappers
  import opened Text
  import opened Lists
  import opened Wardrobe
  import opened Collections

  /**
    The page's first collection: the record handed over by navigation,
    normalised, or else a placeholder under the id from the address.
   */
  function InitialCollection(urlId: string, state: Option<RawCollection>): (c: Collection)
    ensures state.None? ==> c == Collection(Str(urlId), None, "Collection", "", "", false, [], [])
    ensures state.Some? ==> c == Normalize(state.value)
    ensures state.Some? && state.value.tags.None? ==> c.tags == []
    ensures state.Some? ==> (c.is_archived <==> state.value.is_archived == Some(true))
  {
    if state.None? then Collection(Str(urlId), None, "Collection", "", "", false, [], [])
    else Normalize(state.value)
  }

  /** The saved outfits that belong to the collection, in the order they were loaded. */
  function OutfitsInCollection(saved: seq<Outfit>, outfitIds: seq<Id>): (r: seq<Outfit>)
    ensures forall o :: o in r <==> o in saved && o.outfit_id in outfitIds
    ensures IsSubsequence(r, saved)
    ensures outfitIds == [] ==> r == []
    ensures forall o :: multiset(r)[o] == if o.outfit_id in outfitIds then multiset(saved)[o] else 0
  {
    if outfitIds == [] then [] else Filter((o: Outfit) => o.outfit_id in outfitIds, saved)
  }

  /** The count under the title: "No outfits", "1 outfit", "n outfits". */
  function DetailCountLabel(outfitIds: seq<Id>): (r: string)
    ensures outfitIds == [] <==> r == "No outfits"
    ensures |outfitIds| == 1 ==> r == "1 outfit"
    ensures |outfitIds| > 1 ==> r == NatToString(|outfitIds|) + " outfits"
  {
    var r := OutfitCountLabel(|outfitIds|, "No outfits");
    assert outfitIds != [] ==> r[0] == NatToString(|outfitIds|)[0];
    r
  }

  /** Saving the metadata: the trimmed draft name unless it is blank, then the old name. */
  function SavedName(draftName: string, oldName: string): (r: string)
    ensures IsBlank(draftName) ==> r == oldName
    ensures !IsBlank(draftName) ==> r == Trim(draftName) && r != "" && !IsSpace(r[0]) && !IsSpace(r[|r| - 1])
  {
    OrElse(Trim(draftName), oldName)
  }

  /** A collection whose name has a visible character keeps one through any save. */
  lemma SavedNameNeverBlank(draftName: string, oldName: string)
    requires !IsBlank(oldName)
    ensures !IsBlank(SavedName(draftName, oldName))
  {
  }

  class CollectionDetailPage {
    var collection: Collection
    var savedOutfits: seq<Outfit>
    var error: string
    var editing: bool
    var draftName: string
    var draftDescription: string
    var draftTags: seq<string>
    var selecting: bool
    var selectedIds: seq<Id>

    /** The page as first shown: the initial collection, the drafts copied from it, nothing selected. */
    constructor (urlId: string, state: Option<RawCollection>)
      ensures collection == InitialCollection(urlId, state)
      ensures draftName == collection.name && draftDescription == collection.description && draftTags == collection.tags
      ensures savedOutfits == [] && error == "" && !editing && !selecting && selectedIds == []
    {
      var initial := InitialCollection(urlId, state);
      collection := initial;
      savedOutfits := [];
      error := "";
      editing := false;
      draftName := initial.name;
      draftDescription := initial.description;
      draftTags := initial.tags;
      selecting := false;
      selectedIds := [];
    }

    /** `useSavedOutfits` once `/outfits` has answered: a null answer reads as no outfits. */
    method LoadOutfits(reply: Result<Option<seq<Outfit>>>)
      modifies this
      ensures reply.Ok? ==> savedOutfits == reply.value.GetOr([]) && error == ""
      ensures reply.Err? ==> savedOutfits == old(savedOutfits) && error == OrElse(reply.message, "Could not load outfits")
      ensures collection == old(collection) && selectedIds == old(selectedIds) && selecting == old(selecting)
      ensures editing == old(editing) && draftName == old(draftName) && draftDescription == old(draftDescription)
      ensures draftTags == old(draftTags)
    {
      error := "";
      match reply
      case Ok(data) =>
        savedOutfits := data.GetOr([]);
      case Err(message) =>
        error := OrElse(message, "Could not load outfits");
    }

    /** The editor's tag chips. */
    method ToggleTag(tag: string)
      modifies this
      ensures draftTags == Toggle(old(draftTags), tag)
      ensures collection == old(collection) && draftName == old(draftName) && draftDescription == old(draftDescription)
      ensures editing == old(editing) && selectedIds == old(selectedIds) && selecting == old(selecting)
      ensures savedOutfits == old(savedOutfits) && error == old(error)
    {
      draftTags := Toggle(draftTags, tag);
    }

    /** `handleSaveMeta`: name, description and tags from the drafts, the other fields kept; editing ends. */
    method SaveMeta()
      modifies this
      ensures collection == old(collection).(name := SavedName(old(draftName), old(collection).name),
                                            description := old(draftDescription),
                                            tags := old(draftTags))
      ensures !editing
      ensures draftName == old(draftName) && draftDescription == old(draftDescription) && draftTags == old(draftTags)
      ensures selectedIds == old(selectedIds) && selecting == old(selecting)
      ensures savedOutfits == old(savedOutfits) && error == old(error)
    {
      collection := collection.(name := SavedName(draftName, collection.name), description := draftDescription, tags := draftTags);
      editing := false;
    }

    /** `handleToggleArchive`: only the archive flag flips. */
    method ToggleArchive()
      modifies this
      ensures collection == old(collection).(is_archived := !old(collection).is_archived)
      ensures editing == old(editing) && selectedIds == old(selectedIds) && selecting == old(selecting)
      ensures draftName == old(draftName) && draftDescription == old(draftDescription) && draftTags == old(draftTags)
      ensures savedOutfits == old(savedOutfits) && error == old(error)
    {
      collection := collection.(is_archived := !collection.is_archived);
    }

    /** Ticking or clearing an outfit in the picker. */
    method ToggleSelectOutfit(id: Id)
      modifies this
      ensures selectedIds == Toggle(old(selectedIds), id)
      ensures collection == old(collection) && selecting == old(selecting) && editing == old(editing)
      ensures draftName == old(draftName) && draftDescription == old(draftDescription) && draftTags == old(draftTags)
      ensures savedOutfits == old(savedOutfits) && error == old(error)
    {
      selectedIds := Toggle(selectedIds, id);
    }

    /**
      `handleAddSelected`: the collection's ids followed by the selected ones,
      each kept at its first occurrence; the picker closes and the selection clears.
     */
    method AddSelected()
      modifies this
      ensures collection == old(collection).(outfitIds := Dedup(old(collection).outfitIds + old(selectedIds)))
      ensures NoDup(collection.outfitIds)
      ensures forall id :: id in collection.outfitIds <==> id in old(collection).outfitIds || id in old(selectedIds)
      ensures Dedup(old(collection).outfitIds) <= collection.outfitIds
      ensures !selecting && selectedIds == []
      ensures editing == old(editing) && draftName == old(draftName) && draftDescription == old(draftDescription)
      ensures draftTags == old(draftTags) && savedOutfits == old(savedOutfits) && error == old(error)
    {
      DedupPrefix(collection.outfitIds, selectedIds);
      collection := collection.(outfitIds := Dedup(collection.outfitIds + selectedIds));
      selecting := false;
      selectedIds := [];
    }

    /** `handleRemoveFromCollection`: every occurrence of the id goes, the rest stay in order. */
    method RemoveFromCollection(id: Id)
      modifies this
      ensures collection == old(collection).(outfitIds := RemoveAll(old(collection).outfitIds, id))
      ensures id !in collection.outfitIds
      ensures forall x :: x != id ==> (x in collection.outfitIds <==> x in old(collection).outfitIds)
      ensures editing == old(editing) && selectedIds == old(selectedIds) && selecting == old(selecting)
      ensures draftName == old(draftName) && draftDescription == old(draftDescription) && draftTags == old(draftTags)
      ensures savedOutfits == old(savedOutfits) && error == old(error)
    {
      collection := collection.(outfitIds := RemoveAll(collection.outfitIds, id));
    }
  }

  /**
    Adding to a collection without duplicates keeps its ids exactly as they
    were, in front, and appends only the selected ids that are new.
   */
  lemma AddSelectedKeepsExisting(ids: seq<Id>, selected: seq<Id>)
    requires NoDup(ids)
    ensures ids <= Dedup(ids + selected)
    ensures forall x :: x in Dedup(ids + selected)[|ids|..] ==> x in selected && x !in ids
  {
    DedupPrefix(ids, selected);
    DedupOfDistinct(ids);
    var r := Dedup(ids + selected);
    forall x | x in r[|ids|..] ensures x in selected && x !in ids {
      var k :| 0 <= k < |r| - |ids| && r[|ids|..][k] == x;
      assert r[|ids| + k] == x;
      assert x in ids + selected;
    }
  }

  /** Removing an outfit drops it from the page's list of outfits in the collection and keeps the others' order. */
  lemma RemovedOutfitNotShown(saved: seq<Outfit>, ids: seq<Id>, id: Id)
    ensures forall o :: o in OutfitsInCollection(saved, RemoveAll(ids, id)) ==> o.outfit_id != id
    ensures IsSubsequence(OutfitsInCollection(saved, RemoveAll(ids, id)), saved)
  {
  }
}
