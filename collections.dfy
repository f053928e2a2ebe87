/**
  Outfit collections: the record as the server sends it and as the pages
  keep it, the collections list page (loading, the create form, creating)
  and the collection card's labels.
 */
module Collections {
  import opened Wrappers
  import opened Text
  import opened Lists
  import opened Wardrobe

  /** A collection as it arrives from the server or through navigation: the flag and the lists may be missing. */
  datatype RawCollection = RawCollection(
    collection_id: Id,
    user_id: Option<Id>,
    name: string,
    description: string,
    created_at: string,
    is_archived: Option<bool>,
    tags: Option<seq<string>>,
    outfitIds: Option<seq<Id>>)

  /** A collection as the pages hold it, with the flag and both lists always present. */
  datatype Collection = Collection(
    collection_id: Id,
    user_id: Option<Id>,
    name: string,
    description: string,
    created_at: string,
    is_archived: bool,
    tags: seq<string>,
    outfitIds: seq<Id>)

  /** What the create form sends to `POST /collections`. */
  datatype CollectionRequest = CollectionRequest(user_id: Id, name: string, description: string)

  /**
    The normalisation both pages apply to a loaded record: `Boolean(is_archived)`,
    `tags || []`, `outfitIds || []`, every other field kept.
   */
  function Normalize(raw: RawCollection): (c: Collection)
    ensures c.is_archived <==> raw.is_archived == Some(true)
    ensures raw.tags.Some? ==> c.tags == raw.tags.value
    ensures raw.tags.None? ==> c.tags == []
    ensures raw.outfitIds.Some? ==> c.outfitIds == raw.outfitIds.value
    ensures raw.outfitIds.None? ==> c.outfitIds == []
    ensures c.collection_id == raw.collection_id && c.user_id == raw.user_id && c.name == raw.name
    ensures c.description == raw.description && c.created_at == raw.created_at
  {
    Collection(raw.collection_id, raw.user_id, raw.name, raw.description, raw.created_at,
      raw.is_archived == Some(true), raw.tags.GetOr([]), raw.outfitIds.GetOr([]))
  }

  /** A normalised collection seen again as a loaded record (what navigation hands to the detail page). */
  function AsRaw(c: Collection): (raw: RawCollection)
    ensures raw.is_archived.Some? && raw.tags.Some? && raw.outfitIds.Some?
  {
    RawCollection(c.collection_id, c.user_id, c.name, c.description, c.created_at,
      Some(c.is_archived), Some(c.tags), Some(c.outfitIds))
  }

  /** Normalising an already normalised collection changes nothing. */
  lemma NormalizeAsRaw(c: Collection)
    ensures Normalize(AsRaw(c)) == c
  {
  }

  /** The load path's `(data || []).map(...)`: one collection per record, in order. */
  function NormalizeAll(data: Option<seq<RawCollection>>): (r: seq<Collection>)
    ensures data.None? ==> r == []
    ensures data.Some? ==> |r| == |data.value| && forall i :: 0 <= i < |r| ==> r[i] == Normalize(data.value[i])
  {
    var raws := data.GetOr([]);
    seq(|raws|, i requires 0 <= i < |raws| => Normalize(raws[i]))
  }

  /** Loading twice (through navigation) gives the same list as loading once. */
  lemma NormalizeAllIdempotent(cs: seq<Collection>)
    ensures NormalizeAll(Some(seq(|cs|, i requires 0 <= i < |cs| => AsRaw(cs[i])))) == cs
  {
    var r := NormalizeAll(Some(seq(|cs|, i requires 0 <= i < |cs| => AsRaw(cs[i]))));
    forall i | 0 <= i < |cs| ensures r[i] == cs[i] {
      NormalizeAsRaw(cs[i]);
    }
  }

  /** `canSave`: the name has a non-space character and no save is under way. */
  function CanSave(name: string, saving: bool): (ok: bool)
    ensures ok <==> !saving && exists i :: 0 <= i < |name| && !IsSpace(name[i])
  {
    Trim(name) != "" && !saving
  }

  /**
    The collection prepended after a successful create: the server's record
    with its creation time (else `now`), not archived, the chosen tags and no outfits.
   */
  function Enrich(created: RawCollection, tags: seq<string>, now: string): (c: Collection)
    ensures !c.is_archived && c.outfitIds == [] && c.tags == tags
    ensures created.created_at != "" ==> c.created_at == created.created_at
    ensures created.created_at == "" ==> c.created_at == now
    ensures c.collection_id == created.collection_id && c.user_id == created.user_id
    ensures c.name == created.name && c.description == created.description
  {
    Collection(created.collection_id, created.user_id, created.name, created.description,
      OrElse(created.created_at, now), false, tags, [])
  }

  // ------------------------------------------------------------- labels

  /** `${n} outfit${n === 1 ? '' : 's'}`, with `zero` shown for no outfits. */
  function OutfitCountLabel(n: nat, zero: string): (r: string)
    ensures n == 0 ==> r == zero
    ensures n > 0 ==> var d := NatToString(n);
      |r| > |d| && r[..|d|] == d && r[|d|..] == (if n == 1 then " outfit" else " outfits")
    ensures n == 1 ==> r == "1 outfit"
  {
    if n == 0 then zero
    else
      assert NatToString(1) == "1";
      NatToString(n) + " outfit" + (if n == 1 then "" else "s")
  }

  /** Different counts get different labels, provided the zero text does not start with a digit. */
  lemma OutfitCountLabelInjective(n: nat, m: nat, zero: string)
    requires zero == "" || !IsDigit(zero[0])
    requires OutfitCountLabel(n, zero) == OutfitCountLabel(m, zero)
    ensures n == m
  {
    var text := OutfitCountLabel(n, zero);
    if n > 0 && m > 0 {
      var a, b := NatToString(n), NatToString(m);
      if |a| == |b| {
        assert a == text[..|a|] == b;
        NatToStringInjective(n, m);
      }
    }
  }

  /** The collection card's count: "No outfits yet" for none (a missing list included), else the count text. */
  function CardSummary(outfitIds: Option<seq<Id>>): (r: string)
    ensures outfitIds.None? || outfitIds.value == [] ==> r == "No outfits yet"
    ensures outfitIds.Some? ==> r == OutfitCountLabel(|outfitIds.value|, "No outfits yet")
  {
    OutfitCountLabel(if outfitIds.Some? then |outfitIds.value| else 0, "No outfits yet")
  }

  const Ellipsis: char := '…'

  /** The card's description: up to 80 characters as is, longer ones cut to 77 characters and an ellipsis. */
  function Truncate(description: string): (r: string)
    ensures |r| <= 80
    ensures |description| <= 80 ==> r == description
    ensures |description| > 80 ==> |r| == 78 && r[..77] == description[..77] && r[77] == Ellipsis
  {
    if |description| > 80 then description[..77] + [Ellipsis] else description
  }

  /** A shown description is shown unchanged once more. */
  lemma TruncateIdempotent(description: string)
    ensures Truncate(Truncate(description)) == Truncate(description)
  {
  }

  // --------------------------------------------------------------- page

  /** The collections list page: the list, its error line and the create form. */
  class CollectionsPage {
    const user: Option<User>
    var collections: seq<Collection>
    var error: string
    var showForm: bool
    var name: string
    var description: string
    var tagSelection: seq<string>
    var saving: bool

    /** The form is empty and idle. */
    predicate FormIsReset()
      reads this
    {
      name == "" && description == "" && tagSelection == [] && !saving
    }

    constructor (user: Option<User>)
      ensures this.user == user && collections == [] && error == "" && !showForm && FormIsReset()
    {
      this.user := user;
      collections := [];
      error := "";
      showForm := false;
      name := "";
      description := "";
      tagSelection := [];
      saving := false;
    }

    /** `loadCollections` once the server has answered. */
    method Load(reply: Result<Option<seq<RawCollection>>>)
      modifies this
      ensures reply.Ok? ==> collections == NormalizeAll(reply.value) && error == ""
      ensures reply.Err? ==> collections == old(collections) && error == OrElse(reply.message, "Could not load collections")
      ensures showForm == old(showForm) && name == old(name) && description == old(description)
      ensures tagSelection == old(tagSelection) && saving == old(saving)
    {
      error := "";
      match reply
      case Ok(data) =>
        collections := NormalizeAll(data);
      case Err(message) =>
        error := OrElse(message, "Could not load collections");
    }

    /** The form's tag chips. */
    method ToggleTag(tag: string)
      modifies this
      ensures tagSelection == Toggle(old(tagSelection), tag)
      ensures collections == old(collections) && error == old(error) && showForm == old(showForm)
      ensures name == old(name) && description == old(description) && saving == old(saving)
    {
      tagSelection := Toggle(tagSelection, tag);
    }

    /** `resetForm`. */
    method ResetForm()
      modifies this
      ensures FormIsReset()
      ensures collections == old(collections) && error == old(error) && showForm == old(showForm)
    {
      name := "";
      description := "";
      tagSelection := [];
      saving := false;
    }

    /**
      `handleCreateCollection`. Without a user or when saving is not allowed,
      nothing is sent and nothing changes. Otherwise the request carries the
      trimmed name and the reply is handled by `FinishCreate`.
     */
    method CreateCollection(reply: Result<RawCollection>, now: string) returns (request: Option<CollectionRequest>)
      modifies this
      ensures user.None? || !CanSave(old(name), old(saving)) ==>
        request.None? && collections == old(collections) && error == old(error) && showForm == old(showForm)
        && name == old(name) && description == old(description) && tagSelection == old(tagSelection) && saving == old(saving)
      ensures user.Some? && CanSave(old(name), old(saving)) ==>
        request == Some(CollectionRequest(user.value.id, Trim(old(name)), old(description)))
        && FinishedCreate(reply, now, old(collections), old(name), old(description), old(tagSelection), old(showForm))
    {
      if user.None? || !CanSave(name, saving) {
        return None;
      }
      request := Some(CollectionRequest(user.value.id, Trim(name), description));
      FinishCreate(reply, now);
    }

    /**
      The state after the server has answered a create: on success the
      enriched collection goes first and the form is reset and closed; on
      failure the list and the form stay, saving stops and the error shows.
     */
    predicate FinishedCreate(reply: Result<RawCollection>, now: string, collections0: seq<Collection>,
                             name0: string, description0: string, tags0: seq<string>, showForm0: bool)
      reads this
    {
      match reply
      case Ok(created) =>
        collections == [Enrich(created, tags0, now)] + collections0 && FormIsReset() && !showForm && error == ""
      case Err(message) =>
        collections == collections0 && !saving && error == OrElse(message, "Could not create collection")
        && name == name0 && description == description0 && tagSelection == tags0 && showForm == showForm0
    }

    /** The part of `handleCreateCollection` past its guard: saving starts, the error clears, the reply is applied. */
    method FinishCreate(reply: Result<RawCollection>, now: string)
      modifies this
      ensures FinishedCreate(reply, now, old(collections), old(name), old(description), old(tagSelection), old(showForm))
    {
      saving := true;
      error := "";
      match reply
      case Ok(created) =>
        collections := [Enrich(created, tagSelection, now)] + collections;
        ResetForm();
        showForm := false;
      case Err(message) =>
        error := OrElse(message, "Could not create collection");
        saving := false;
    }
  }

  /** A created collection is new to the list: it holds no outfits and is not archived, whatever the server sent. */
  lemma CreatedCollectionIsEmpty(created: RawCollection, tags: seq<string>, now: string)
    ensures CardSummary(Some(Enrich(created, tags, now).outfitIds)) == "No outfits yet"
  {
  }
}
