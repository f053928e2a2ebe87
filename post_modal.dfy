/**
  The "New Post" dialog of the community page: the outfit picker, the
  caption, the tag chips and the visibility checkbox, and the payload it
  hands to the page when submitted.
 */
module PostModal {
  import opened Wrappers
  import opened Text
  import opened Lists
  import opened Wardrobe
  import opened OutfitCard
  import opened Community

  /** A tile's thumbnail: the first item's image, or "" when there is no outfit, no item or no image. */
  function GetPrimaryImage(outfit: Option<Outfit>): (url: string)
    ensures url == "" <==> outfit.None? || outfit.value.items == [] || outfit.value.items[0].primary_image_url == ""
    ensures url != "" ==> url == outfit.value.items[0].primary_image_url
  {
    if outfit.None? || |outfit.value.items| == 0 then ""
    else OrElse(outfit.value.items[0].primary_image_url, "")
  }

  /** The dialog's thumbnail and the outfit card's cover are the same image. */
  lemma ThumbnailIsCardImage(outfit: Outfit)
    ensures GetPrimaryImage(Some(outfit)) == CardPrimaryImage(outfit)
  {
  }

  /** `!!outfits && outfits.length > 0`. */
  predicate HasOutfits(outfits: Option<seq<Outfit>>) {
    outfits.Some? && |outfits.value| > 0
  }

  class NewPostModal {
    var selectedOutfitId: Id
    var caption: string
    var selectedTags: seq<string>
    var isVisible: bool

    /** The dialog's state when it opens (also its initial state): nothing chosen, visible. */
    predicate IsFresh()
      reads this
    {
      selectedOutfitId == Str("") && caption == "" && selectedTags == [] && isVisible
    }

    constructor ()
      ensures IsFresh()
    {
      selectedOutfitId := Str("");
      caption := "";
      selectedTags := [];
      isVisible := true;
    }

    /** The reset performed whenever the dialog is opened. */
    method Open()
      modifies this
      ensures IsFresh()
    {
      selectedOutfitId := Str("");
      caption := "";
      selectedTags := [];
      isVisible := true;
    }

    /** `canPost`: an outfit is chosen and the caption has a non-space character. */
    predicate CanPost()
      reads this
    {
      IdTruthy(selectedOutfitId) && |Trim(caption)| > 0
    }

    /** Whether an outfit's tile is highlighted: its id equals the chosen one when both are read as strings. */
    predicate TileActive(outfit: Outfit)
      reads this
    {
      IdString(selectedOutfitId) == IdString(outfit.outfit_id)
    }

    /** The "Post" button is disabled unless a post can be made and there are outfits to pick from. */
    predicate PostDisabled(outfits: Option<seq<Outfit>>)
      reads this
    {
      !CanPost() || !HasOutfits(outfits)
    }

    /** Clicking a tile chooses its outfit, which highlights that tile. */
    method SelectOutfit(outfit: Outfit)
      modifies this
      ensures selectedOutfitId == outfit.outfit_id && TileActive(outfit)
      ensures caption == old(caption) && selectedTags == old(selectedTags) && isVisible == old(isVisible)
    {
      selectedOutfitId := outfit.outfit_id;
    }

    /** Typing in the caption box. */
    method EditCaption(text: string)
      modifies this
      ensures caption == text
      ensures selectedOutfitId == old(selectedOutfitId) && selectedTags == old(selectedTags) && isVisible == old(isVisible)
    {
      caption := text;
    }

    /** Ticking or clearing the visibility checkbox. */
    method SetVisible(checked: bool)
      modifies this
      ensures isVisible == checked
      ensures selectedOutfitId == old(selectedOutfitId) && caption == old(caption) && selectedTags == old(selectedTags)
    {
      isVisible := checked;
    }

    /** `handleToggleTag`: a chosen tag is dropped, another one is added at the end. */
    method ToggleTag(tag: string)
      modifies this
      ensures selectedTags == Toggle(old(selectedTags), tag)
      ensures tag in selectedTags <==> tag !in old(selectedTags)
      ensures selectedOutfitId == old(selectedOutfitId) && caption == old(caption) && isVisible == old(isVisible)
    {
      selectedTags := Toggle(selectedTags, tag);
    }

    /**
      `handleSubmit`: nothing when a post cannot be made; otherwise the chosen
      outfit, the trimmed caption, the chosen tags and the visibility flag.
      Whatever is handed over passes the page's own guard.
     */
    method Submit() returns (r: Option<PostInput>)
      ensures r.None? <==> !CanPost()
      ensures r.Some? ==> r.value == PostInput(Some(selectedOutfitId), Trim(caption), Some(selectedTags), Some(isVisible), "")
      ensures r.Some? <==> Accepts(r)
    {
      if !CanPost() {
        return None;
      }
      r := Some(PostInput(Some(selectedOutfitId), Trim(caption), Some(selectedTags), Some(isVisible), ""));
    }
  }

  /** A caption of spaces only never makes a post, whatever else is chosen. */
  lemma BlankCaptionCannotPost(m: NewPostModal)
    requires IsBlank(m.caption)
    ensures !m.CanPost()
  {
  }

  /**
    Whenever the "Post" button is enabled the dialog hands over a payload,
    and the page accepts it; with no outfits to pick from the button is disabled.
   */
  lemma EnabledPostIsAccepted(m: NewPostModal, outfits: Option<seq<Outfit>>)
    ensures !HasOutfits(outfits) ==> m.PostDisabled(outfits)
    ensures !m.PostDisabled(outfits) ==>
      Accepts(Some(PostInput(Some(m.selectedOutfitId), Trim(m.caption), Some(m.selectedTags), Some(m.isVisible), "")))
  {
    if !m.PostDisabled(outfits) {
      TrimOfTrimmed(Trim(m.caption));
    }
  }

  /**
    Posting from the dialog with the checkbox cleared puts the post in the
    feed without showing it; with the box ticked it is shown first.
   */
  lemma SubmittedVisibility(selected: Id, caption: string, tags: seq<string>, visible: bool,
                            user: Option<User>, outfits: seq<Outfit>, now: int, feed: seq<Post>)
    requires IdTruthy(selected) && |Trim(caption)| > 0
    ensures var p := NewPost(PostInput(Some(selected), Trim(caption), Some(tags), Some(visible), ""), user, outfits, now);
      && p.tags == tags
      && p.caption == Trim(caption)
      && p.city_name == DefaultCity
      && (p in VisiblePosts([p] + feed) <==> visible)
      && (visible ==> VisiblePosts([p] + feed)[0] == p)
  {
    var p := NewPost(PostInput(Some(selected), Trim(caption), Some(tags), Some(visible), ""), user, outfits, now);
    var keep := (q: Post) => q.is_visible != Some(false);
    if visible {
      assert ([p] + feed)[0] == p && ([p] + feed)[1..] == feed;
      assert Filter(keep, [p] + feed) == [p] + Filter(keep, feed);
    }
  }
}
