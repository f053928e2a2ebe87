/** What an outfit card shows: the star rating, the last-worn date and the cover image. */
module OutfitCard {
  import opened Wrappers
  import opened Text
  import opened Wardrobe

  const FullStar: char := '★'
  const EmptyStar: char := '☆'
  const MaxStars: nat := 5

  /** `Math.round(Math.min(Math.max(rating, 0), 5))`; rounding is the identity on the integer ratings modelled here. */
  function ClampRating(rating: int): (k: nat)
    ensures k <= MaxStars
    ensures 0 <= rating <= MaxStars ==> k == rating
    ensures rating < 0 ==> k == 0
    ensures rating > MaxStars ==> k == MaxStars
  {
    if rating < 0 then 0 else if rating > MaxStars then MaxStars else rating
  }

  /**
    `renderRating`: nothing for a missing or zero rating; otherwise five
    characters, full stars first (as many as the clamped rating), then empty
    stars.
   */
  function RenderRating(rating: Option<int>): (r: Option<string>)
    ensures r.None? <==> rating.None? || rating.value == 0
    ensures r.Some? ==> |r.value| == MaxStars
    ensures r.Some? ==> forall i :: 0 <= i < MaxStars ==>
      r.value[i] == (if i < ClampRating(rating.value) then FullStar else EmptyStar)
  {
    if rating.None? || rating.value == 0 then None
    else Some(PadEnd(Repeat(FullStar, ClampRating(rating.value)), MaxStars, EmptyStar))
  }

  /** The number of full stars is the clamped rating, and the rest are empty stars. */
  lemma StarCounts(rating: int)
    requires rating != 0
    ensures multiset(RenderRating(Some(rating)).value)[FullStar] == ClampRating(rating)
    ensures multiset(RenderRating(Some(rating)).value)[EmptyStar] == MaxStars - ClampRating(rating)
  {
    var k := ClampRating(rating);
    var s := RenderRating(Some(rating)).value;
    assert s == Repeat(FullStar, k) + Repeat(EmptyStar, MaxStars - k);
    RepeatCount(FullStar, k, EmptyStar);
    RepeatCount(EmptyStar, MaxStars - k, FullStar);
  }

  /** A negative rating shows five empty stars; five or more shows five full stars. */
  lemma RatingExtremes(rating: int)
    requires rating != 0
    ensures rating < 0 ==> RenderRating(Some(rating)) == Some([EmptyStar, EmptyStar, EmptyStar, EmptyStar, EmptyStar])
    ensures rating >= MaxStars ==> RenderRating(Some(rating)) == Some([FullStar, FullStar, FullStar, FullStar, FullStar])
  {
    var s := RenderRating(Some(rating)).value;
    var c := if rating < 0 then EmptyStar else FullStar;
    if rating < 0 || rating >= MaxStars {
      assert forall i :: 0 <= i < MaxStars ==> s[i] == c;
      assert s == [c, c, c, c, c];
    }
  }

  /**
    `formatDate`: "Not worn yet" for a missing date. A present date is
    rendered by the browser's locale formatter, which is not modelled (None).
   */
  function FormatDate(date: string): (r: Option<string>)
    ensures date == "" <==> r == Some("Not worn yet")
    ensures date != "" ==> r.None?
  {
    if date == "" then Some("Not worn yet") else None
  }

  /** The card's cover: the first item's image, or nothing ("") for an outfit without items. */
  function CardPrimaryImage(outfit: Outfit): (url: string)
    ensures outfit.items != [] ==> url == outfit.items[0].primary_image_url
    ensures outfit.items == [] ==> url == ""
  {
    if |outfit.items| > 0 then outfit.items[0].primary_image_url else ""
  }
}
