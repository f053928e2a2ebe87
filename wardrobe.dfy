/**
  The records the pages share: identifiers, clothing items, outfits and the
  signed-in user. Optional text fields are "" when absent (both are falsy in
  the source); a missing or null warmth level is 0 for the same reason.
 */
module Wardrobe {
  import opened Wrappers
  import opened Text

  /** A storage key, which the API hands out as a number or as a string. */
  datatype Id = Num(n: int) | Str(s: string)

  /** `String(id)`, also what a template literal interpolates. */
  function IdString(id: Id): string {
    match id
    case Num(n) => IntToString(n)
    case Str(s) => s
  }

  /** JavaScript truthiness of an id: neither 0 nor "". */
  predicate IdTruthy(id: Id) {
    match id
    case Num(n) => n != 0
    case Str(s) => s != ""
  }

  /**
    Every number `n` and the string `String(n)` are different keys for `===`
    and the same key for `String(x) === String(y)`; ids equal under `===`
    stay equal as strings.
   */
  lemma StringEqualityIsLooser(n: int, a: Id, b: Id)
    ensures Num(n) != Str(IntToString(n)) && IdString(Num(n)) == IdString(Str(IntToString(n)))
    ensures a == b ==> IdString(a) == IdString(b)
  {
  }

  datatype ClothingItem = ClothingItem(
    item_id: Id,
    name: string,
    category: string,
    color: string,
    season: string,
    primary_image_url: string,
    warmth_level: int,
    formality: string,
    tags: seq<string>)

  datatype Outfit = Outfit(
    outfit_id: Id,
    user_id: Id,
    name: string,
    rating: Option<int>,
    is_favorite: bool,
    created_at: string,
    last_worn_at: string,
    items: seq<ClothingItem>,
    event_type: string,
    mood: string,
    weather_summary: string)

  /** The signed-in user as stored at login; absent when nobody is signed in. */
  datatype User = User(id: Id, display_name: string, email: string)
}
