# ootd-app client state, in Dafny

This project models the client-side logic of the ootd ("outfit of the day")
wardrobe app: the in-memory state each page keeps and the handlers that
update it. The pages and components covered are:

- the **community feed**: seeded placeholder posts, the visibility filter,
  "time ago" labels, publishing a post, and the like and save toggles;
- the **new-post dialog**;
- the **collections list** and a **collection's detail page**: normalising
  loaded records, the create form, the count and description labels, the
  metadata editor, the archive switch, and adding and removing outfits;
- the **outfits page**: the newest-first sort of saved outfits, the three
  placeholder suggestions, saving a suggestion, favourite and "wear today";
- the **closet page**: updating form fields, required-field validation and
  its agreement with the disabled "Add" button, the request payload, and the
  partial form reset;
- the **outfit card**: the star rating, the date fallback and the cover image.

Each React page is a `class` whose fields are the page's `useState`
variables. Each handler is a method that performs the whole handler as one
step. The updaters the handlers pass to `set…` (`prev.map`, `prev.filter`,
the toggle-in-list idiom, `Array.from(new Set(…))`) are functions, and
lemmas state their properties. A reply from the storage API is a
`Result` parameter (`Ok` with the resolved value, or `Err` with the thrown
error's message). The request a handler sends is the method's
out-parameter. The signed-in user, the current time and the object URL of a
picked file are parameters.

Modules, leaf to root: `Wrappers` (Option, Result), `Text` (JavaScript
`trim`, `String(n)`, `Number(s)`, string `<`, `repeat`/`padEnd`, `||` on
strings), `Lists` (filter, remove, toggle, deduplicate), `Wardrobe` (ids,
clothing items, outfits, the user), `OutfitCard`, `Community`, `PostModal`,
`Collections`, `CollectionDetail`, `Outfits`, `Closet`.

Representation choices:

- An id is `Num(n)` or `Str(s)`, because the API hands out both. Strict
  equality `===` is Dafny equality. `String(a) === String(b)` compares
  `IdString`s, which is a looser test: every number and its decimal text
  differ under `===` and match as strings (`Wardrobe.StringEqualityIsLooser`).
- An optional text field that is absent is `""`. The source tests such a
  field only for truthiness or compares it with a non-empty literal
  (`event_type === 'date night'`), and both treat `undefined` and `""` alike.
- `Option` marks a field the record may lack, with the default applied where
  it is read: `is_visible ?? true`, `like_count || 0`, `Boolean(is_archived)`,
  `tags || []`, and a null API answer. Of these, only `is_visible ?? true`
  tells a missing value apart from a present falsy one.
- A post's `created_at` is an integer number of milliseconds. Outfit and
  collection timestamps are ISO strings, compared with JavaScript's string `<`.

Two behaviours of the code are worth knowing:

- Toggling a reaction twice does not always restore the count. From a set
  flag with a zero count the first toggle clamps at 0 and the second adds 1
  (`Community.ToggledTwice`).
- `handleCreatePost` silently ignores an input without an outfit id or with
  an empty caption; it raises no error (`Community.CommunityPage.CreatePost`).

## Model

| member | source | states |
|---|---|---|
| Text.Trim | client/src/pages/ClosetPage.jsx:96 | `trim()` is the slice of the text between a whitespace-only prefix and a whitespace-only suffix; it is empty exactly for an all-whitespace text and otherwise neither starts nor ends with whitespace |
| Text.TrimIdempotent | client/src/components/NewPostModal.jsx:35 | trimming an already trimmed caption changes nothing |
| Text.TrimOfTrimmed | client/src/components/NewPostModal.jsx:35 | a text without whitespace at either end is its own trim |
| Text.NatToString | client/src/pages/CommunityPage.jsx:110 | `String(n)` is a non-empty run of digits with no leading zero |
| Text.NatToStringRoundTrip | client/src/pages/ClosetPage.jsx:129 | reading back the digits of `String(n)` gives `n` |
| Text.NatToStringInjective | client/src/pages/OutfitsPage.jsx:116 | different numbers are spelled differently |
| Text.IntToString | client/src/pages/OutfitsPage.jsx:99 | `String(i)` is digits, with a leading minus exactly for negative `i` |
| Text.IntToStringInjective | client/src/pages/OutfitsPage.jsx:99 | different integers are spelled differently |
| Text.ParseNumber | client/src/pages/ClosetPage.jsx:129 | on a trimmed text: digits are their decimal value, a sign and at least one digit the signed value, anything else NaN (none), both directions |
| Text.NumberOf | client/src/pages/ClosetPage.jsx:129 | `Number(s)`: 0 for a blank text; after trimming, digits or a signed run of digits give that integer, and NaN exactly otherwise |
| Text.NumberOfIntToString | client/src/pages/ClosetPage.jsx:129 | `Number(String(i))` is `i` |
| Text.StrLessIrreflexive | client/src/pages/OutfitsPage.jsx:71 | no string is `<` itself |
| Text.StrLessTransitive | client/src/pages/OutfitsPage.jsx:71 | string `<` is transitive |
| Text.StrLessTotal | client/src/pages/OutfitsPage.jsx:71 | two different strings are ordered one way or the other |
| Text.Repeat | client/src/components/OutfitCard.jsx:19 | `c.repeat(n)` is `n` copies of `c` |
| Text.RepeatCount | client/src/components/OutfitCard.jsx:19 | `c.repeat(n)` holds `c` exactly `n` times and no other character |
| Text.PadEnd | client/src/components/OutfitCard.jsx:19 | `padEnd` keeps a long enough text and otherwise fills it to the length with the pad character |
| Text.OrElse | client/src/pages/CommunityPage.jsx:213 | `a \|\| b` on strings is `a` unless `a` is empty, then `b` |
| Lists.Filter | client/src/pages/CommunityPage.jsx:189 | `filter` keeps exactly the elements satisfying the test, in order (a subsequence), each as often as it occurred |
| Lists.FilterAppend | client/src/pages/CommunityPage.jsx:222 | filtering a concatenation filters each part |
| Lists.RemoveAll | client/src/pages/CollectionDetailPage.jsx:111 | `filter(x => x !== id)` drops every occurrence of `id` and keeps every other element in order and as often as it occurred |
| Lists.Toggle | client/src/pages/CollectionDetailPage.jsx:73-77 | a present value is removed everywhere (the rest a subsequence) and an absent one appended at the end; every other value occurs as often as before |
| Lists.ToggleTwiceAbsent | client/src/pages/CollectionDetailPage.jsx:93-97 | toggling an absent value twice restores the list exactly |
| Lists.Dedup | client/src/pages/CollectionDetailPage.jsx:102 | `Array.from(new Set(s))` has no duplicates and the same members as `s` |
| Lists.DedupPrefix | client/src/pages/CollectionDetailPage.jsx:102 | the deduplicated front of a list is a prefix of the deduplication of any extension |
| Lists.DedupOfDistinct | client/src/pages/CollectionDetailPage.jsx:102 | a list without duplicates is its own deduplication |
| Wardrobe.StringEqualityIsLooser | client/src/pages/CommunityPage.jsx:202 | for every integer n, the number n and the string `String(n)` differ under `===` and match under `String(x) === String(y)`; ids equal under `===` are equal as strings |
| OutfitCard.ClampRating | client/src/components/OutfitCard.jsx:18 | the rating clamped to 0..5 |
| OutfitCard.RenderRating | client/src/components/OutfitCard.jsx:15-21 | nothing for a missing or zero rating; otherwise five characters, full stars first as many as the clamped rating, then empty stars |
| OutfitCard.StarCounts | client/src/components/OutfitCard.jsx:18-19 | the number of full stars is the clamped rating and the rest are empty stars |
| OutfitCard.RatingExtremes | client/src/components/OutfitCard.jsx:18 | a negative rating shows five empty stars and five or more shows five full stars |
| OutfitCard.FormatDate | client/src/components/OutfitCard.jsx:1-13 | "Not worn yet" exactly for a missing date |
| OutfitCard.CardPrimaryImage | client/src/components/OutfitCard.jsx:35 | the first item's image when there are items |
| Community.SeedPostsFromOutfits | client/src/pages/CommunityPage.jsx:125-156 | none for a missing or empty list, else min(5, n) posts; post i is built from outfit i with id "seed-"+id, author i mod 2, city i mod 3, counters 4+i / 2+i / 0, no reactions, visible, created (i+1)·3 hours before now, the date-night caption iff the event is "date night", tags [mood] or ["casual day"] |
| Community.VisiblePosts | client/src/pages/CommunityPage.jsx:188-191 | exactly the posts whose flag is not explicitly false, as a subsequence of the feed, each as often as in the feed |
| Community.VisiblePrepend | client/src/pages/CommunityPage.jsx:188-191 | the visible feed of a post put in front is that post (when not hidden) before the visible rest |
| Community.FormatTimeAgo | client/src/pages/CommunityPage.jsx:104-119 | "just now" under a minute (future dates included), then "{m}m ago", "{h}h ago", "{d}d ago" by floor division; nothing from seven days on |
| Community.Toggled | client/src/pages/CommunityPage.jsx:226-254 | the reaction flag flips, its counter (missing read as 0) moves one step the same way clamped at 0 and is then present, the other reaction and every other field are unchanged, and non-negative counters stay non-negative |
| Community.ToggledTwice | client/src/pages/CommunityPage.jsx:230-235 | two toggles restore the flag, and the count except from a set flag with count 0, which ends at 1 |
| Community.ToggleInFeed | client/src/pages/CommunityPage.jsx:226-254 | the feed keeps its length and order; the posts with the id are toggled and the rest are unchanged |
| Community.ToggleInFeedKeepsCounters | client/src/pages/CommunityPage.jsx:231-235 | a feed without negative counters keeps none after a toggle |
| Community.ToggleInFeedTwice | client/src/pages/CommunityPage.jsx:226-239 | toggling the same post twice restores every post's flags and other counters, and its count except in the zero-count case |
| Community.FirstMatch | client/src/pages/CommunityPage.jsx:202 | the index of the first outfit whose id matches as a string, or the length when none does |
| Community.FindOutfit | client/src/pages/CommunityPage.jsx:202 | `find` returns the first outfit of the list matching as a string, and nothing exactly when none matches |
| Community.Accepts | client/src/pages/CommunityPage.jsx:194 | the guard of `handleCreatePost`: an input with a truthy outfit id and a non-empty caption |
| Community.CurrentUserSummary | client/src/pages/CommunityPage.jsx:196-200 | the user's id when truthy, else "you" (also without a user); the display name, else the email, else "You"; no avatar |
| Community.NewPost | client/src/pages/CommunityPage.jsx:204-220 | zero counters, no reactions, visible unless the input says false, tags default [], city default "San Diego, CA", the matching outfit snapshot, the input's id and caption, the current user as author |
| Community.HiddenPostNotShown | client/src/pages/CommunityPage.jsx:209 | a post published with visibility false is not in the visible feed |
| Community.CommunityPage.constructor | client/src/pages/CommunityPage.jsx:158-165 | an empty feed, no outfits, the form closed |
| Community.CommunityPage.LoadFeed | client/src/pages/CommunityPage.jsx:167-186 | on success the outfits (null as none) and the posts seeded from them; on failure an empty feed and the error message or its default |
| Community.CommunityPage.CreatePost | client/src/pages/CommunityPage.jsx:193-224 | a rejected input changes nothing; an accepted one puts the new post before the unchanged old feed and closes the form |
| Community.CommunityPage.ToggleLike | client/src/pages/CommunityPage.jsx:226-239 | the feed becomes its like-toggled version and counters stay non-negative |
| Community.CommunityPage.ToggleSave | client/src/pages/CommunityPage.jsx:241-254 | the feed becomes its save-toggled version and counters stay non-negative |
| Community.CommunityPage.OpenNewPost | client/src/pages/CommunityPage.jsx:275 | the "New Post" and "Share an outfit" buttons open the dialog; feed, outfits and error are kept |
| PostModal.GetPrimaryImage | client/src/components/NewPostModal.jsx:41-44 | "" exactly for no outfit, no items or a first item without image, else that image |
| PostModal.ThumbnailIsCardImage | client/src/components/NewPostModal.jsx:41-44 | the dialog thumbnail equals the outfit card's cover image |
| PostModal.HasOutfits | client/src/components/NewPostModal.jsx:20 | there is a non-empty list of outfits to pick from |
| PostModal.NewPostModal.CanPost | client/src/components/NewPostModal.jsx:21 | an outfit is chosen and the caption has a non-whitespace character |
| PostModal.NewPostModal.TileActive | client/src/components/NewPostModal.jsx:64 | a tile is highlighted when its id equals the chosen id as a string |
| PostModal.NewPostModal.PostDisabled | client/src/components/NewPostModal.jsx:141 | "Post" is disabled when a post cannot be made or there are no outfits |
| PostModal.EnabledPostIsAccepted | client/src/components/NewPostModal.jsx:141 | "Post" is disabled whenever there are no outfits, and an enabled "Post" submits an input the page's guard accepts |
| PostModal.NewPostModal.constructor | client/src/components/NewPostModal.jsx:4-7 | nothing chosen, empty caption, no tags, visible |
| PostModal.NewPostModal.Open | client/src/components/NewPostModal.jsx:9-16 | opening resets to nothing chosen, empty caption, no tags, visible |
| PostModal.NewPostModal.SelectOutfit | client/src/components/NewPostModal.jsx:72 | the clicked outfit is chosen and its tile becomes active; the rest is kept |
| PostModal.NewPostModal.EditCaption | client/src/components/NewPostModal.jsx:98 | the caption takes the typed text; the rest is kept |
| PostModal.NewPostModal.SetVisible | client/src/components/NewPostModal.jsx:127 | the visibility flag takes the checkbox state |
| PostModal.NewPostModal.ToggleTag | client/src/components/NewPostModal.jsx:23-27 | the tag list is toggled: the tag is in it afterwards iff it was not before |
| PostModal.NewPostModal.Submit | client/src/components/NewPostModal.jsx:29-39 | nothing exactly when a post cannot be made; otherwise the chosen id, trimmed caption, tags and flag, which the page's own guard accepts |
| PostModal.BlankCaptionCannotPost | client/src/components/NewPostModal.jsx:21 | an all-whitespace caption never allows a post |
| PostModal.SubmittedVisibility | client/src/components/NewPostModal.jsx:33-38 | a post made from the dialog keeps its tags and trimmed caption, gets the default city, and is shown (first) iff the box was ticked |
| Collections.Normalize | client/src/pages/CollectionsPage.jsx:48-53 | `Boolean(is_archived)`, missing tags and outfit ids become [], every other field kept |
| Collections.AsRaw | client/src/pages/CollectionsPage.jsx:114-117 | a normalised collection handed on through navigation has its flag and lists present |
| Collections.NormalizeAsRaw | client/src/pages/CollectionsPage.jsx:48-53 | normalising a normalised collection changes nothing |
| Collections.NormalizeAll | client/src/pages/CollectionsPage.jsx:47-54 | one normalised collection per record, in order; none for a null answer |
| Collections.NormalizeAllIdempotent | client/src/pages/CollectionsPage.jsx:48-53 | normalising a normalised list again gives it back |
| Collections.CanSave | client/src/pages/CollectionsPage.jsx:65-67 | true iff the name has a non-whitespace character and no save is running |
| Collections.Enrich | client/src/pages/CollectionsPage.jsx:96-103 | not archived, no outfits, the selected tags, the server's timestamp else now, the server's other fields |
| Collections.OutfitCountLabel | client/src/pages/CollectionsPage.jsx:231-234 | the zero text for 0, else the digits of n followed by " outfit" for 1 and " outfits" otherwise |
| Collections.OutfitCountLabelInjective | client/src/pages/CollectionsPage.jsx:231-234 | different counts give different labels when the zero text does not start with a digit |
| Collections.CardSummary | client/src/pages/CollectionsPage.jsx:231-234 | "No outfits yet" for a missing or empty list, else the count label |
| Collections.Truncate | client/src/pages/CollectionsPage.jsx:252 | at most 80 characters kept as is; longer ones become the first 77 and an ellipsis |
| Collections.TruncateIdempotent | client/src/pages/CollectionsPage.jsx:252 | a shown description is shown unchanged once more |
| Collections.CollectionsPage.constructor | client/src/pages/CollectionsPage.jsx:30-38 | no collections, no error, form closed and empty |
| Collections.CollectionsPage.Load | client/src/pages/CollectionsPage.jsx:42-63 | on success the normalised list, on failure the old list and the message or its default; the form untouched |
| Collections.CollectionsPage.ToggleTag | client/src/pages/CollectionsPage.jsx:69-73 | the tag selection is toggled, nothing else changes |
| Collections.CollectionsPage.ResetForm | client/src/pages/CollectionsPage.jsx:75-80 | name, description and tags empty, not saving; list and error kept |
| Collections.CollectionsPage.CreateCollection | client/src/pages/CollectionsPage.jsx:82-112 | without a user or when saving is not allowed nothing is sent and nothing changes; otherwise the trimmed name is sent and the reply handled |
| Collections.CollectionsPage.FinishCreate | client/src/pages/CollectionsPage.jsx:86-111 | success prepends the enriched collection and resets and closes the form; failure keeps list and form, stops saving and shows the message |
| Collections.CreatedCollectionIsEmpty | client/src/pages/CollectionsPage.jsx:97-103 | a new collection's card reads "No outfits yet" whatever the server sent |
| CollectionDetail.InitialCollection | client/src/pages/CollectionDetailPage.jsx:40-58 | without navigation state a placeholder under the address id named "Collection"; with it the normalised record |
| CollectionDetail.OutfitsInCollection | client/src/pages/CollectionDetailPage.jsx:68-71 | the saved outfits whose id is in the collection, in load order and each as often as saved; none for an empty collection |
| CollectionDetail.DetailCountLabel | client/src/pages/CollectionDetailPage.jsx:194-196 | "No outfits" exactly for an empty collection, "1 outfit" for one, the digits of the count and " outfits" for more |
| CollectionDetail.SavedName | client/src/pages/CollectionDetailPage.jsx:82 | the trimmed draft, or the old name when the draft is blank |
| CollectionDetail.SavedNameNeverBlank | client/src/pages/CollectionDetailPage.jsx:82 | a name with a visible character keeps one through any save |
| CollectionDetail.CollectionDetailPage.constructor | client/src/pages/CollectionDetailPage.jsx:40-66 | the initial collection, drafts copied from it, nothing selected |
| CollectionDetail.CollectionDetailPage.LoadOutfits | client/src/pages/CollectionDetailPage.jsx:6-29 | on success the outfits (null as none), on failure the message or its default; collection, selection, editor and drafts kept |
| CollectionDetail.CollectionDetailPage.ToggleTag | client/src/pages/CollectionDetailPage.jsx:73-77 | the draft tags are toggled, nothing else changes |
| CollectionDetail.CollectionDetailPage.SaveMeta | client/src/pages/CollectionDetailPage.jsx:79-87 | name from `SavedName`, description and tags from the drafts, other fields kept, editing ends |
| CollectionDetail.CollectionDetailPage.ToggleArchive | client/src/pages/CollectionDetailPage.jsx:89-91 | only the archive flag flips |
| CollectionDetail.CollectionDetailPage.ToggleSelectOutfit | client/src/pages/CollectionDetailPage.jsx:93-97 | the selection is toggled; every other field is kept |
| CollectionDetail.CollectionDetailPage.AddSelected | client/src/pages/CollectionDetailPage.jsx:99-106 | the ids become the deduplicated old ids then selected ids: no duplicates, every old and selected id present, the old distinct ids in front; the picker closes and the selection clears |
| CollectionDetail.CollectionDetailPage.RemoveFromCollection | client/src/pages/CollectionDetailPage.jsx:108-113 | every occurrence of the id goes, other ids stay, other fields kept |
| CollectionDetail.AddSelectedKeepsExisting | client/src/pages/CollectionDetailPage.jsx:99-106 | for distinct ids the old ids stay in front and everything appended is selected and new |
| CollectionDetail.RemovedOutfitNotShown | client/src/pages/CollectionDetailPage.jsx:108-113 | a removed outfit is no longer listed and the listed ones keep their order |
| Outfits.Key | client/src/pages/OutfitsPage.jsx:69-70 | the sort key is the last-worn time, else the creation time, else none (the number 0) |
| Outfits.KeyLessAsymmetric | client/src/pages/OutfitsPage.jsx:71 | the comparator's `<` never holds both ways |
| Outfits.NotOlderTransitive | client/src/pages/OutfitsPage.jsx:71 | among timestamped outfits "not older than" is transitive |
| Outfits.SortNewestFirst | client/src/pages/OutfitsPage.jsx:68-72 | the array is permuted, and newest first whenever every outfit has a timestamp |
| Outfits.InsertBackwards | client/src/pages/OutfitsPage.jsx:68-72 | one insertion pass keeps the array a permutation and extends the sorted front by one |
| Outfits.SwapWithPrevious | client/src/pages/OutfitsPage.jsx:68-72 | exchanging neighbours keeps the array a permutation |
| Outfits.SortedOutfits | client/src/pages/OutfitsPage.jsx:68-73 | the sorted copy has the same outfits, and is newest first when every outfit has a timestamp |
| Outfits.CanGenerate | client/src/pages/OutfitsPage.jsx:84-86 | an event is chosen, the temperature is non-zero and nothing is being generated |
| Outfits.WeatherSummary | client/src/pages/OutfitsPage.jsx:126 | "Great for ~", the printed temperature, "°F, leaning " and then "formal" for the formal preference and "casual" otherwise |
| Outfits.NoDegreeInNumber | client/src/pages/OutfitsPage.jsx:99 | the printed temperature holds no degree sign |
| Outfits.WeatherSummaryInjective | client/src/pages/OutfitsPage.jsx:126 | equal summaries mean the same temperature and the same formal/casual choice |
| Outfits.OwnerId | client/src/pages/OutfitsPage.jsx:117 | the user's id when truthy; "demo" without a user or for a falsy id |
| Outfits.Suggestion | client/src/pages/OutfitsPage.jsx:115-127 | an id made of "suggested-", the digits of n, "-" and now; the owner id, the one hero piece, created now, never worn, unrated, not a favourite, for the chosen event and mood |
| Outfits.SuggestionIdsDistinct | client/src/pages/OutfitsPage.jsx:116 | suggestions with different numbers made at the same moment have different ids |
| Outfits.MockSuggestions | client/src/pages/OutfitsPage.jsx:115-127 | suggestions 1, 2 and 3 in that order (each the `Suggestion` of its number, so the hero piece and `suggested-{n}-{now}` ids); three suggestions named "{base} #1..#3" ("Date Night" iff the event is "date night"), distinct ids, with the event, mood and weather summary, not favourite, never worn, unrated |
| Outfits.WithFavoriteFlipped | client/src/pages/OutfitsPage.jsx:152-159 | the flag flips on exactly the outfits with the id; the rest and the order stay |
| Outfits.FavoriteTwice | client/src/pages/OutfitsPage.jsx:152-159 | flipping twice gives back the list |
| Outfits.WithWornAt | client/src/pages/OutfitsPage.jsx:161-167 | exactly the outfits with the id were last worn now; nothing else changes |
| Outfits.WornTodaySortsByNow | client/src/pages/OutfitsPage.jsx:161-167 | a worn outfit then sorts by now, and a fully timestamped list stays so |
| Outfits.OutfitsPage.constructor | client/src/pages/OutfitsPage.jsx:54-59 | no event, 70°F, casual, no mood, no suggestions, not generating |
| Outfits.OutfitsPage.LoadSaved | client/src/pages/OutfitsPage.jsx:61-82 | on success the loaded outfits (null as none) permuted newest first; on failure the message or its default |
| Outfits.OutfitsPage.ChooseMood | client/src/pages/OutfitsPage.jsx:234-241 | choosing the chosen mood clears it, any other is chosen; every other field is kept |
| Outfits.OutfitsPage.GenerateSuggestions | client/src/pages/OutfitsPage.jsx:88-133 | when `canGenerate` holds the suggestions become the three mock ones, otherwise nothing changes |
| Outfits.OutfitsPage.SaveSuggested | client/src/pages/OutfitsPage.jsx:135-150 | nothing without a user; otherwise a favourite with the rating or null is sent and the server's outfit goes first, or the error shows |
| Outfits.OutfitsPage.ToggleFavorite | client/src/pages/OutfitsPage.jsx:152-159 | the saved list's favourite flags flip by id |
| Outfits.OutfitsPage.WearToday | client/src/pages/OutfitsPage.jsx:161-167 | the saved list's outfits with the id were last worn now |
| Closet.FieldOf | client/src/pages/ClosetPage.jsx:41-50 | the value of a field fits the field's kind |
| Closet.WithField | client/src/pages/ClosetPage.jsx:74 | `{ ...prev, [field]: value }` sets that field and keeps every other field and the tags |
| Closet.ErrorsOfCollected | client/src/pages/ClosetPage.jsx:94-104 | after checking the first k fields the errors hold the message of each missing one among them and nothing else |
| Closet.ErrorsOfReport | client/src/pages/ClosetPage.jsx:94-105 | the full check reports exactly the missing fields, and reports none iff nothing is missing |
| Closet.AddDisabled | client/src/pages/ClosetPage.jsx:107-118 | "Add" is disabled while submitting or when the name is blank or any other required field is empty |
| Closet.AddDisabledAgreesWithValidation | client/src/pages/ClosetPage.jsx:107-118 | when not submitting, "Add" is disabled exactly when validation would report a field |
| Closet.PayloadOf | client/src/pages/ClosetPage.jsx:129-141 | the trimmed name, the warmth as a number or null, the image URL, the rest as entered |
| Closet.PayloadWarmth | client/src/pages/ClosetPage.jsx:129-139 | a warmth option chosen as the text of a number is sent as that number |
| Closet.PartialReset | client/src/pages/ClosetPage.jsx:148-157 | name and image cleared, category, color, season, warmth, formality and tags kept |
| Closet.PartialResetMissing | client/src/pages/ClosetPage.jsx:148-157 | after a successful add only the name and the image are missing |
| Closet.WarmthLabel | client/src/pages/ClosetPage.jsx:371 | no label exactly for a zero/missing warmth; otherwise "Warmth ", the printed level, then "/5" |
| Closet.SeasonLabel | client/src/pages/ClosetPage.jsx:372 | season and the "Warmth n/5" label joined by " · " when both exist, else whichever exists, else nothing |
| Closet.ClosetPage.constructor | client/src/pages/ClosetPage.jsx:34-52 | no items, no errors, not submitting, no preview, the empty form |
| Closet.ClosetPage.LoadItems | client/src/pages/ClosetPage.jsx:56-71 | on success the items (null as none), on failure the message or its default |
| Closet.ClosetPage.UpdateField | client/src/pages/ClosetPage.jsx:73-84 | the field takes the value and only its error is cleared; a picked file shows its object URL, a cleared one clears the preview |
| Closet.ClosetPage.ToggleTag | client/src/pages/ClosetPage.jsx:86-92 | the form's tags are toggled, every other field kept |
| Closet.ClosetPage.ValidateForm | client/src/pages/ClosetPage.jsx:94-105 | the errors shown are exactly the messages of the missing fields, and the result is true iff no field is missing |
| Closet.ClosetPage.Submit | client/src/pages/ClosetPage.jsx:120-165 | nothing without a user; an invalid form is not sent and shows its errors, preview kept; a valid one sends the payload and the reply is handled |
| Closet.ClosetPage.SendValid | client/src/pages/ClosetPage.jsx:127-164 | for a validated form the payload uses the preview or else the picked file's URL, then the reply is handled |
| Closet.ClosetPage.FinishSubmit | client/src/pages/ClosetPage.jsx:143-164 | success appends the item, resets the form partly and clears preview and errors; failure keeps list, form, field errors and preview and shows the message; submitting ends |

## Left out

- Community.FormatTimeAgo: from seven days on the result is `None`, because the browser's locale date formatting (`toLocaleDateString`) is not modelled.
- OutfitCard.FormatDate: a present date gives `None`, for the same reason.
- Community.SeedPostsFromOutfits: post times are integer milliseconds. `toISOString`, `setHours` and daylight-saving shifts are not modelled.
- `URL.createObjectURL`, `Date.now()` and `new Date()` are parameters (`objectUrl`, `now`).
- `getStoredUser` (browser storage and `JSON.parse`) is replaced by a `user` parameter fixed when the page is built.
- React sequencing (effects, `async`/`await`, the interleaving of `set…` calls, the `loading` flags) is not modelled; each handler is one atomic step, and a failed request is an `Err` reply.
- Text inputs and view switches that are bare setters are not modelled: the collections page's name and description inputs and the `showForm` toggle, the detail page's `setEditing`/`setSelecting` buttons and draft inputs, the outfits page's event, temperature and formality inputs, and the `generating` flag raised and lowered within one handler.
- Outfits.SortNewestFirst: the model is an insertion sort. `Array.prototype.sort`'s own algorithm is not modelled, and no order is promised when some outfit has no timestamp, because the comparator is then inconsistent.
- Collections.Truncate: lengths count characters, whereas JavaScript counts UTF-16 code units.
- Text.StrLess: compares characters by code point, whereas JavaScript compares UTF-16 code units; the two orders differ only for characters above U+FFFF.
- Text.NumberOf: covers blank text and optionally signed decimal integers only. Fractions, exponents, hexadecimal and `Infinity` read as NaN here.
- OutfitCard.ClampRating: ratings are integers, so `Math.round` on fractional ratings is not modelled.
- Text.IsSpace: covers the fixed set of ECMAScript whitespace and line terminators and no other Unicode processing.
- The API server, its Lambda wrapper, the fetch client, and the login, home and feed pages are not part of this model. They pass data to and from storage with no logic of their own. The post card's `getPrimaryImage` is the same expression as the dialog's and is modelled once, as `PostModal.GetPrimaryImage`.
