/**
  The community feed page: seeding placeholder posts from the user's outfits,
  the visibility filter, "time ago" labels, publishing a post, and the like
  and save toggles with their counters.
 */
module Community {
  import opened Wrappers
  import opened Text
  import opened Lists
  import opened Wardrobe

  datatype UserSummary = UserSummary(user_id: Id, display_name: string, avatar_url: string)

  datatype Post = Post(
    post_id: string,
    outfit_id: Id,
    user_id: Id,
    caption: string,
    is_visible: Option<bool>,      // None: the flag is missing
    created_at: int,               // milliseconds since the epoch
    outfit: Option<Outfit>,
    author: UserSummary,
    city_name: string,
    tags: seq<string>,
    like_count: Option<int>,       // None: the counter is missing
    save_count: Option<int>,
    comment_count: int,
    is_liked_by_current_user: bool,
    is_saved_by_current_user: bool)

  /** What the new-post form hands to `handleCreatePost`; fields it may omit are None or "". */
  datatype PostInput = PostInput(
    outfit_id: Option<Id>,
    caption: string,
    tags: Option<seq<string>>,
    is_visible: Option<bool>,
    city_name: string)

  const AvatarUrl := "https://images.pexels.com/photos/415829/pexels-photo-415829.jpeg?auto=compress&cs=tinysrgb&w=80"
  const MockAuthors: seq<UserSummary> := [
    UserSummary(Str("style-maven"), "Style Maven", AvatarUrl),
    UserSummary(Str("city-chic"), "City Chic", AvatarUrl)]
  const BaseCities: seq<string> := ["San Diego, CA", "New York, NY", "Austin, TX"]
  const DefaultCity := "San Diego, CA"
  const DateNightCaption := "Date night uniform. Simple, polished, and comfy."
  const EverydayCaption := "Today’s look built around this hero piece."
  const SeedLimit: nat := 5

  const MinuteMs: nat := 60000
  const HourMs: nat := 3600000
  const DayMs: nat := 86400000

  // ------------------------------------------------------------ seeding

  function Min(a: nat, b: nat): nat {
    if a < b then a else b
  }

  /** The placeholder post built from the outfit at position `index`. */
  function SeedPost(outfit: Outfit, index: nat, now: int): Post {
    var author := MockAuthors[index % |MockAuthors|];
    Post(
      post_id := "seed-" + IdString(outfit.outfit_id),
      outfit_id := outfit.outfit_id,
      user_id := author.user_id,
      caption := if outfit.event_type == "date night" then DateNightCaption else EverydayCaption,
      is_visible := Some(true),
      created_at := now - (index + 1) * 3 * HourMs,
      outfit := Some(outfit),
      author := author,
      city_name := BaseCities[index % |BaseCities|],
      tags := if outfit.mood != "" then [outfit.mood] else ["casual day"],
      like_count := Some(4 + index),
      save_count := Some(2 + index),
      comment_count := 0,
      is_liked_by_current_user := false,
      is_saved_by_current_user := false)
  }

  /**
    `seedPostsFromOutfits`: no posts for a missing or empty list; otherwise
    one post per outfit for the first five, the i-th built from the i-th.
   */
  function SeedPostsFromOutfits(outfits: Option<seq<Outfit>>, now: int): (r: seq<Post>)
    ensures outfits.None? ==> r == []
    ensures outfits.Some? ==> |r| == Min(SeedLimit, |outfits.value|)
    ensures outfits.Some? ==> forall i :: 0 <= i < |r| ==>
      && r[i].post_id == "seed-" + IdString(outfits.value[i].outfit_id)
      && r[i].outfit_id == outfits.value[i].outfit_id
      && r[i].outfit == Some(outfits.value[i])
    ensures forall i :: 0 <= i < |r| ==>
      && r[i].author == MockAuthors[i % 2]
      && r[i].user_id == MockAuthors[i % 2].user_id
      && r[i].city_name == BaseCities[i % 3]
      && r[i].created_at == now - (i + 1) * 3 * HourMs
    ensures forall i :: 0 <= i < |r| ==>
      && r[i].like_count == Some(4 + i)
      && r[i].save_count == Some(2 + i)
      && r[i].comment_count == 0
      && !r[i].is_liked_by_current_user
      && !r[i].is_saved_by_current_user
      && r[i].is_visible == Some(true)
    ensures outfits.Some? ==> forall i :: 0 <= i < |r| ==>
      && (r[i].caption == DateNightCaption <==> outfits.value[i].event_type == "date night")
      && (r[i].caption != DateNightCaption ==> r[i].caption == EverydayCaption)
      && (outfits.value[i].mood != "" ==> r[i].tags == [outfits.value[i].mood])
      && (outfits.value[i].mood == "" ==> r[i].tags == ["casual day"])
  {
    if outfits.None? || |outfits.value| == 0 then []
    else
      var n := Min(SeedLimit, |outfits.value|);
      seq(n, i requires 0 <= i < n => SeedPost(outfits.value[i], i, now))
  }

  // --------------------------------------------------------- visibility

  /** `visiblePosts`: the posts whose flag is not exactly false (a missing flag shows the post), in feed order. */
  function VisiblePosts(posts: seq<Post>): (r: seq<Post>)
    ensures forall p :: p in r <==> p in posts && p.is_visible != Some(false)
    ensures IsSubsequence(r, posts)
    ensures forall p :: multiset(r)[p] == if p.is_visible != Some(false) then multiset(posts)[p] else 0
    ensures (forall i :: 0 <= i < |posts| ==> posts[i].is_visible != Some(false)) ==> r == posts
  {
    Filter((p: Post) => p.is_visible != Some(false), posts)
  }

  /**
    A post put in front of the feed is shown in front of the visible posts
    exactly when its flag is not false; the rest of the visible feed is unchanged.
   */
  lemma VisiblePrepend(p: Post, feed: seq<Post>)
    ensures VisiblePosts([p] + feed) == (if p.is_visible != Some(false) then [p] else []) + VisiblePosts(feed)
  {
    FilterAppend((q: Post) => q.is_visible != Some(false), [p], feed);
    assert [p][1..] == [];
  }

  // ---------------------------------------------------------- time ago

  /**
    `formatTimeAgo` on `Date.now() - date` in milliseconds, with floor
    division: under a minute (a future date included) is "just now", then
    whole minutes, hours and days. From seven days on the browser's locale
    date is shown, which is not modelled (None).
   */
  function FormatTimeAgo(diffMs: int): (r: Option<string>)
    ensures diffMs < MinuteMs ==> r == Some("just now")
    ensures forall m: nat {:trigger NatToString(m)} :: 1 <= m < 60 && m * MinuteMs <= diffMs < (m + 1) * MinuteMs ==>
      r == Some(NatToString(m) + "m ago")
    ensures forall h: nat {:trigger NatToString(h)} :: 1 <= h < 24 && h * HourMs <= diffMs < (h + 1) * HourMs ==>
      r == Some(NatToString(h) + "h ago")
    ensures forall d: nat {:trigger NatToString(d)} :: 1 <= d < 7 && d * DayMs <= diffMs < (d + 1) * DayMs ==>
      r == Some(NatToString(d) + "d ago")
    ensures diffMs >= 7 * DayMs ==> r.None?
  {
    var minutes := diffMs / MinuteMs;
    if minutes < 1 then Some("just now")
    else if minutes < 60 then Some(NatToString(minutes) + "m ago")
    else
      var hours := minutes / 60;
      if hours < 24 then Some(NatToString(hours) + "h ago")
      else
        var days := hours / 24;
        if days < 7 then Some(NatToString(days) + "d ago")
        else None
  }

  // ---------------------------------------------------------- reactions

  datatype Reaction = Like | Save

  /** `count || 0`: a missing counter reads as 0. */
  function CountOf(c: Option<int>): int {
    c.GetOr(0)
  }

  /** The viewer's own flag for a reaction. */
  function Flag(p: Post, k: Reaction): bool {
    match k
    case Like => p.is_liked_by_current_user
    case Save => p.is_saved_by_current_user
  }

  /** The aggregate counter for a reaction, a missing one read as 0. */
  function Counter(p: Post, k: Reaction): int {
    match k
    case Like => CountOf(p.like_count)
    case Save => CountOf(p.save_count)
  }

  predicate CountersNonNegative(p: Post) {
    Counter(p, Like) >= 0 && Counter(p, Save) >= 0 && p.comment_count >= 0
  }

  function Other(k: Reaction): Reaction {
    match k
    case Like => Save
    case Save => Like
  }

  /**
    The per-post updater of `handleToggleLike` (Like) and `handleToggleSave`
    (Save): the viewer's flag flips, the counter moves one step the same way
    and is clamped at 0, and nothing else about the post changes.
   */
  function Toggled(p: Post, k: Reaction): (q: Post)
    ensures Flag(q, k) == !Flag(p, k)
    ensures Counter(q, k) >= 0
    ensures Flag(q, k) && Counter(p, k) >= 0 ==> Counter(q, k) == Counter(p, k) + 1
    ensures !Flag(q, k) && Counter(p, k) > 0 ==> Counter(q, k) == Counter(p, k) - 1
    ensures !Flag(q, k) && Counter(p, k) <= 0 ==> Counter(q, k) == 0
    ensures Flag(q, k) && Counter(p, k) < 0 ==> Counter(q, k) == 0
    ensures k == Like ==> q.like_count.Some?
    ensures k == Save ==> q.save_count.Some?
    ensures Flag(q, Other(k)) == Flag(p, Other(k)) && Counter(q, Other(k)) == Counter(p, Other(k))
    ensures k == Like ==> q == p.(is_liked_by_current_user := q.is_liked_by_current_user, like_count := q.like_count)
    ensures k == Save ==> q == p.(is_saved_by_current_user := q.is_saved_by_current_user, save_count := q.save_count)
    ensures CountersNonNegative(p) ==> CountersNonNegative(q)
  {
    match k
    case Like =>
      var liked := !p.is_liked_by_current_user;
      var likeCount := CountOf(p.like_count) + (if liked then 1 else -1);
      p.(is_liked_by_current_user := liked, like_count := Some(if likeCount < 0 then 0 else likeCount))
    case Save =>
      var saved := !p.is_saved_by_current_user;
      var saveCount := CountOf(p.save_count) + (if saved then 1 else -1);
      p.(is_saved_by_current_user := saved, save_count := Some(if saveCount < 0 then 0 else saveCount))
  }

  /**
    Toggling twice restores the flag and the count, except from a set flag
    with a zero count, which ends at 1.
   */
  lemma ToggledTwice(p: Post, k: Reaction)
    requires Counter(p, k) >= 0
    ensures Flag(Toggled(Toggled(p, k), k), k) == Flag(p, k)
    ensures Counter(Toggled(Toggled(p, k), k), k) == if Flag(p, k) && Counter(p, k) == 0 then 1 else Counter(p, k)
  {
  }

  /** The feed updater: the toggle applied to every post with the id, all other posts kept, in place. */
  function ToggleInFeed(posts: seq<Post>, postId: string, k: Reaction): (r: seq<Post>)
    ensures |r| == |posts|
    ensures forall i :: 0 <= i < |r| && posts[i].post_id == postId ==> r[i] == Toggled(posts[i], k)
    ensures forall i :: 0 <= i < |r| && posts[i].post_id != postId ==> r[i] == posts[i]
  {
    seq(|posts|, i requires 0 <= i < |posts| => if posts[i].post_id == postId then Toggled(posts[i], k) else posts[i])
  }

  /** A feed without negative counters keeps none after a toggle. */
  lemma ToggleInFeedKeepsCounters(posts: seq<Post>, postId: string, k: Reaction)
    requires forall p :: p in posts ==> CountersNonNegative(p)
    ensures forall p :: p in ToggleInFeed(posts, postId, k) ==> CountersNonNegative(p)
  {
    var r := ToggleInFeed(posts, postId, k);
    forall p | p in r ensures CountersNonNegative(p) {
      var i :| 0 <= i < |r| && r[i] == p;
      assert CountersNonNegative(posts[i]);
    }
  }

  /** Toggling the same post twice restores every post's flags and counts (the set-flag, zero-count case aside). */
  lemma ToggleInFeedTwice(posts: seq<Post>, postId: string, k: Reaction)
    requires forall p :: p in posts ==> CountersNonNegative(p)
    ensures var r := ToggleInFeed(ToggleInFeed(posts, postId, k), postId, k);
      |r| == |posts| &&
      forall i :: 0 <= i < |r| ==>
        && r[i].post_id == posts[i].post_id
        && Flag(r[i], k) == Flag(posts[i], k)
        && Flag(r[i], Other(k)) == Flag(posts[i], Other(k))
        && Counter(r[i], Other(k)) == Counter(posts[i], Other(k))
        && Counter(r[i], k) == (if posts[i].post_id == postId && Flag(posts[i], k) && Counter(posts[i], k) == 0 then 1 else Counter(posts[i], k))
  {
    var once := ToggleInFeed(posts, postId, k);
    var r := ToggleInFeed(once, postId, k);
    forall i | 0 <= i < |r|
      ensures Counter(r[i], k) == (if posts[i].post_id == postId && Flag(posts[i], k) && Counter(posts[i], k) == 0 then 1 else Counter(posts[i], k))
    {
      assert posts[i] in posts;
      if posts[i].post_id == postId {
        ToggledTwice(posts[i], k);
      }
    }
  }

  // ---------------------------------------------------------- new posts

  /** `outfits.find(o => String(o.outfit_id) === key)` as an index: the first match, or |outfits| when none. */
  function FirstMatch(outfits: seq<Outfit>, key: string): (k: nat)
    ensures k <= |outfits|
    ensures forall j :: 0 <= j < k ==> IdString(outfits[j].outfit_id) != key
    ensures k < |outfits| ==> IdString(outfits[k].outfit_id) == key
  {
    if outfits == [] then 0
    else if IdString(outfits[0].outfit_id) == key then 0
    else 1 + FirstMatch(outfits[1..], key)
  }

  /** The outfit a new post shows: the first one whose id equals the input's when both are read as strings. */
  function FindOutfit(outfits: seq<Outfit>, id: Id): (r: Option<Outfit>)
    ensures r.None? <==> forall o :: o in outfits ==> IdString(o.outfit_id) != IdString(id)
    ensures r.Some? ==> r.value in outfits && IdString(r.value.outfit_id) == IdString(id)
    ensures r.Some? ==> r.value == outfits[FirstMatch(outfits, IdString(id))]
  {
    var k := FirstMatch(outfits, IdString(id));
    if k < |outfits| then Some(outfits[k]) else None
  }

  /** `currentUserSummary`: the user's id, else "you"; display name, else email, else "You"; no avatar. */
  function CurrentUserSummary(user: Option<User>): (a: UserSummary)
    ensures user.None? ==> a == UserSummary(Str("you"), "You", "")
    ensures user.Some? && IdTruthy(user.value.id) ==> a.user_id == user.value.id
    ensures user.Some? && !IdTruthy(user.value.id) ==> a.user_id == Str("you")
    ensures user.Some? && user.value.display_name != "" ==> a.display_name == user.value.display_name
    ensures user.Some? && user.value.display_name == "" && user.value.email != "" ==> a.display_name == user.value.email
    ensures user.Some? && user.value.display_name == "" && user.value.email == "" ==> a.display_name == "You"
    ensures a.display_name != "" && a.avatar_url == ""
  {
    var name := if user.Some? then user.value.display_name else "";
    var email := if user.Some? then user.value.email else "";
    UserSummary(
      if user.Some? && IdTruthy(user.value.id) then user.value.id else Str("you"),
      OrElse(OrElse(name, email), "You"),
      "")
  }

  /** The guard of `handleCreatePost`: an input with a truthy outfit id and a non-empty caption. */
  predicate Accepts(input: Option<PostInput>) {
    && input.Some?
    && input.value.outfit_id.Some?
    && IdTruthy(input.value.outfit_id.value)
    && input.value.caption != ""
  }

  /**
    The post `handleCreatePost` publishes: zero counters, no reactions from
    the viewer, visible unless the input says exactly false, tags and city
    defaulted, and the snapshot of the matching outfit (if any).
   */
  function NewPost(input: PostInput, user: Option<User>, outfits: seq<Outfit>, now: int): (p: Post)
    requires input.outfit_id.Some?
    ensures p.like_count == Some(0) && p.save_count == Some(0) && p.comment_count == 0
    ensures !p.is_liked_by_current_user && !p.is_saved_by_current_user
    ensures p.is_visible == Some(input.is_visible != Some(false))
    ensures input.tags.None? ==> p.tags == []
    ensures input.tags.Some? ==> p.tags == input.tags.value
    ensures p.city_name == (if input.city_name == "" then DefaultCity else input.city_name)
    ensures p.outfit == FindOutfit(outfits, input.outfit_id.value)
    ensures p.outfit_id == input.outfit_id.value && p.caption == input.caption
    ensures p.author == CurrentUserSummary(user) && p.user_id == p.author.user_id
    ensures p.post_id == "local-" + IntToString(now) && p.created_at == now
  {
    var author := CurrentUserSummary(user);
    Post(
      post_id := "local-" + IntToString(now),
      outfit_id := input.outfit_id.value,
      user_id := author.user_id,
      caption := input.caption,
      is_visible := Some(if input.is_visible.Some? then input.is_visible.value else true),
      created_at := now,
      outfit := FindOutfit(outfits, input.outfit_id.value),
      author := author,
      city_name := OrElse(input.city_name, DefaultCity),
      tags := input.tags.GetOr([]),
      like_count := Some(0),
      save_count := Some(0),
      comment_count := 0,
      is_liked_by_current_user := false,
      is_saved_by_current_user := false)
  }

  /** A post published with visibility off is in the feed but never shown. */
  lemma HiddenPostNotShown(input: PostInput, user: Option<User>, outfits: seq<Outfit>, now: int, feed: seq<Post>)
    requires input.outfit_id.Some? && input.is_visible == Some(false)
    ensures NewPost(input, user, outfits, now) !in VisiblePosts([NewPost(input, user, outfits, now)] + feed)
  {
  }

  // --------------------------------------------------------------- page

  /** The page's state: the outfits loaded for the new-post form, the feed, and whether the form is open. */
  class CommunityPage {
    const user: Option<User>
    var outfits: seq<Outfit>
    var posts: seq<Post>
    var isNewPostOpen: bool
    var error: string

    /** No counter in the feed is negative. */
    predicate Valid()
      reads this
    {
      forall p :: p in posts ==> CountersNonNegative(p)
    }

    constructor (user: Option<User>)
      ensures Valid()
      ensures this.user == user && outfits == [] && posts == [] && !isNewPostOpen && error == ""
    {
      this.user := user;
      outfits := [];
      posts := [];
      isNewPostOpen := false;
      error := "";
    }

    /** `loadFeed` once `/outfits` has answered: the outfits (a null answer read as none) and the posts seeded from them. */
    method LoadFeed(response: Result<Option<seq<Outfit>>>, now: int)
      requires Valid()
      modifies this
      ensures Valid()
      ensures response.Ok? ==>
        outfits == response.value.GetOr([]) && posts == SeedPostsFromOutfits(Some(outfits), now) && error == ""
      ensures response.Err? ==>
        outfits == old(outfits) && posts == [] && error == OrElse(response.message, "Could not load community feed")
      ensures isNewPostOpen == old(isNewPostOpen)
    {
      error := "";
      match response
      case Ok(data) =>
        outfits := data.GetOr([]);
        posts := SeedPostsFromOutfits(Some(outfits), now);
      case Err(message) =>
        error := OrElse(message, "Could not load community feed");
        posts := [];
    }

    /** `handleCreatePost`: an accepted input is published at the top of the feed and closes the form; otherwise nothing happens. */
    method CreatePost(input: Option<PostInput>, now: int)
      requires Valid()
      modifies this
      ensures Valid()
      ensures !Accepts(input) ==> posts == old(posts) && isNewPostOpen == old(isNewPostOpen)
      ensures Accepts(input) ==> posts == [NewPost(input.value, user, outfits, now)] + old(posts) && !isNewPostOpen
      ensures outfits == old(outfits) && error == old(error)
    {
      if !Accepts(input) {
        return;
      }
      var post := NewPost(input.value, user, outfits, now);
      posts := [post] + posts;
      isNewPostOpen := false;
    }

    /** The "New Post" buttons open the form; nothing else changes. */
    method OpenNewPost()
      requires Valid()
      modifies this
      ensures Valid()
      ensures isNewPostOpen
      ensures outfits == old(outfits) && posts == old(posts) && error == old(error)
    {
      isNewPostOpen := true;
    }

    /** `handleToggleLike`. */
    method ToggleLike(postId: string)
      requires Valid()
      modifies this
      ensures Valid()
      ensures posts == ToggleInFeed(old(posts), postId, Like)
      ensures outfits == old(outfits) && isNewPostOpen == old(isNewPostOpen) && error == old(error)
    {
      ToggleInFeedKeepsCounters(posts, postId, Like);
      posts := ToggleInFeed(posts, postId, Like);
    }

    /** `handleToggleSave`. */
    method ToggleSave(postId: string)
      requires Valid()
      modifies this
      ensures Valid()
      ensures posts == ToggleInFeed(old(posts), postId, Save)
      ensures outfits == old(outfits) && isNewPostOpen == old(isNewPostOpen) && error == old(error)
    {
      ToggleInFeedKeepsCounters(posts, postId, Save);
      posts := ToggleInFeed(posts, postId, Save);
    }
  }
}
