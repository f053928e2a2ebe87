/**
  The outfits page: the saved outfits sorted newest first, the suggestion
  form and the three placeholder suggestions it produces, saving a
  suggestion, and the favourite and "wear today" actions.
 */
module Outfits {
  import opened Wrappers
  import opened Text
  import opened Wardrobe

  // --------------------------------------------------------------- order

  /** The sort key `last_worn_at || created_at || 0`; None stands for the number 0. */
  function Key(o: Outfit): (k: Option<string>)
    ensures k.Some? ==> k.value != ""
    ensures o.last_worn_at != "" ==> k == Some(o.last_worn_at)
    ensures o.last_worn_at == "" ==> k == (if o.created_at != "" then Some(o.created_at) else None)
  {
    if o.last_worn_at != "" then Some(o.last_worn_at)
    else if o.created_at != "" then Some(o.created_at)
    else None
  }

  /**
    `aDate < bDate` in the comparator. Two timestamps compare as strings; the
    number 0 against a timestamp compares as a number against NaN, which is
    false both ways, and 0 < 0 is false too.
   */
  predicate KeyLess(a: Outfit, b: Outfit) {
    Key(a).Some? && Key(b).Some? && StrLess(Key(a).value, Key(b).value)
  }

  /** Every outfit has a timestamp to sort by. */
  predicate Keyed(s: seq<Outfit>) {
    forall i :: 0 <= i < |s| ==> Key(s[i]).Some?
  }

  /** No outfit comes before one that is more recent. */
  predicate NewestFirst(s: seq<Outfit>) {
    forall i, j :: 0 <= i < j < |s| ==> !KeyLess(s[i], s[j])
  }

  lemma KeyLessAsymmetric(a: Outfit, b: Outfit)
    requires KeyLess(a, b)
    ensures !KeyLess(b, a)
  {
    if KeyLess(b, a) {
      StrLessTransitive(Key(a).value, Key(b).value, Key(a).value);
      StrLessIrreflexive(Key(a).value);
    }
  }

  /** Among timestamped outfits "not older than" chains. */
  lemma NotOlderTransitive(a: Outfit, b: Outfit, c: Outfit)
    requires Key(a).Some? && Key(b).Some? && Key(c).Some?
    requires !KeyLess(a, b) && !KeyLess(b, c)
    ensures !KeyLess(a, c)
  {
    var x, y, z := Key(a).value, Key(b).value, Key(c).value;
    if StrLess(x, z) {
      StrLessTotal(x, y);
      if x != y {
        StrLessTransitive(y, x, z);
      }
    }
  }

  /**
    The load path's `[...data].sort(comparator)` on a copy of the loaded
    array: the same outfits, and newest first whenever all of them have a
    timestamp. (With some missing the comparator is not a consistent order
    and no order is promised.)
   */
  method SortNewestFirst(a: array<Outfit>)
    modifies a
    ensures multiset(a[..]) == multiset(old(a[..]))
    ensures Keyed(old(a[..])) ==> NewestFirst(a[..])
  {
    ghost var keyed := Keyed(a[..]);
    var i := 0;
    while i < a.Length
      invariant 0 <= i <= a.Length
      invariant multiset(a[..]) == multiset(old(a[..]))
      invariant keyed ==> Keyed(a[..]) && NewestFirst(a[..i])
    {
      InsertBackwards(a, i, keyed);
      i := i + 1;
    }
  }

  /**
    One pass of the insertion: the outfit at `i` moves towards the front past
    every outfit older than it, so the first `i + 1` outfits end newest first.
   */
  method InsertBackwards(a: array<Outfit>, i: nat, ghost keyed: bool)
    requires i < a.Length
    requires keyed ==> Keyed(a[..]) && NewestFirst(a[..i])
    modifies a
    ensures multiset(a[..]) == multiset(old(a[..]))
    ensures keyed ==> Keyed(a[..]) && NewestFirst(a[..i + 1])
  {
    var j := i;
    while j > 0 && KeyLess(a[j - 1], a[j])
      invariant 0 <= j <= i
      invariant multiset(a[..]) == multiset(old(a[..]))
      invariant keyed ==> Keyed(a[..])
      invariant keyed ==> forall p, q :: 0 <= p < q <= i && p != j && q != j ==> !KeyLess(a[p], a[q])
      invariant keyed ==> forall q :: j < q <= i ==> !KeyLess(a[j], a[q])
    {
      KeyLessAsymmetric(a[j - 1], a[j]);
      SwapWithPrevious(a, j);
      j := j - 1;
    }
    if keyed && j > 0 {
      forall p | 0 <= p < j - 1 ensures !KeyLess(a[p], a[j]) {
        NotOlderTransitive(a[p], a[j - 1], a[j]);
      }
    }
  }

  /** Exchanges the outfits at `j - 1` and `j`. */
  method SwapWithPrevious(a: array<Outfit>, j: nat)
    requires 0 < j < a.Length
    modifies a
    ensures a[..] == old(a[..])[j - 1 := old(a[j])][j := old(a[j - 1])]
    ensures multiset(a[..]) == multiset(old(a[..]))
  {
    a[j - 1], a[j] := a[j], a[j - 1];
  }

  /** Sorting the loaded outfits: the sorted copy as a sequence. */
  method SortedOutfits(data: seq<Outfit>) returns (sorted: seq<Outfit>)
    ensures multiset(sorted) == multiset(data)
    ensures |sorted| == |data|
    ensures Keyed(data) ==> NewestFirst(sorted)
  {
    var a := new Outfit[|data|](i requires 0 <= i < |data| => data[i]);
    assert a[..] == data;
    SortNewestFirst(a);
    sorted := a[..];
    assert |sorted| == |multiset(sorted)| == |multiset(data)| == |data|;
  }

  // ---------------------------------------------------------- suggestions

  /** `canGenerate`: an event is chosen, the temperature is not 0 and no generation is running. */
  predicate CanGenerate(eventType: string, temperature: int, generating: bool) {
    eventType != "" && temperature != 0 && !generating
  }

  /** The one placeholder item every suggestion holds. */
  const HeroPiece := ClothingItem(Num(1), "Hero piece", "top", "black", "all-season", "", 0, "", [])

  /** `Great for ~${temperature}°F, leaning ${formal ? 'formal' : 'casual'}`. */
  function WeatherSummary(temperature: int, formalityPreference: string): (r: string)
    ensures |r| > 11 && r[..11] == "Great for ~"
    ensures var n := IntToString(temperature);
      |r| == 29 + |n| && r[11..11 + |n|] == n && r[11 + |n|..|r| - 6] == "°F, leaning "
    ensures r[|r| - 6..] == (if formalityPreference == "formal" then "formal" else "casual")
  {
    "Great for ~" + IntToString(temperature) + "°F, leaning " + (if formalityPreference == "formal" then "formal" else "casual")
  }

  /** `String(t)` never holds a degree sign. */
  lemma NoDegreeInNumber(t: int)
    ensures forall k :: 0 <= k < |IntToString(t)| ==> IntToString(t)[k] != '°'
  {
    var s := IntToString(t);
    forall k | 0 <= k < |s| ensures s[k] != '°' {
      if t < 0 && k > 0 {
        assert s[k] == s[1..][k - 1];
      }
    }
  }

  /** The summary tells the temperature and the formality apart: equal summaries mean equal inputs. */
  lemma WeatherSummaryInjective(t1: int, p1: string, t2: int, p2: string)
    requires WeatherSummary(t1, p1) == WeatherSummary(t2, p2)
    ensures t1 == t2
    ensures p1 == "formal" <==> p2 == "formal"
  {
    var a, b := IntToString(t1), IntToString(t2);
    var w1, w2 := (if p1 == "formal" then "formal" else "casual"), (if p2 == "formal" then "formal" else "casual");
    var r1 := a + "°F, leaning " + w1;
    var r2 := b + "°F, leaning " + w2;
    assert WeatherSummary(t1, p1) == "Great for ~" + r1;
    assert WeatherSummary(t2, p2) == "Great for ~" + r2;
    assert r1 == WeatherSummary(t1, p1)[11..] == r2;
    NoDegreeInNumber(t1);
    NoDegreeInNumber(t2);
    if |a| == |b| {
      assert a == r1[..|a|] == b;
      IntToStringInjective(t1, t2);
      assert w1 == r1[|a| + 12..] == w2;
    }
  }

  /** `user?.id || 'demo'`. */
  function OwnerId(user: Option<User>): (id: Id)
    ensures IdTruthy(id)
    ensures user.Some? && IdTruthy(user.value.id) ==> id == user.value.id
    ensures user.None? ==> id == Str("demo")
    ensures user.Some? && !IdTruthy(user.value.id) ==> id == Str("demo")
  {
    if user.Some? && IdTruthy(user.value.id) then user.value.id else Str("demo")
  }

  /**
    The n-th placeholder suggestion: an id `suggested-{n}-{now}`, the owner,
    the one hero piece, created now, never worn, unrated and not a favourite.
   */
  function Suggestion(n: nat, eventType: string, temperature: int, formalityPreference: string, mood: string,
                      user: Option<User>, now: string): (r: Outfit)
    ensures r.outfit_id.Str? && |r.outfit_id.s| > 11 + |now| && r.outfit_id.s[..10] == "suggested-"
    ensures r.outfit_id.s[|r.outfit_id.s| - |now|..] == now
    ensures r.outfit_id.s[10..|r.outfit_id.s| - |now| - 1] == NatToString(n)
    ensures r.outfit_id.s[|r.outfit_id.s| - |now| - 1] == '-'
    ensures r.user_id == OwnerId(user) && r.items == [HeroPiece]
    ensures r.created_at == now && r.last_worn_at == "" && r.rating.None? && !r.is_favorite
    ensures r.event_type == eventType && r.mood == mood
  {
    Outfit(
      outfit_id := Str("suggested-" + NatToString(n) + "-" + now),
      user_id := OwnerId(user),
      name := (if eventType == "date night" then "Date Night" else "Suggested Look") + " #" + NatToString(n),
      rating := None,
      is_favorite := false,
      created_at := now,
      last_worn_at := "",
      items := [HeroPiece],
      event_type := eventType,
      mood := mood,
      weather_summary := WeatherSummary(temperature, formalityPreference))
  }

  /** Suggestions with different numbers made at the same moment have different ids. */
  lemma SuggestionIdsDistinct(n: nat, m: nat, eventType: string, temperature: int, formalityPreference: string,
                              mood: string, user: Option<User>, now: string)
    requires n != m
    ensures Suggestion(n, eventType, temperature, formalityPreference, mood, user, now).outfit_id
         != Suggestion(m, eventType, temperature, formalityPreference, mood, user, now).outfit_id
  {
    var a, b := NatToString(n), NatToString(m);
    var x, y := "suggested-" + a + "-" + now, "suggested-" + b + "-" + now;
    if |a| == |b| {
      if x == y {
        assert a == x[10..10 + |a|] == y[10..10 + |b|] == b;
        NatToStringInjective(n, m);
      }
    } else if |a| < |b| {
      assert x[10 + |a|] == '-' != b[|a|] == y[10 + |a|];
    } else {
      assert y[10 + |b|] == '-' != a[|b|] == x[10 + |b|];
    }
  }

  /**
    The suggestions `handleGenerateSuggestions` produces: three of them,
    numbered 1 to 3 in their names, with distinct ids, none worn or a
    favourite, all for the chosen event, mood and weather.
   */
  function MockSuggestions(eventType: string, temperature: int, formalityPreference: string, mood: string,
                           user: Option<User>, now: string): (r: seq<Outfit>)
    ensures |r| == 3
    ensures forall i :: 0 <= i < 3 ==>
      && r[i].name == (if eventType == "date night" then "Date Night" else "Suggested Look") + " #" + [DigitChar(i + 1)]
      && r[i].event_type == eventType && r[i].mood == mood
      && !r[i].is_favorite && r[i].last_worn_at == "" && r[i].rating.None?
      && r[i].weather_summary == WeatherSummary(temperature, formalityPreference)
      && r[i].user_id == OwnerId(user) && r[i].created_at == now
    ensures forall i, j :: 0 <= i < j < 3 ==> r[i].outfit_id != r[j].outfit_id
    ensures forall i :: 0 <= i < 3 ==> r[i] == Suggestion(i + 1, eventType, temperature, formalityPreference, mood, user, now)
  {
    var r := seq(3, i requires 0 <= i < 3 => Suggestion(i + 1, eventType, temperature, formalityPreference, mood, user, now));
    forall i, j | 0 <= i < j < 3 ensures r[i].outfit_id != r[j].outfit_id {
      SuggestionIdsDistinct(i + 1, j + 1, eventType, temperature, formalityPreference, mood, user, now);
    }
    r
  }

  // ------------------------------------------------------- saved outfits

  /** `handleToggleFavorite`'s updater: the favourite flag flips on the outfits with the id, nothing else changes. */
  function WithFavoriteFlipped(outfits: seq<Outfit>, id: Id): (r: seq<Outfit>)
    ensures |r| == |outfits|
    ensures forall i :: 0 <= i < |r| ==>
      if outfits[i].outfit_id == id then r[i] == outfits[i].(is_favorite := !outfits[i].is_favorite) else r[i] == outfits[i]
  {
    seq(|outfits|, i requires 0 <= i < |outfits| =>
      if outfits[i].outfit_id == id then outfits[i].(is_favorite := !outfits[i].is_favorite) else outfits[i])
  }

  /** Flipping the favourite twice gives the list back. */
  lemma FavoriteTwice(outfits: seq<Outfit>, id: Id)
    ensures WithFavoriteFlipped(WithFavoriteFlipped(outfits, id), id) == outfits
  {
    var r := WithFavoriteFlipped(WithFavoriteFlipped(outfits, id), id);
    assert forall i :: 0 <= i < |r| ==> r[i] == outfits[i];
  }

  /** `handleWearToday`'s updater: the outfits with the id were last worn `now`, nothing else changes. */
  function WithWornAt(outfits: seq<Outfit>, id: Id, now: string): (r: seq<Outfit>)
    ensures |r| == |outfits|
    ensures forall i :: 0 <= i < |r| ==>
      if outfits[i].outfit_id == id then r[i] == outfits[i].(last_worn_at := now) else r[i] == outfits[i]
  {
    seq(|outfits|, i requires 0 <= i < |outfits| =>
      if outfits[i].outfit_id == id then outfits[i].(last_worn_at := now) else outfits[i])
  }

  /** An outfit worn today sorts by today's timestamp, whatever it held before. */
  lemma WornTodaySortsByNow(outfits: seq<Outfit>, id: Id, now: string)
    requires now != ""
    ensures forall i :: 0 <= i < |outfits| && outfits[i].outfit_id == id ==> Key(WithWornAt(outfits, id, now)[i]) == Some(now)
    ensures Keyed(outfits) ==> Keyed(WithWornAt(outfits, id, now))
  {
  }

  /** What "Save" on a suggestion sends to `POST /outfits`. */
  datatype OutfitRequest = OutfitRequest(user_id: Id, name: string, rating: Option<int>, is_favorite: bool)

  // ---------------------------------------------------------------- page

  class OutfitsPage {
    const user: Option<User>
    var savedOutfits: seq<Outfit>
    var error: string
    var eventType: string
    var temperature: int
    var formalityPreference: string
    var mood: string
    var suggestions: seq<Outfit>
    var generating: bool

    constructor (user: Option<User>)
      ensures this.user == user && savedOutfits == [] && error == "" && suggestions == [] && !generating
      ensures eventType == "" && temperature == 70 && formalityPreference == "casual" && mood == ""
    {
      this.user := user;
      savedOutfits := [];
      error := "";
      eventType := "";
      temperature := 70;
      formalityPreference := "casual";
      mood := "";
      suggestions := [];
      generating := false;
    }

    /** `loadSaved` once `/outfits` has answered: the outfits sorted newest first, a null answer read as none. */
    method LoadSaved(reply: Result<Option<seq<Outfit>>>)
      modifies this
      ensures reply.Ok? ==> multiset(savedOutfits) == multiset(reply.value.GetOr([])) && error == ""
      ensures reply.Ok? && Keyed(reply.value.GetOr([])) ==> NewestFirst(savedOutfits)
      ensures reply.Err? ==> savedOutfits == old(savedOutfits) && error == OrElse(reply.message, "Could not load outfits")
      ensures suggestions == old(suggestions) && generating == old(generating)
      ensures eventType == old(eventType) && temperature == old(temperature)
      ensures formalityPreference == old(formalityPreference) && mood == old(mood)
    {
      error := "";
      match reply
      case Ok(data) =>
        savedOutfits := SortedOutfits(data.GetOr([]));
      case Err(message) =>
        error := OrElse(message, "Could not load outfits");
    }

    /** A mood chip: choosing the chosen mood clears it, any other mood is chosen. */
    method ChooseMood(m: string)
      modifies this
      ensures mood == (if old(mood) == m then "" else m)
      ensures savedOutfits == old(savedOutfits) && suggestions == old(suggestions) && eventType == old(eventType)
      ensures error == old(error) && temperature == old(temperature)
      ensures formalityPreference == old(formalityPreference) && generating == old(generating)
    {
      mood := if mood == m then "" else m;
    }

    /** `handleGenerateSuggestions`: when allowed, the suggestions are replaced by three new ones. */
    method GenerateSuggestions(now: string)
      modifies this
      ensures !CanGenerate(old(eventType), old(temperature), old(generating)) ==> suggestions == old(suggestions)
      ensures CanGenerate(old(eventType), old(temperature), old(generating)) ==>
        suggestions == MockSuggestions(eventType, temperature, formalityPreference, mood, user, now)
      ensures generating == old(generating) && savedOutfits == old(savedOutfits) && error == old(error)
      ensures eventType == old(eventType) && temperature == old(temperature)
      ensures formalityPreference == old(formalityPreference) && mood == old(mood)
    {
      if !CanGenerate(eventType, temperature, generating) {
        return;
      }
      suggestions := MockSuggestions(eventType, temperature, formalityPreference, mood, user, now);
    }

    /**
      `handleSaveSuggested`: nothing without a user; otherwise the suggestion
      is sent as a favourite with its rating (or none), and the server's
      outfit goes first in the saved list.
     */
    method SaveSuggested(outfit: Outfit, reply: Result<Outfit>) returns (request: Option<OutfitRequest>)
      modifies this
      ensures user.None? ==> request.None? && savedOutfits == old(savedOutfits) && error == old(error)
      ensures user.Some? ==> request == Some(OutfitRequest(user.value.id, outfit.name, outfit.rating, true))
      ensures user.Some? && reply.Ok? ==> savedOutfits == [reply.value] + old(savedOutfits) && error == old(error)
      ensures user.Some? && reply.Err? ==>
        savedOutfits == old(savedOutfits) && error == OrElse(reply.message, "Could not save outfit")
      ensures suggestions == old(suggestions) && generating == old(generating)
      ensures eventType == old(eventType) && temperature == old(temperature)
      ensures formalityPreference == old(formalityPreference) && mood == old(mood)
    {
      if user.None? {
        return None;
      }
      request := Some(OutfitRequest(user.value.id, outfit.name, outfit.rating, true));
      match reply
      case Ok(saved) =>
        savedOutfits := [saved] + savedOutfits;
      case Err(message) =>
        error := OrElse(message, "Could not save outfit");
    }

    /** `handleToggleFavorite`. */
    method ToggleFavorite(outfit: Outfit)
      modifies this
      ensures savedOutfits == WithFavoriteFlipped(old(savedOutfits), outfit.outfit_id)
      ensures suggestions == old(suggestions) && error == old(error)
      ensures eventType == old(eventType) && temperature == old(temperature) && generating == old(generating)
      ensures formalityPreference == old(formalityPreference) && mood == old(mood)
    {
      savedOutfits := WithFavoriteFlipped(savedOutfits, outfit.outfit_id);
    }

    /** `handleWearToday`. */
    method WearToday(outfit: Outfit, now: string)
      modifies this
      ensures savedOutfits == WithWornAt(old(savedOutfits), outfit.outfit_id, now)
      ensures suggestions == old(suggestions) && error == old(error)
      ensures eventType == old(eventType) && temperature == old(temperature) && generating == old(generating)
      ensures formalityPreference == old(formalityPreference) && mood == old(mood)
    {
      savedOutfits := WithWornAt(savedOutfits, outfit.outfit_id, now);
    }
  }
}
