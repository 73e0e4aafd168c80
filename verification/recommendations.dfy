/** Recommendation lists: platform search links, the tag/level filter, the tag groups offered as
    filter choices, and the top-five list the page shows (a stable sort by rank, then the first
    five), with what each card shows. */
module Recommendations {
  import opened Wrappers
  import opened Types

  const YoutubePrefix: string := "https://www.youtube.com/results?search_query="
  const MelonPrefix: string := "https://www.melon.com/search/total/index.htm?q="
  const SpotifyPrefix: string := "https://open.spotify.com/search/"

  /** `buildPlatformLinks`: links the server sent are used as they are; otherwise all three are
      searches for the same encoded `title artist` query. `encode` stands for
      `encodeURIComponent`. */
  function BuildPlatformLinks(rec: Recommendation, encode: string -> string): (links: PlatformLinks)
    ensures rec.platformUrls.Some? ==> links == rec.platformUrls.value
    ensures rec.platformUrls.None? ==>
      var query := encode(rec.title + " " + rec.artist);
      && links.youtube == Some(YoutubePrefix + query)
      && links.melon == Some(MelonPrefix + query)
      && links.spotify == Some(SpotifyPrefix + query)
  {
    if rec.platformUrls.Some? then rec.platformUrls.value
    else
      var query := encode(rec.title + " " + rec.artist);
      PlatformLinks(Some(YoutubePrefix + query), Some(MelonPrefix + query), Some(SpotifyPrefix + query))
  }

  /** The query each built link searches for: what follows the platform's prefix. */
  function QueryOf(url: string, prefix: string): Option<string> {
    if |prefix| <= |url| && url[..|prefix|] == prefix then Some(url[|prefix|..]) else None
  }

  /** Built links all search for the same text, the encoded title and artist. */
  lemma BuiltLinksShareQuery(rec: Recommendation, encode: string -> string)
    requires rec.platformUrls.None?
    ensures var links := BuildPlatformLinks(rec, encode);
      var query := encode(rec.title + " " + rec.artist);
      && QueryOf(links.youtube.value, YoutubePrefix) == Some(query)
      && QueryOf(links.melon.value, MelonPrefix) == Some(query)
      && QueryOf(links.spotify.value, SpotifyPrefix) == Some(query)
  {
    var query := encode(rec.title + " " + rec.artist);
    assert (YoutubePrefix + query)[..|YoutubePrefix|] == YoutubePrefix;
    assert (MelonPrefix + query)[..|MelonPrefix|] == MelonPrefix;
    assert (SpotifyPrefix + query)[..|SpotifyPrefix|] == SpotifyPrefix;
  }

  // ---------------------------------------------------------------------------
  // Filtering
  // ---------------------------------------------------------------------------

  const AllTag: string := "all"

  predicate LevelMatches(level: LevelFilter, value: int) {
    level == AllLevels || value == level.Number()
  }

  /** An item passes when genre, mood, difficulty and range each match, `all` matching anything. */
  predicate Matches(item: Recommendation, f: RecommendationFilter) {
    && (f.genreTag == AllTag || f.genreTag in item.tags)
    && (f.moodTag == AllTag || f.moodTag in item.tags)
    && LevelMatches(f.difficulty, item.difficulty)
    && LevelMatches(f.rangeLevel, item.rangeLevel)
  }

  /** `a` is `b` with some items left out, order kept. */
  predicate Subsequence<T(==)>(a: seq<T>, b: seq<T>)
    decreases |b|
  {
    if |a| == 0 then true
    else if |b| == 0 then false
    else if a[0] == b[0] then Subsequence(a[1..], b[1..])
    else Subsequence(a, b[1..])
  }

  /** `filterRecommendations`: keeps exactly the matching items, in their order. */
  function FilterRecommendations(recs: seq<Recommendation>, f: RecommendationFilter): (r: seq<Recommendation>)
    ensures Subsequence(r, recs)
    ensures forall x :: x in r <==> x in recs && Matches(x, f)
  {
    if |recs| == 0 then []
    else
      var rest := FilterRecommendations(recs[1..], f);
      assert forall x :: x in recs <==> x == recs[0] || x in recs[1..];
      if Matches(recs[0], f) then [recs[0]] + rest else rest
  }

  /** Filtering distributes over concatenation: each part is filtered where it stands. */
  lemma {:induction false} FilterAppend(a: seq<Recommendation>, b: seq<Recommendation>, f: RecommendationFilter)
    ensures FilterRecommendations(a + b, f) == FilterRecommendations(a, f) + FilterRecommendations(b, f)
  {
    if |a| == 0 {
      assert a + b == b;
    } else {
      assert (a + b)[1..] == a[1..] + b;
      FilterAppend(a[1..], b, f);
    }
  }

  const AllFilter: RecommendationFilter := RecommendationFilter(AllTag, AllTag, AllLevels, AllLevels)

  /** The all-`all` filter keeps the list as it is. */
  lemma {:induction false} AllFilterIsIdentity(recs: seq<Recommendation>)
    ensures FilterRecommendations(recs, AllFilter) == recs
  {
    if |recs| > 0 {
      AllFilterIsIdentity(recs[1..]);
    }
  }

  // ---------------------------------------------------------------------------
  // Tag groups
  // ---------------------------------------------------------------------------

  const GenreCandidates: seq<string> := ["ballad", "pop", "rock", "rnb", "hiphop", "acoustic"]
  const MoodCandidates: seq<string> := ["calm", "emotional", "bright", "soft", "rhythm", "easy", "mid-high"]

  /** Every tag of every item, in order, repeats included. */
  function AllTagOccurrences(recs: seq<Recommendation>): (s: seq<string>)
    ensures forall t :: t in s <==> exists i :: 0 <= i < |recs| && t in recs[i].tags
  {
    if |recs| == 0 then []
    else
      var rest := AllTagOccurrences(recs[1..]);
      assert forall i :: 1 <= i < |recs| ==> recs[i] == recs[1..][i - 1];
      recs[0].tags + rest
  }

  /** Adding values one by one to a JavaScript `Set`: a value already present keeps its place. */
  function SetAddAll(acc: seq<string>, s: seq<string>): seq<string>
    decreases |s|
  {
    if |s| == 0 then acc
    else SetAddAll(if s[0] in acc then acc else acc + [s[0]], s[1..])
  }

  /** The reference order: each value at its first appearance, later repeats dropped. */
  function FirstAppearances(s: seq<string>): seq<string> {
    if |s| == 0 then []
    else
      var init := s[..|s| - 1];
      FirstAppearances(init) + (if s[|s| - 1] in init then [] else [s[|s| - 1]])
  }

  lemma {:induction false} FirstAppearancesElements(s: seq<string>)
    ensures forall t :: t in FirstAppearances(s) <==> t in s
  {
    if |s| > 0 {
      var init := s[..|s| - 1];
      FirstAppearancesElements(init);
      assert s == init + [s[|s| - 1]];
    }
  }

  /** The `Set` built by adding in order iterates in order of first appearance. */
  lemma {:induction false} SetAddAllIsFirstAppearances(prefix: seq<string>, s: seq<string>)
    ensures SetAddAll(FirstAppearances(prefix), s) == FirstAppearances(prefix + s)
    decreases |s|
  {
    if |s| == 0 {
      assert prefix + s == prefix;
    } else {
      var acc := FirstAppearances(prefix);
      var p' := prefix + [s[0]];
      FirstAppearancesSnoc(prefix, s[0]);
      assert SetAddAll(acc, s) == SetAddAll(FirstAppearances(p'), s[1..]);
      SetAddAllIsFirstAppearances(p', s[1..]);
      ConsAssoc(prefix, s);
    }
  }

  lemma ConsAssoc(prefix: seq<string>, s: seq<string>)
    requires |s| > 0
    ensures (prefix + [s[0]]) + s[1..] == prefix + s
  {
  }

  /** One more value extends the first appearances exactly when it is new. */
  lemma FirstAppearancesSnoc(prefix: seq<string>, x: string)
    ensures var acc := FirstAppearances(prefix);
      FirstAppearances(prefix + [x]) == if x in acc then acc else acc + [x]
  {
    var p' := prefix + [x];
    assert p'[..|p'| - 1] == prefix;
    FirstAppearancesElements(prefix);
  }

  predicate NoDuplicates(s: seq<string>) {
    forall i, j :: 0 <= i < j < |s| ==> s[i] != s[j]
  }

  lemma {:induction false} FirstAppearancesNoDuplicates(s: seq<string>)
    ensures NoDuplicates(FirstAppearances(s))
  {
    if |s| > 0 {
      var init := s[..|s| - 1];
      FirstAppearancesNoDuplicates(init);
      FirstAppearancesElements(init);
    }
  }

  /** Keeps the values that are among the candidates, in order. */
  function KeepCandidates(s: seq<string>, candidates: seq<string>): (r: seq<string>)
    ensures forall t :: t in r <==> t in s && t in candidates
    ensures NoDuplicates(s) ==> NoDuplicates(r)
    ensures Subsequence(r, s)
  {
    if |s| == 0 then []
    else
      var rest := KeepCandidates(s[1..], candidates);
      assert forall t :: t in s <==> t == s[0] || t in s[1..];
      if s[0] in candidates then [s[0]] + rest else rest
  }

  datatype TagGroups = TagGroups(genreTags: seq<string>, moodTags: seq<string>)

  /** `collectTagGroups`: the distinct tags of all items in first-appearance order, split into
      those that are genre candidates and those that are mood candidates. */
  function CollectTagGroups(recs: seq<Recommendation>): TagGroups {
    var allTags := SetAddAll([], AllTagOccurrences(recs));
    TagGroups(KeepCandidates(allTags, GenreCandidates), KeepCandidates(allTags, MoodCandidates))
  }

  /** Some item carries the tag. */
  predicate Carried(recs: seq<Recommendation>, t: string) {
    exists i :: 0 <= i < |recs| && t in recs[i].tags
  }

  /** The candidate lists share no tag. */
  lemma CandidatesDisjoint()
    ensures forall t :: t in GenreCandidates ==> t !in MoodCandidates
  {
  }

  /** The distinct tags are gathered in first-appearance order. */
  lemma AllTagsInFirstAppearanceOrder(recs: seq<Recommendation>)
    ensures var allTags := SetAddAll([], AllTagOccurrences(recs));
      && allTags == FirstAppearances(AllTagOccurrences(recs))
      && NoDuplicates(allTags)
      && (forall t :: t in allTags <==> Carried(recs, t))
  {
    var occ := AllTagOccurrences(recs);
    assert FirstAppearances([]) == [];
    SetAddAllIsFirstAppearances([], occ);
    assert [] + occ == occ;
    FirstAppearancesNoDuplicates(occ);
    FirstAppearancesElements(occ);
  }

  /** Each group lists, without repeats and in first-appearance order, exactly the candidates some
      item carries; the two groups share no tag. */
  lemma TagGroupsSpec(recs: seq<Recommendation>)
    ensures var g := CollectTagGroups(recs);
      var ordered := FirstAppearances(AllTagOccurrences(recs));
      && g.genreTags == KeepCandidates(ordered, GenreCandidates)
      && g.moodTags == KeepCandidates(ordered, MoodCandidates)
      && NoDuplicates(g.genreTags) && NoDuplicates(g.moodTags)
      && (forall t :: t in g.genreTags <==> t in GenreCandidates && Carried(recs, t))
      && (forall t :: t in g.moodTags <==> t in MoodCandidates && Carried(recs, t))
      && (forall t :: t in g.genreTags ==> t !in g.moodTags)
  {
    AllTagsInFirstAppearanceOrder(recs);
    CandidatesDisjoint();
  }

  // ---------------------------------------------------------------------------
  // Top five
  // ---------------------------------------------------------------------------

  /** Each item is ranked no higher than the next. */
  predicate SortedByRank(s: seq<Recommendation>) {
    forall i :: 0 < i < |s| ==> s[i - 1].rank <= s[i].rank
  }

  lemma {:induction false} SortedOrdersAllPairs(s: seq<Recommendation>, i: int, j: int)
    requires SortedByRank(s) && 0 <= i <= j < |s|
    ensures s[i].rank <= s[j].rank
    decreases j - i
  {
    if i < j {
      SortedOrdersAllPairs(s, i, j - 1);
    }
  }

  /** Inserts `x` before the first item ranked at least as high: items ranked equal to `x` that
      were already placed stay after it. */
  function Insert(x: Recommendation, s: seq<Recommendation>): (r: seq<Recommendation>)
    ensures multiset(r) == multiset(s) + multiset{x}
    ensures |r| == |s| + 1 && (r[0] == x || (|s| > 0 && r[0] == s[0]))
    ensures SortedByRank(s) ==> SortedByRank(r)
  {
    if |s| == 0 then [x]
    else if s[0].rank >= x.rank then
      SortedCons(x, s);
      [x] + s
    else
      var rest := Insert(x, s[1..]);
      assert s == [s[0]] + s[1..];
      assert multiset([s[0]] + rest) == multiset{s[0]} + multiset(rest);
      SortedTail(s);
      SortedCons(s[0], rest);
      [s[0]] + rest
  }

  lemma SortedCons(a: Recommendation, t: seq<Recommendation>)
    ensures SortedByRank(t) && (|t| > 0 ==> a.rank <= t[0].rank) ==> SortedByRank([a] + t)
  {
    if SortedByRank(t) && (|t| > 0 ==> a.rank <= t[0].rank) {
      var r := [a] + t;
      forall i | 0 < i < |r|
        ensures r[i - 1].rank <= r[i].rank
      {
        if i > 1 {
          assert r[i - 1] == t[i - 2] && r[i] == t[i - 1];
        }
      }
    }
  }

  lemma SortedTail(s: seq<Recommendation>)
    requires |s| > 0
    ensures SortedByRank(s) ==> SortedByRank(s[1..])
  {
    if SortedByRank(s) {
      forall i | 0 < i < |s| - 1
        ensures s[1..][i - 1].rank <= s[1..][i].rank
      {
        assert s[1..][i - 1] == s[i] && s[1..][i] == s[i + 1];
      }
    }
  }

  /** The page's `[...recs].sort((a, b) => a.rank - b.rank)`: a stable sort by rank (modelled as
      insertion sort, which is stable), applied to a copy. */
  function SortByRank(s: seq<Recommendation>): (r: seq<Recommendation>)
    ensures multiset(r) == multiset(s)
    ensures SortedByRank(r)
  {
    if |s| == 0 then []
    else
      assert s == [s[0]] + s[1..];
      Insert(s[0], SortByRank(s[1..]))
  }

  /** The items of one rank, in order. */
  function WithRank(s: seq<Recommendation>, k: int): seq<Recommendation> {
    if |s| == 0 then []
    else (if s[0].rank == k then [s[0]] else []) + WithRank(s[1..], k)
  }

  lemma {:induction false} InsertWithRank(x: Recommendation, s: seq<Recommendation>, k: int)
    ensures WithRank(Insert(x, s), k) == if x.rank == k then [x] + WithRank(s, k) else WithRank(s, k)
  {
    if |s| == 0 {
      WithRankCons(x, [], k);
    } else if s[0].rank >= x.rank {
      WithRankCons(x, s, k);
    } else {
      var t := Insert(x, s[1..]);
      InsertWithRank(x, s[1..], k);
      WithRankCons(s[0], t, k);
      WithRankCons(s[0], s[1..], k);
      assert [s[0]] + s[1..] == s;
    }
  }

  lemma WithRankCons(a: Recommendation, t: seq<Recommendation>, k: int)
    ensures WithRank([a] + t, k) == (if a.rank == k then [a] else []) + WithRank(t, k)
  {
    assert ([a] + t)[1..] == t;
  }

  /** Stability: items of equal rank keep their input order. */
  lemma {:induction false} SortByRankStable(s: seq<Recommendation>, k: int)
    ensures WithRank(SortByRank(s), k) == WithRank(s, k)
  {
    if |s| > 0 {
      SortByRankStable(s[1..], k);
      InsertWithRank(s[0], SortByRank(s[1..]), k);
    }
  }

  const TopCount: nat := 5

  /** The list the page shows: the first five of the sorted copy. */
  function Top5(recs: seq<Recommendation>): (top: seq<Recommendation>)
    ensures |top| == if |recs| < TopCount then |recs| else TopCount
    ensures SortedByRank(top)
    ensures multiset(top) <= multiset(recs)
    ensures top == SortByRank(recs)[..|top|]
  {
    var sorted := SortByRank(recs);
    var n := if |recs| < TopCount then |recs| else TopCount;
    assert sorted == sorted[..n] + sorted[n..];
    assert multiset(sorted) == multiset(sorted[..n]) + multiset(sorted[n..]);
    sorted[..n]
  }

  /** Ties on screen: the items of each rank that are shown are the first ones of that rank in
      the input, in input order. */
  lemma Top5Stable(recs: seq<Recommendation>, k: int)
    ensures WithRank(Top5(recs), k) <= WithRank(recs, k)
  {
    var sorted := SortByRank(recs);
    var top := Top5(recs);
    assert |sorted| == |multiset(sorted)| == |multiset(recs)| == |recs|;
    assert top == sorted[..|top|];
    WithRankOfPrefix(sorted, |top|, k);
    SortByRankStable(recs, k);
    assert WithRank(top, k) <= WithRank(sorted, k) == WithRank(recs, k);
  }

  /** Cutting a list keeps a prefix of each rank's items. */
  lemma {:induction false} WithRankOfPrefix(s: seq<Recommendation>, n: nat, k: int)
    requires n <= |s|
    ensures WithRank(s[..n], k) <= WithRank(s, k)
  {
    if n > 0 {
      WithRankOfPrefix(s[1..], n - 1, k);
      assert s[..n] == [s[0]] + s[1..][..n - 1];
      assert s == [s[0]] + s[1..];
      WithRankCons(s[0], s[1..][..n - 1], k);
      WithRankCons(s[0], s[1..], k);
    }
  }

  /** Nothing left out outranks anything shown: every omitted item's rank is at least every shown
      item's rank. */
  lemma OmittedRankNoLower(recs: seq<Recommendation>)
    ensures var sorted := SortByRank(recs);
      var top := Top5(recs);
      forall i, j :: 0 <= i < |top| <= j < |sorted| ==> top[i].rank <= sorted[j].rank
  {
    var sorted := SortByRank(recs);
    var top := Top5(recs);
    forall i, j | 0 <= i < |top| <= j < |sorted|
      ensures top[i].rank <= sorted[j].rank
    {
      assert top[i] == sorted[i];
      SortedOrdersAllPairs(sorted, i, j);
    }
  }

  /** What a card shows: the cover only for a non-empty cover URL, at most the first two reasons,
      and the external link only for a non-empty URL. */
  datatype Card = Card(rank: int, title: string, artist: string, matchPercent: int,
                       cover: Option<string>, reasons: seq<string>, link: Option<string>)

  function CardView(item: Recommendation): (c: Card)
    ensures c.cover.Some? <==> Truthy(item.coverUrl)
    ensures c.cover.Some? ==> c.cover == item.coverUrl
    ensures c.link.Some? <==> Truthy(item.externalUrl)
    ensures c.link.Some? ==> c.link == item.externalUrl
    ensures |c.reasons| <= 2 && |c.reasons| <= |item.reasons| && c.reasons == item.reasons[..|c.reasons|]
    ensures |c.reasons| == 2 || c.reasons == item.reasons
  {
    Card(item.rank, item.title, item.artist, item.matchPercent,
         if Truthy(item.coverUrl) then item.coverUrl else None,
         if |item.reasons| <= 2 then item.reasons else item.reasons[..2],
         if Truthy(item.externalUrl) then item.externalUrl else None)
  }
}
