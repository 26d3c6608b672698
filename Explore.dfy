/** The explore page's list: a search over the mock catalogue, a sort on a copy,
    then a duration filter. Each stage is a value computed from the page state
    (search term, category tab, sort method, duration filter). */
module Explore {
  import opened Options
  import opened Decimal
  import opened Text
  import opened Seqs

  /** A catalogue entry; the thumbnail and avatar URLs are not modelled. */
  datatype Video = Video(
    id: string,
    title: string,
    duration: string,
    views: string,
    author: string,
    timeAgo: string)

  /** The hard-coded catalogue. */
  const AllVideos: seq<Video> := [
    Video("1", "Breathtaking Coastal Sunset Time-lapse", "5:23", "1.2M", "Nature Visuals", "3 days ago"),
    Video("2", "Urban Architecture Design Principles Explained", "18:07", "843K", "Modern Design", "1 week ago"),
    Video("3", "Minimal Interior Styling for Small Spaces", "12:49", "2.7M", "Interior Philosophy", "2 days ago"),
    Video("4", "How to Capture Perfect Product Photography", "7:15", "543K", "Creative Lens", "5 days ago"),
    Video("5", "Mindful Living: Daily Practices for Balance", "15:33", "1.8M", "Wellness Journey", "1 day ago"),
    Video("6", "Ambient Music Production Techniques", "22:17", "976K", "Sound Design Lab", "3 weeks ago"),
    Video("7", "The Art of Cinematic Color Grading", "19:45", "1.1M", "Film Academy", "6 days ago"),
    Video("8", "Minimalist Design Principles for Digital Products", "14:58", "2.3M", "UX Principles", "2 weeks ago"),
    Video("9", "Aerial Photography: Drone Techniques for Beginners", "16:22", "1.4M", "Aerial Vision", "3 months ago"),
    Video("10", "Sustainable Living in Small Apartments", "9:16", "786K", "EcoLiving", "1 month ago"),
    Video("11", "Future of Remote Work: Technology and Spaces", "11:47", "932K", "Future Work", "4 weeks ago"),
    Video("12", "Deep Ocean Exploration: The Last Frontier", "24:38", "3.2M", "Deep Blue", "7 months ago")
  ]

  // ---------------------------------------------------------------------------
  // Stage 1: search (and the category tab, which never filters)
  // ---------------------------------------------------------------------------

  predicate MatchesSearch(v: Video, term: string) {
    Includes(ToLower(v.title), ToLower(term)) || Includes(ToLower(v.author), ToLower(term))
  }

  /** The category test of the page: "All", or anything else, passes. */
  predicate MatchesCategory(activeCategory: string) {
    activeCategory == "All" || true
  }

  function SearchKeeps(term: string, activeCategory: string): Video -> bool {
    v => MatchesSearch(v, term) && MatchesCategory(activeCategory)
  }

  function SearchStage(videos: seq<Video>, term: string, activeCategory: string): seq<Video> {
    Filter(SearchKeeps(term, activeCategory), videos)
  }

  /** The search keeps, in catalogue order, every occurrence of each video whose
      lowercased title or author contains the lowercased term, and nothing else. */
  lemma SearchStageSpec(videos: seq<Video>, term: string, activeCategory: string, v: Video)
    ensures IsSubsequence(SearchStage(videos, term, activeCategory), videos)
    ensures multiset(SearchStage(videos, term, activeCategory))[v]
         == if MatchesSearch(v, term) then multiset(videos)[v] else 0
    ensures v in SearchStage(videos, term, activeCategory) <==> v in videos && MatchesSearch(v, term)
  {
    FilterIsSubsequence(SearchKeeps(term, activeCategory), videos);
    FilterCount(SearchKeeps(term, activeCategory), videos, v);
  }

  /** An empty search term keeps the whole list. */
  lemma EmptySearchKeepsAll(videos: seq<Video>, activeCategory: string)
    ensures SearchStage(videos, "", activeCategory) == videos
  {
    forall i | 0 <= i < |videos|
      ensures SearchKeeps("", activeCategory)(videos[i])
    {
      IncludesEmpty(ToLower(videos[i].title));
    }
    FilterKeepsAll(SearchKeeps("", activeCategory), videos);
  }

  /** The category tab has no effect on the search stage. */
  lemma {:induction false} CategoryIgnored(videos: seq<Video>, term: string, c1: string, c2: string)
    ensures SearchStage(videos, term, c1) == SearchStage(videos, term, c2)
    decreases |videos|
  {
    if videos != [] {
      CategoryIgnored(videos[1..], term, c1, c2);
    }
  }

  // ---------------------------------------------------------------------------
  // Stage 2: sort
  // ---------------------------------------------------------------------------

  /** `parseInt(views.replace(/[^0-9]/g, ""))`: "1.2M" gives 12, "843K" gives 843. */
  function ViewsKey(views: string): Option<int> {
    ParseInt(DigitsOnly(views))
  }

  predicate HasViewsKey(v: Video) {
    ViewsKey(v.views).Some?
  }

  predicate AllKeyed(xs: seq<Video>) {
    forall i :: 0 <= i < |xs| ==> HasViewsKey(xs[i])
  }

  function Key(v: Video): int
    requires HasViewsKey(v)
  {
    ViewsKey(v.views).value
  }

  /** A views string has a key exactly when it holds a digit, and the key is
      the number its digits spell. */
  lemma ViewsKeyDefined(views: string)
    ensures ViewsKey(views).Some? <==> exists i :: 0 <= i < |views| && IsDigit(views[i])
    ensures ViewsKey(views).Some? ==> ViewsKey(views).value == DigitsValue(DigitsOnly(views))
  {
    var d := DigitsOnly(views);
    if d != [] {
      ParseIntOfDigits(d);
    }
  }

  /** The popular sort keys on the digits alone: "1.2M" ranks below "843K". */
  lemma SuffixIgnoredInKey()
    ensures ViewsKey("1.2M") == Some(12) && ViewsKey("843K") == Some(843)
  {
    assert DigitsOnly("1.2M") == "12" by {
      assert DigitsOnly("M") == [];
      assert DigitsOnly("2M") == "2";
      assert DigitsOnly(".2M") == "2";
    }
    assert DigitsOnly("843K") == "843" by {
      assert DigitsOnly("K") == [];
      assert DigitsOnly("3K") == "3";
      assert DigitsOnly("43K") == "43";
    }
    ParseIntOfDigits("12");
    ParseIntOfDigits("843");
  }

  lemma AllVideosKeyed()
    ensures AllKeyed(AllVideos)
  {
    forall i | 0 <= i < |AllVideos|
      ensures HasViewsKey(AllVideos[i])
    {
      ViewsKeyDefined(AllVideos[i].views);
      assert IsDigit(AllVideos[i].views[0]);
    }
  }

  lemma FilterKeepsKeyed(keep: Video -> bool, xs: seq<Video>)
    requires AllKeyed(xs)
    ensures AllKeyed(Filter(keep, xs))
  {
    var r := Filter(keep, xs);
    forall i | 0 <= i < |r|
      ensures HasViewsKey(r[i])
    {
      assert r[i] in r;
    }
  }

  /** Keys do not increase along `xs`. */
  predicate ByViewsDescending(xs: seq<Video>) {
    AllKeyed(xs) && forall i, j :: 0 <= i < j < |xs| ==> Key(xs[i]) >= Key(xs[j])
  }

  /** A list with the same elements as a keyed list is keyed. */
  lemma KeyedByMultiset(a: seq<Video>, b: seq<Video>)
    requires AllKeyed(b) && multiset(a) == multiset(b)
    ensures AllKeyed(a)
  {
    forall i | 0 <= i < |a|
      ensures HasViewsKey(a[i])
    {
      assert a[i] in multiset(b);
    }
  }

  /** Inserts `x` before the first element whose key is not larger, which is
      where a stable sort puts an element that came first. */
  function Insert(x: Video, sorted: seq<Video>): (r: seq<Video>)
    requires HasViewsKey(x) && AllKeyed(sorted)
    ensures multiset(r) == multiset(sorted) + multiset{x}
  {
    if sorted == [] || Key(x) >= Key(sorted[0]) then
      [x] + sorted
    else
      assert sorted == [sorted[0]] + sorted[1..];
      [sorted[0]] + Insert(x, sorted[1..])
  }

  /** In a descending list the head's key bounds every later key. */
  lemma HeadBoundsTail(sorted: seq<Video>, y: Video)
    requires ByViewsDescending(sorted) && sorted != [] && y in sorted[1..]
    ensures Key(sorted[0]) >= Key(y)
  {
    var k :| 0 <= k < |sorted[1..]| && sorted[1..][k] == y;
    assert sorted[k + 1] == y;
  }

  /** Putting a key no smaller than all of `rest` in front keeps the order. */
  lemma ConsDescending(h: Video, rest: seq<Video>)
    requires HasViewsKey(h) && ByViewsDescending(rest)
    requires forall j :: 0 <= j < |rest| ==> Key(h) >= Key(rest[j])
    ensures ByViewsDescending([h] + rest)
  {
    var r := [h] + rest;
    forall i | 0 <= i < |r|
      ensures HasViewsKey(r[i])
    {
      if i > 0 {
        assert r[i] == rest[i - 1];
      }
    }
    forall i, j | 0 <= i < j < |r|
      ensures Key(r[i]) >= Key(r[j])
    {
      assert r[j] == rest[j - 1];
      if i > 0 {
        assert r[i] == rest[i - 1];
      }
    }
  }

  lemma {:induction false} InsertSorted(x: Video, sorted: seq<Video>)
    requires HasViewsKey(x) && ByViewsDescending(sorted)
    ensures ByViewsDescending(Insert(x, sorted))
    decreases |sorted|
  {
    if sorted != [] && Key(x) < Key(sorted[0]) {
      var rest := Insert(x, sorted[1..]);
      assert ByViewsDescending(sorted[1..]) by {
        forall i, j | 0 <= i < j < |sorted[1..]|
          ensures Key(sorted[1..][i]) >= Key(sorted[1..][j])
        {
          assert sorted[1..][i] == sorted[i + 1] && sorted[1..][j] == sorted[j + 1];
        }
      }
      InsertSorted(x, sorted[1..]);
      forall j | 0 <= j < |rest|
        ensures Key(sorted[0]) >= Key(rest[j])
      {
        assert rest[j] in multiset(rest);
        if rest[j] != x {
          HeadBoundsTail(sorted, rest[j]);
        }
      }
      ConsDescending(sorted[0], rest);
    } else if sorted != [] {
      forall j | 0 <= j < |sorted|
        ensures Key(x) >= Key(sorted[j])
      {
      }
      ConsDescending(x, sorted);
    } else {
      ConsDescending(x, sorted);
    }
  }

  /** The array `[...filtered].sort((a, b) => key(b) - key(a))`: a stable sort by
      descending key. */
  function SortPopular(xs: seq<Video>): (r: seq<Video>)
    requires AllKeyed(xs)
    ensures multiset(r) == multiset(xs)
    ensures ByViewsDescending(r)
  {
    if xs == [] then []
    else
      assert xs == [xs[0]] + xs[1..];
      var rest := SortPopular(xs[1..]);
      KeyedByMultiset(rest, xs[1..]);
      InsertSorted(xs[0], rest);
      Insert(xs[0], rest)
  }

  function KeyIs(k: int): Video -> bool {
    v => HasViewsKey(v) && Key(v) == k
  }

  lemma {:induction false} InsertGroup(x: Video, sorted: seq<Video>, k: int)
    requires HasViewsKey(x) && AllKeyed(sorted)
    ensures Filter(KeyIs(k), Insert(x, sorted))
         == (if Key(x) == k then [x] else []) + Filter(KeyIs(k), sorted)
    decreases |sorted|
  {
    if sorted == [] || Key(x) >= Key(sorted[0]) {
      assert ([x] + sorted)[1..] == sorted;
    } else {
      InsertGroup(x, sorted[1..], k);
      var r := Insert(x, sorted[1..]);
      assert ([sorted[0]] + r)[1..] == r;
    }
  }

  /** Stability: the videos that share a key keep their relative order. */
  lemma {:induction false} SortPopularStable(xs: seq<Video>, k: int)
    requires AllKeyed(xs)
    ensures Filter(KeyIs(k), SortPopular(xs)) == Filter(KeyIs(k), xs)
    decreases |xs|
  {
    if xs != [] {
      SortPopularStable(xs[1..], k);
      InsertGroup(xs[0], SortPopular(xs[1..]), k);
    }
  }

  /** The order the sort produces for the other methods. Their comparators
      return a constant, which ECMAScript leaves implementation-defined; this is
      V8's outcome (one ascending run for `1`, one descending run for `-1`). */
  function SortStage(videos: seq<Video>, sortMethod: string): seq<Video>
    requires sortMethod == "popular" ==> AllKeyed(videos)
  {
    if sortMethod == "popular" then SortPopular(videos)
    else if sortMethod == "oldest" then Reverse(videos)
    else videos
  }

  /** Every sort method returns a permutation of its input; the "popular"
      method orders by non-increasing key and keeps ties in input order. */
  lemma SortStageSpec(videos: seq<Video>, sortMethod: string)
    requires sortMethod == "popular" ==> AllKeyed(videos)
    ensures multiset(SortStage(videos, sortMethod)) == multiset(videos)
    ensures sortMethod == "popular" ==> ByViewsDescending(SortStage(videos, sortMethod))
    ensures sortMethod == "popular" ==>
      forall k :: Filter(KeyIs(k), SortStage(videos, sortMethod)) == Filter(KeyIs(k), videos)
  {
    if sortMethod == "oldest" {
      ReversePermutes(videos);
    }
    if sortMethod == "popular" {
      forall k
        ensures Filter(KeyIs(k), SortStage(videos, sortMethod)) == Filter(KeyIs(k), videos)
      {
        SortPopularStable(videos, k);
      }
    }
  }

  // ---------------------------------------------------------------------------
  // Stage 3: duration filter
  // ---------------------------------------------------------------------------

  /** `parseInt(duration.split(":")[0])`. */
  function Minutes(duration: string): Option<int> {
    ParseInt(FirstField(duration, ':'))
  }

  /** The duration test for one video; a `NaN` minute count fails every
      comparison, so such a video is in no bucket. */
  predicate KeepForDuration(durationFilter: string, v: Video) {
    var m := Minutes(v.duration);
    if durationFilter == "short" then m.Some? && m.value < 5
    else if durationFilter == "medium" then m.Some? && m.value >= 5 && m.value < 20
    else if durationFilter == "long" then m.Some? && m.value >= 20
    else true
  }

  function DurationKeeps(durationFilter: string): Video -> bool {
    v => KeepForDuration(durationFilter, v)
  }

  function DurationStage(videos: seq<Video>, durationFilter: string): seq<Video> {
    if durationFilter == "all" then videos else Filter(DurationKeeps(durationFilter), videos)
  }

  /** The duration stage keeps, in order, exactly the videos of the bucket. */
  lemma DurationStageSpec(videos: seq<Video>, durationFilter: string, v: Video)
    ensures IsSubsequence(DurationStage(videos, durationFilter), videos)
    ensures multiset(DurationStage(videos, durationFilter))[v]
         == if durationFilter == "all" || KeepForDuration(durationFilter, v) then multiset(videos)[v] else 0
  {
    if durationFilter == "all" {
      SubsequenceOfSelf(videos);
    } else {
      FilterIsSubsequence(DurationKeeps(durationFilter), videos);
      FilterCount(DurationKeeps(durationFilter), videos, v);
    }
  }

  /** A filter value other than the three buckets keeps every video. */
  lemma UnknownDurationKeepsAll(videos: seq<Video>, durationFilter: string)
    requires durationFilter !in {"short", "medium", "long"}
    ensures DurationStage(videos, durationFilter) == videos
  {
    if durationFilter != "all" {
      FilterKeepsAll(DurationKeeps(durationFilter), videos);
    }
  }

  /** Over videos whose durations start with a number, the three buckets split
      the list: each video is in exactly one of them. */
  lemma BucketsPartition(videos: seq<Video>)
    requires forall i :: 0 <= i < |videos| ==> Minutes(videos[i].duration).Some?
    ensures multiset(DurationStage(videos, "short")) + multiset(DurationStage(videos, "medium"))
          + multiset(DurationStage(videos, "long")) == multiset(videos)
  {
    forall v
      ensures (multiset(DurationStage(videos, "short")) + multiset(DurationStage(videos, "medium"))
              + multiset(DurationStage(videos, "long")))[v] == multiset(videos)[v]
    {
      FilterCount(DurationKeeps("short"), videos, v);
      FilterCount(DurationKeeps("medium"), videos, v);
      FilterCount(DurationKeeps("long"), videos, v);
      if v in videos {
        var i :| 0 <= i < |videos| && videos[i] == v;
        assert Minutes(v.duration).Some?;
      }
    }
  }

  // ---------------------------------------------------------------------------
  // The whole page
  // ---------------------------------------------------------------------------

  /** `finalVideos` for the given page state. */
  function ExploreResults(searchTerm: string, activeCategory: string, sortMethod: string,
                          durationFilter: string): seq<Video>
  {
    AllVideosKeyed();
    FilterKeepsKeyed(SearchKeeps(searchTerm, activeCategory), AllVideos);
    DurationStage(SortStage(SearchStage(AllVideos, searchTerm, activeCategory), sortMethod), durationFilter)
  }

  /** What the page shows: catalogue videos that match the search and fall in
      the duration bucket, each as often as in the catalogue, whatever the
      category tab; with no search and no duration filter, the whole catalogue
      in some order. */
  lemma ExploreResultsSpec(searchTerm: string, activeCategory: string, sortMethod: string,
                           durationFilter: string, v: Video)
    ensures multiset(ExploreResults(searchTerm, activeCategory, sortMethod, durationFilter))[v]
         == if MatchesSearch(v, searchTerm) && (durationFilter == "all" || KeepForDuration(durationFilter, v))
            then multiset(AllVideos)[v] else 0
    ensures ExploreResults(searchTerm, activeCategory, sortMethod, durationFilter)
         == ExploreResults(searchTerm, "All", sortMethod, durationFilter)
  {
    AllVideosKeyed();
    var found := SearchStage(AllVideos, searchTerm, activeCategory);
    FilterKeepsKeyed(SearchKeeps(searchTerm, activeCategory), AllVideos);
    SearchStageSpec(AllVideos, searchTerm, activeCategory, v);
    SortStageSpec(found, sortMethod);
    DurationStageSpec(SortStage(found, sortMethod), durationFilter, v);
    CategoryIgnored(AllVideos, searchTerm, activeCategory, "All");
  }
}
