/** The dashboard's video grid: a category filter over a constant list and the
    view-count label. */
module Grid {
  import opened Options
  import opened Decimal
  import opened Seqs

  datatype GridVideo = GridVideo(
    id: string,
    title: string,
    views: int,
    date: string,
    duration: string,
    category: string)

  /** The grid's list; the component never replaces it (the thumbnail URLs are
      not modelled). */
  const MockVideos: seq<GridVideo> := [
    GridVideo("1", "Getting Started with React", 1204, "2023-10-15", "10:25", "education"),
    GridVideo("2", "Advanced CSS Techniques", 843, "2023-10-10", "15:42", "education"),
    GridVideo("3", "Gaming Highlights: Fortnite", 5231, "2023-10-05", "8:17", "gaming"),
    GridVideo("4", "Music Production Tutorial", 932, "2023-09-28", "22:15", "music"),
    GridVideo("5", "Weekly Vlog: City Tour", 2104, "2023-09-20", "18:33", "vlogs"),
    GridVideo("6", "Unboxing New Tech Gadgets", 1543, "2023-09-15", "12:55", "vlogs")
  ]

  /** The `category` prop's default. */
  const DefaultCategory := "all"

  function InCategory(category: string): GridVideo -> bool {
    (v: GridVideo) => v.category == category
  }

  /** `filteredVideos`. */
  function FilteredVideos(videos: seq<GridVideo>, category: string): seq<GridVideo> {
    if category == "all" then videos else Filter(InCategory(category), videos)
  }

  /** "all" shows the list as it is; any other category shows, in order, every
      video of that category and nothing else, so a category no video has
      shows the empty list. */
  lemma FilteredVideosSpec(videos: seq<GridVideo>, category: string, v: GridVideo)
    ensures category == "all" ==> FilteredVideos(videos, category) == videos
    ensures IsSubsequence(FilteredVideos(videos, category), videos)
    ensures category != "all" ==>
      multiset(FilteredVideos(videos, category))[v] == if v.category == category then multiset(videos)[v] else 0
    ensures category != "all" && (forall i :: 0 <= i < |videos| ==> videos[i].category != category) ==>
      FilteredVideos(videos, category) == []
  {
    if category == "all" {
      SubsequenceOfSelf(videos);
    } else {
      FilterIsSubsequence(InCategory(category), videos);
      FilterCount(InCategory(category), videos, v);
      if forall i :: 0 <= i < |videos| ==> videos[i].category != category {
        FilterKeepsNone(InCategory(category), videos);
      }
    }
  }

  /** The category test is an exact, case-sensitive comparison: "Gaming"
      shows nothing while "gaming" shows the one gaming video. */
  lemma CategoryNamesAreCaseSensitive()
    ensures FilteredVideos(MockVideos, "Gaming") == []
    ensures FilteredVideos(MockVideos, "gaming") == [MockVideos[2]]
  {
    FilteredVideosSpec(MockVideos, "Gaming", MockVideos[0]);
  }

  /** A grid given no category shows every video, in order. */
  lemma DefaultShowsAll(videos: seq<GridVideo>)
    ensures FilteredVideos(videos, DefaultCategory) == videos
    ensures |FilteredVideos(MockVideos, DefaultCategory)| == 6
  {
    FilteredVideosSpec(videos, DefaultCategory, GridVideo("", "", 0, "", "", ""));
    FilteredVideosSpec(MockVideos, DefaultCategory, GridVideo("", "", 0, "", "", ""));
  }

  // ---------------------------------------------------------------------------
  // `formatViews`
  // ---------------------------------------------------------------------------

  /** `x.toFixed(1)` for a non-negative number given as its count of tenths. */
  function Fixed1(tenths: nat): string {
    NatToString(tenths / 10) + "." + [DigitChar(tenths % 10)]
  }

  /** `views / 1000000` in tenths, rounded half up. */
  function Millions(views: int): nat
    requires views >= 1000000
  {
    (20 * views + 1000000) / 2000000
  }

  /** `views / 1000` in tenths, rounded half up. */
  function Thousands(views: int): nat
    requires views >= 1000
  {
    (20 * views + 1000) / 2000
  }

  function FormatViews(views: int): string {
    if views >= 1000000 then Fixed1(Millions(views)) + "M"
    else if views >= 1000 then Fixed1(Thousands(views)) + "K"
    else IntToString(views)
  }

  lemma IntToStringEndsInDigit(i: int)
    ensures |IntToString(i)| >= 1 && IsDigit(IntToString(i)[|IntToString(i)| - 1])
  {
  }

  /** The label ends in "M" exactly from a million views, in "K" exactly from a
      thousand to below a million, and is the plain number below a thousand. */
  lemma FormatViewsSuffix(views: int)
    ensures var r := FormatViews(views);
      && |r| >= 1
      && (r[|r| - 1] == 'M' <==> views >= 1000000)
      && (r[|r| - 1] == 'K' <==> 1000 <= views < 1000000)
      && (views < 1000 ==> r == IntToString(views) && ParseInt(r) == Some(views))
  {
    if views < 1000 {
      IntToStringEndsInDigit(views);
      ParseIntToString(views);
    }
  }

  /** The number in front of the suffix is the view count in millions or
      thousands rounded to the nearest tenth, halves going up. */
  lemma FormatViewsRounding(views: int)
    requires views >= 1000
    ensures views >= 1000000 ==>
      FormatViews(views) == Fixed1(Millions(views)) + "M"
      && -1000000 <= 20 * views - 2000000 * Millions(views) < 1000000
    ensures views < 1000000 ==>
      FormatViews(views) == Fixed1(Thousands(views)) + "K"
      && -1000 <= 20 * views - 2000 * Thousands(views) < 1000
  {
  }
}
