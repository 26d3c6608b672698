# Video site demo: list views, category table, upload form and player

A Dafny model of the sequential logic of a front-end demo for a video-sharing
site. All data is hard-coded in the components. The model covers five parts:

- **Explore page** (`Explore`). The catalogue list goes through three stages, each a value computed from the page state:
  - a case-insensitive search over title and author;
  - a sort of a copy of that list;
  - a filter on the leading minutes of the duration.
- **Category table** (`Categories`). The dashboard's table of `{id, name, count, icon}` rows supports edit in place, delete, and an add. The add is guarded by the trimmed inputs and gives the new row one more than the largest parsed id, or 1 when no parsed id is positive.
- **Upload form** (`Upload`). It covers:
  - MIME and size checks on the video and thumbnail files;
  - the title taken from the file name;
  - the length limits of the form schema;
  - the submit guard;
  - the simulated upload, whose progress rises in random steps, is clamped to 100, and then reports one id.
- **Dashboard grid** (`Grid`). It filters by category and picks the `M`/`K`/plain view-count label.
- **Video player** (`Player`). It covers the `M:SS` time label, the skip clamped to the video's length, and the play, mute, volume, seek and full-screen state.

Shared helpers model the JavaScript operations these rely on:
- `Seqs`: `filter`, subsequences and reversal.
- `Text`: ASCII `toLowerCase`, `includes`, `trim`, deleting non-digits and `split(...)[0]`.
- `Decimal`: integer `toString` and `parseInt`.
- `Options`: absent values (`null` and `NaN`).

Pure code is modelled as functions with lemmas. Components whose handlers update state are classes. `CategoryManager`, `UploadForm` and `VideoPlayer` each have their state fields, and every handler is a method whose `ensures` gives the whole new state. `CategoryManager` and `UploadForm` also keep a `Valid()` invariant:
- In the category table, ids are numerals and pairwise distinct.
- In the upload form, accepted files pass their checks, progress lies in [0, 100], and the interval and the processing timeout never run together.

The timer, `Math.random` and the file reader are events. They are methods called with the value the browser would supply:
- `Tick(random)` is one interval firing, where `random` is the draw.
- `FinishProcessing(suffix)` is the timeout, where `suffix` is the random id text.
- `PreviewLoaded(dataUrl)` is the file reader's `onload`.

## Findings

| source | as written | input that shows it | evidently intended | confidence | as-written member | corrected member |
|---|---|---|---|---|---|---|
| src/components/dashboard/CategoryManager.tsx:44 | the new id is `Math.max(...ids) + 1`; with no rows `Math.max()` is `-Infinity`, so the id is "-Infinity"; `parseInt("-Infinity")` is `NaN`, so every later id is "NaN" | delete all five categories, then add three: the ids are "-Infinity", "NaN", "NaN" and the last two rows share an id, so edit and delete act on both | ids stay unique: an empty table counts as maximum 0, so the first id is "1" | high (derived from the JavaScript semantics of `Math.max` and `parseInt`; not executed) | `Categories.DuplicateIdsAfterClearing` | `Categories.AppendedSpec` |

`Categories.NextIdAsWritten` is the computation as the page writes it. `Categories.NextId` is the corrected one, and `CategoryManager.AddCategory` uses it. `Categories.NextIdAgrees` proves the two agree on every non-empty table of distinct positive numeric ids. Every table the page can reach without the bug is of that kind, so among reachable tables the correction changes only the empty one.

## Model

| member | source | states |
|---|---|---|
| `Explore.SearchStageSpec` | src/pages/ExplorePage.tsx:164-169 | the search stage is an order-preserving subsequence of its input; it keeps every occurrence of a video whose lowercased title or author includes the lowercased term and drops every other video |
| `Explore.EmptySearchKeepsAll` | src/pages/ExplorePage.tsx:165-166 | an empty search term keeps the whole list |
| `Explore.CategoryIgnored` | src/pages/ExplorePage.tsx:167 | the category tab never filters: the search stage is the same for every active category |
| `Explore.ViewsKeyDefined` | src/pages/ExplorePage.tsx:175 | the popular key exists exactly when the views string holds a digit, and it is the number spelled by the digits left after deleting every non-digit |
| `Explore.SuffixIgnoredInKey` | src/pages/ExplorePage.tsx:175 | "1.2M" keys as 12 and "843K" as 843, so the unit suffix and the decimal point are ignored |
| `Explore.SortPopular` | src/pages/ExplorePage.tsx:172-175 | the popular sort returns a permutation of its input, with keys non-increasing along the result |
| `Explore.SortPopularStable` | src/pages/ExplorePage.tsx:172-175 | the popular sort is stable: videos with equal keys keep their input order |
| `Explore.SortStageSpec` | src/pages/ExplorePage.tsx:172-181 | every sort method returns a permutation of the searched list (a new list; the input is a value and is not changed); "popular" is ordered by non-increasing key and stable |
| `Explore.DurationStageSpec` | src/pages/ExplorePage.tsx:184-192 | the duration stage is an order-preserving subsequence; "all" keeps everything; otherwise it keeps exactly the videos that pass the bucket test on the minutes before the first colon (short m<5, medium 5≤m<20, long m≥20, no bucket when the minutes are NaN) |
| `Explore.UnknownDurationKeepsAll` | src/pages/ExplorePage.tsx:184-191 | a duration filter other than the three buckets returns the sorted list unchanged |
| `Explore.BucketsPartition` | src/pages/ExplorePage.tsx:187-190 | on videos whose durations start with a number, the short, medium and long results together hold each video exactly as often as the list |
| `Explore.ExploreResultsSpec` | src/pages/ExplorePage.tsx:164-192 | the page shows each catalogue video as often as the catalogue holds it if it matches the search and the duration bucket, and not at all otherwise, whatever the category tab |
| `Categories.SavedEdit` | src/components/dashboard/CategoryManager.tsx:27-29 | the edited list has the same length and keeps every id and count; rows with the id get the edit name and icon; other rows are unchanged |
| `Categories.CategoryManager.SaveEdit` | src/components/dashboard/CategoryManager.tsx:26-31 | save writes the edit value into the rows with the id, leaves edit mode, keeps the id invariant and changes nothing else |
| `Categories.CategoryManager.Edit` | src/components/dashboard/CategoryManager.tsx:21-24 | edit records the id and copies name and icon into the edit value; the list and the add inputs are unchanged |
| `Categories.CategoryManager.CancelEdit` | src/components/dashboard/CategoryManager.tsx:33-35 | cancel clears the editing id and nothing else |
| `Categories.DeleteSpec` | src/components/dashboard/CategoryManager.tsx:37-40 | delete keeps the other rows in order, removes every row with the id, and leaves the list unchanged when no row has the id |
| `Categories.CategoryManager.Delete` | src/components/dashboard/CategoryManager.tsx:37-40 | delete replaces the list by its rows without the id and keeps the id invariant |
| `Categories.DeleteKeepsIds` | src/components/dashboard/CategoryManager.tsx:39 | deleting keeps ids numeric and distinct |
| `Categories.InitialIdsUnique` | src/components/dashboard/CategoryManager.tsx:9-15 | the initial rows have distinct positive numeric ids |
| `Categories.CategoryManager.constructor` | src/components/dashboard/CategoryManager.tsx:9-19 | the table starts with the five mock rows, no row in edit, and empty edit and add inputs |
| `Categories.MathMax` | src/components/dashboard/CategoryManager.tsx:44 | `Math.max` of no values is `-Infinity`, and it is `NaN` exactly when some value is `NaN` |
| `Categories.NextIdFresh` | src/components/dashboard/CategoryManager.tsx:44 | the new id parses to one more than the largest parsed id, or to 1 if no parsed id is positive, and differs from every id in the table |
| `Categories.NextIdAgrees` | src/components/dashboard/CategoryManager.tsx:44 | on a non-empty table of distinct positive numeric ids, the id as the page computes it equals the corrected id |
| `Categories.DuplicateIdsAfterClearing` | src/components/dashboard/CategoryManager.tsx:44 | as written, three adds to an empty table give the ids "-Infinity", "NaN", "NaN" |
| `Categories.AppendedSpec` | src/components/dashboard/CategoryManager.tsx:44-45 | a successful add appends one row after the unchanged old rows; the row has a fresh id, count 0 and the untrimmed name and icon, and ids stay unique |
| `Text.TrimNonEmpty` | src/components/dashboard/CategoryManager.tsx:43 | `trim()` is non-empty exactly when the string has a character outside the ECMAScript white space and line terminators |
| `Categories.CategoryManager.AddCategory` | src/components/dashboard/CategoryManager.tsx:42-48 | with both trimmed inputs non-empty, the row is appended and the inputs are reset to empty; otherwise the list and the inputs are unchanged |
| `Categories.CategoryManager.SetNewName` | src/components/dashboard/CategoryManager.tsx:58 | typing a new name replaces only the name of the add inputs |
| `Categories.CategoryManager.SetNewIcon` | src/components/dashboard/CategoryManager.tsx:64 | typing a new icon replaces only the icon of the add inputs |
| `Categories.CategoryManager.SetEditIcon` | src/components/dashboard/CategoryManager.tsx:88 | typing in the edit icon input replaces only the icon of the edit value |
| `Categories.CategoryManager.SetEditName` | src/components/dashboard/CategoryManager.tsx:100 | typing in the edit name input replaces only the name of the edit value |
| `Upload.FieldErrors` | src/components/VideoUploadForm.tsx:17-21 | the schema reports no message exactly when the title has 3 to 100 characters and the description at most 500; each message appears exactly when its limit is broken |
| `Upload.VideoError` | src/components/VideoUploadForm.tsx:55-63 | a video is accepted exactly when its MIME type contains "video/" and its size is at most 500 MiB; the type message is set exactly when the type check fails |
| `Upload.VideoChecksAtTheEdges` | src/components/VideoUploadForm.tsx:55-63 | a type that only contains "video/" is accepted, a size of exactly 500 MiB is accepted, and one byte more is rejected |
| `Upload.ThumbnailError` | src/components/VideoUploadForm.tsx:80-88 | a thumbnail is accepted exactly when its MIME type contains "image/" and its size is at most 5 MiB; the type message is set exactly when the type check fails |
| `Upload.StripExtensionSpec` | src/components/VideoUploadForm.tsx:70 | the title is a prefix of the file name; what is removed is a dot followed by one or more characters that are neither dot nor slash; nothing is removed when no suffix has that form |
| `Upload.StripExtensionOfJoined` | src/components/VideoUploadForm.tsx:70 | removing the extension from a base name followed by an extension gives the base name back |
| `Upload.StripExtensionExamples` | src/components/VideoUploadForm.tsx:70 | "clip.mp4" gives "clip", "archive.tar.gz" gives "archive.tar", and "clip" and "clip." are unchanged |
| `Upload.UploadForm.constructor` | src/components/VideoUploadForm.tsx:32-48 | the form starts with no files, no preview, no error, progress 0, empty fields and no upload running |
| `Upload.UploadForm.SelectVideo` | src/components/VideoUploadForm.tsx:50-73 | no file changes nothing; a rejected file sets its message and keeps the video and title; an accepted file is stored, clears the error and sets the title from the file name only when the title is empty |
| `Upload.UploadForm.SelectThumbnail` | src/components/VideoUploadForm.tsx:75-100 | no file changes nothing; a rejected file sets its message and keeps the thumbnail; an accepted file is stored and clears the error |
| `Upload.UploadForm.PreviewLoaded` | src/components/VideoUploadForm.tsx:93-97 | the file reader's result becomes the preview |
| `Upload.UploadForm.RemoveVideo` | src/components/VideoUploadForm.tsx:102-107 | removing the video clears it |
| `Upload.UploadForm.RemoveThumbnail` | src/components/VideoUploadForm.tsx:109-115 | removing the thumbnail clears it and its preview |
| `Upload.UploadForm.SetFields` | src/components/VideoUploadForm.tsx:263-312 | the title, description and tags inputs set their fields |
| `Upload.UploadForm.Submit` | src/components/VideoUploadForm.tsx:141-158 | an invalid schema changes nothing; with no video the error is "Please select a video to upload" and no upload starts; otherwise the error is cleared, uploading is set, and progress restarts at 0 with the interval running |
| `Upload.NextProgress` | src/components/VideoUploadForm.tsx:123-136 | one tick adds ten times the random draw to the progress; it stops the interval, with progress set to 100, exactly when that sum reaches or passes 100; from below 100 it never lowers progress and never passes 100 |
| `Upload.ProgressionSpec` | src/components/VideoUploadForm.tsx:117-138 | from a progress below 100, each value is the one before it plus ten times its draw, and it is 100 exactly when that sum reaches or passes 100; the values never decrease and stay within [start, 100]; only the last can be 100; the ticks stop before the draws run out only by reaching 100 |
| `Upload.UploadForm.Tick` | src/components/VideoUploadForm.tsx:122-137 | a tick while the interval runs applies one step, and on reaching 100 it stops the interval and starts the processing timeout; otherwise it changes nothing |
| `Upload.UploadForm.RunInterval` | src/components/VideoUploadForm.tsx:117-138 | running the interval over a sequence of draws ends at the last value of the progression, or leaves progress unchanged when there are no ticks; the processing timeout is pending exactly when that value is 100 |
| `Upload.UploadForm.FinishProcessing` | src/components/VideoUploadForm.tsx:128-133 | when the timeout is pending, uploading ends and exactly one id starting with "vid-" is reported; otherwise nothing happens, so completion fires once per upload |
| `Grid.FilteredVideosSpec` | src/components/dashboard/VideoGrid.tsx:79-81 | "all" returns the list unchanged; another category returns, in order, every video whose category equals it and nothing else; a category no video has gives the empty list |
| `Grid.CategoryNamesAreCaseSensitive` | src/components/dashboard/VideoGrid.tsx:79-81 | on the mock list "Gaming" shows nothing and "gaming" shows one video |
| `Grid.DefaultShowsAll` | src/components/dashboard/VideoGrid.tsx:79-81 | a grid given no category prop (its default is "all", line 17) shows every video in order; on the mock list that is all six |
| `Grid.FormatViewsSuffix` | src/components/dashboard/VideoGrid.tsx:83-90 | the label ends in "M" exactly from a million views, and in "K" exactly from a thousand up to a million; below a thousand it is the plain decimal number, which parses back to the count |
| `Grid.FormatViewsRounding` | src/components/dashboard/VideoGrid.tsx:84-87 | the number before the suffix is the count in millions or thousands, rounded to the nearest tenth with halves going up |
| `Player.FormatTimeFields` | src/components/VideoPlayer.tsx:169-173 | for a non-negative time the seconds lie in 0..59, the minutes are non-negative, and minutes × 60 + seconds is the whole seconds of the time |
| `Player.SecondsFieldParses` | src/components/VideoPlayer.tsx:172 | the seconds field of a non-negative time has exactly two digits and parses back to the seconds |
| `Player.FormatTimeRoundTrip` | src/components/VideoPlayer.tsx:169-173 | reading the `M:SS` label of a non-negative time back gives its whole seconds |
| `Player.SkipTarget` | src/components/VideoPlayer.tsx:180 | the target lies in [0, duration]; it is the current time plus the amount when that is in range, 0 below, and the duration above |
| `Player.VideoPlayer.Skip` | src/components/VideoPlayer.tsx:176-181 | with an element, its time becomes the clamped target; without one nothing changes |
| `Player.SkipButtons` | src/components/VideoPlayer.tsx:258-267 | from a time within the video, the back button (`skip(-10)`) lands ten seconds earlier or at 0, the forward button (`skip(10)`) ten seconds later or at the end, and away from the end forward then back returns to the same time |
| `Player.VideoPlayer.TogglePlay` | src/components/VideoPlayer.tsx:105-115 | with an element, the playing flag flips and the element is paused exactly when it was playing; without one nothing changes |
| `Player.VideoPlayer.Ended` | src/components/VideoPlayer.tsx:69-72 | the end of the video clears the playing flag and calls `onEnded` once when it was given |
| `Player.VideoPlayer.VolumeChange` | src/components/VideoPlayer.tsx:118-125 | the new volume is always stored; with an element it is written to it and the player is muted exactly when the volume is 0 |
| `Player.VideoPlayer.ToggleMute` | src/components/VideoPlayer.tsx:128-139 | with an element, the muted flag flips and so does the element's `muted`; unmuting writes the stored volume back; without an element nothing changes |
| `Player.VideoPlayer.Seek` | src/components/VideoPlayer.tsx:142-149 | progress becomes the slider value and the time becomes value/100 × duration, in the state and on the element |
| `Player.VideoPlayer.ToggleFullScreen` | src/components/VideoPlayer.tsx:152-166 | the full-screen flag flips when the player container is found, and otherwise stays |
| `Player.VideoPlayer.LoadedMetadata` | src/components/VideoPlayer.tsx:49-51 | on loaded metadata the duration is taken from the element |
| `Player.VideoPlayer.constructor` | src/components/VideoPlayer.tsx:33-40 | the player starts paused at time 0 with progress 0, duration 0, volume 0.7, unmuted and not full screen |

## Left out

- The sort for "recent" and "oldest" (src/pages/ExplorePage.tsx:176-179) uses a comparator that returns a constant. ECMAScript leaves the resulting order implementation-defined. The model uses V8's outcome: "recent" gives the list unchanged and "oldest" gives it reversed. Only the permutation property is claimed for these modes.
- The popular sort needs every view string to hold a digit. `parseInt` of a digit-free string is `NaN`, and a `NaN` comparison makes the comparator inconsistent. Every catalogue entry has digits (`Explore.AllVideosKeyed`).
- `parseInt` is modelled as an optional sign followed by decimal digits. Leading white space, the `0x` prefix and the loss of precision on very long digit strings are not modelled.
- `toLowerCase` is modelled for ASCII letters only, and string lengths count code points, not UTF-16 units.
- Grid.FormatViewsRounding: the number is rounded from the exact quotient. `toFixed(1)` rounds the nearest double, which can differ at exact halves such as 1,150,000 views.
- Volume, time and progress are reals. `NaN` durations before the metadata loads, and the label "NaN:NaN", are not modelled.
- The `timeupdate` listener (src/components/VideoPlayer.tsx:64-67) is not modelled. It divides by the element's own `video.duration`, which is `NaN` before the metadata loads.
- The controls auto-hide timer, the fullscreen API calls, and the promise returned by `play()` are not modelled.
- The browser's clamping of an assigned `currentTime` is not modelled. `Seek` writes value/100 × duration as given.
- Upload.UploadForm.Submit requires that no upload is running. The page disables the submit button and the title and tags inputs while uploading. The handler itself has no guard, and a second submit would start a second interval.
- The thumbnail and avatar URLs of the mock records are not modelled.
- Console logging is not modelled: the grid's edit and delete handlers only log, and `onSubmit` logs too. Navigation (`handleView`, the success redirect) and toasts are not modelled either.
- The upload service client (`src/utils/uploadService.ts`) is not part of this model. It is a network client.
- The files of the landing, profile, sign-in, settings and detail pages, and the other presentational components, are not part of this model. They have no logic beyond form bindings, timers and display.
