# Podcast and ebook libraries: a Dafny model

This project models the logic inside the site's two library pages and its podcast player bar:

- `PodcastPage` shows podcast metadata with storage URLs attached. A search box narrows the list. Each card shows a duration label. A play button selects which podcast the player bar plays.
- `EbookPage` has its own search over four catalogue fields, a reading-time label on each card, and a reader dialog with a fullscreen switch.
- `PodcastPlayer` is the player bar. Its handlers move the audio element's position and volume, keep track of mute, loading and error, and report play and pause to the page. It renders with the `formatTime` label and the volume icon.
- `r2Config` builds bucket URLs for audio files and thumbnails, and supplies the fixed podcast metadata.

Files and modules:

- `optional.dfy`: `Option`, used both for JavaScript's `null` and for parsers.
- `text.dfy`: the JavaScript string operations the pages use (`toLowerCase`, `trim`, `includes`, `padStart`, how numbers print in template strings), plus decimal parsing and splitting for the round-trip lemmas. Printed whole numbers are taken to stay below 2^53, where JavaScript prints them as plain digits.
- `search.dfy`: `Array.prototype.filter` and subsequences.
- `clock.dfy`: the hours/minutes/seconds split that `formatTime` and `formatDuration` share. It is written with `Math.floor` of real quotients and JavaScript's `%`, as in the source.
- `r2_config.dfy`, `podcast_player.dfy`, `podcast_page.dfy`, `ebook_page.dfy`: one module per source file.

Pure code becomes functions with lemmas. Code that changes component state becomes a class with one method per handler. Each page class has one invariant: the list on screen is the search result for the current list and query. That is the state once the search effect has run after each change. The player class has its own invariant:

- times are never negative;
- the saved volume is in `[0, 1]`;
- the element plays at the saved volume, or at 0 while muted.

Times and volumes are exact `real`s. Each formatter has an inverse: parsing the label back gives `floor(t)` for `formatTime`, the whole minutes for `formatDuration`, and the number itself for `formatReadingTime`. Each URL builder has an inverse that recovers the id from the URL.

## Model

| member | source | states |
|---|---|---|
| Text.ToLower | src/pages/PodcastPage.tsx:92 | keeps the length; each character is lower-cased on its own (ASCII letters) |
| Text.ToLowerIdempotent | src/pages/PodcastPage.tsx:92 | lower-casing twice is lower-casing once; no upper-case ASCII letter remains |
| Text.TrimStartSuffix | src/pages/PodcastPage.tsx:87 | trimming the front leaves the suffix from the first non-whitespace character; everything dropped is whitespace |
| Text.TrimEndPrefix | src/pages/PodcastPage.tsx:87 | trimming the back leaves the prefix up to the last non-whitespace character; everything dropped is whitespace |
| Text.ToLowerKeepsBlank | src/pages/PodcastPage.tsx:87-92 | lower-casing never changes whether a query is blank |
| Text.BlankIff | src/pages/PodcastPage.tsx:87 | `query.trim() === ''` holds exactly when every character of the query is ECMAScript whitespace or a line terminator |
| Text.Includes | src/pages/PodcastPage.tsx:92-96 | `s.includes(t)` holds exactly when `t` occurs in `s` at some index |
| Text.NatToString | src/components/PodcastPlayer.tsx:169-171 | a whole number prints as a non-empty run of digits, with no leading zero except for 0 itself |
| Text.NatToStringValue | src/components/PodcastPlayer.tsx:169-171 | the printed digits read back as the number |
| Text.ParseNat | src/components/PodcastPlayer.tsx:169-171 | a numeral parses exactly when it is a non-empty run of digits |
| Text.ParseNatToString | src/pages/PodcastPage.tsx:118 | parsing a printed number gives the number back |
| Text.NatToStringInjective | src/pages/PodcastPage.tsx:118 | distinct numbers print differently |
| Text.IntToString | src/pages/EbookPage.tsx:404 | an integer prints as its magnitude, with a leading minus sign when it is negative |
| Text.ParseIntToString | src/pages/EbookPage.tsx:404 | parsing a printed integer gives it back |
| Text.PadStart | src/components/PodcastPlayer.tsx:169 | `padStart(width, fill)`: the result is `max(len, width)` long, ends with the input, and everything before the input is fill |
| Search.Filter | src/pages/PodcastPage.tsx:90 | `filter` never lengthens the list |
| Search.FilterMembers | src/pages/PodcastPage.tsx:90-97 | `filter` keeps an element exactly when it is in the list and passes the test, as many times as it occurs |
| Search.FilterIsSubsequence | src/pages/PodcastPage.tsx:90 | `filter`'s result is a subsequence of its input: order kept, nothing added |
| Clock.Hours | src/components/PodcastPlayer.tsx:164 | `Math.floor(t / 3600)` is the whole seconds of `t` divided by 3600 |
| Clock.Minutes | src/components/PodcastPlayer.tsx:165 | `Math.floor((t % 3600) / 60)` is the whole seconds mod 3600, divided by 60 |
| Clock.Seconds | src/components/PodcastPlayer.tsx:166 | `Math.floor(t % 60)` is the whole seconds mod 60 |
| Clock.Recombine | src/components/PodcastPlayer.tsx:164-166 | minutes and seconds are below 60, and `h*3600 + m*60 + s == floor(t)` |
| Clock.HoursMinutes | src/pages/PodcastPage.tsx:116-117 | hours and minutes are the quotient and remainder of the whole minutes by 60, and recombine to them |
| Clock.TwoDigitsValue | src/components/PodcastPlayer.tsx:169 | below 100, the padded field is exactly two digits worth `n` |
| R2Config.BuildR2Url | src/utils/r2Config.ts:20-22 | the URL is the bucket address, a slash and the path; the path can be read back from it |
| R2Config.BuildThumbnailUrl | src/utils/r2Config.ts:24-26 | the URL is `<bucket>/thumbnails/` + id + `.jpg` |
| R2Config.BuildAudioUrl | src/utils/r2Config.ts:28-30 | the URL is `<bucket>/podcasts/` + id + `.mp3` |
| R2Config.ThumbnailIdIff | src/utils/r2Config.ts:24-26 | stripping the thumbnail prefix and `.jpg` yields `id` exactly when the URL is `buildThumbnailUrl(id)` |
| R2Config.AudioIdIff | src/utils/r2Config.ts:28-30 | stripping the audio prefix and `.mp3` yields `id` exactly when the URL is `buildAudioUrl(id)` |
| R2Config.BuildThumbnailUrlInjective | src/utils/r2Config.ts:24-26 | distinct ids get distinct thumbnail URLs |
| R2Config.BuildAudioUrlInjective | src/utils/r2Config.ts:28-30 | distinct ids get distinct audio URLs |
| R2Config.AudioAndThumbnailDisjoint | src/utils/r2Config.ts:24-30 | no URL is read both as an audio URL and as a thumbnail URL |
| R2Config.AudioUrlIsNoThumbnailUrl | src/utils/r2Config.ts:24-30 | no audio URL equals any thumbnail URL |
| R2Config.FetchPodcastsFromR2 | src/utils/r2Config.ts:43-75 | the mock metadata is three records with pairwise distinct ids |
| PodcastPlayer.ClampTime | src/components/PodcastPlayer.tsx:157 | `Math.max(0, Math.min(duration, x))` lies in `[0, duration]`; it is `x` inside that range and the nearest end outside |
| PodcastPlayer.ClockLabelFields | src/components/PodcastPlayer.tsx:168-171 | the label splits at `:` into the unpadded hours and two 2-digit fields, or into the unpadded minutes and a 2-digit field while hours are 0 |
| PodcastPlayer.ClockLabelRoundTrip | src/components/PodcastPlayer.tsx:168-171 | reading a label back gives `h*3600 + m*60 + s` |
| PodcastPlayer.FormatTimeRoundTrip | src/components/PodcastPlayer.tsx:163-172 | reading `formatTime(t)` back gives `floor(t)`: only the fraction of a second is lost |
| PodcastPlayer.ClockLabelEnds | src/components/PodcastPlayer.tsx:168-171 | every label ends in `:` and the seconds padded to two digits |
| PodcastPlayer.FormatTimeEnds | src/components/PodcastPlayer.tsx:163-172 | `formatTime(t)` ends in `:SS`, the whole seconds past the minute |
| PodcastPlayer.FormatTimeShape | src/components/PodcastPlayer.tsx:168-171 | `H:MM:SS` has three fields from 3600 seconds on; before that `M:SS` has two |
| PodcastPlayer.VolumeIconFor | src/components/PodcastPlayer.tsx:174-178 | off exactly when muted or at volume 0; down exactly below 0.5 otherwise; up otherwise |
| PodcastPlayer.Player.constructor | src/components/PodcastPlayer.tsx:45-64 | initial state: position and length 0, full volume, not muted, no error; the element at position 0 and volume 1; loading with the podcast's source once the element is attached |
| PodcastPlayer.Player.ChangePodcast | src/components/PodcastPlayer.tsx:57-64 | a new podcast sets loading, clears the error, points the element at its audio URL and locks the controls |
| PodcastPlayer.Player.HandleLoadedMetadata | src/components/PodcastPlayer.tsx:85-90 | the length becomes the element's duration and loading ends |
| PodcastPlayer.Player.HandleTimeUpdate | src/components/PodcastPlayer.tsx:92-96 | the shown position follows the element's position |
| PodcastPlayer.Player.HandleEnded | src/components/PodcastPlayer.tsx:98-101 | playback is reported stopped and the position is 0 |
| PodcastPlayer.Player.HandleError | src/components/PodcastPlayer.tsx:103-107 | the load error is set, loading ends, playback is reported stopped, and the controls are locked |
| PodcastPlayer.Player.HandlePlayRejected | src/components/PodcastPlayer.tsx:72-76 | a rejected `play()` sets the play error and reports playback stopped |
| PodcastPlayer.Player.HandleCanPlay | src/components/PodcastPlayer.tsx:109-111 | loading ends; the controls stay locked exactly when an error is shown |
| PodcastPlayer.Player.HandleWaiting | src/components/PodcastPlayer.tsx:113-115 | loading again, so the controls are locked |
| PodcastPlayer.Player.HandleCanPlayThrough | src/components/PodcastPlayer.tsx:117-119 | loading ends; the controls stay locked exactly when an error is shown |
| PodcastPlayer.Player.HandlePlayPause | src/components/PodcastPlayer.tsx:122-124 | the reported play state flips |
| PodcastPlayer.Player.HandleSeek | src/components/PodcastPlayer.tsx:126-132 | the element and the shown position both move to the slider value |
| PodcastPlayer.Player.HandleVolumeChange | src/components/PodcastPlayer.tsx:134-141 | the saved volume becomes `v`; muted exactly when `v == 0`; the element plays at `v`; the icon is off exactly when `v == 0` |
| PodcastPlayer.Player.HandleMute | src/components/PodcastPlayer.tsx:143-153 | mute flips and the saved volume is unchanged; unmuting restores the element volume to it, muting sets the element volume to 0 |
| PodcastPlayer.Player.HandleSkip | src/components/PodcastPlayer.tsx:155-161 | the position becomes `currentTime + k` clamped to `[0, duration]`, on the element too |
| PodcastPlayer.Player.VolumeSliderValue | src/components/PodcastPlayer.tsx:401 | the volume slider shows 0 while muted and the saved volume otherwise; it reads 0 exactly when the icon is off |
| PodcastPlayer.Player.ControlsDisabled | src/components/PodcastPlayer.tsx:268 | loading locks the transport controls, and so does an error |
| PodcastPlayer.Player.VolumeIcon | src/components/PodcastPlayer.tsx:174-178 | the mute button's icon is off exactly when muted or at volume 0, down exactly when unmuted below half volume |
| PodcastPlayer.SkipBeforeMetadata | src/components/PodcastPlayer.tsx:155-160 | before the metadata arrives the length is still 0, so any skip lands on 0 |
| PodcastPage.WithUrls | src/pages/PodcastPage.tsx:67-71 | one record with URLs attached keeps every metadata field |
| PodcastPage.WithUrlsNamesId | src/pages/PodcastPage.tsx:69-70 | the attached audio URL and thumbnail URL both name the record's own id |
| PodcastPage.TransformPodcasts | src/pages/PodcastPage.tsx:67-71 | the transform maps record by record, so it keeps the length |
| PodcastPage.TransformAttachesUrls | src/pages/PodcastPage.tsx:67-71 | every transformed record keeps its metadata and gets URLs that name its own id |
| PodcastPage.TransformKeepsUrlsApart | src/pages/PodcastPage.tsx:67-71 | records with distinct ids get distinct audio URLs and distinct thumbnail URLs |
| PodcastPage.FetchedUrlsApart | src/pages/PodcastPage.tsx:64-71 | the three fetched podcasts have three different audio URLs and three different thumbnails |
| PodcastPage.Matches | src/pages/PodcastPage.tsx:91-96 | the card test; the empty query occurs in every field, so it matches every podcast |
| PodcastPage.FilterPodcasts | src/pages/PodcastPage.tsx:86-100 | a blank query shows every podcast; the result is never longer than the list |
| PodcastPage.FilterPodcastsKeepsMatches | src/pages/PodcastPage.tsx:90-97 | for any other query, a podcast is shown exactly when its lower-cased title, description or category contains the lower-cased query |
| PodcastPage.FilterPodcastsIsSubsequence | src/pages/PodcastPage.tsx:87-98 | the result is a subsequence of the list |
| PodcastPage.WhitespaceQueryShowsAll | src/pages/PodcastPage.tsx:87-88 | a query made only of whitespace shows every podcast |
| PodcastPage.QueryCaseIgnored | src/pages/PodcastPage.tsx:87-97 | lower-casing the query does not change the result |
| PodcastPage.FilterOne | src/pages/PodcastPage.tsx:90-97 | on one card, a non-blank query keeps it exactly when it matches |
| PodcastPage.UntrimmedQueryMatters | src/pages/PodcastPage.tsx:87-92 | `"ai"` finds a podcast titled `AI` but `" ai"` does not: only the blankness test trims |
| PodcastPage.DurationLabel | src/pages/PodcastPage.tsx:118 | the label always ends in the minutes' unit `m` |
| PodcastPage.DurationLabelFields | src/pages/PodcastPage.tsx:118 | the label splits at spaces into `Nh` and `Nm` from the first hour on, and is `Nm` alone before it |
| PodcastPage.FormatDuration | src/pages/PodcastPage.tsx:115-119 | `formatDuration(s)` always ends in `m` |
| PodcastPage.FormatDurationShape | src/pages/PodcastPage.tsx:115-119 | two fields from 3600 seconds on, one before |
| PodcastPage.DurationLabelRoundTrip | src/pages/PodcastPage.tsx:118 | reading `Hh Mm` or `Mm` back gives `h*60 + m` |
| PodcastPage.FormatDurationRoundTrip | src/pages/PodcastPage.tsx:115-119 | reading `formatDuration(s)` back gives the whole minutes of `s` |
| PodcastPage.FormatDurationDropsSeconds | src/pages/PodcastPage.tsx:115-119 | durations within the same whole minute get the same label |
| PodcastPage.Library.constructor | src/pages/PodcastPage.tsx:49-55 | initial state: empty lists, no selection, not playing, loading, no error |
| PodcastPage.Library.LoadPodcasts | src/pages/PodcastPage.tsx:64-81 | the transformed records become the library; the cards are their search result; the error clears and loading ends |
| PodcastPage.Library.FailLoad | src/pages/PodcastPage.tsx:76-81 | the fetch error is set, loading ends and the library is unchanged |
| PodcastPage.Library.SetSearchQuery | src/pages/PodcastPage.tsx:86-100 | new query; the cards are the search result for it |
| PodcastPage.Library.HandlePlayPause | src/pages/PodcastPage.tsx:102-109 | on the current podcast (same id) playback toggles and the selection stays; otherwise the clicked podcast is selected and plays; the card's pause icon tells which |
| PodcastPage.Library.HandlePlayerStateChange | src/pages/PodcastPage.tsx:111-113 | the play state becomes the reported one and nothing else changes |
| PodcastPage.Library.ShowsPause | src/pages/PodcastPage.tsx:275 | no card shows the pause icon while nothing plays; the current podcast's card shows it exactly while playing |
| PodcastPage.IsCurrent | src/pages/PodcastPage.tsx:103 | nothing is current before a podcast is chosen; the chosen podcast is current |
| PodcastPage.PlayPauseTwice | src/pages/PodcastPage.tsx:102-109 | pressing the current card's button twice restores the selection and the play state, and leaves the lists, query, loading flag and error unchanged |
| EbookPage.Matches | src/pages/EbookPage.tsx:378-382 | the card test over title, author, description and category; the empty query matches every book |
| EbookPage.FilterEbooks | src/pages/EbookPage.tsx:373-386 | a blank query shows every book; the result is never longer than the list |
| EbookPage.FilterEbooksKeepsMatches | src/pages/EbookPage.tsx:377-383 | for any other query, a book is shown exactly when its lower-cased title, author, description or category contains the lower-cased query |
| EbookPage.FilterEbooksIsSubsequence | src/pages/EbookPage.tsx:374-385 | the result is a subsequence of the list |
| EbookPage.WhitespaceQueryShowsAll | src/pages/EbookPage.tsx:374-375 | a query made only of whitespace shows every book |
| EbookPage.ContentNotSearched | src/pages/EbookPage.tsx:377-383 | whether a book is shown does not depend on its content |
| EbookPage.FilterOne | src/pages/EbookPage.tsx:377-383 | on one book, a non-blank query keeps it exactly when it matches |
| EbookPage.ContentOnlyMatchExcluded | src/pages/EbookPage.tsx:377-383 | a query found only in a book's content does not find that book |
| EbookPage.FormatReadingTime | src/pages/EbookPage.tsx:403-405 | the label ends in ` min read` |
| EbookPage.FormatReadingTimeRoundTrip | src/pages/EbookPage.tsx:403-405 | the label is the decimal of `n` then ` min read`: reading it back gives `n` |
| EbookPage.Library.constructor | src/pages/EbookPage.tsx:49-56 | initial state: empty lists, reader closed, not fullscreen, loading, no error |
| EbookPage.Library.LoadEbooks | src/pages/EbookPage.tsx:358-366 | the sample books become the library; the cards are their search result; the error clears and loading ends |
| EbookPage.Library.FailLoad | src/pages/EbookPage.tsx:361-366 | the load error is set, loading ends and the library is unchanged |
| EbookPage.Library.SetSearchQuery | src/pages/EbookPage.tsx:373-386 | new query; the cards are the search result for it |
| EbookPage.Library.HandleOpenReader | src/pages/EbookPage.tsx:388-391 | the book becomes current and the reader opens; nothing else changes |
| EbookPage.Library.HandleCloseReader | src/pages/EbookPage.tsx:393-397 | the reader is closed, there is no current book and fullscreen is off, whatever the state before |
| EbookPage.Library.ToggleFullscreen | src/pages/EbookPage.tsx:399-401 | fullscreen flips and nothing else changes |
| EbookPage.ToggleFullscreenTwice | src/pages/EbookPage.tsx:399-401 | toggling twice restores the whole page state |

## Left out

- The globe page and its component (`src/components/Globe.tsx`, `src/pages/GlobePage.tsx`). They are three.js scene setup, random cloud painting and per-frame rotation, with no logic to state.
- The audio element's I/O (`play()`, `pause()`, `load()`). The model keeps the state these calls and their events produce: the `src` the element is pointed at, its position and volume, and the rejection of the `play()` promise as `HandlePlayRejected`. It does not model what `load()` does to the element's own position.
- `fetchPodcastsFromR2` as a network call and its `try`/`catch` shell. Only the constant data it returns is modelled. The two outcomes of the page's fetch are `LoadPodcasts` and `FailLoad`.
- React scheduling. Each page method leaves the list on screen equal to the search result for the current list and query. That is the state once the search effect has run. The renders in between, where the load handler briefly shows the unfiltered list, are not modelled.
- The `audioRef.current` guard is a constant `mounted` flag fixed by the constructor. Detaching the element is not modelled.
- `formatFileSize` (floating-point `toFixed`) and `formatDate` (locale-dependent `Date` formatting) in both pages.
- Markdown rendering of ebook content, the hard-coded ebook texts, MUI layout and styling, the navigation bar, and the static app shells.
- Text.ToLower: lower-cases ASCII letters only, not all of Unicode as `toLowerCase` does.
- Floating point: times and volumes are exact reals, so `NaN` and infinite durations and rounding are not modelled. Printed whole numbers are assumed to be below 2^53; JavaScript would print numbers from 10^21 on in exponent form.
- PodcastPlayer.FormatTime and PodcastPage.FormatDuration: defined only for times `>= 0`. Audio positions and lengths are never negative.
- EbookPage.FormatReadingTime: takes a whole number of minutes. A fractional `readingTime` would print with a decimal point, but the sample data holds whole numbers.
- PodcastPlayer.Player.HandleSeek and HandleVolumeChange: require the value to lie within the slider's range (`[0, duration]`, `[0, 1]`), since the slider only produces such values.
- The model does not restrict which handlers can fire while the controls are locked. `ControlsDisabled` states when the buttons are locked, and the handlers are modelled for every state.
