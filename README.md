# Catechize playback core, edge filter and route guards in Dafny

This project models the core of Catechize, a Nuxt site that publishes catechetical podcasts, articles and videos, and proves properties of it. It covers the following parts:

- **Progress store** (`useMediaProgress`).
  - Records are kept per media kind: audio, video and youtube. Each record is keyed by media id.
  - A write is refused when the id is empty, the time is negative or the duration is not positive.
  - Each record carries a `completed` flag for 90 % played.
  - Every change writes the whole partition back to local storage.
- **Player controller** (`useMediaPlayer`).
  - The player state is driven by commands: play, pause, toggle, seek, skip, volume, speed and attach-element.
  - It is also driven by the events of a native media element or of a YouTube widget.
  - A progress watcher, the restore on mount, a single polling timer and the cleanup on unmount complete it.
- **YouTube helpers** (`utils/youtube.ts`).
  - The video-id extractor behaves like its regular expression.
  - The API script loader runs only once.
- **Edge function** (`netlify/edge-functions/security.ts`).
  - Bot and spam filters on the URL.
  - A per-IP fixed-window counter, stored as `count:timestamp` in the key-value store.
  - A 300-second block once an IP passes 60 requests in a window.
- **Route guards** (`middleware/admin.ts`, `middleware/auth.ts`).
  - The admin guard picks the permission of the longest matching route prefix.
  - The global guard is an ordered decision over public pages, the session, the admin role and the subscription.
- **Episode field mapping** (`useEpisode.ts`).
  - camelCase and snake_case conversion between the front end and the `episodes` table.
  - Defaults on create; only defined fields are sent on update.
- **Twitter meta tags** (`useTwitterCard.ts`, `config/twitter.ts`).
- **Notification and toast lists** (`useNotification.ts`, `useToast.ts`).

Each source file is modelled in the form it is written in:

- Code that updates state in place becomes classes whose methods are proved against specification functions: the progress store, the player, the script loader, the key-value store, the fetched episode row, and the notification and toast lists.
- Code that only computes becomes functions and lemmas: the extractor, the guards, the record builders and the meta builders.

Some things become inputs to the model:

- the clock, ISO timestamps and random notification ids;
- whether a promise rejects or a constructor throws;
- the answers of database, session and permission queries.

Times and durations are modelled as `real`.

The modules are:

- `Wrappers`: the shared Option, Result and Attempt types.
- `Text`: prefixes, substrings and ASCII lower-casing.
- `Decimal`: decimal rendering and `parseInt`.
- `MediaProgress`, `MediaPlayer` and `PlayerScenarios`: the progress store, the player, and whole player runs.
- `YouTube`, `EdgeSecurity`, `AdminGuard`, `AuthGuard`, `Episode`, `TwitterConfig`, `TwitterCard`, `Notifications`, `Toasts`: one module per source file.

The model follows what the code does, also where a comment beside it suggests otherwise:

- A seek to any value up to 1 is a fraction of the duration. This includes 0 and negative values, although the comment at `catechize/composables/useMediaPlayer.ts:162` speaks of values between 0 and 1.
- A rejected `play()` is swallowed: no error is stored.
- When the element's volume setter throws, the requested volume is not stored.
- The `canplay` guard is per listener attachment, not per player. The comment at `catechize/composables/useMediaPlayer.ts:308` speaks of handling canplay once, but each call that attaches listeners gets a fresh flag.
- A skip defaults to 10 s.
- The edge filter answers 404 to every path containing `admin` or `login`, so `/admin` and `/auth/login` never reach the site.
- `'iphone repair'` is redundant in the spam list, because `'repair'` already matches it.

## Model

| member | source | states |
|---|---|---|
| MediaProgress.StorageKeysDistinct | catechize/composables/useMediaProgress.ts:13-17 | the three kinds are persisted under three different storage keys |
| MediaProgress.CompletedIffNinetyPercent | catechize/composables/useMediaProgress.ts:70 | for a positive duration, `currentTime / duration >= 0.9` holds exactly when `10 * currentTime >= 9 * duration` |
| MediaProgress.MakeRecord | catechize/composables/useMediaProgress.ts:70-79 | the stored record carries exactly the given id, kind, time, duration and timestamp; it is completed iff 90 % has been played |
| MediaProgress.Delete | catechize/composables/useMediaProgress.ts:91 | deleting a key keeps exactly the records with other ids |
| MediaProgress.Filter | catechize/composables/useMediaProgress.ts:109-116 | the filtered list holds exactly the records with the requested completion flag |
| MediaProgress.IndexOfFirst | catechize/composables/useMediaProgress.ts:85-87 | a lookup finds the first record carrying the id |
| MediaProgress.LookupPut | catechize/composables/useMediaProgress.ts:72 | after writing a record, its key reads back as that record and every other key reads as before |
| MediaProgress.LookupDelete | catechize/composables/useMediaProgress.ts:91 | after deleting a key it is absent and every other key reads as before |
| MediaProgress.PutPreservesWellFormed | catechize/composables/useMediaProgress.ts:72 | writing a well-formed record keeps ids unique and every record of the partition's own kind with a consistent completed flag |
| MediaProgress.DeletePreservesWellFormed | catechize/composables/useMediaProgress.ts:91 | deleting keeps the partition well formed |
| MediaProgress.CompletedInProgressSplit | catechize/composables/useMediaProgress.ts:109-116 | the completed and in-progress lists are disjoint and together hold every record exactly once |
| MediaProgress.ProgressStore.constructor | catechize/composables/useMediaProgress.ts:119 | a new store starts with what local storage holds for each kind |
| MediaProgress.ProgressStore.LoadProgress | catechize/composables/useMediaProgress.ts:29-40 | each kind with a stored key takes the stored partition; the others keep theirs |
| MediaProgress.ProgressStore.SaveProgress | catechize/composables/useMediaProgress.ts:43-52 | the persisted value of the kind's key becomes the in-memory partition; no other key changes |
| MediaProgress.ProgressStore.UpdateProgress | catechize/composables/useMediaProgress.ts:55-82 | a refused write changes nothing, in memory or in storage; an accepted one makes `getProgress` return the new record, leaves every other id and kind alone, and persists the partition |
| MediaProgress.ProgressStore.GetProgress | catechize/composables/useMediaProgress.ts:85-87 | a found record is in the kind's partition and carries the id; nothing is found iff no record of that partition carries the id |
| MediaProgress.ProgressStore.ClearProgress | catechize/composables/useMediaProgress.ts:90-93 | the id becomes absent, every other id and kind is unchanged, and the partition is persisted |
| MediaProgress.ProgressStore.ClearTypeProgress | catechize/composables/useMediaProgress.ts:96-99 | exactly one partition is emptied, in memory and in storage |
| MediaProgress.ProgressStore.ClearAllProgress | catechize/composables/useMediaProgress.ts:102-106 | the storage map becomes the old one with exactly the three kinds' keys set to empty partitions, so keys of other applications are untouched; all three in-memory partitions are empty |
| MediaProgress.ProgressStore.GetCompletedMedia | catechize/composables/useMediaProgress.ts:109-111 | a record is listed iff it is in the kind's partition and completed |
| MediaProgress.ProgressStore.GetInProgressMedia | catechize/composables/useMediaProgress.ts:114-116 | a record is listed iff it is in the kind's partition and not completed |
| MediaProgress.PartitionIsolation | catechize/composables/useMediaProgress.ts:22-26 | the same id under audio and video holds two independent records |
| MediaPlayer.FractionWithinDuration | catechize/composables/useMediaPlayer.ts:163 | a fraction in [0, 1] targets a time inside the media |
| MediaPlayer.SkipBackIntoFirstSecond | catechize/composables/useMediaPlayer.ts:235-241 | a skip back ending inside the first second jumps forward, to that fraction of the duration |
| MediaPlayer.SkipBackPastStart | catechize/composables/useMediaPlayer.ts:235-241 | a skip back past the start gives a negative target |
| MediaPlayer.ResyncOnlyWhenApart | catechize/composables/useMediaPlayer.ts:109-112 | play first moves the element iff the state time is positive and more than 0.1 s away |
| MediaPlayer.Player.constructor | catechize/composables/useMediaPlayer.ts:52-61 | the initial state is time 0, duration 0, not playing, loading, volume 1, speed 1, no error, no timer; the progress store is loaded from storage |
| MediaPlayer.Player.WatchStep | catechize/composables/useMediaPlayer.ts:73-85 | after a change of time or duration, with a positive time, the record of the current source is written and persisted; otherwise nothing is written |
| MediaPlayer.Player.Play | catechize/composables/useMediaPlayer.ts:85-121 | on the widget path, the widget gets exactly one `playVideo` call and neither element changes; on the element path, the active element is first moved to the state time when that is positive and more than 0.1 s away, and then it plays unless its promise rejects; the other element, the widget, the element's duration, volume and rate, and the whole player state are untouched |
| MediaPlayer.Player.Pause | catechize/composables/useMediaPlayer.ts:123-140 | on the widget path, the widget gets exactly one `pauseVideo` call and neither element changes; on the element path, the active element is paused at its current time and nothing else changes; the player state is untouched |
| MediaPlayer.Player.TogglePlay | catechize/composables/useMediaPlayer.ts:142-152 | when the state says playing, the outcome of pause (the element keeps its time); otherwise the outcome of play, resync included |
| MediaPlayer.Player.Seek | catechize/composables/useMediaPlayer.ts:154-185 | a target up to 1 is that fraction of the known duration, a larger one is seconds; on the widget path the widget gets exactly `seekTo(target, true)`, neither element changes, the state moves to the target and no progress is written; on the element path only the active element's position moves (the widget and the other element are untouched), the state moves too, and the record for the target is written to the kind's storage key when the store accepts it, with every other id and kind unchanged; with no backend nothing moves; duration, play and load flags, volume, speed, error, timers and references never change |
| MediaPlayer.Player.SeekWidget | catechize/composables/useMediaPlayer.ts:165-167 | the widget path of seek: exactly one `seekTo(target, true)` call, the elements untouched, the state at the target, nothing written |
| MediaPlayer.Player.SeekElement | catechize/composables/useMediaPlayer.ts:168-181 | the element path of seek: the active element and the state move to the target and the record is saved at once; the widget and the other element are untouched |
| MediaPlayer.Player.SkipForward | catechize/composables/useMediaPlayer.ts:227-233 | the post-state of a seek to the current time plus the given seconds (10 by default), including the storage write and the frame of the widget and elements |
| MediaPlayer.Player.SkipBackward | catechize/composables/useMediaPlayer.ts:235-241 | the post-state of a seek to the current time minus the given seconds (10 by default), including the storage write and the frame of the widget and elements |
| MediaPlayer.Player.SetVolume | catechize/composables/useMediaPlayer.ts:187-205 | the widget gets exactly one call with the volume as a percentage and the elements are untouched; otherwise the widget and the inactive element are untouched, and the active element takes the volume when it is in [0, 1] and keeps its position, pause flag, duration and rate; the state stores the volume unclamped unless the element threw |
| MediaPlayer.Player.SetSpeed | catechize/composables/useMediaPlayer.ts:207-225 | the widget gets exactly one `setPlaybackRate` call and the elements are untouched; otherwise the widget and the inactive element are untouched, and the active element takes the rate and keeps its position, pause flag, duration and volume; the state stores the speed as given |
| MediaPlayer.Player.SetMediaElement | catechize/composables/useMediaPlayer.ts:243-340 | null changes nothing; otherwise the element becomes the audio or video element of the source, gets a fresh attachment whose canplay guard is unset, and takes the state's volume and speed, keeping its position, pause flag and duration |
| MediaPlayer.Player.OnLoadedMetadata | catechize/composables/useMediaPlayer.ts:264-273 | a usable duration (known and non-zero) is taken over; loading ends |
| MediaPlayer.Player.OnTimeUpdate | catechize/composables/useMediaPlayer.ts:275-279 | the state time becomes the element's time; when the store accepts the record, that kind's partition and its storage key hold the new record and `getProgress` returns it; otherwise the store and storage are untouched; other ids and kinds never change |
| MediaPlayer.Player.OnDurationChange | catechize/composables/useMediaPlayer.ts:281-289 | a usable duration (known and non-zero) becomes the state duration and the record is written to storage as for a time update; any other leaves the player and the store as they were |
| MediaPlayer.Player.OnPlay | catechize/composables/useMediaPlayer.ts:291-295 | playing, not loading |
| MediaPlayer.Player.OnPause | catechize/composables/useMediaPlayer.ts:297-300 | not playing |
| MediaPlayer.Player.OnWaiting | catechize/composables/useMediaPlayer.ts:302-305 | loading |
| MediaPlayer.Player.OnCanPlay | catechize/composables/useMediaPlayer.ts:307-325 | only the first canplay of an attachment ends loading and moves a positive state time into the element; it writes only the element's current time, so the element keeps its duration, paused flag, volume and rate; later ones change nothing |
| MediaPlayer.Player.OnError | catechize/composables/useMediaPlayer.ts:327-335 | the error `<kind> loading error` is stored and loading ends |
| MediaPlayer.Player.Mount | catechize/composables/useMediaPlayer.ts:344-437 | saved progress is restored into the state; a YouTube source with a container loads the API and gets a fresh widget for the extracted video id, or stores the thrown error and stops loading; an API already loading is left untouched, otherwise exactly one script is injected |
| MediaPlayer.Player.RestoreSaved | catechize/composables/useMediaPlayer.ts:351-355 | saved time and duration replace the state's |
| MediaPlayer.Player.StartWidget | catechize/composables/useMediaPlayer.ts:357-435 | the API is loaded (an existing promise leaves the loader untouched, otherwise one script is injected), then the widget is created with the extracted id, or the thrown error is stored |
| MediaPlayer.Player.OnReady | catechize/composables/useMediaPlayer.ts:371-380 | loading ends, the widget's duration is taken, and saved progress is sought to by one recorded widget call; the widget's own time and duration are not changed |
| MediaPlayer.Player.OnStateChange | catechize/composables/useMediaPlayer.ts:381-423 | PLAYING starts a poll only if none runs, and only then is a new timer id used; PAUSED and ENDED stop playing and clear it; BUFFERING sets loading; other codes change nothing; at most one timer is ever live |
| MediaPlayer.Player.ClearPoll | catechize/composables/useMediaPlayer.ts:404-407 | the interval is cleared and no timer stays live; every other field of the player is unchanged |
| MediaPlayer.Player.OnWidgetError | catechize/composables/useMediaPlayer.ts:424-428 | the YouTube error is stored and loading ends; the watched pair and everything else are unchanged, so no progress write follows |
| MediaPlayer.Player.PollTick | catechize/composables/useMediaPlayer.ts:392-397 | with a widget, the state time becomes the widget's time and the record is written to storage as for a time update, other ids and kinds unchanged; volume, speed, error, elements, widget, attachments and timers never change |
| MediaPlayer.Player.Unmount | catechize/composables/useMediaPlayer.ts:440-445 | the polling timer is cleared, leaving no live timer, and every other field of the player is unchanged |
| PlayerScenarios.SeekToHalfRecordsProgress | catechize/composables/useMediaPlayer.ts:154-185 | `seek(0.5)` on a 120 s audio source moves to 60 s and records 60/120, not completed |
| PlayerScenarios.CanPlayRestoresOncePerAttachment | catechize/composables/useMediaPlayer.ts:307-325 | the restore-seek happens once per attachment and again after re-attaching |
| PlayerScenarios.MountSavedAudio | catechize/composables/useMediaPlayer.ts:351-355 | mounting over storage with 30 s saved starts the state at 30 s |
| PlayerScenarios.OnePollAtATime | catechize/composables/useMediaPlayer.ts:385-445 | PLAYING twice leaves one timer; pausing or unmounting leaves none |
| YouTube.PrefixAt | catechize/utils/youtube.ts:29 | a prefix alternative that matches fits inside the URL and has one of the alternatives' lengths |
| YouTube.FindPrefix | catechize/utils/youtube.ts:29 | the backtracking finds the rightmost position with a prefix, or none |
| YouTube.IdRun | catechize/utils/youtube.ts:29 | the id run has no `#`, `&` or `?` and stops at the first one |
| YouTube.GetYouTubeVideoId | catechize/utils/youtube.ts:28-32 | the id never contains `#`, `&` or `?` |
| YouTube.PrefixNeedsSpecial | catechize/utils/youtube.ts:29 | every prefix alternative contains a `/`, `?` or `&` |
| YouTube.RegexMatchDeterminesId | catechize/utils/youtube.ts:29-31 | whenever the regular expression matches with group 2 equal to `r`, the extractor returns `r` |
| YouTube.FindPrefixFindsLast | catechize/utils/youtube.ts:29 | the greedy `.*` settles on the rightmost prefix occurrence of the first line |
| YouTube.IdRunEndsAtDelimiter | catechize/utils/youtube.ts:29 | the `[^#&?]*` group is the run up to the first delimiter |
| YouTube.ExtractorFollowsLastPrefix | catechize/utils/youtube.ts:29-31 | conversely, when a prefix occurs, the extractor's result is group 2 of the match at the rightmost occurrence |
| YouTube.NoPrefixNoId | catechize/utils/youtube.ts:31 | with no prefix on the first line the result is `''` |
| YouTube.IdAfterLastPrefix | catechize/utils/youtube.ts:29 | an id after the last prefix at the end of the URL is what is extracted |
| YouTube.ShortLinkId | catechize/utils/youtube.ts:29 | `…youtu.be/<id>` gives the id, with any character where the unescaped `.` stands |
| YouTube.WatchLinkId | catechize/utils/youtube.ts:29 | `…watch?v=<id>` gives the id |
| YouTube.EmbedLinkId | catechize/utils/youtube.ts:29 | `…embed/<id>` gives the id |
| YouTube.VLinkId | catechize/utils/youtube.ts:29 | `…v/<id>` gives the id |
| YouTube.AmpVLinkId | catechize/utils/youtube.ts:29 | `…&v=<id>` gives the id |
| YouTube.ShortLinkExample | catechize/utils/youtube.ts:28-32 | `https://youtu.be/abc123` gives `abc123` |
| YouTube.WatchLinkExample | catechize/utils/youtube.ts:28-32 | `https://www.youtube.com/watch?v=abc123` gives `abc123` |
| YouTube.EmbedLinkExample | catechize/utils/youtube.ts:28-32 | `https://www.youtube.com/embed/abc123` gives `abc123` |
| YouTube.VLinkExample | catechize/utils/youtube.ts:28-32 | `https://www.youtube.com/v/abc123` gives `abc123` |
| YouTube.ApiLoader.Load | catechize/utils/youtube.ts:3-26 | the first call creates the promise and injects one script; every later call returns the same promise and changes nothing |
| YouTube.ApiLoader.OnIframeApiReady | catechize/utils/youtube.ts:20-22 | the API-ready callback resolves the pending promise |
| YouTube.LoadRepeatedly | catechize/utils/youtube.ts:1-26 | any number of calls share one promise and inject one script |
| EdgeSecurity.KeysDistinct | catechize/netlify/edge-functions/security.ts:53-67 | the counter key and the block key never collide |
| EdgeSecurity.StepStatus | catechize/netlify/edge-functions/security.ts:36-84 | a request is answered 404 iff it is filtered; 429 iff it passes the filters and its IP is blocked or its count in the window would pass 60; otherwise it goes on to the site |
| EdgeSecurity.CounterRoundTrip | catechize/netlify/edge-functions/security.ts:54-75 | reading back the written `count:timestamp` text gives the counter that was written |
| EdgeSecurity.DefaultCounterIsZero | catechize/netlify/edge-functions/security.ts:54-57 | the default `'0:0'` is the zero counter |
| EdgeSecurity.Step | catechize/netlify/edge-functions/security.ts:36-85 | every request leaves all counters readable |
| EdgeSecurity.Admit | catechize/netlify/edge-functions/security.ts:52-84 | a request past the filters, blocked or counted, leaves every stored counter readable |
| EdgeSecurity.Count | catechize/netlify/edge-functions/security.ts:73-84 | the increment and its writes leave every stored counter readable |
| EdgeSecurity.Handle | catechize/netlify/edge-functions/security.ts:36-85 | the handler answers and updates the store as the step function says; a filtered request leaves the store untouched |
| EdgeSecurity.Limit | catechize/netlify/edge-functions/security.ts:52-84 | the rate-limiting part answers and updates the store as the admission function says |
| EdgeSecurity.CountRequest | catechize/netlify/edge-functions/security.ts:73-84 | the increment answers and writes the store exactly as the count function says |
| EdgeSecurity.ReadWindow | catechize/netlify/edge-functions/security.ts:53-64 | the counter is read, with `'0:0'` when missing, and its window restarted when stale, without writing |
| EdgeSecurity.FilteredLeavesStore | catechize/netlify/edge-functions/security.ts:41-50 | a bot or spam URL gets 404 and the store is unchanged |
| EdgeSecurity.MissingCounterStartsWindow | catechize/netlify/edge-functions/security.ts:54-64 | with no counter stored, the window starts at now |
| EdgeSecurity.BlockedIsRefused | catechize/netlify/edge-functions/security.ts:66-71 | a blocked IP gets 429, and its counter is neither raised nor written |
| EdgeSecurity.AdmittedIsCounted | catechize/netlify/edge-functions/security.ts:73-84 | otherwise the counter goes up by one in its window; passing 60 blocks the IP for 300 s and answers 429; no other key changes |
| EdgeSecurity.CountWrites | catechize/netlify/edge-functions/security.ts:74-75 | the counter written reads back as the window's count plus one, in the same window |
| EdgeSecurity.CountBlocks | catechize/netlify/edge-functions/security.ts:78-81 | the answer is 429 exactly when the count passes 60, and then the IP is blocked for 300 s |
| EdgeSecurity.CountLeavesOthers | catechize/netlify/edge-functions/security.ts:73-81 | no key but the IP's counter and block keys changes |
| EdgeSecurity.StepInWindow | catechize/netlify/edge-functions/security.ts:73-81 | the k-th request of a window passes iff k is below 60, and the store advances to k + 1 |
| EdgeSecurity.RunInWindow | catechize/netlify/edge-functions/security.ts:73-81 | a run of requests inside one window gets the responses of the 60-per-window rule |
| EdgeSecurity.FirstStep | catechize/netlify/edge-functions/security.ts:53-84 | the first request from an unknown IP passes and opens a window with count 1 |
| EdgeSecurity.SixtyPerWindow | catechize/netlify/edge-functions/security.ts:4-81 | within one minute of its first request, an IP gets exactly its first 60 requests through, and every later one gets 429 |
| EdgeSecurity.PatternInPath | catechize/netlify/edge-functions/security.ts:42-44 | a lower-case bot pattern occurring in the path makes the request a bot's |
| EdgeSecurity.BotIffPatternOccurs | catechize/netlify/edge-functions/security.ts:8-44 | the bot test holds iff some bot pattern occurs in the lower-cased path and query, letter case ignored on both sides |
| EdgeSecurity.SpamIffKeywordOccurs | catechize/netlify/edge-functions/security.ts:24-50 | the spam test holds iff some spam keyword occurs in the lower-cased URL |
| EdgeSecurity.AdminPathsNotFound | catechize/netlify/edge-functions/security.ts:18-44 | every path under `/admin` is answered 404 at the edge |
| EdgeSecurity.LoginPathNotFound | catechize/netlify/edge-functions/security.ts:19-44 | every path under `/auth/login` is answered 404 at the edge |
| EdgeSecurity.IphoneRepairSubsumed | catechize/netlify/edge-functions/security.ts:32-33 | any URL containing `iphone repair` already contains `repair` |
| AdminGuard.Matching | catechize/middleware/admin.ts:22-23 | the filter keeps exactly the routes that prefix the path |
| AdminGuard.Longest | catechize/middleware/admin.ts:24 | the head after the sort is a route of greatest length |
| AdminGuard.RequiredPermission | catechize/middleware/admin.ts:21-24 | a required permission exists only for a path under `/admin`, and it belongs to a route that prefixes the path |
| AdminGuard.Guard | catechize/middleware/admin.ts:1-42 | the guard goes to `/auth/login` iff there is no user; it allows only when a permission is required and the query grants it; every other signed-in outcome goes to `/` |
| AdminGuard.EqualLengthPrefixesAgree | catechize/middleware/admin.ts:22-24 | two routes of equal length prefixing one path are the same, so the choice is deterministic |
| AdminGuard.RequiredIsMostSpecific | catechize/middleware/admin.ts:21-24 | the required permission belongs to the longest route prefixing the path; there is none iff no route prefixes it |
| AdminGuard.SignedOutToLogin | catechize/middleware/admin.ts:7-9 | without a user the guard goes to `/auth/login`, whatever the permission query would answer |
| AdminGuard.AllowIffPermitted | catechize/middleware/admin.ts:26-41 | a signed-in user is let through iff a permission is required and the query grants it; any other outcome, a thrown query included, goes to `/` |
| AdminGuard.UnmappedPathGoesHome | catechize/middleware/admin.ts:26-29 | a path outside `/admin` has no permission and goes to `/` |
| AdminGuard.BareAdminPrefix | catechize/middleware/admin.ts:23 | a path starting with `/admin` but not `/admin/` falls under `/admin` |
| AdminGuard.AdministratorNeedsSystemManage | catechize/middleware/admin.ts:12-24 | `/administrator` needs `system.manage` |
| AdminGuard.UsersNeedUsersView | catechize/middleware/admin.ts:12-24 | everything under `/admin/users` needs `users.view` |
| AuthGuard.PublicPagesSkipQueries | catechize/middleware/auth.ts:14-17 | the three public pages are allowed whatever the queries would say |
| AuthGuard.Guard | catechize/middleware/auth.ts:9-73 | public pages are allowed; `/` is reached only from `/admin` with a role answer lacking the admin role; `/subscription` only for a subscription page whose query says no; `/auth/login` only for a failed, missing or erroneous session or a failing role or subscription query |
| AuthGuard.NoSessionToLogin | catechize/middleware/auth.ts:19-32 | a missing session, a session error or a failing session query goes to `/auth/login` |
| AuthGuard.NonAdminGoesHome | catechize/middleware/auth.ts:35-52 | under `/admin`, a user without the admin role goes to `/` before any subscription check |
| AuthGuard.SubscriptionRule | catechize/middleware/auth.ts:55-72 | a subscription page without an active subscription goes to `/subscription`, with one is allowed, and a failing query goes to `/auth/login` |
| AuthGuard.AllowIff | catechize/middleware/auth.ts:9-73 | a page is allowed iff it is public, or the session is sound, the admin area has the admin role and a subscription page has an active subscription |
| AuthGuard.RedirectTargets | catechize/middleware/auth.ts:9-73 | every redirect goes to `/auth/login`, `/` or `/subscription` |
| Episode.ToCamel | catechize/composables/useEpisode.ts:91-102 | every camelCase field equals its snake_case column |
| Episode.FetchedRow.CamelizeInPlace | catechize/composables/useEpisode.ts:47-57 | after the in-place assignments the object reads as the row under camelCase names |
| Episode.FetchEpisode | catechize/composables/useEpisode.ts:36-61 | a row is converted even when an error follows; an error is thrown, otherwise the (possibly absent) row is returned |
| Episode.FieldAt | catechize/composables/useEpisode.ts:109-119 | the eleven assignments touch only updatable fields |
| Episode.Order | catechize/composables/useEpisode.ts:109-119 | each updatable field has its position in the assignment order |
| Episode.CreateRecord | catechize/composables/useEpisode.ts:67-80 | `is_premium` is never nullish and defaults to false; `status` is never falsy and defaults to `'draft'`; the author is the signed-in user |
| Episode.CreateRecordKeys | catechize/composables/useEpisode.ts:67-80 | the record has exactly the eleven updatable columns and the author |
| Episode.CreateRecordCopies | catechize/composables/useEpisode.ts:67-80 | every updatable field without a default is copied as given |
| Episode.CreateEpisode | catechize/composables/useEpisode.ts:63-103 | with no user it fails before anything is sent; it succeeds only when the insert returns a row |
| Episode.CreateDefaults | catechize/composables/useEpisode.ts:63-103 | a stored insert returns the episode with the defaults and the author filled in, and every other field as given |
| Episode.UpdatesBeforeNext | catechize/composables/useEpisode.ts:109-119 | each conditional assignment adds its field iff the field is not `undefined` |
| Episode.UpdatePayloadShape | catechize/composables/useEpisode.ts:107-119 | the payload has a column iff the field is one of the eleven and not `undefined` (so `null` is sent), with that value; never the id, author or timestamps |
| Episode.BuildUpdates | catechize/composables/useEpisode.ts:107-119 | the assignments build exactly that payload |
| Episode.UpdateEpisode | catechize/composables/useEpisode.ts:105-143 | the update fails exactly when the database answers an error |
| Episode.UpdateReadsBack | catechize/composables/useEpisode.ts:107-142 | renaming back undoes renaming forth: every field sent reads back with the value sent |
| TwitterConfig.PlayerUrl | catechize/config/twitter.ts:43 | the player URL is `/player?episode=` followed by the episode id |
| TwitterConfig.GenerateTwitterCardMeta | catechize/config/twitter.ts:32-48 | card `player`, site `@CatechizeOrg`, title and description copied, the episode's player URL, the fixed dimensions, and an image iff `imageUrl` is truthy, equal to it |
| TwitterConfig.DimensionsSpelled | catechize/config/twitter.ts:10-11 | width and height are written `'435'` and `'251'` |
| TwitterConfig.PlayerIdentifiesEpisode | catechize/config/twitter.ts:43 | equal player tags mean equal episodes |
| TwitterCard.UpdateTwitterCard | catechize/composables/useTwitterCard.ts:13-70 | the literal and the pushes build the list the card specification gives |
| TwitterCard.CardTagsDistinct | catechize/composables/useTwitterCard.ts:15-66 | no tag name appears twice, so there is exactly one `twitter:card` |
| TwitterCard.HeadNamed | catechize/composables/useTwitterCard.ts:15-28 | the literal names title, description and, iff the image is truthy, image |
| TwitterCard.CardSectionNamed | catechize/composables/useTwitterCard.ts:30-66 | the pushes name the card, the player tags iff a player is given, and the stream tags iff its audio is truthy |
| TwitterCard.CardTagsPresence | catechize/composables/useTwitterCard.ts:24-60 | the image tag is present iff the image is truthy; the player tags iff a player is given; the stream tags iff that player's audio is truthy |
| TwitterCard.CardTagsContents | catechize/composables/useTwitterCard.ts:15-66 | the list opens with title then description; each present tag holds its value, with width and height in decimal and the stream type `audio/mpeg` |
| TwitterCard.CardTypeOnce | catechize/composables/useTwitterCard.ts:30-66 | every `twitter:card` tag says `player` when a player is given, `summary_large_image` otherwise |
| Notifications.RemoveFirstAt | catechize/composables/useNotification.ts:33-38 | removal splices out exactly the first entry with the id and keeps the order of the rest |
| Notifications.RemoveFirstAbsent | catechize/composables/useNotification.ts:35 | removing an absent id leaves the list unchanged |
| Notifications.RemoveFirstShrinks | catechize/composables/useNotification.ts:33-38 | exactly one entry goes iff the id is present, and nothing new appears |
| Notifications.RemoveUndoesAdd | catechize/composables/useNotification.ts:14-38 | adding a notification with a fresh id and removing it restores the list |
| Notifications.NotificationCenter.constructor | catechize/composables/useNotification.ts:11 | the shared list starts empty, with no timer pending |
| Notifications.NotificationCenter.Add | catechize/composables/useNotification.ts:14-31 | one entry is appended, with kind `info` and timeout 5000 by default; a removal is scheduled iff the timeout is not 0 |
| Notifications.NotificationCenter.Remove | catechize/composables/useNotification.ts:33-38 | the list loses the first entry with the id, as the removal specification says |
| Notifications.NotificationCenter.FireTimer | catechize/composables/useNotification.ts:26-30 | a fired timer removes its id and is no longer pending |
| Toasts.WithoutIdAppend | catechize/composables/useToast.ts:20-22 | the filter distributes over concatenation, so the kept toasts keep their order |
| Toasts.WithoutIdMembers | catechize/composables/useToast.ts:20-22 | a toast survives iff its id differs; every toast with the id goes |
| Toasts.WithoutIdAbsent | catechize/composables/useToast.ts:20-22 | removing an id no toast carries changes nothing |
| Toasts.EqualIdsRemovedTogether | catechize/composables/useToast.ts:20-22 | two toasts with the same id go in one removal |
| Toasts.ToastStore.constructor | catechize/composables/useToast.ts:9 | the shared list starts empty |
| Toasts.ToastStore.Remove | catechize/composables/useToast.ts:20-22 | the list becomes the filter of the old list |
| Toasts.ToastStore.FireTimer | catechize/composables/useToast.ts:15-17 | a fired timer removes its id and is no longer pending |
| Toasts.ToastInstance.constructor | catechize/composables/useToast.ts:10 | each instance's counter starts at 0 |
| Toasts.ToastInstance.Add | catechize/composables/useToast.ts:12-18 | the toast is appended with the counter's value as id, the counter goes up by one, so one instance issues 0, 1, 2, …, and one removal of that id is scheduled |
| Toasts.ToastInstance.Remove | catechize/composables/useToast.ts:20-22 | an instance removes from the shared list |
| Toasts.TwoInstancesShareIds | catechize/composables/useToast.ts:9-18 | two instances over one list both give their first toast id 0 |
| Decimal.ParseNatRoundTrip | catechize/netlify/edge-functions/security.ts:56-57 | `parseInt` of a written count or timestamp gives the number back |

## Left out

- Local-storage and JSON errors. The stored value of a key is modelled as the partition it holds, so a corrupt or foreign value is not modelled.
- Vue reactivity and promise scheduling. The progress watcher is an explicit `WatchStep` that the caller runs after a change of time or duration. Awaits are taken to resolve in program order.
- Timers. `setInterval` and `setTimeout` become ids in a live set or entries of a pending list. Elapsed time and the 250 ms and 5000 ms periods are not modelled.
- IEEE floating point.
  - Times and durations are reals. NaN is a separate "duration known" flag on the element.
  - Division is replaced by the equivalent `10 * t >= 9 * d`.
- Native media elements and the YouTube widget are reduced to the properties the controller reads and writes:
  - clamping and `playbackRate` errors are not modelled;
  - buffered ranges are not modelled;
  - the widget's own playback is not modelled.
- The `loadstart` listener and all console output, because they only log.
- DOM details of the script loader:
  - the placement of the script tag;
  - the global `onYouTubeIframeAPIReady` callback, which becomes a method.
- The regular expression engine in general. Only the one id pattern is modelled, as a direct scan.
- `MediaPlayer.Player.Play`: the state is not changed, and the resulting `play` event is a separate `OnPlay` call.
- `EdgeSecurity.Step`: assumes every stored counter is a well-formed `count:timestamp`. `parseInt` on malformed text (leading digits, `NaN`) is not modelled, because only this function writes those keys.
- `MediaProgress.ProgressStore.GetProgress`, `MediaProgress.ProgressStore.GetCompletedMedia` and `MediaProgress.ProgressStore.GetInProgressMedia`: a partition is a list of records with distinct ids, kept in insertion order. JavaScript object semantics are not modelled: `Object.values` lists integer-like ids first, in numeric order; ids naming `Object.prototype` members such as `constructor` make the lookup truthy with no record; and an assignment to `__proto__` is not stored.
- Key-value TTLs are modelled as an expiry time compared with the `now` input. Eviction is not modelled.
- `URL` parsing and serialisation. The URL is given as its parts, and `toString()` is their concatenation.
- `fetchEpisodes` and `deleteEpisode` pass a database call through with no logic of their own, so they are not modelled.
- The snake_case columns that stay on returned episodes are not modelled, because the model keeps only the camelCase view.
- The database client and the session, role, permission and subscription queries are inputs, each either returning or throwing.
- Supabase row types beyond the episode columns are not modelled.
- `useHead`: `UpdateTwitterCard` returns the list instead of installing it in the page head.
- The unused `siteUrl` setting and its environment variable.
- `Math.random()` notification ids are an input, so collisions are possible but not studied.
- `toString()` of a non-integer width or height is not modelled; the model uses integers.
- `useState` sharing across components. The shared toast list and the module-level notification list are each one object that every instance refers to.
