# Streaming app admin back end and player front end, modelled in Dafny

This project models the parts of a Spotify-style streaming application whose
behaviour can be stated exactly:

- **Admin catalog** (`catalog.dfy`, module `Catalog`). The request checks of
  `createSong` and `createAlbum` come first, each with its own message. The
  Cloudinary `public_id` is built from an upload's file name. A `Catalog`
  class keeps the song and album collections as two maps. Its methods
  `CreateSong`, `DeleteSong`, `CreateAlbum` and `DeleteAlbum` change those maps
  the way the controller's `save`, `$push`, `$pull`, `deleteMany` and
  `findByIdAndDelete` calls do. The main invariant is `Linked`: every id in an
  album's `songs` names an existing song whose `albumId` is that album, and no
  album lists a song twice. Every method keeps it, each method being taken as
  one atomic step (see "Left out").
- **Access control** (`auth.dfy`, module `Auth`; `admin_routes.dfy`, module
  `AdminRoutes`). `protectRoute` decides 401 or pass. `requireAdmin` decides
  pass, 403 or `next(error)`. The admin router runs both before its route
  table. Matching follows Express defaults: letter case is ignored, one
  trailing slash is allowed, and HEAD is served by GET routes. A route whose
  path matches has its `:id` parameter percent-decoded before its method is
  looked at, and a segment that does not decode ends routing with a 400 error.
- **Responsive hook and page frame** (`responsive.dfy`, `main_layout.dfy`). The
  breakpoint table and the flags derived from the window width, the window-size
  state that resize events replace, and the panel sizes the layout picks from
  those flags.
- **Album page** (`album_page.dfy`). `formatDuration`, with a reader for `M:SS`
  text that is proved to be its inverse in both directions. The two play
  handlers, the pause-icon and track-marker rules, and the release-date column.
- **Home page queue** (`home_queue.dfy`). The guarded concatenation handed to
  `initializeQueue`.
- **Message box** (`message_input.dfy`). A `MessageBox` class holds the
  `newMessage` draft. The methods are `Change`, `Send` and `KeyDown`, plus the
  disabled-button and counter rules.
- Two helper modules capture the ECMAScript behaviour the code relies on.
  `js_string.dfy` covers `trim`, `padStart`, `split(sep)[0]` and ASCII case
  folding. `js_number.dfy` covers `Number#toString` on whole numbers below 10^21 and the
  `Number(string)` conversion behind `isNaN` and `Number(...)`.
  `optional.dfy` holds the `Option` type.

The document database is two in-memory maps plus a counter that hands out
fresh ids. Four things are parameters: the media CDN upload (a function that
may fail), the identity provider's user lookup (a function that may fail),
`decodeURIComponent` on a path segment holding `%` (a function that may fail),
and the clock (`Date.now()` and the current year). A segment without `%`
decodes to itself.

## Model

| member | source | states |
|---|---|---|
| `Catalog.SongRequestError` | backend/src/controller/admin.controller.js:117-135 | The song request passes exactly when files, title, artist and duration all pass. A refusal carries one of the four song messages. |
| `Catalog.SongChecksInOrder` | backend/src/controller/admin.controller.js:117-135 | The song checks run in the order files, title, artist, duration. The first failure fixes the message. |
| `Catalog.AlbumRequestError` | backend/src/controller/admin.controller.js:197-216 | The album request passes exactly when image, title, artist and release year all pass. A refusal carries one of the four album messages. |
| `Catalog.AlbumChecksInOrder` | backend/src/controller/admin.controller.js:197-216 | The album checks run in the order image, title, artist, release year. The first failure fixes the message. |
| `Catalog.PresentIffNotBlank` | backend/src/controller/admin.controller.js:127-132 | A title or artist passes exactly when it is present and holds a non-whitespace character. |
| `Catalog.BlankDurationRejected` | backend/src/controller/admin.controller.js:133-135 | A blank duration is rejected, because `Number` of a blank string is 0. |
| `Catalog.DurationOfNumeral` | backend/src/controller/admin.controller.js:133-135 | A duration written as a whole number is accepted exactly when it is positive. |
| `Catalog.ReleaseYearOfNumeral` | backend/src/controller/admin.controller.js:214-216 | A year written as a whole number is accepted exactly when 1900 <= year <= the current year, which is a parameter. |
| `Catalog.SanitiseName` | backend/src/controller/admin.controller.js:51 | The output has the input's length. An ASCII letter or digit stays in place; every other character becomes `_`. |
| `Catalog.SanitisedCharset` | backend/src/controller/admin.controller.js:51 | Every character of the sanitised name is an ASCII letter, a digit or `_`. |
| `Catalog.SanitiseIdempotent` | backend/src/controller/admin.controller.js:51 | Sanitising twice gives the same result as sanitising once. |
| `Catalog.PublicId` | backend/src/controller/admin.controller.js:51 | The `public_id` is made only of ASCII letters, digits and `_`. Its part before the first `_` is the decimal clock reading. After that `_` comes the sanitised file name, or `undefined` when the file has no name. |
| `Catalog.PushSong` | backend/src/controller/admin.controller.js:154-158 | `$push` appends the song id to the end of the named album's list. It keeps the set of albums and changes no other album. |
| `Catalog.RemoveAll` | backend/src/controller/admin.controller.js:174-176 | `$pull` keeps exactly the elements that differ from the pulled id, each as many times as before (multiset equality), and leaves a list without that id unchanged. |
| `Catalog.RemoveAllAppend` | backend/src/controller/admin.controller.js:174-176 | Pulling from a concatenation pulls from each part, so the kept ids stay in their original order. |
| `Catalog.RemoveAllDistinct` | backend/src/controller/admin.controller.js:174-176 | Pulling an id from a list without repeats leaves a list without repeats. |
| `Catalog.PullSong` | backend/src/controller/admin.controller.js:173-177 | `$pull` removes the song id from the named album, which then no longer lists it. It changes no other album. |
| `Catalog.PullKeepsAlbums` | backend/src/controller/admin.controller.js:173-177 | Pulling keeps every album's list free of repeats, removes the id from the named album, adds no id anywhere, and leaves other albums alone. |
| `Catalog.DropAlbumSongs` | backend/src/controller/admin.controller.js:239 | `deleteMany({albumId})` keeps exactly the songs of other albums or of none, and leaves their records unchanged. |
| `Catalog.LinkedAfterCreateSong` | backend/src/controller/admin.controller.js:142-158 | Saving a song under a fresh id, and pushing it onto the album it names, preserves the cross-reference invariant. |
| `Catalog.LinkedAfterDeleteSong` | backend/src/controller/admin.controller.js:170-179 | Pulling a song from its album and then deleting it preserves the invariant. Afterwards no album lists the song. |
| `Catalog.LinkedAfterDeleteAlbum` | backend/src/controller/admin.controller.js:239-240 | Deleting an album together with all its songs preserves the invariant. |
| `Catalog.LinkedAfterCreateAlbum` | backend/src/controller/admin.controller.js:220-227 | Adding an album with no songs under a fresh id preserves the invariant. |
| `Catalog.Catalog.CreateSong` | backend/src/controller/admin.controller.js:117-159 | A failed check answers 400 with its message; nothing is uploaded and nothing changes. Otherwise the audio file is uploaded, then the image, and a failed upload saves nothing. On success the untrimmed title and artist are stored under a fresh id, with albumId null when none is given. The id goes to the end of that album's list only. |
| `Catalog.Catalog.DeleteSong` | backend/src/controller/admin.controller.js:166-186 | An unknown id goes to `next(error)` and changes nothing. Otherwise the song is pulled from its album and deleted, and no album lists it afterwards. |
| `Catalog.Catalog.CreateAlbum` | backend/src/controller/admin.controller.js:197-229 | A failed check answers 400 with its message, with no upload and no change. Otherwise the image is uploaded, and on success the album is saved with an empty song list and no song changes. |
| `Catalog.Catalog.DeleteAlbum` | backend/src/controller/admin.controller.js:236-246 | Removes the album and every song whose albumId is that album. Other albums and their songs are unchanged. Always answers 200. |
| `Catalog.CheckAdmin` | backend/src/controller/admin.controller.js:248-250 | Always answers 200 with `{admin: true}`. The router calls it only after `requireAdmin` has passed. |
| `Auth.ProtectRoute` | backend/src/middleware/auth.middleware.js:16-21 | Answers 401 exactly when the user id is missing or empty, and passes otherwise. |
| `Auth.RequireAdmin` | backend/src/middleware/auth.middleware.js:24-51 | Exactly one outcome per request: pass when the lookup succeeds and the emails are equal, 403 when they differ, `next(error)` when the lookup fails. |
| `Auth.AdminEmailIsExact` | backend/src/middleware/auth.middleware.js:32-33 | Two configured emails match only if they are identical strings, letter case included. |
| `Auth.NoEmailAdmittedOnlyWhenUnset` | backend/src/middleware/auth.middleware.js:32-33 | A user without a primary email is admitted exactly when `ADMIN_EMAIL` is unset. |
| `AdminRoutes.RouteTableShape` | backend/src/routes/admin.route.js:11-19 | The table has seven routes with distinct (method, path) pairs, all GET, POST or DELETE. |
| `AdminRoutes.UnauthenticatedGets401` | backend/src/routes/admin.route.js:9 | A request without a user id gets 401 on every path and method, and no handler runs. |
| `AdminRoutes.NonAdminGets403` | backend/src/routes/admin.route.js:9 | A signed-in user who is not the admin gets 403 on every path and method, and no handler runs. |
| `AdminRoutes.LookupFailureFails` | backend/src/routes/admin.route.js:9 | A failed user lookup ends in `next(error)` on every path. |
| `AdminRoutes.Handle` | backend/src/routes/admin.route.js:9-19 | A handler runs, the 400 decoding error is raised, or no route is found exactly for admitted requests. Every other request is answered 401 or 403, or ends in `next(error)`. |
| `AdminRoutes.MatchPattern` | backend/src/routes/admin.route.js:11-19 | A matching path binds exactly one raw value per parameter name of the pattern. |
| `AdminRoutes.FindRoute` | backend/src/routes/admin.route.js:11-19 | A found handler belongs to a route whose method serves the request and whose path matches, and its parameters are that route's decoded ones. A decoding failure comes from a route whose path matches. When nothing is found, no route of a serving method matches the path. |
| `AdminRoutes.ParamsAreSegments` | backend/src/routes/admin.route.js:15-19 | Every raw `:id` value bound, before percent-decoding, is one non-empty path segment. |
| `AdminRoutes.CheckRouteAnswersAdmin` | backend/src/routes/admin.route.js:11 | An admitted `GET /check` reaches `checkAdmin`, which answers 200 `{admin: true}`. |
| `AdminRoutes.DeleteSongRouteBindsId` | backend/src/routes/admin.route.js:15 | An admitted `DELETE /songs/<id>` reaches `deleteSong` with the percent-decoded id, which is the segment itself when it holds no `%`. A segment that does not decode gets the 400 error. |
| `AdminRoutes.SongPathRouted` | backend/src/routes/admin.route.js:11-19 | For `/songs/<id>` and any method: a segment that does not decode gives the 400 error; otherwise DELETE reaches `deleteSong` with the decoded id and every other method finds no route. |
| `AdminRoutes.MalformedSongIdRejected` | backend/src/routes/admin.route.js:15 | An admitted request for `/songs/<id>` whose segment does not decode gets the 400 error for every method, GET included, because the path matches `/songs/:id` before the method is checked. |
| `Responsive.ThresholdsIncrease` | frontend/src/hooks/useResponsive.ts:13-21 | The thresholds are strictly increasing: xs < sm < md < lg < xl < 2xl < 3xl. |
| `Responsive.ViewOf` | frontend/src/hooks/useResponsive.ts:41-55 | Every width is exactly one of mobile (< 768), tablet (768..1023) and desktop (>= 1024). The flags agree with the breakpoints: `isMobile = !md`, `isTablet = md && !lg`, `isDesktop = lg`, `isLargeScreen = xl`, `isExtraLarge = 2xl`. |
| `Responsive.HigherImpliesLower` | frontend/src/hooks/useResponsive.ts:47-55 | Each reached breakpoint implies every lower one. |
| `Responsive.FlagsMonotone` | frontend/src/hooks/useResponsive.ts:41-55 | A flag that holds at one width holds at every larger width. |
| `Responsive.NoWindowIsSmallDesktop` | frontend/src/hooks/useResponsive.ts:24-27 | Without a window the size is 1024x768, which is desktop but not a large screen. |
| `Responsive.HeightIrrelevant` | frontend/src/hooks/useResponsive.ts:41-55 | Every flag depends on the width only, never on the height. |
| `Responsive.WindowTracker.HandleResize` | frontend/src/hooks/useResponsive.ts:30-35 | A resize replaces the stored size with the window's new inner size. |
| `MainLayout.StackedOnlyOnMobile` | frontend/src/layout/MainLayout.tsx:14-28 | The fixed, panel-less layout is used exactly below 768 px. |
| `MainLayout.RightPanelOnDesktopOnly` | frontend/src/layout/MainLayout.tsx:56 | The right panel is present exactly when `breakpoint.lg` holds: never on tablet, always on desktop. |
| `MainLayout.DefaultsFillTheRow` | frontend/src/layout/MainLayout.tsx:36-64 | The default sizes of the panels shown add up to 100: 25+75 on tablet, 20+60+20 on desktop, 20+50+30 from xl up. |
| `MainLayout.LayoutOf` | frontend/src/layout/MainLayout.tsx:14-70 | The frame is stacked exactly on mobile. Otherwise every panel has 0 <= min <= default <= max <= 100, and the main panel's minimum is 30. |
| `AlbumPage.FormatDuration` | frontend/src/pages/album/AlbumPage.tsx:11-15 | The output is the decimal of s div 60, a colon, and exactly two digits worth s mod 60, so in 00..59. |
| `AlbumPage.FormatThenParse` | frontend/src/pages/album/AlbumPage.tsx:11-15 | Reading the output back as M·60 + SS gives the input seconds. |
| `AlbumPage.ParseThenFormat` | frontend/src/pages/album/AlbumPage.tsx:11-15 | Every well-formed `M:SS` text is exactly what `formatDuration` writes for its value. |
| `AlbumPage.ContainsSong` | frontend/src/pages/album/AlbumPage.tsx:32 | `.some` is true exactly when a current song exists and some album song has its id. |
| `AlbumPage.HandlePlayAlbum` | frontend/src/pages/album/AlbumPage.tsx:29-37 | Without an album nothing happens. With one, the button toggles exactly when a current song exists and some album song has its id, and otherwise plays the album from index 0. |
| `AlbumPage.HandlePlaySong` | frontend/src/pages/album/AlbumPage.tsx:39-42 | Without an album nothing happens. With one, clicking row i plays the album's own songs from index i. |
| `AlbumPage.ShowPauseIcon` | frontend/src/pages/album/AlbumPage.tsx:76-80 | The pause icon shows exactly when playing, an album is loaded, and one of its songs has the current song's id. |
| `AlbumPage.PauseIconIff` | frontend/src/pages/album/AlbumPage.tsx:29-37 | The pause icon shows exactly when the player is playing and pressing the button would toggle. |
| `AlbumPage.Marker` | frontend/src/pages/album/AlbumPage.tsx:252-256 | A row shows ♫ exactly when playing and its song has the current song's id, and its number index + 1 otherwise. |
| `AlbumPage.EqualiserIffPauseIcon` | frontend/src/pages/album/AlbumPage.tsx:249-259 | Some row of the album shows ♫ exactly when the big button shows the pause icon, and a row with ♫ never offers the hover play icon. |
| `AlbumPage.ReleaseDate` | frontend/src/pages/album/AlbumPage.tsx:268 | The release date is a prefix of `createdAt` with no `T`. It ends at the first `T`, if there is one. |
| `AlbumPage.ReleaseDateOfTimestamp` | frontend/src/pages/album/AlbumPage.tsx:268 | For a timestamp `date + "T" + time`, the column shows `date`. |
| `HomeQueue.QueueToInitialize` | frontend/src/pages/home/HomePage.tsx:31-36 | The queue is initialised exactly when all three lists are non-empty. |
| `HomeQueue.QueueLayout` | frontend/src/pages/home/HomePage.tsx:33-34 | The queue is featured ++ madeForYou ++ trending. Each list is whole and contiguous at offsets 0, the length of featured, and that length plus the length of madeForYou. The length is the sum of the three, and duplicates are kept (multiset sum). |
| `MessageInput.MessageBox.Change` | frontend/src/pages/chat/components/MessageInput.tsx:43-49 | The field's value replaces the draft, which stays within 1000 characters. |
| `MessageInput.MessageBox.Send` | frontend/src/pages/chat/components/MessageInput.tsx:17-21 | At most one `sendMessage` call, carrying the partner's clerkId, the user's id and the trimmed draft. The draft becomes `""` exactly when a call is made and is otherwise unchanged. |
| `MessageInput.MessageBox.KeyDown` | frontend/src/pages/chat/components/MessageInput.tsx:23-28 | Enter without Shift prevents the default and sends. Any other key sends nothing and changes nothing. |
| `MessageInput.SendCall` | frontend/src/pages/chat/components/MessageInput.tsx:17-21 | No call is made exactly when the partner or the user is missing, or the draft is blank. A call goes to the partner's clerkId, from the user's id, with the trimmed draft. |
| `MessageInput.SentContentIsTrimmed` | frontend/src/pages/chat/components/MessageInput.tsx:18-19 | Sent content is non-empty and has no whitespace at either end. Trimming it again changes nothing. |
| `MessageInput.SendDisabled` | frontend/src/pages/chat/components/MessageInput.tsx:56 | The send button is disabled exactly when the draft is empty or all whitespace. |
| `MessageInput.DisabledIffNoSend` | frontend/src/pages/chat/components/MessageInput.tsx:17-21 | With a partner and a user, the button is disabled exactly when a send would make no call. |
| `MessageInput.ShowsCounter` | frontend/src/pages/chat/components/MessageInput.tsx:70 | For a draft the field allows, the counter shows exactly at 801..1000 characters. |
| `MessageInput.CounterText` | frontend/src/pages/chat/components/MessageInput.tsx:72 | The counter text is the draft's length as a canonical numeral (digits only, no leading zero, reading back as the length), then `/1000`; that numeral is unique, so the text is exactly what `toString` writes. |

## Left out

- Cloudinary: the temp-file existence and size checks, the upload call, and the one retry after an "Invalid Signature" error are not modelled. They are foreign calls, so an upload is one abstract call that returns a URL or fails. `testCloudinaryConnection`, `backend/src/lib/cloudinary.js` and `backend/test-cloudinary.js` are environment configuration and are not part of this model.
- Mongoose: the database calls themselves are not modelled. Persistence failures, ObjectId casting (an ill-formed id makes `findById` throw), and the conversion of `duration` and `releaseYear` to numbers by the schema are left out. Ids are naturals handed out by a counter, and `duration`/`releaseYear` are stored as the submitted strings. `$push` is append and `$pull` is remove-all-occurrences.
- `getAllSongs` and `getAllAlbums` live in controllers that are not part of this model, so the router only dispatches to them.
- Clerk: `req.auth` is an input, and `clerkClient.users.getUser` is an abstract function that returns a user (with an optional primary email) or fails.
- Clock: `Date.now()` and `new Date().getFullYear()` are parameters.
- Numbers: integers are unbounded and `Number(...)` is computed exactly, without IEEE 754 rounding, so a numeral beyond double precision keeps its exact value. `toString` of a whole number is always the plain decimal numeral, which is what ECMAScript writes below 10^21 (and exactly only below 2^53); the exponent form ECMAScript uses from 10^21 up (`1e+21`) is not modelled, so `AlbumPage.FormatDuration` and its round-trip lemmas hold for the source only for durations in that range.
- Strings are sequences of Unicode scalar values, not UTF-16 code units. For characters outside the Basic Multilingual Plane this changes lengths, `trim`, and `Catalog.SanitiseName`: the source's `/[^a-zA-Z0-9]/g` replaces each of the two UTF-16 code units of such a character, writing `__`, where the model writes one `_`.
- Logging (`console.log`/`console.error`), React rendering and class names are not modelled.
- `useMediaQuery` is a browser `matchMedia` listener, so it is not modelled. The listener registration of `useResponsive` is reduced to the `HandleResize` method.
- The player store (`playAlbum`, `togglePlay`, `initializeQueue`) and the chat store (`sendMessage`) are not part of this model. The handlers return the call they make.
- The chat server and the chat store are not modelled: online tracking, message persistence, conversation listing and realtime delivery are network and database code. The message box model covers the draft, the send guard and the call it makes, the Enter-key rule, the disabled button and the counter. The 1000-character limit is the text field's `maxLength`, not a server check.
- `Catalog.Catalog.CreateSong`, `Catalog.Catalog.DeleteSong` and `Catalog.Catalog.DeleteAlbum` each run as one atomic step. In the server every `await` between their database calls (song save then `$push`, `$pull` then delete, `deleteMany` then album delete) lets other requests interleave, and such interleavings can break `Linked`. For example, a `deleteSong` for a new song can run between that song's save and its `$push`. Its `$pull` then finds nothing, the song is deleted, and the later `$push` leaves the album listing a song that no longer exists.
- `AlbumPage.FormatDuration` takes whole seconds, and `Track.duration` is a natural. The request check accepts any positive number, so a stored duration such as `180.5` is possible; `formatDuration` then writes `3:0.5`. Fractional durations are not modelled.
- `AdminRoutes.Handle`: Express's automatic answer to an `OPTIONS` request, which lists the methods of the routes whose path matched, is not modelled; such a request ends as "no route".
- `MessageInput.MessageBox.Change`: requires the new value to be at most 1000 characters, because the browser's `maxLength` already limits what `onChange` reports. Text pasted by script past that limit is not modelled.
- `AuthProvider.tsx`, `PlaybackControls.tsx` (floating-point times and volume), `ChatPage.tsx`, `UsersList.tsx`, `ChatHeader.tsx`, `Topbar.tsx`, `AdminPage.tsx`, `LeftSidebar.tsx`, `SectionGrid.tsx`, `FeaturedSection.tsx` and `debug-admin.js` are not part of this model. They are asynchronous glue, floating-point UI, or constant view tables.
