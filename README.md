# 小小诗人 (punch-in-time): the verified core

A Dafny model of the small pieces of sequential logic in a children's classical-poetry
practice web app: the day/night theme controller, the punch-in page's query validation,
exam options and dialog flags, the home page's "start learning" target, and the library
search. The wall-clock hour and the browser's local storage are parameters: the hour is an
`Hour` in 0..23, the storage a `map<string, string>` field.

Modules, one per source file plus shared parts:

- `Wrappers` (wrappers.dfy): `Option`.
- `Poems` (poems.dfy): the `Poem` record and `DenseIds` (ids 1..N in dataset order).
- `Decimal` (decimal.dfy): digit strings. This is how an id is written into a URL with a
  template literal and read back with the `/^\d+$/` test and `Number(...)`.
- `ThemeProvider` (theme_provider.dfy): the hour classifier, the initialisers, and the class
  `ThemeController` with `mode`, `theme` and `storage` fields and the methods `SetMode`,
  `ToggleMode`, `Poll` (one firing of the minute poll) and `SyncStorage`.
- `PunchIn` (punch_in.dfy): `ResolvePoemId`, `DisplayedPoem`, `ExamImages`, and the class
  `PunchInPage`, whose flag cells are updated by the click handlers.
- `Home` (home.dfy): `FirstUncompletedPoemId` and the `/punch-in?poemId=<id>` target.
- `Library` (library.dfy): `Filter`, `Search` (cap 20) and `LoadedCount`.

The model follows the code. In particular:

- Choosing an exam option never checks the choice: `handleSelectImage` ignores its argument
  and always succeeds (src/pages/PunchIn.tsx:62-66).
- The success dialog and the share text say the learning progress has been synced
  ("学习足迹已同步", "学习进度已同步", src/pages/PunchIn.tsx:363, 388). Yet `handleSelectImage`
  writes nothing to storage, and no modelled file writes the `completedPoems` key that the
  home page reads (src/pages/Home.tsx:15). So "start learning" targets the first poem until
  something outside these files fills that list.
- The exam options are four picsum URLs built from the poem title and the option index
  alone (src/pages/PunchIn.tsx:51-55).
- Only the mode is persisted, never the theme. Storage access is not guarded against failure.
- The click handlers are modelled with the state in which the page renders their buttons.
  Start exam needs reading and not yet punched in. The options need examining. Share needs
  punched in. The animation toggles need reading. The page invariant therefore keeps the
  reading, examining, success, share order: the exam is open only before punching in, and
  the success dialog and share guide only after.
- The verse lines are read as `poem.lines` in src/pages/Library.tsx:16 and as `poem.content`
  in src/pages/PunchIn.tsx:196. At most one of these can be the dataset's field.
  - If the field is `content`, `poem.lines.some` throws a TypeError for any non-empty query
    that misses both the title and the author.
  - If the field is `lines`, `poem.content?.map` shows no verses on the punch-in page.
  - The model has one field, `lines`, for both. `Library.Matches` assumes the search reads
    it successfully, so it does not model the first failure.
- The stored mode is cast to `Mode` without validation (src/lib/theme-provider.tsx:24). The
  model keeps such a string as `Unrecognised(raw)`:
  - its initial theme is childlike;
  - the poll is not installed for it;
  - one toggle sends it to auto.

## Model

| member | source | states |
|---|---|---|
| Decimal.AllDigits | src/pages/PunchIn.tsx:19 | `/^\d+$/` holds only for a non-empty text; a sign, a decimal point, an exponent or a space, which `Number` would accept, is refused |
| Decimal.DecimalValue | src/pages/PunchIn.tsx:19-20 | `Number` of a digit text of length k is below 10^k; `DecimalRoundTrip` gives its inverse |
| Decimal.NatToString | src/pages/Home.tsx:22 | the decimal text of an id is a non-empty string of ASCII digits; a one-digit id is its single digit |
| Decimal.IntToString | src/pages/Home.tsx:22 | the text of an integer passes the digit test exactly when the integer is non-negative |
| Decimal.DecimalRoundTrip | src/pages/PunchIn.tsx:19-20 | reading back the decimal text of n with `Number` gives n |
| Decimal.NatToStringInjective | src/pages/Home.tsx:22 | distinct ids have distinct decimal texts |
| ThemeProvider.ParseMode | src/lib/theme-provider.tsx:24-33 | the mode a stored string stands for is stored back as that same string |
| ThemeProvider.ParseModeName | src/lib/theme-provider.tsx:24 | a mode that can arise, once stored and read back, is the same mode |
| ThemeProvider.SystemTheme | src/lib/theme-provider.tsx:15-20 | the hour gives childlike exactly for hours 6..17, and tech otherwise; `SystemThemeWindows` states both windows |
| ThemeProvider.SystemThemeWindows | src/lib/theme-provider.tsx:15-20 | the hour gives tech exactly for hours 18..23 and 0..5, and childlike exactly for 6..17 |
| ThemeProvider.SystemThemeHalfDay | src/lib/theme-provider.tsx:15-20 | an hour and the hour twelve hours later always give opposite themes |
| ThemeProvider.InitialMode | src/lib/theme-provider.tsx:23-27 | the start-up mode is the stored string when present and non-empty, else auto; it is always well formed |
| ThemeProvider.ModeTheme | src/lib/theme-provider.tsx:29-34 | auto gives the hour's theme, night gives tech, and every other mode gives childlike |
| ThemeProvider.ModeThemeIgnoresHourUnlessAuto | src/lib/theme-provider.tsx:40-44 | outside auto mode the theme is the same at every hour |
| ThemeProvider.NextMode | src/lib/theme-provider.tsx:47-56 | a toggle always changes the mode, and it lands on auto exactly when the mode was neither auto nor day |
| ThemeProvider.ToggleThreeCycle | src/lib/theme-provider.tsx:47-56 | on auto, day and night, three toggles return to the start and one or two do not |
| ThemeProvider.ToggleLeavesUnrecognised | src/lib/theme-provider.tsx:53-55 | an unvalidated stored mode goes to auto on the first toggle and then joins the three-cycle |
| ThemeProvider.GetItem | src/lib/theme-provider.tsx:24 | a storage read is null exactly when the key is absent, and otherwise gives the stored string |
| ThemeProvider.ReloadRestoresMode | src/lib/theme-provider.tsx:23-27 | after a mode is written under `app-theme-mode`, a fresh start-up reads back that same mode |
| ThemeProvider.ThemeController.constructor | src/lib/theme-provider.tsx:23-34 | the initial mode comes from storage and the initial theme from that mode and the hour; the invariant holds |
| ThemeProvider.ThemeController.SetMode | src/lib/theme-provider.tsx:36-45 | the mode becomes the new mode, storage holds it under the mode key, the theme is that mode's theme at the hour, and the invariant holds |
| ThemeProvider.ThemeController.ToggleMode | src/lib/theme-provider.tsx:47-56 | the mode moves to the next mode and is persisted; the theme follows the new mode |
| ThemeProvider.ThemeController.Poll | src/lib/theme-provider.tsx:59-72 | changes only the theme; in auto it becomes the hour's theme, in any other mode it is unchanged |
| ThemeProvider.ThemeController.SyncStorage | src/lib/theme-provider.tsx:75-82 | changes only storage, which then holds the current mode under the mode key |
| ThemeProvider.ToggleThreeTimesAndReload | src/lib/theme-provider.tsx:47-56 | three toggles at any hours restore the mode, and a controller rebuilt from the storage left behind starts in it |
| PunchIn.AcceptsPoemId | src/pages/PunchIn.tsx:19 | the test accepts exactly a present all-digit text with a value in 1..N; the separate non-empty check adds nothing |
| PunchIn.ResolvePoemId | src/pages/PunchIn.tsx:16-21 | the id is at least 1 and within the dataset; it is the query's value when that is all digits with a value in 1..N; any id other than 1 is the query's numeric value |
| PunchIn.ResolveRejectsMalformed | src/pages/PunchIn.tsx:19-21 | a missing or empty parameter, a non-digit character, the value 0 or a value past the end resolve to 1 |
| PunchIn.ResolveExamples | src/pages/PunchIn.tsx:19-21 | "0", "-5", "abc" and N+1 all resolve to 1 |
| PunchIn.ResolveWrittenId | src/pages/PunchIn.tsx:19-21 | every id in 1..N, written in decimal, resolves to itself |
| PunchIn.DisplayedPoem | src/pages/PunchIn.tsx:29-31 | an in-range id shows the poem at position id-1; anything else shows the first poem |
| PunchIn.DisplayedPoemMatchesId | src/pages/PunchIn.tsx:19-31 | the resolved id always indexes the dataset, the displayed poem is `POEMS[id-1]`, and with dense ids that poem carries the id |
| PunchIn.MakeOption | src/pages/PunchIn.tsx:51-55 | the option carries its index, its URL is the picsum seed of the title and the index digit, and its label ends in the letter A+index |
| PunchIn.Keywords | src/pages/PunchIn.tsx:35-43 | there are seven keywords |
| PunchIn.OptionsIgnoreKeywords | src/pages/PunchIn.tsx:46-55 | the options depend only on how many keywords there are, not on their order or text |
| PunchIn.ExamImages | src/pages/PunchIn.tsx:34-56 | exactly four options, the i-th being the title's option for index i; `ExamImagesShape` adds distinct labels A..D and distinct URLs |
| PunchIn.ExamImagesShape | src/pages/PunchIn.tsx:34-56 | exactly four options with ids 0..3 in order, each determined by title and index, labelled 'A'+i within A..D, with distinct labels and distinct image URLs |
| PunchIn.PunchInPage.constructor | src/pages/PunchIn.tsx:16-27 | the id is resolved from the query, the first poem is shown and every flag is off |
| PunchIn.PunchInPage.LoadPoem | src/pages/PunchIn.tsx:29-31 | changes only the poem, which becomes `POEMS[poemId-1]` |
| PunchIn.PunchInPage.StartExam | src/pages/PunchIn.tsx:58-60 | from reading and not yet punched in, changes only isExamining, which becomes true; the page invariant holds |
| PunchIn.PunchInPage.SelectImage | src/pages/PunchIn.tsx:62-66 | while examining, for every chosen id, changes only isExamining, punchedIn and showSuccess, to false, true, true |
| PunchIn.PunchInPage.Share | src/pages/PunchIn.tsx:68-70 | once punched in, changes only showShareGuide, which becomes true |
| PunchIn.PunchInPage.CloseShareGuide | src/pages/PunchIn.tsx:384-389 | changes only showShareGuide, which becomes false |
| PunchIn.PunchInPage.CloseSuccess | src/pages/PunchIn.tsx:333-334 | changes only showSuccess, so punchedIn stays as it was |
| PunchIn.PunchInPage.SetShowFlash | src/pages/PunchIn.tsx:119-137 | while reading, changes only showFlash, to the requested value |
| PunchIn.PunchInPage.Back | src/pages/PunchIn.tsx:76-78 | while examining, leaves the exam and stays; otherwise reports navigation home; only isExamining can change |
| PunchIn.ExamSession | src/pages/PunchIn.tsx:58-70 | from reading a poem not yet punched in: start, any choice, close, share and close leave it punched in with no dialog open |
| Home.CompletedList | src/pages/Home.tsx:15 | a missing key reads as the empty list, and a stored list is used as it is |
| Home.FirstUncompletedIndex | src/pages/Home.tsx:16 | finds the first position whose id is not completed, with every earlier id completed; finds none exactly when every id is completed |
| Home.FirstUncompletedPoemId | src/pages/Home.tsx:14-18 | never 0; any result other than 1 is the id of the first poem whose id is not completed, every earlier poem being completed; 1 when every poem is completed |
| Home.FirstUncompletedPoemIdSpec | src/pages/Home.tsx:14-18 | with dense ids: the result is in 1..N; if some poem is uncompleted, the result is uncompleted and every smaller id is completed; if all are completed, the result is 1 |
| Home.NothingStoredTargetsFirstPoem | src/pages/Home.tsx:15-17 | with no stored list, the target is the first poem's id |
| Home.StartLearningTarget | src/pages/Home.tsx:20-23 | the target starts with `/punch-in?poemId=` followed by a non-empty id text |
| Home.TargetPoemIdParam | src/pages/PunchIn.tsx:16-17 | a parameter is read exactly when the URL starts with `/punch-in?poemId=`, and it is the rest of the URL |
| Home.StartLearningRoundTrip | src/pages/Home.tsx:20-23 | with dense ids, the punch-in page resolves the target's parameter back to the id the home page chose |
| Library.Includes | src/pages/Library.tsx:14-16 | `includes` holds for every prefix of the text, the empty query among them, and never for a query longer than the text |
| Library.Matches | src/pages/Library.tsx:14-16 | a query opening the title or the author matches, so the empty query matches every poem; a match fits in the title, the author or some line |
| Library.Filter | src/pages/Library.tsx:13-16 | every kept poem matches on title, author or some line and comes from the dataset; no more poems than the dataset |
| Library.FilterKeepsMatches | src/pages/Library.tsx:13-16 | every matching poem of the dataset is kept |
| Library.FilterAppend | src/pages/Library.tsx:13-16 | filtering keeps dataset order: the filter of a concatenation is the concatenation of the filters |
| Library.FilterAllMatch | src/pages/Library.tsx:13-16 | when every poem matches, the filter returns the dataset unchanged |
| Library.Search | src/pages/Library.tsx:13-17 | at most 20 results and no more than the dataset; a prefix of the matches; all matches when fewer than 20 |
| Library.SearchResultsMatch | src/pages/Library.tsx:13-17 | every result matches the query and comes from the dataset |
| Library.SearchKeepsLeadingMatches | src/pages/Library.tsx:13-17 | the matches of any leading part of the dataset holding at most 20 of them open the result, in order |
| Library.EmptyQueryShowsFirstPoems | src/pages/Library.tsx:13-17 | the empty query shows the first min(20, N) poems |
| Library.LoadedCount | src/pages/Library.tsx:142 | the loaded count never exceeds the dataset size or 20 |
| Library.NotFoundIffNoMatch | src/pages/Library.tsx:60-98 | the "not found" branch is shown exactly when no poem matches |

## Left out

- JSX markup, styling, icons, and the decorative float geometry in src/components/layout/AppLayout.tsx.
- The Stats and Profile pages. They hold only fixed numbers and text.
- The animation player, the share guide, the error boundary, the slider and the routing.
  These are browser side effects and library glue.
- Wall-clock reads, `setInterval`/`clearInterval` timing and effect scheduling. The hour is a
  parameter, and one poll firing is one call of `Poll`.
- Real `localStorage` and its exceptions. Storage is a map field, so a failing storage is not modelled.
- `JSON.parse` of the completed list, which throws on malformed text. The list is taken as
  already parsed, and a missing key as the empty list.
- The theme class written to the document root (src/lib/theme-provider.tsx:76-78).
- PunchIn.ExamImages: the title-seeded keyword comparator's order is not modelled. The options
  never use the keyword text, and `OptionsIgnoreKeywords` shows that any order gives the same options.
- PunchIn.Keywords: `title.slice(0, 2)` counts UTF-16 code units, while the model counts characters.
  The two differ only for characters outside the Basic Multilingual Plane.
- Decimal.NatToString: JavaScript writes numbers of 10^21 and above in exponent notation
  ("1e+21"). The model always writes plain digits, which agrees for every dataset-sized id.
- PunchIn.ResolvePoemId: `Number` of a digit string beyond 2^53 loses precision. The model
  uses the exact value. Both exceed any dataset size, so the result is 1 either way.
- Home.TargetPoemIdParam: `URLSearchParams` parsing is reduced to taking the text after
  `/punch-in?poemId=`. Percent-decoding and other parameters are not modelled.
- PunchIn.PunchInPage.constructor: requires a non-empty dataset. With no poems, the page would
  read `poem.title` of `undefined` and fail.
- The picsum image content and the Library progress-bar width, which is a float percentage.
