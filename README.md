# Quran reader: API client and navigation sidebar

This project models two parts of a Quran reading web application.

**The content-API client (`lib/api.ts`).**
- It builds the request URLs for verses by chapter, by juz and by page, and for search, tafsir, chapters, translations, juz and random verse.
- A response that is not ok becomes an error that names the request and carries the HTTP status.
- It normalises verse records. Each word gets an `uthmani` transcription and a gloss under the word-language key.
- It reads the page count with a fallback chain.
- It maps search hits to the verse shape.

**The navigation sidebar (`app/components/common/SurahListSidebar.tsx`).**
- Its state is the open tab (Surah, Juz or Page) and the search term.
- The route parameters set the tab with a fixed precedence: juz, then page, then chapter.
- A tab click and the search box each change one field.
- Three filters restrict the chapter list, the juz list 1..30 and the page list 1..604.
- An item is marked active when the route parameter equals its number in decimal. The first active item is the one scrolled into view.

Files:
- `wrappers.dfy` holds `Option`.
- `json.dfy` models JavaScript values as the client sees them: `undefined`, `null`, numbers, strings, arrays and objects. It also models property access that yields `undefined` for a missing field, truthiness, `??` and `||`.
- `strings.dfy` models `String(n)` for non-negative integers, `includes`, ASCII `toLowerCase` and `Array.prototype.filter`, with their properties.
- `api.dfy` models the client as pure functions. `fetch` is a parameter from URL to response.
- `sidebar.dfy` holds the sidebar. Its state is the class `SidebarState`, whose methods mirror the state setters. The lists are pure functions.

Two behaviours of the code are easy to misread:
- When a word has no translation, the gloss key is still written, holding `undefined`. It is not left out.
- The page count falls back on any falsy value, `0` included, not only on an absent one.

## Model

| member | source | states |
|---|---|---|
| Api.Message | lib/api.ts:31 | the error text starts with `Failed to <what>: ` and the rest is the decimal form of the HTTP status |
| Api.Checked | lib/api.ts:30-32 | a non-ok response becomes `FetchFailed` whose message carries the request's name and its status. An ok response's body is read |
| Api.MessageDeterminesStatus | lib/api.ts:30-32 | the error message of a failed request determines its HTTP status |
| Api.NormalizeWord | lib/api.ts:20-24 | the keys are the word's keys plus `uthmani` and the word language. `uthmani` is `text_uthmani` unless that is nullish, else `text`. The gloss is `translation?.text` and is written last, so it overrides `uthmani` when the language key is "uthmani". Every other field is unchanged |
| Api.NormalizeVerse | lib/api.ts:17-26 | succeeds exactly on an object whose `words` is null, absent or an array of objects, and otherwise fails as malformed. Every field other than `words` is copied. Null or absent words become `undefined`. Otherwise the words keep their length and order and each is normalised with the given language |
| Api.NormalizeAll | lib/api.ts:83 | mapping the verses succeeds iff every verse is well shaped, and the result has the same length and order with each verse normalised |
| Api.TotalPages | lib/api.ts:82 | `meta.total_pages` if truthy, else `pagination.total_pages` if truthy, else 1; never falsy |
| Api.ReadVersesPage | lib/api.ts:81-84 | succeeds iff the body has a `verses` array of well-shaped verses. The verses are those normalised in order, and the page count is the fallback chain |
| Api.ChapterUrl | lib/api.ts:74-76 | the URL built in three `+=` steps is the by-chapter path plus `?` plus the shared query string |
| Api.JuzUrl | lib/api.ts:121 | the by-juz URL is the by-juz path plus `?` plus the shared query string |
| Api.PageUrl | lib/api.ts:139 | the by-page URL is the by-page path plus `?` plus the shared query string |
| Api.SchemesShareQuery | lib/api.ts:67-76 | for the same arguments, the three URLs split at their first `?` into `/verses/by_chapter/id`, `/verses/by_juz/id` and `/verses/by_page/id`, each with one identical query |
| Api.VersesUrlSplits | lib/api.ts:121 | a page-of-verses URL splits at its first `?` into `/verses/<segment>/<id>` and its query |
| Api.SplitAtFirstQuery | lib/api.ts:74 | a path without `?` joined to a query by `?` splits back into the two |
| Api.Field | lib/api.ts:33-34 | reading a field of the body fails iff the body is null or undefined |
| Api.GetVersesByChapter | lib/api.ts:67-85 | fetches the by-chapter URL with defaults page 1, 20 per page and language "en". A non-ok status gives `Failed to fetch verses` with that status. Otherwise the result is the page read with the same language |
| Api.GetVersesByJuz | lib/api.ts:114-130 | the same for the by-juz URL |
| Api.GetVersesByPage | lib/api.ts:132-148 | the same for the by-page URL |
| Api.SearchHit | lib/api.ts:95-100 | a hit becomes a record with exactly `id`, `verse_key`, `text_uthmani` and `translations`, taken from `verse_id`, `verse_key`, `text` and `translations` |
| Api.ReadSearch | lib/api.ts:93-100 | a null body fails, and missing results give the empty list. Otherwise the success condition is exact, and the hits are mapped in order with no `words` |
| Api.SearchVerses | lib/api.ts:87-101 | fetches `/search?q=<encoded>&size=20&translations=20`. A non-ok status gives `Failed to search verses`. Otherwise the result is the search mapping |
| Api.GetChapters | lib/api.ts:28-35 | fetches `/chapters?language=en`. A non-ok status gives `Failed to fetch chapters`. Otherwise the result is `data.chapters` |
| Api.GetTranslations | lib/api.ts:37-44 | fetches `/resources/translations`. A non-ok status gives `Failed to fetch translations`. Otherwise the result is `data.translations` |
| Api.GetWordTranslations | lib/api.ts:46-53 | the same for the word-by-word resources |
| Api.GetTafsirByVerse | lib/api.ts:104-112 | fetches `/tafsirs/<id, default 169>/by_ayah/<encoded key>`. A non-ok status gives `Failed to fetch tafsir`. Otherwise the result is `data.tafsir?.text` |
| Api.GetJuz | lib/api.ts:151-158 | fetches `/juzs/<id>`. A non-ok status gives `Failed to fetch juz`. Otherwise the result is `data.juz` |
| Api.GetRandomVerse | lib/api.ts:161-169 | fetches the random-verse URL. A non-ok status gives `Failed to fetch random verse`. Otherwise the result is `data.verse` normalised with the default language "en" |
| Strings.Decimal | app/components/common/SurahListSidebar.tsx:142 | `String(id)` is a non-empty string of digits, with a leading zero only for 0 |
| Strings.ParseDecimalOfDecimal | app/components/common/SurahListSidebar.tsx:142 | reading the decimal form back gives the number |
| Strings.DecimalInjective | app/components/common/SurahListSidebar.tsx:142 | distinct numbers have distinct decimal forms |
| Strings.Lower | app/components/common/SurahListSidebar.tsx:66 | lowercasing keeps the length. Capitals become their small letters and every other character stays, so no capital remains |
| Strings.FilterCount | app/components/common/SurahListSidebar.tsx:64-68 | the filter keeps each passing element as many times as it occurs and drops every other one |
| Strings.FilterDistinct | app/components/common/SurahListSidebar.tsx:64-68 | filtering a list without repetitions leaves it without repetitions |
| Strings.ContainsIffOccurs | app/components/common/SurahListSidebar.tsx:66-67 | `includes` holds exactly when the term occurs at some position |
| Strings.ContainsEmpty | app/components/common/SurahListSidebar.tsx:66-67 | the empty term occurs in every string |
| Strings.FilterMembers | app/components/common/SurahListSidebar.tsx:64-68 | `filter` keeps exactly the elements that pass |
| Strings.FilterIsSubsequence | app/components/common/SurahListSidebar.tsx:64-68 | the filter's result is its input with some elements left out and the rest in their order |
| Strings.FilterAll | app/components/common/SurahListSidebar.tsx:64-68 | when every element passes, the filter returns its input |
| Strings.FilterIncreasing | app/components/common/SurahListSidebar.tsx:71-78 | filtering an ascending list leaves it ascending |
| Sidebar.RouteTab | app/components/common/SurahListSidebar.tsx:39-43 | the tab is Juz iff a juz is named; Page iff a page and no juz is named; Surah iff only a chapter is named. When nothing is named, the tab stays as it was |
| Sidebar.SidebarState.constructor | app/components/common/SurahListSidebar.tsx:24-43 | the search starts empty and the tab starts at Surah, after which the route effect's first run applies |
| Sidebar.SidebarState.Navigate | app/components/common/SurahListSidebar.tsx:39-43 | the tab is recomputed only when the route parameters changed. The search term is kept |
| Sidebar.SidebarState.SelectTab | app/components/common/SurahListSidebar.tsx:113 | sets the tab and nothing else |
| Sidebar.SidebarState.SetSearchTerm | app/components/common/SurahListSidebar.tsx:131 | sets the search term and nothing else |
| Sidebar.OneTo | app/components/common/SurahListSidebar.tsx:22-23 | `Array.from({length: n}, (_, i) => i + 1)` has n elements, the i-th being i + 1 |
| Sidebar.OneToMembers | app/components/common/SurahListSidebar.tsx:22-23 | the range is ascending and holds exactly the numbers 1 to n |
| Sidebar.ChapterMatches | app/components/common/SurahListSidebar.tsx:66-67 | a chapter matches iff the lowercased term occurs in its lowercased name or the term occurs in its number |
| Sidebar.FilteredChapters | app/components/common/SurahListSidebar.tsx:62-70 | a chapter is kept iff its lowercased name contains the lowercased term or its number contains the term. Each is kept as often as it occurs, the order is kept, and an empty term keeps every chapter |
| Sidebar.EmptyTermKeepsAll | app/components/common/SurahListSidebar.tsx:62-70 | an empty search term keeps the whole chapter list |
| Sidebar.FilteredNumbers | app/components/common/SurahListSidebar.tsx:71-78 | keeps, ascending, exactly the numbers from 1 to n whose decimal form contains the term (n is 30 for juzs and 604 for pages) |
| Sidebar.FilteredJuzs | app/components/common/SurahListSidebar.tsx:71-74 | ascending, exactly the juzs 1 to 30 whose number contains the term |
| Sidebar.FilteredPages | app/components/common/SurahListSidebar.tsx:75-78 | ascending, exactly the pages 1 to 604 whose number contains the term |
| Sidebar.IsActive | app/components/common/SurahListSidebar.tsx:142 | an item is active only if the route parameter is present and is a digit string that reads back as the item's number |
| Sidebar.Entries | app/components/common/SurahListSidebar.tsx:139-208 | the open tab's whole filtered list is rendered, in the filter's order and nothing else: link i carries the i-th filtered juz, page or chapter number. Every link is active exactly when that tab's route parameter names its number |
| Sidebar.ChapterTabHasOneActive | app/components/common/SurahListSidebar.tsx:139-142 | on the chapter tab at most one link is active, given chapters with distinct numbers |
| Sidebar.ScrollTarget | app/components/common/SurahListSidebar.tsx:47-60 | the scrolled-to item is named by the open tab's route parameter, and there is none exactly when no rendered link is active |
| Sidebar.ActiveIsUnique | app/components/common/SurahListSidebar.tsx:142 | a route parameter marks at most one number as active |
| Sidebar.AtMostOneActive | app/components/common/SurahListSidebar.tsx:176-177 | in a list of distinct numbers at most one link is active |
| Sidebar.NumberTabsHaveOneActive | app/components/common/SurahListSidebar.tsx:205-208 | on the juz and page tabs at most one rendered link is active |
| Sidebar.FirstActive | app/components/common/SurahListSidebar.tsx:50 | the first active link: none iff no link is active, otherwise an active link with no active link before it |
| Sidebar.FirstActiveIsNamed | app/components/common/SurahListSidebar.tsx:139-142 | the first active number is x iff x is listed and the route parameter is `String(x)` |
| Sidebar.ChapterScrollTarget | app/components/common/SurahListSidebar.tsx:139-142 | on the chapter tab the scrolled-to chapter is one that matches the search and that the route names |
| Sidebar.JuzScrollTarget | app/components/common/SurahListSidebar.tsx:174-177 | on the juz tab the scrolled-to juz is the one the route names, if it is in 1..30 and matches the search |
| Sidebar.PageScrollTarget | app/components/common/SurahListSidebar.tsx:205-208 | on the page tab the scrolled-to page is the one the route names, if it is in 1..604 and matches the search |

## Left out

- `fetch`, `res.json()` and `encodeURIComponent` are parameters: fetch maps a URL to a status and a parsed body, and the encoder is an uninterpreted string function. Promises and network failures that reject before a status exists are not modelled.
- The base URL chosen from the environment (`QURAN_API_BASE_URL` or the public API address) is a parameter.
- Numbers are non-negative integers: floating point, `NaN` and negative ids are not modelled, and `translationId`, `page`, `perPage` and `tafsirId` are naturals.
- Api.NormalizeVerse: a verse or word that is not an object (a primitive or an array) is reported as malformed, whereas JavaScript would spread it into an object (a string or an array into its indices) and read its missing fields as `undefined`.
- Route parameters that are string arrays (catch-all routes) are not modelled; each parameter is a single optional string.
- Key order of the output records is not modelled, since maps are unordered.
- `toLowerCase` is ASCII lowercasing; Unicode case mapping is not modelled.
- Sidebar.FirstActive: the `scrollIntoView` call and its smooth, centred scrolling are DOM side effects. Only which item is scrolled to is modelled, not that the effect re-runs on each tab or id change.
- SWR caching and fallback data for the chapter list, the translated tab labels, theme classes, the mobile overlay toggle and the `isSurahListOpen` context are UI collaborators and are left out; the chapter list is a parameter.
- `Spinner.tsx` is markup only and is not part of this model.
- Reading back the individual query parameters (splitting on `&`) is not modelled; the shared query is compared as one string.
- Sidebar.ChapterTabHasOneActive: holds for chapter lists with distinct numbers, as the chapter list supplies them; a list repeating a number would mark every copy active.
