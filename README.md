# Skill badge leaderboard — Dafny model

This project models the logic of the `Leaderboard` React component of a
single-page skill-badge leaderboard. The component reads the `leaderboard`
table (`name`, `badges`, `all`) from a hosted database, ranks the entrants
and shows one of the following: a setup screen, a loading message, an
error, a "no data" message, or the ranked table.

Two parts are modelled:

- `ranking.dfy` (module `Ranking`) models the ranking pipeline inside
  `fetchLeaderboard` as pure functions over `seq<Row>`. `MapRows` is the
  first `map`. It applies the completion override: a row whose `all` is
  exactly `"Yes"` shows `TOTAL_BADGES` (20) badges. It also adds `id`, a
  provisional `rank`, `total` and `avatar`. `SortByBadges` is the sort with
  the comparator `b.badges - a.badges`. `Rerank` is the final `map`, which
  sets `rank` to the position plus one. `RankLeaderboard` chains the three
  steps.
  - ECMA-262 requires `Array.prototype.sort` to be stable since its 2019
    edition, so the sort is modelled as a stable insertion sort.
  - `SortByBadgesIsTheStableSort` proves that every stable descending
    sort of the same input gives exactly this result. A conforming engine
    therefore produces the list the model produces.
  - `badges` is a `nat`. `all` is an `Option<string>`: `None` stands for
    null, a missing column, or any non-string value. None of those is
    strictly equal to `'Yes'`.
- `page.dfy` (module `Page`) models the component state. The class
  `LeaderboardPage` holds the fields `clientReady` (the `supabase` client
  exists), `leaderboardData`, `loading` and `fetchError`. Its methods are
  the state updates the effects make:
  - the placeholder check;
  - the client being created;
  - the two library failures;
  - the start of a fetch;
  - the end of a fetch.

  `Render` is the pure choice of what is shown. `RunPage` runs one page
  load from given outcomes and proves what the page then shows.
  `Valid()` is the class invariant: the stored list is always a ranked
  list, and an error is never shown while still loading.

Points where the code's behaviour is easy to misread:

- The code treats only the placeholder strings `YOUR_SUPABASE_PROJECT_URL`
  and `YOUR_SUPABASE_ANON_KEY` as missing configuration
  (src/Leaderboard.jsx:236). An unset URL or key does not trigger the setup
  error, and the page goes on to create a client.
- The setup screen is chosen by comparing `fetchError` with the setup
  text (src/Leaderboard.jsx:348). That check comes before the `loading`
  check. A query error whose message is that exact text also shows the
  setup screen.
- `fetchError` is tested for truthiness (src/Leaderboard.jsx:408). A query
  error with an empty message is therefore not shown. The page falls
  through to the data, which is still empty, so it shows "no data".
- The query selects the `all` column (src/Leaderboard.jsx:302), and the
  ranking always applies the completion override to it.

## Model

| member | source | states |
|---|---|---|
| `Ranking.MapRows` | src/Leaderboard.jsx:310-325 | one entry per row, in row order: each entry presents its row (name, `all`, id = name, badges 20 exactly when `all` is "Yes" and the raw count otherwise, total 20, the generic avatar) with the provisional rank index + 1 |
| `Ranking.RankLeaderboard` | src/Leaderboard.jsx:310-336 | the final list has one entry per row, rank i+1 at position i, and non-increasing badges; `RankLeaderboardSpec`, `EveryEntryShowsARow` and `EveryRowIsShown` state the rest |
| `Ranking.SortByBadges` | src/Leaderboard.jsx:330 | the sorted list has the input's length and elements (the same multiset) and is non-increasing in badges |
| `Ranking.Insert` | src/Leaderboard.jsx:330 | inserting into a sorted list keeps it sorted and adds exactly that one entry |
| `Ranking.SortByBadgesStable` | src/Leaderboard.jsx:330 | for every badge count, the entries with that count appear in the same order after the sort as before it (the sort is stable) |
| `Ranking.StableSortUnique` | src/Leaderboard.jsx:330 | two sorted lists that agree on the order within every badge count are equal |
| `Ranking.SortByBadgesIsTheStableSort` | src/Leaderboard.jsx:330 | the model's sort is a stable descending sort, and a list is a stable descending sort of the input exactly when it equals the model's result |
| `Ranking.ComparatorAgreesWithSorted` | src/Leaderboard.jsx:330 | a list is non-increasing in badges exactly when the comparator `b.badges - a.badges` is non-positive on every ordered pair |
| `Ranking.Rerank` | src/Leaderboard.jsx:333-336 | the re-rank keeps the length, sets each rank to position + 1, and changes nothing but the rank |
| `Ranking.UnrankedSortByBadges` | src/Leaderboard.jsx:330 | the sort never looks at the provisional rank: sorting and then clearing ranks equals clearing ranks and then sorting |
| `Ranking.RankLeaderboardIsSortedMappedRows` | src/Leaderboard.jsx:310-336 | ignoring ranks, the final list is the stable sort of the mapped rows |
| `Ranking.RankLeaderboardSpec` | src/Leaderboard.jsx:310-336 | the final list has one entry per row; rank i+1 at position i; badges non-increasing; total 20, id = name and the generic avatar on every entry; a permutation of the mapped rows up to rank; ties in query order |
| `Ranking.EveryEntryShowsARow` | src/Leaderboard.jsx:310-325 | every entry carries some query row's name and `all`, with badges 20 if that row's `all` is exactly "Yes" and its raw count otherwise |
| `Ranking.EveryRowIsShown` | src/Leaderboard.jsx:310-325 | every query row is shown by some entry, with the same override rule |
| `Ranking.RankLeaderboardEmpty` | src/Leaderboard.jsx:310-336 | an empty query result ranks to an empty list |
| `Ranking.RankLeaderboardExample` | src/Leaderboard.jsx:310-336 | a row marked "Yes" with 5 badges ranks first with 20, ahead of a row with 18 |
| `Page.Render` | src/Leaderboard.jsx:348-416 | the setup screen shows exactly for the setup text; otherwise the loading message shows exactly while loading; when not loading, a truthy (non-empty) error shows "Error: " + its text; with no truthy error, "no data" shows for an empty list and the table of the stored list otherwise |
| `Page.LeaderboardPage.Displayed` | src/Leaderboard.jsx:404-416 | in a valid state, loading always shows the loading message, and a shown table is a non-empty ranked list |
| `Page.LeaderboardPage.constructor` | src/Leaderboard.jsx:227-230 | no client, empty list, loading, no error |
| `Page.LeaderboardPage.CheckConfig` | src/Leaderboard.jsx:236-240 | the load proceeds exactly when neither value is a placeholder; otherwise the setup error is set and loading stops, with the list and client untouched |
| `Page.LeaderboardPage.ClientCreated` | src/Leaderboard.jsx:244-256 | the client becomes available; nothing else changes |
| `Page.LeaderboardPage.ClientMissing` | src/Leaderboard.jsx:257-260 | the client-not-found error is set and loading stops |
| `Page.LeaderboardPage.LibraryLoadFailed` | src/Leaderboard.jsx:264-267 | the library-failed error is set and loading stops |
| `Page.LeaderboardPage.StartFetch` | src/Leaderboard.jsx:294-297 | with a client, loading starts and the error is cleared; the list is kept |
| `Page.LeaderboardPage.CompleteFetch` | src/Leaderboard.jsx:305-340 | an error is recorded and the old list kept; rows replace the list wholesale with their ranking and leave the error alone; loading ends either way; the list stays ranked |
| `Page.RunPage` | src/Leaderboard.jsx:233-345 | over one page load: the setup screen for a placeholder; loading while the library or the query is pending; "Error: " + the message for each library failure and for a non-empty query error; "no data" for zero rows; the ranked table otherwise |

## Left out

- The CSS in `AppStyles` and all JSX markup (src/Leaderboard.jsx:19-210, 349-452 apart from which state is chosen) are presentation only.
- Loading the client library from the CDN is browser I/O: the script tag, its `load`/`error` listeners and their cleanup (src/Leaderboard.jsx:243-288). Only its outcomes are modelled, as `LibraryOutcome`.
- The database query (src/Leaderboard.jsx:300-303) is a network call. Its result is an input: `Ok(rows)` or `Err(message)`. The server-side `order('badges')` is not modelled, because the local stable sort fixes the final order given the query's row order.
- `createClient` is a foreign call. The model does not cover it throwing on an unset URL or key.
- `SkillBadgeProgress` (src/Leaderboard.jsx:212-222) computes a floating-point percentage for a CSS width.
- Reading `import.meta.env` is not modelled. The URL and key are parameters of `CheckConfig` and `RunPage`.
- Console logging, the React effect lifecycle and async scheduling are left out. `RunPage` runs the effects in the order React runs them for one page load.
- `src/App.jsx` holds only a route with no logic.
- A `badges` value that is not a non-negative integer is not modelled, because `badges` is a `nat` here. In the source, `null` sorts as 0 while still showing null, a negative or fractional count sorts normally, and a missing or non-numeric value makes the comparator return `NaN`.
