# HackerNewsCLI core in Dafny

A model of the two pieces of logic in HackerNewsCLI, a terminal client for Hacker News:

- **The batch fetch** of `src/hacker_news/mod.rs` (module `HackerNews`, file `hacker_news.dfy`).
  - `get_data` reads the top-stories feed and keeps its first 100 ids.
  - `get_data` and `get_comments` send one item request per id and `join_all` the futures.
  - Each future `unwrap`s its request and its JSON decode.
  - The network is abstract: `get(url)` returns the response body or `None`, and `decode(body)` returns the record or `None`.
  - `Collect` is `join_all` plus the `unwrap`s: all values in position order, or nothing.
  - `JoinInCompletionOrder` lets the futures finish in any order and stores each value in the slot of its position. It is proved equal to `Collect`.
- **The event loop** of `src/main.rs` (module `Controller`, file `controller.dfy`).
  - The loop keeps the post list, the list's selection, `selected_post_index`, the loaded comments and a status (running, quit, returned an error, panicked).
  - `Transition` is one turn of the `match events.next()?` dispatch. `Run` is the loop over a finite prefix of the event stream.
  - The class `App` keeps the same state in fields. Its `Step` and `RunLoop` methods update them in place and are proved against `Transition` and `Run`.
  - The collaborators are parameters in `Env`: the network and comment decoder, the URL opener `open::that`, and the list widget's `next`/`previous`.
  - The effects a turn asks for (`Open(url)`, `FetchComments(kids)`) are returned, so "nothing is fetched" can be stated.
- **Rust's `{}` formatting of ids** (module `Format`, file `format.dfy`). Both the API item URL and the news.ycombinator.com item page use it. It has an inverse, `ParseDecimal`.

Panics of the program are states here, not preconditions:
- `Panicked(NoSelection)`: the `unwrap` of an empty selection.
- `Panicked(SelectionOutOfRange(i))`: the `unwrap` of `items.get(i)`.
- `Aborted(SliceOutOfRange(n))`: the `[..100]` slice of a feed of `n < 100` ids, inside `get_data`.
- `Aborted(ItemFailed)`: a failed item request or decode, inside `get_data` or `get_comments`.
- `Panicked(FetchAborted(cause))`: the loop's view of a panic inside `get_data` or `get_comments`, with its cause.
- `Panicked(ErrorUnwrapped(error))`: `main`'s `unwrap` of the error `get_data` returns when the feed request or decode fails.

Behaviour of the code that the model keeps:
- A comment's `text` is a plain `String`, not an optional one.
- A failed comment fetch panics; it is not a recoverable error.
- A feed shorter than 100 ids panics on the slice; it does not fetch all of them.
- `next`/`previous` are only known to select an index in range on a non-empty list. Their code is not part of this model, so wrap-around is not assumed.
- The field `by` of the records is called `author`, because `by` is a Dafny keyword.

## Model

| member | source | states |
|---|---|---|
| Format.Decimal | src/hacker_news/mod.rs:35 | the text `{}` prints for an id is non-empty, all digits, one digit exactly below 10, and starts with '0' only for 0 |
| Format.ParseDecimalInverts | src/main.rs:186 | reading the printed digits back gives the id again |
| Format.DecimalInjective | src/hacker_news/mod.rs:48 | two different ids never print the same digits |
| HackerNews.ItemUrlInjective | src/hacker_news/mod.rs:35 | two different ids never get the same item URL |
| HackerNews.ItemRequestsExactlyOnce | src/hacker_news/mod.rs:33-35 | the map over the ids requests each id's URL exactly as often as the id occurs, and no other URL |
| HackerNews.Collect | src/hacker_news/mod.rs:36-39 | join-and-unwrap succeeds iff every item request succeeded; then the result has one value per request and value i is the one of request i |
| HackerNews.Settle | src/hacker_news/mod.rs:33 | storing finished futures into position slots succeeds iff every finished one succeeded, and then each finished position holds its own value |
| HackerNews.CompletionOrderIrrelevant | src/hacker_news/mod.rs:46 | for every completion order of the futures, the slot-filling join gives exactly `Collect`: order is by position, not by completion |
| HackerNews.FetchAll | src/hacker_news/mod.rs:46-52 | fetching a list of ids succeeds iff every id's request and decode succeed; then the result has one record per id and record i is the one fetched for ids[i] |
| HackerNews.FetchAllReadsOnlyItsRequests | src/hacker_news/mod.rs:48 | the fetch result depends on the network only at the URLs of the given ids |
| HackerNews.GetData | src/hacker_news/mod.rs:25-41 | the feed's own error is returned as is; success means the feed had at least 100 ids, the result has exactly 100 posts, and post i is the one fetched for feed id i |
| HackerNews.GetDataSlice | src/hacker_news/mod.rs:31 | a feed of fewer than 100 ids panics on the slice, and only such a feed; with 100 or more, the fetch succeeds iff each of the first 100 items does |
| HackerNews.GetDataIgnoresTail | src/hacker_news/mod.rs:31-33 | two feeds that agree on their first 100 ids give the same result: no later id is fetched |
| HackerNews.GetComments | src/hacker_news/mod.rs:43-55 | never returns an error; it succeeds iff every kid's request and decode succeed, with exactly one comment per kid in kid order; otherwise it panics on an item |
| HackerNews.ItemUrl | src/hacker_news/mod.rs:35 | the API item URL of an id parses back to that id |
| HackerNews.Fetch | src/hacker_news/mod.rs:35-37 | one request fails with `RequestFailed` exactly when the network gives no body, with `DecodeFailed` exactly when the body does not decode, and otherwise gives the decoded record |
| Controller.ItemPageUrl | src/main.rs:186 | the item page URL of an id parses back to that id |
| Controller.PostLink | src/main.rs:94-98 | the shown and opened link is the post's url when present, otherwise the item page of the post's id |
| Controller.TotalComments | src/main.rs:106-110 | the shown comment count is `descendants` when present, and 0 exactly when it is absent or 0 |
| Controller.SelectedPost | src/main.rs:206-207 | looking up the selected post succeeds iff a selection exists and is in range, and then gives the post at the selection |
| Controller.Boot | src/main.rs:49-54 | the loop starts running iff the fetch succeeded, with the fetched posts, the list's initial selection, index 0 and no comments; otherwise it panics with the fetch's abort or the unwrapped error |
| Controller.BootShowsTopPosts | src/main.rs:49-54 | the loop starts running iff `get_data` succeeded; then it shows exactly the 100 fetched posts, the initial selection, no comments, index 0; a failed feed request panics with its error |
| Controller.Launch | src/main.rs:200-202 | `open::that(url)?` (here and at line 186) asks to open exactly `url` and changes nothing but the status; success keeps the loop running, an error ends it with that error (see LeftOpensItemPage and RightOpensLink) |
| Controller.Moved | src/main.rs:188-195 | the list's new selection is kept as is; a present one is copied into `selected_post_index`, an empty one panics; posts and comments are unchanged and nothing is asked (see MoveSyncsIndex) |
| Controller.LoadComments | src/main.rs:205-210 | 'c' changes only the comments and the status; without a selection in range it panics; it asks for exactly the selected post's kids when it has some and for nothing otherwise; comments change only on a successful fetch (see LoadReplacesComments, NoKidsNoFetch) |
| Controller.Transition | src/main.rs:177-217 | no event changes the posts; each asks for at most one effect, and only Left, Right and 'c' ask for one; only 'c' changes the comments and only Down and Up the selection (see the event lemmas below) |
| Controller.QuitKeepsState | src/main.rs:179-181 | 'q' ends the loop with posts, selection, index and comments unchanged and no effect |
| Controller.MoveSyncsIndex | src/main.rs:188-195 | after Down or Up the selection is exactly what `next` or `previous` gives, and `selected_post_index` equals it; an empty selection panics; on a non-empty list the selection is in range; posts and comments are unchanged |
| Controller.LoadReplacesComments | src/main.rs:205-210 | 'c' on a post with kids fetches exactly those kids; on success the comments become the fetched ones, one per kid in order, whatever was loaded before, and nothing else changes; a failed fetch panics with the item failure and changes nothing else |
| Controller.NoKidsNoFetch | src/main.rs:208 | 'c' on a post without kids fetches nothing and changes nothing |
| Controller.RightOpensLink | src/main.rs:196-204 | Right opens the post's url if it has one, else its item page; the state is unchanged, except that an opener error ends the loop with that error |
| Controller.LeftOpensItemPage | src/main.rs:182-187 | Left opens the item page of the selected post's id, whatever its url, and changes nothing; an opener error ends the loop with that error and changes nothing else |
| Controller.SelectionUnwrap | src/main.rs:184-185 | Left, Right and 'c' panic when nothing is selected; with a consistent selection, only a failed comment fetch can panic |
| Controller.IdleEventsChangeNothing | src/main.rs:212-216 | a tick and every key other than q, c and the arrows change nothing and ask for nothing |
| Controller.TransitionPreservesConsistent | src/main.rs:177-217 | no event changes the posts, and every event keeps the selection and `selected_post_index` in range |
| Controller.Iterate | src/main.rs:56-218 | once the loop has stopped it looks at no event and asks for nothing; it ends running only if it started running (see IterateSplits) |
| Controller.Run | src/main.rs:56-218 | over any run of events the posts stay the same and at most one effect is asked per event |
| Controller.IterateKeepsPosts | src/main.rs:177-217 | each turn of the loop keeps the posts and asks for at most one effect |
| Controller.RunPreservesConsistent | src/main.rs:56-218 | over any run of events the posts stay the same and the selection and index stay in range |
| Controller.IterateKeepsConsistent | src/main.rs:177-217 | each turn of the loop keeps the posts and keeps the selection and index in range |
| Controller.RunStopsAtQuit | src/main.rs:179-181 | after a 'q' the loop looks at no further event |
| Controller.IterateSplits | src/main.rs:56-218 | running two stretches of events one after the other is the same as running them joined |
| Controller.App.constructor | src/main.rs:49-54 | the loop's fields start as `Boot` of the fetched posts |
| Controller.App.OpenLink | src/main.rs:200-202 | `open::that(url)?` records the opened URL and ends the loop with the opener's error |
| Controller.App.Step | src/main.rs:177-217 | updating the fields in place for one event gives exactly the state and effects of `Transition` |
| Controller.App.RunLoop | src/main.rs:56-218 | the in-place loop over a list of events ends in the state and with the effects of `Run` |

## Left out

- Terminal layout and widget drawing (src/main.rs:57-175): this is UI drawn by the `tui` library. Only the two display rules (the link and the comment count) are modelled.
- Date formatting with `chrono` (src/main.rs:84): a foreign library.
- Comment rendering and HTML sanitising (src/main.rs:154-170): `sanitize_str` is a foreign call. Its "Dead Commnet" branch tests `text.is_none()`, which does not fit the `String` field of `HNComment`.
- HTTP, JSON decoding and the tokio runtime: replaced by the abstract `get` and `decode` functions. Timeouts and retries are not modelled.
- Which failing request panics first: it depends on completion order, so a panic carries no id (`ItemFailed`).
- Repeated requests and opens: `get`, `open`, `next` and `previous` are fixed functions over a whole run. The same URL fetched or opened twice therefore gets the same outcome, and a later `next` from the same selection on the same list gives the same index. A network or opener whose answers change over time is not modelled.
- `open::that`: an abstract function that reports success or an error message.
- `Events` (the input thread and the ticker, src/utils): the loop reads a finite sequence of events. A failing `events.next()?` is not modelled.
- `StatefulList` (src/utils): not part of this model. `with_items`'s initial selection is a parameter. `next`/`previous` are abstract and constrained only by `MovesInBounds`.
- Command-line handling (src/main.rs:43-44): `category` is never used by `get_data`. The panic on a missing argument is not modelled.
- Raw-mode terminal setup and `terminal.clear()` (src/main.rs:46-48, 55): terminal I/O.
- Integer widths: ids and counts use the subset types `U32` and `U64`, and a selection index is a `nat` (Rust's `usize`). No arithmetic in the core can overflow.
