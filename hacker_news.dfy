/** The records of the Hacker News API and the two batch fetches of
    src/hacker_news/mod.rs: `get_data` (the top 100 stories) and
    `get_comments` (the comments whose ids a story lists in `kids`).

    The network is abstract: `get(url)` is `reqwest::get(url)`, `None` when
    the request fails, otherwise the response body; `decode(body)` is
    `.json::<T>()`, `None` when the body does not have the shape of T. */
module HackerNews {
  import opened Wrappers
  import Format

  type U32 = x: int | 0 <= x < 0x1_0000_0000
  type U64 = x: int | 0 <= x < 0x1_0000_0000_0000_0000

  /** `HNPost`; the field `by` is called `author` here (`by` is a keyword). */
  datatype Post = Post(
    title: string,
    score: U32,
    url: Option<string>,
    author: string,
    time: U64,
    id: U64,
    descendants: Option<U32>,
    kids: Option<seq<U32>>)

  /** `HNComment`; its `text` is a plain string, not an optional one. */
  datatype Comment = Comment(id: U64, text: string, author: string)

  /** Why one request came back without a value. */
  datatype FetchError = RequestFailed | DecodeFailed

  /** Why a fetch panicked: the `[..100]` slice of a short feed, or an
      `unwrap` on a failed item request. */
  datatype Abort = SliceOutOfRange(len: nat) | ItemFailed

  /** How a batch fetch ends: its `Ok` value, the error its `?` returns, or
      a panic. */
  datatype Fetched<T> = Fetched(value: T) | Failed(error: FetchError) | Aborted(cause: Abort)

  const TopStoriesUrl: string := "https://hacker-news.firebaseio.com/v0/topstories.json?print=pretty"
  const ItemUrlPrefix: string := "https://hacker-news.firebaseio.com/v0/item/"
  const ItemUrlSuffix: string := ".json"

  /** How many feed ids `get_data` keeps. */
  const TopCount: nat := 100

  /** The API address of one item: it names exactly that item. */
  function ItemUrl(id: nat): (url: string)
    ensures ItemUrlId(url) == Some(id)
  {
    var digits := Format.Decimal(id);
    var url := ItemUrlPrefix + digits + ItemUrlSuffix;
    assert url[|ItemUrlPrefix|..|url| - |ItemUrlSuffix|] == digits;
    assert url[..|ItemUrlPrefix|] == ItemUrlPrefix;
    assert url[|url| - |ItemUrlSuffix|..] == ItemUrlSuffix;
    Format.ParseDecimalInverts(id);
    url
  }

  /** The item an API address names, if it is an item address. */
  function ItemUrlId(url: string): Option<nat> {
    var n, m := |ItemUrlPrefix|, |ItemUrlSuffix|;
    if n + m < |url| && url[..n] == ItemUrlPrefix && url[|url| - m..] == ItemUrlSuffix
       && Format.IsDigits(url[n..|url| - m])
    then Some(Format.ParseDecimal(url[n..|url| - m]))
    else None
  }

  lemma ItemUrlInjective(a: nat, b: nat)
    requires ItemUrl(a) == ItemUrl(b)
    ensures a == b
  {
    assert ItemUrlId(ItemUrl(a)) == Some(a) && ItemUrlId(ItemUrl(b)) == Some(b);
  }

  /** One request followed by one decode, as each `async move` block does:
      a failed request and a failed decode are told apart, and a value is
      exactly what the decoder made of the response body. */
  function Fetch<T>(url: string, get: string -> Option<string>, decode: string -> Option<T>): (r: Result<T, FetchError>)
    ensures r == Err(RequestFailed) <==> get(url).None?
    ensures r == Err(DecodeFailed) <==> get(url).Some? && decode(get(url).value).None?
    ensures r.Ok? ==> get(url).Some? && decode(get(url).value) == Some(r.value)
  {
    match get(url)
    case None => Err(RequestFailed)
    case Some(body) =>
      match decode(body)
      case None => Err(DecodeFailed)
      case Some(x) => Ok(x)
  }

  /** The `map` over the ids: one request per id, in the order of the ids. */
  function ItemRequests(ids: seq<U32>): seq<string> {
    seq(|ids|, i requires 0 <= i < |ids| => ItemUrl(ids[i]))
  }

  /** Every id is requested exactly as often as it occurs, and nothing else
      is requested. */
  lemma {:induction false} ItemRequestsExactlyOnce(ids: seq<U32>)
    ensures |ItemRequests(ids)| == |ids|
    ensures forall id: U32 :: multiset(ItemRequests(ids))[ItemUrl(id)] == multiset(ids)[id]
    ensures forall u :: u in ItemRequests(ids) ==> exists id: U32 :: id in ids && u == ItemUrl(id)
  {
    if ids != [] {
      var rest := ItemRequests(ids[1..]);
      assert ItemRequests(ids) == [ItemUrl(ids[0])] + rest;
      assert ids == [ids[0]] + ids[1..];
      ItemRequestsExactlyOnce(ids[1..]);
      forall id: U32
        ensures multiset(ItemRequests(ids))[ItemUrl(id)] == multiset(ids)[id]
      {
        if ItemUrl(id) == ItemUrl(ids[0]) {
          ItemUrlInjective(id, ids[0]);
        }
      }
      forall u | u in ItemRequests(ids)
        ensures exists id: U32 :: id in ids && u == ItemUrl(id)
      {
        if u != ItemUrl(ids[0]) {
          assert u in rest;
          var id: U32 :| id in ids[1..] && u == ItemUrl(id);
          assert id in ids;
        } else {
          assert ids[0] in ids;
        }
      }
    }
  }

  /** The futures that `join_all` awaits, one per request, in request order. */
  function Responses<T>(urls: seq<string>, get: string -> Option<string>, decode: string -> Option<T>): seq<Result<T, FetchError>> {
    seq(|urls|, i requires 0 <= i < |urls| => Fetch(urls[i], get, decode))
  }

  /** `join_all` followed by the `unwrap` in every future: all values in
      position order, or nothing as soon as any one of them failed. */
  function Collect<T>(rs: seq<Result<T, FetchError>>): (r: Option<seq<T>>)
    ensures r.Some? <==> forall i :: 0 <= i < |rs| ==> rs[i].Ok?
    ensures r.Some? ==> |r.value| == |rs| && forall i :: 0 <= i < |rs| ==> rs[i] == Ok(r.value[i])
  {
    if rs == [] then Some([])
    else match rs[0]
      case Err(_) => None
      case Ok(x) =>
        match Collect(rs[1..])
        case None => None
        case Some(xs) => Some([x] + xs)
  }

  /** The order in which the `n` futures finish: each position once. */
  predicate IsCompletionOrder(order: seq<nat>, n: nat) {
    && |order| == n
    && (forall j :: 0 <= j < |order| ==> order[j] < n)
    && (forall k :: 0 <= k < n ==> k in order)
  }

  /** `join_all` seen from the inside: futures finish in `order`, and each
      value is stored into the slot of its own position. A failure panics
      (nothing) whenever it finishes. */
  function Settle<T>(rs: seq<Result<T, FetchError>>, order: seq<nat>, slots: map<nat, T>): (r: Option<map<nat, T>>)
    requires forall j :: 0 <= j < |order| ==> order[j] < |rs|
    requires forall k :: k in slots ==> k < |rs| && rs[k] == Ok(slots[k])
    ensures r.Some? <==> forall j :: 0 <= j < |order| ==> rs[order[j]].Ok?
    ensures r.Some? ==> slots.Keys <= r.value.Keys
    ensures r.Some? ==> forall j :: 0 <= j < |order| ==> order[j] in r.value
    ensures r.Some? ==> forall k :: k in r.value ==> k < |rs| && rs[k] == Ok(r.value[k])
    decreases |order|
  {
    if order == [] then Some(slots)
    else
      var k := order[0];
      match rs[k]
      case Err(_) => None
      case Ok(x) => Settle(rs, order[1..], slots[k := x])
  }

  /** The value `join_all` yields when its futures finish in `order`. */
  function JoinInCompletionOrder<T>(rs: seq<Result<T, FetchError>>, order: seq<nat>): Option<seq<T>>
    requires IsCompletionOrder(order, |rs|)
  {
    match Settle(rs, order, map[])
    case None => None
    case Some(slots) =>
      assert forall i :: 0 <= i < |rs| ==> i in slots by {
        forall i | 0 <= i < |rs| ensures i in slots {
          assert i in order;
          var j :| 0 <= j < |order| && order[j] == i;
        }
      }
      Some(seq(|rs|, i requires 0 <= i < |rs| => slots[i]))
  }

  /** The order in which the requests finish does not change the result:
      `join_all` collects by position. */
  lemma CompletionOrderIrrelevant<T>(rs: seq<Result<T, FetchError>>, order: seq<nat>)
    requires IsCompletionOrder(order, |rs|)
    ensures JoinInCompletionOrder(rs, order) == Collect(rs)
  {
    var settled := Settle(rs, order, map[]);
    if settled.None? {
      var j :| 0 <= j < |order| && rs[order[j]].Err?;
    } else {
      forall i | 0 <= i < |rs| ensures rs[i].Ok? {
        assert i in order;
        var j :| 0 <= j < |order| && order[j] == i;
      }
      var slots := settled.value;
      var joined := JoinInCompletionOrder(rs, order).value;
      var collected := Collect(rs).value;
      assert |joined| == |collected|;
      forall i | 0 <= i < |rs| ensures joined[i] == collected[i] {
        assert i in order;
        assert joined[i] == slots[i];
      }
      assert joined == collected;
    }
  }

  /** Fetch every id, one request each, all-or-nothing and index-aligned. */
  function FetchAll<T>(ids: seq<U32>, get: string -> Option<string>, decode: string -> Option<T>): (r: Option<seq<T>>)
    ensures r.Some? <==> forall i :: 0 <= i < |ids| ==> Fetch(ItemUrl(ids[i]), get, decode).Ok?
    ensures r.Some? ==> |r.value| == |ids|
    ensures r.Some? ==> forall i :: 0 <= i < |ids| ==> Fetch(ItemUrl(ids[i]), get, decode) == Ok(r.value[i])
  {
    var rs := Responses(ItemRequests(ids), get, decode);
    assert forall i :: 0 <= i < |ids| ==> rs[i] == Fetch(ItemUrl(ids[i]), get, decode);
    Collect(rs)
  }

  /** The outcome of FetchAll depends on the network only at the requested
      addresses. */
  lemma FetchAllReadsOnlyItsRequests<T>(ids: seq<U32>, get1: string -> Option<string>, get2: string -> Option<string>, decode: string -> Option<T>)
    requires forall u :: u in ItemRequests(ids) ==> get1(u) == get2(u)
    ensures FetchAll(ids, get1, decode) == FetchAll(ids, get2, decode)
  {
    assert Responses(ItemRequests(ids), get1, decode) == Responses(ItemRequests(ids), get2, decode) by {
      forall i | 0 <= i < |ids|
        ensures get1(ItemUrl(ids[i])) == get2(ItemUrl(ids[i]))
      {
        assert ItemRequests(ids)[i] in ItemRequests(ids);
      }
    }
  }

  /** `get_data`: read the feed (its errors are returned by `?`), keep the
      first 100 ids (the slice panics on a shorter feed) and fetch each of
      them (any failure panics in its `unwrap`). */
  function GetData(get: string -> Option<string>, decodeFeed: string -> Option<seq<U32>>, decodePost: string -> Option<Post>): (r: Fetched<seq<Post>>)
    ensures r.Failed? <==> Fetch(TopStoriesUrl, get, decodeFeed).Err?
    ensures r.Failed? ==> r.error == Fetch(TopStoriesUrl, get, decodeFeed).error
    ensures r.Fetched? ==>
      var feed := Fetch(TopStoriesUrl, get, decodeFeed);
      && feed.Ok? && TopCount <= |feed.value|
      && |r.value| == TopCount
      && forall i :: 0 <= i < TopCount ==> Fetch(ItemUrl(feed.value[i]), get, decodePost) == Ok(r.value[i])
  {
    match Fetch(TopStoriesUrl, get, decodeFeed)
    case Err(e) => Failed(e)
    case Ok(feed) =>
      if |feed| < TopCount then Aborted(SliceOutOfRange(|feed|))
      else
        match FetchAll(feed[..TopCount], get, decodePost)
        case None => Aborted(ItemFailed)
        case Some(posts) => Fetched(posts)
  }

  /** A feed shorter than 100 ids panics on the slice; a feed of at least 100
      ids either yields exactly the 100 posts or panics on an item. */
  lemma GetDataSlice(get: string -> Option<string>, decodeFeed: string -> Option<seq<U32>>, decodePost: string -> Option<Post>)
    requires Fetch(TopStoriesUrl, get, decodeFeed).Ok?
    ensures var feed := Fetch(TopStoriesUrl, get, decodeFeed).value;
      |feed| < TopCount <==> GetData(get, decodeFeed, decodePost) == Aborted(SliceOutOfRange(|feed|))
    ensures var feed := Fetch(TopStoriesUrl, get, decodeFeed).value;
      TopCount <= |feed| ==>
        (GetData(get, decodeFeed, decodePost).Fetched? <==>
           forall i :: 0 <= i < TopCount ==> Fetch(ItemUrl(feed[i]), get, decodePost).Ok?)
  {
  }

  /** Only the first 100 ids matter: two feeds that agree on them give the
      same posts. */
  lemma GetDataIgnoresTail(get: string -> Option<string>, decodeFeed: string -> Option<seq<U32>>, decodeFeed': string -> Option<seq<U32>>, decodePost: string -> Option<Post>)
    requires Fetch(TopStoriesUrl, get, decodeFeed).Ok? && Fetch(TopStoriesUrl, get, decodeFeed').Ok?
    requires TopCount <= |Fetch(TopStoriesUrl, get, decodeFeed).value|
    requires TopCount <= |Fetch(TopStoriesUrl, get, decodeFeed').value|
    requires Fetch(TopStoriesUrl, get, decodeFeed).value[..TopCount] == Fetch(TopStoriesUrl, get, decodeFeed').value[..TopCount]
    ensures GetData(get, decodeFeed, decodePost) == GetData(get, decodeFeed', decodePost)
  {
  }

  /** `get_comments`: fetch each kid, all-or-nothing and index-aligned. It
      never returns an error; a failed request panics. */
  function GetComments(kids: seq<U32>, get: string -> Option<string>, decodeComment: string -> Option<Comment>): (r: Fetched<seq<Comment>>)
    ensures !r.Failed?
    ensures r.Aborted? ==> r.cause == ItemFailed
    ensures r.Fetched? <==> forall i :: 0 <= i < |kids| ==> Fetch(ItemUrl(kids[i]), get, decodeComment).Ok?
    ensures r.Fetched? ==> |r.value| == |kids|
    ensures r.Fetched? ==> forall i :: 0 <= i < |kids| ==> Fetch(ItemUrl(kids[i]), get, decodeComment) == Ok(r.value[i])
  {
    match FetchAll(kids, get, decodeComment)
    case None => Aborted(ItemFailed)
    case Some(comments) => Fetched(comments)
  }
}
