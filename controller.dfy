/** The event loop of src/main.rs: the state it keeps between key presses
    (the post list with its list selection, `selected_post_index`, the
    loaded comments, and whether the loop is still running) and what one
    `Event` does to that state.

    Its collaborators are parameters (`Env`): the network and the comment
    decoder used by `get_comments`, the URL opener `open::that`, and the
    selection moves `next`/`previous` of the list widget, of which only one
    promise is used: on a non-empty list they select an index in range. */
module Controller {
  import opened Wrappers
  import opened HackerNews
  import Format

  const ItemPagePrefix: string := "https://news.ycombinator.com/item?id="

  /** The discussion page of an item on news.ycombinator.com; it leads
      back to the item's id. */
  function ItemPageUrl(id: nat): (url: string)
    ensures ItemPageId(url) == Some(id)
  {
    var url := ItemPagePrefix + Format.Decimal(id);
    assert url[..|ItemPagePrefix|] == ItemPagePrefix;
    assert url[|ItemPagePrefix|..] == Format.Decimal(id);
    Format.ParseDecimalInverts(id);
    url
  }

  /** The id an item page address points at, if it is one. */
  function ItemPageId(url: string): Option<nat> {
    var n := |ItemPagePrefix|;
    if n < |url| && url[..n] == ItemPagePrefix && Format.IsDigits(url[n..])
    then Some(Format.ParseDecimal(url[n..]))
    else None
  }

  /** The link of a post: its own `url`, or else its item page. It is what
      the "Url" line of the post info shows and what Right opens. */
  function PostLink(p: Post): (link: string)
    ensures p.url.Some? ==> link == p.url.value
    ensures p.url.None? ==> ItemPageId(link) == Some(p.id)
  {
    if p.url.Some? then p.url.value else ItemPageUrl(p.id)
  }

  /** The "Total Comments" line: the `descendants` count, or 0 without one. */
  function TotalComments(p: Post): (n: U32)
    ensures p.descendants.Some? ==> n == p.descendants.value
    ensures n == 0 <==> p.descendants.None? || p.descendants == Some(0)
  {
    if p.descendants.Some? then p.descendants.value else 0
  }

  /** The keys of termion that the loop tells apart; every other key is
      `OtherKey`. */
  datatype Key = Char(c: char) | Left | Right | Up | Down | OtherKey

  datatype Event = Input(key: Key) | Tick

  /** What `open::that` reports. */
  datatype Opened = Opened | OpenError(message: string)

  datatype Env = Env(
    get: string -> Option<string>,
    decodeComment: string -> Option<Comment>,
    open: string -> Opened,
    next: (nat, Option<nat>) -> Option<nat>,
    previous: (nat, Option<nat>) -> Option<nat>)

  predicate SelectsWithin(selection: Option<nat>, n: nat) {
    selection.Some? && selection.value < n
  }

  /** The one promise of the list widget's `next` and `previous` used here:
      on a list of `n > 0` items they select an index below `n`. */
  ghost predicate MovesInBounds(env: Env) {
    forall n: nat, selection: Option<nat> ::
      0 < n ==> SelectsWithin(env.next(n, selection), n) && SelectsWithin(env.previous(n, selection), n)
  }

  /** Why the process panics. */
  datatype Panic =
    | NoSelection                       // `unwrap` of an empty selection
    | SelectionOutOfRange(index: nat)   // `unwrap` of `items.get(index)`
    | FetchAborted(abort: Abort)        // a panic inside `get_data` or `get_comments`
    | ErrorUnwrapped(error: FetchError) // `unwrap` of the `Err` that `get_data` returns

  /** The panic an unsuccessful fetch ends in: its own abort, or the
      caller's `unwrap` of the error it returned. */
  function FetchPanic<T>(f: Fetched<T>): (p: Panic)
    requires !f.Fetched?
    ensures f.Failed? <==> p.ErrorUnwrapped?
    ensures f.Failed? ==> p == ErrorUnwrapped(f.error)
    ensures f.Aborted? ==> p == FetchAborted(f.cause)
  {
    match f
    case Failed(e) => ErrorUnwrapped(e)
    case Aborted(a) => FetchAborted(a)
  }

  /** The error `main` returns through `?`. */
  datatype Exit = OpenFailed(message: string)

  datatype Status = Running | Quit | Exited(error: Exit) | Panicked(cause: Panic)

  /** Everything the loop keeps between events. */
  datatype State = State(
    posts: seq<Post>,           // hn_posts_list.items.items
    selected: Option<nat>,      // hn_posts_list.items.state.selected()
    selectedPostIndex: nat,     // selected_post_index
    comments: seq<Comment>,     // hn_posts_list.selected_post_comments
    status: Status)

  /** What the loop asks of the outside world. */
  datatype Effect = Open(url: string) | FetchComments(kids: seq<U32>)

  datatype Turn = Turn(after: State, effects: seq<Effect>)

  /** The selection always points into the list, and so does the index the
      post info is drawn from. */
  predicate Consistent(s: State) {
    && (s.selected.Some? ==> s.selected.value < |s.posts|)
    && s.selectedPostIndex < |s.posts|
  }

  /** The state before the first event: the fetched posts (an unsuccessful
      `get_data` panics on its `unwrap`), the list's initial selection, index
      0 and no comments. */
  function Boot(data: Fetched<seq<Post>>, initialSelection: Option<nat>): (s: State)
    ensures s.status.Running? <==> data.Fetched?
    ensures data.Fetched? ==> s.posts == data.value && s.selected == initialSelection
    ensures s.selectedPostIndex == 0 && s.comments == []
    ensures data.Failed? ==> s.status == Panicked(ErrorUnwrapped(data.error))
    ensures data.Aborted? ==> s.status == Panicked(FetchAborted(data.cause))
  {
    match data
    case Fetched(posts) => State(posts, initialSelection, 0, [], Running)
    case _ => State([], None, 0, [], Panicked(FetchPanic(data)))
  }

  /** A successful start shows exactly the 100 fetched top posts with the
      list's initial selection, index 0 and nothing loaded; with an initial
      selection in range (or none) it is consistent. A feed request that
      fails panics on `main`'s `unwrap` with that error. */
  lemma BootShowsTopPosts(get: string -> Option<string>, decodeFeed: string -> Option<seq<U32>>,
                          decodePost: string -> Option<Post>, initialSelection: Option<nat>)
    requires initialSelection.None? || initialSelection.value < TopCount
    ensures var s := Boot(GetData(get, decodeFeed, decodePost), initialSelection);
      s.status.Running? ==>
        && s.posts == GetData(get, decodeFeed, decodePost).value && |s.posts| == TopCount
        && s.selectedPostIndex == 0 && s.selected == initialSelection
        && s.comments == [] && Consistent(s)
    ensures var s := Boot(GetData(get, decodeFeed, decodePost), initialSelection);
      s.status.Running? <==> GetData(get, decodeFeed, decodePost).Fetched?
    ensures var s := Boot(GetData(get, decodeFeed, decodePost), initialSelection);
      Fetch(TopStoriesUrl, get, decodeFeed).Err? ==>
        s.status == Panicked(ErrorUnwrapped(Fetch(TopStoriesUrl, get, decodeFeed).error))
  {
  }

  /** The selected post, or the panic of unwrapping a missing selection or
      a selection past the end of the list. */
  function SelectedPost(s: State): (r: Result<Post, Panic>)
    ensures r.Ok? <==> SelectsWithin(s.selected, |s.posts|)
    ensures r.Ok? ==> r.value == s.posts[s.selected.value]
  {
    match s.selected
    case None => Err(NoSelection)
    case Some(i) => if i < |s.posts| then Ok(s.posts[i]) else Err(SelectionOutOfRange(i))
  }

  /** `open::that(url)?`: an error ends the loop with that error. */
  function Launch(s: State, url: string, env: Env): (r: Turn)
    ensures r.effects == [Open(url)]
    ensures r.after.(status := s.status) == s
    ensures env.open(url).Opened? ==> r.after == s
    ensures env.open(url).OpenError? ==> r.after.status == Exited(OpenFailed(env.open(url).message))
  {
    match env.open(url)
    case Opened => Turn(s, [Open(url)])
    case OpenError(message) => Turn(s.(status := Exited(OpenFailed(message))), [Open(url)])
  }

  /** After `next()`/`previous()`: the new selection is copied into
      `selected_post_index`, and an empty one panics on its `unwrap`. */
  function Moved(s: State, selection: Option<nat>): (r: Turn)
    ensures r.effects == [] && r.after.selected == selection
    ensures r.after.posts == s.posts && r.after.comments == s.comments
    ensures selection.Some? ==> r.after.status == s.status && r.after.selectedPostIndex == selection.value
    ensures selection.None? ==> r.after.status == Panicked(NoSelection) && r.after.selectedPostIndex == s.selectedPostIndex
  {
    match selection
    case None => Turn(s.(selected := selection, status := Panicked(NoSelection)), [])
    case Some(i) => Turn(s.(selected := selection, selectedPostIndex := i), [])
  }

  /** Key 'c': load the comments of the selected post if it has kids. */
  function LoadComments(s: State, env: Env): (r: Turn)
    ensures r.after.(comments := s.comments, status := s.status) == s
    ensures SelectedPost(s).Err? ==> r == Turn(s.(status := Panicked(SelectedPost(s).error)), [])
    ensures r.effects != [] <==> SelectedPost(s).Ok? && SelectedPost(s).value.kids.Some?
    ensures r.effects != [] ==> r.effects == [FetchComments(SelectedPost(s).value.kids.value)]
    ensures r.after.comments != s.comments ==> r.after.status == s.status && r.effects != []
  {
    match SelectedPost(s)
    case Err(cause) => Turn(s.(status := Panicked(cause)), [])
    case Ok(post) =>
      match post.kids
      case None => Turn(s, [])
      case Some(kids) =>
        var fetched := GetComments(kids, env.get, env.decodeComment);
        if fetched.Fetched? then Turn(s.(comments := fetched.value), [FetchComments(kids)])
        else Turn(s.(status := Panicked(FetchPanic(fetched))), [FetchComments(kids)])
  }

  /** One turn of the `match events.next()?` dispatch. */
  function Transition(s: State, e: Event, env: Env): (r: Turn)
    requires s.status.Running?
    ensures r.after.posts == s.posts
    ensures |r.effects| <= 1
    ensures r.effects != [] ==> e.Input? && e.key in {Left, Right, Char('c')}
    ensures r.after.comments != s.comments ==> e == Input(Char('c'))
    ensures r.after.selected != s.selected ==> e == Input(Down) || e == Input(Up)
  {
    match e
    case Tick => Turn(s, [])
    case Input(key) =>
      match key
      case Char(c) =>
        if c == 'q' then Turn(s.(status := Quit), [])
        else if c == 'c' then LoadComments(s, env)
        else Turn(s, [])
      case Left =>
        (match SelectedPost(s)
         case Err(cause) => Turn(s.(status := Panicked(cause)), [])
         case Ok(post) => Launch(s, ItemPageUrl(post.id), env))
      case Down => Moved(s, env.next(|s.posts|, s.selected))
      case Up => Moved(s, env.previous(|s.posts|, s.selected))
      case Right =>
        (match SelectedPost(s)
         case Err(cause) => Turn(s.(status := Panicked(cause)), [])
         case Ok(post) => Launch(s, PostLink(post), env))
      case OtherKey => Turn(s, [])
  }

  /** The loop body: the dispatch while the loop runs, nothing after it. */
  function Dispatch(env: Env): (State, Event) -> Turn {
    (s: State, e: Event) => if s.status.Running? then Transition(s, e, env) else Turn(s, [])
  }

  /** Repeats `step` over the events, stopping at the first event after
      which the loop is no longer running. */
  function Iterate(step: (State, Event) -> Turn, s: State, inbox: seq<Event>): (r: Turn)
    ensures !s.status.Running? ==> r == Turn(s, [])
    ensures r.after.status.Running? ==> s.status.Running?
    decreases |inbox|
  {
    if inbox == [] || !s.status.Running? then Turn(s, [])
    else
      var first := step(s, inbox[0]);
      var rest := Iterate(step, first.after, inbox[1..]);
      Turn(rest.after, first.effects + rest.effects)
  }

  /** The loop over a finite prefix of the event stream. */
  function Run(s: State, inbox: seq<Event>, env: Env): (r: Turn)
    ensures r.after.posts == s.posts
    ensures |r.effects| <= |inbox|
    ensures !s.status.Running? ==> r == Turn(s, [])
  {
    IterateKeepsPosts(Dispatch(env), s, inbox, env);
    Iterate(Dispatch(env), s, inbox)
  }

  // ---- One event ----

  /** 'q' ends the loop and leaves posts, selection and comments as they
      were. */
  lemma QuitKeepsState(s: State, env: Env)
    requires s.status.Running?
    ensures Transition(s, Input(Char('q')), env) == Turn(s.(status := Quit), [])
  {
  }

  /** Down and Up leave `selected_post_index` equal to the new selection; on
      a non-empty list the selection is in range and nothing panics. */
  lemma MoveSyncsIndex(s: State, key: Key, env: Env)
    requires s.status.Running? && (key == Down || key == Up)
    ensures var a := Transition(s, Input(key), env).after;
      && a.posts == s.posts && a.comments == s.comments
      && a.selected == (if key == Down then env.next(|s.posts|, s.selected) else env.previous(|s.posts|, s.selected))
      && (a.selected.Some? ==> a.status.Running? && a.selectedPostIndex == a.selected.value)
      && (a.selected.None? ==> a.status == Panicked(NoSelection))
    ensures MovesInBounds(env) && 0 < |s.posts| ==>
      var a := Transition(s, Input(key), env).after;
      a.status.Running? && SelectsWithin(a.selected, |s.posts|)
    ensures Transition(s, Input(key), env).effects == []
  {
  }

  /** 'c' on a post with kids replaces the comments by exactly the fetched
      ones, in the order of the kids, whatever was loaded before. */
  lemma LoadReplacesComments(s: State, env: Env)
    requires s.status.Running? && SelectedPost(s).Ok? && SelectedPost(s).value.kids.Some?
    ensures var kids := SelectedPost(s).value.kids.value;
      var r := Transition(s, Input(Char('c')), env);
      && r.effects == [FetchComments(kids)]
      && (r.after.status.Running? <==> GetComments(kids, env.get, env.decodeComment).Fetched?)
      && (r.after.status.Running? ==>
            && r.after == s.(comments := r.after.comments)
            && |r.after.comments| == |kids|
            && forall i :: 0 <= i < |kids| ==>
                 Fetch(ItemUrl(kids[i]), env.get, env.decodeComment) == Ok(r.after.comments[i]))
      && (!r.after.status.Running? ==> r.after == s.(status := Panicked(FetchAborted(ItemFailed))))
  {
  }

  /** 'c' on a post without kids fetches nothing and changes nothing. */
  lemma NoKidsNoFetch(s: State, env: Env)
    requires s.status.Running? && SelectedPost(s).Ok? && SelectedPost(s).value.kids.None?
    ensures Transition(s, Input(Char('c')), env) == Turn(s, [])
  {
  }

  /** Right opens the post's link (its url, or else its item page) and
      changes nothing, unless the opener fails, which ends the loop with its
      error. */
  lemma RightOpensLink(s: State, env: Env)
    requires s.status.Running? && SelectedPost(s).Ok?
    ensures var post := SelectedPost(s).value;
      var r := Transition(s, Input(Right), env);
      && r.effects == [Open(PostLink(post))]
      && (post.url.Some? ==> r.effects == [Open(post.url.value)])
      && (post.url.None? ==> r.effects == [Open(ItemPageUrl(post.id))])
      && (env.open(PostLink(post)).Opened? ==> r.after == s)
      && (env.open(PostLink(post)).OpenError? ==>
            r.after == s.(status := Exited(OpenFailed(env.open(PostLink(post)).message))))
  {
  }

  /** Left always opens the selected post's item page, whatever its url. */
  lemma LeftOpensItemPage(s: State, env: Env)
    requires s.status.Running? && SelectedPost(s).Ok?
    ensures var post := SelectedPost(s).value;
      var r := Transition(s, Input(Left), env);
      && r.effects == [Open(ItemPageUrl(post.id))]
      && ItemPageId(r.effects[0].url) == Some(post.id)
      && (env.open(ItemPageUrl(post.id)).Opened? ==> r.after == s)
      && (env.open(ItemPageUrl(post.id)).OpenError? ==>
            r.after == s.(status := Exited(OpenFailed(env.open(ItemPageUrl(post.id)).message))))
  {
  }

  /** Left, Right and 'c' panic without a selection, and only then or on a
      selection out of range. */
  lemma SelectionUnwrap(s: State, key: Key, env: Env)
    requires s.status.Running? && (key == Left || key == Right || key == Char('c'))
    ensures s.selected.None? ==> Transition(s, Input(key), env) == Turn(s.(status := Panicked(NoSelection)), [])
    ensures Consistent(s) && s.selected.Some? ==>
      var a := Transition(s, Input(key), env).after;
      a.status.Panicked? ==> key == Char('c') && a.status.cause == FetchAborted(ItemFailed)
  {
  }

  /** Ticks and unbound keys change nothing and ask for nothing. */
  lemma IdleEventsChangeNothing(s: State, e: Event, env: Env)
    requires s.status.Running?
    requires e == Tick || e == Input(OtherKey) || (e.Input? && e.key.Char? && e.key.c != 'q' && e.key.c != 'c')
    ensures Transition(s, e, env) == Turn(s, [])
  {
  }

  /** No event changes the posts, and every event keeps a consistent state
      consistent. */
  lemma TransitionPreservesConsistent(s: State, e: Event, env: Env)
    requires s.status.Running? && Consistent(s) && MovesInBounds(env)
    ensures Transition(s, e, env).after.posts == s.posts
    ensures Consistent(Transition(s, e, env).after)
  {
    if e.Input? && (e.key == Down || e.key == Up) {
      MoveSyncsIndex(s, e.key, env);
    }
  }

  // ---- A run of events ----

  lemma RunPreservesConsistent(s: State, inbox: seq<Event>, env: Env)
    requires Consistent(s) && MovesInBounds(env)
    ensures Run(s, inbox, env).after.posts == s.posts
    ensures Consistent(Run(s, inbox, env).after)
  {
    IterateKeepsConsistent(Dispatch(env), s, inbox, env);
  }

  lemma {:induction false} IterateKeepsConsistent(step: (State, Event) -> Turn, s: State, inbox: seq<Event>, env: Env)
    requires step == Dispatch(env) && Consistent(s) && MovesInBounds(env)
    ensures Iterate(step, s, inbox).after.posts == s.posts
    ensures Consistent(Iterate(step, s, inbox).after)
    decreases |inbox|
  {
    if inbox != [] && s.status.Running? {
      TransitionPreservesConsistent(s, inbox[0], env);
      IterateKeepsConsistent(step, step(s, inbox[0]).after, inbox[1..], env);
    }
  }

  /** No turn of the loop changes the posts, and each asks for at most one
      effect. */
  lemma {:induction false} IterateKeepsPosts(step: (State, Event) -> Turn, s: State, inbox: seq<Event>, env: Env)
    requires step == Dispatch(env)
    ensures Iterate(step, s, inbox).after.posts == s.posts
    ensures |Iterate(step, s, inbox).effects| <= |inbox|
    decreases |inbox|
  {
    if inbox != [] && s.status.Running? {
      IterateKeepsPosts(step, step(s, inbox[0]).after, inbox[1..], env);
    }
  }

  /** The loop stops at 'q': later events are never looked at. */
  lemma RunStopsAtQuit(s: State, before: seq<Event>, after: seq<Event>, env: Env)
    requires Run(s, before, env).after.status.Running?
    ensures Run(s, before + [Input(Char('q'))] + after, env) ==
      var r := Run(s, before, env);
      Turn(r.after.(status := Quit), r.effects)
  {
    var tail := [Input(Char('q'))] + after;
    assert before + [Input(Char('q'))] + after == before + tail;
    IterateSplits(Dispatch(env), s, before, tail);
    var r := Run(s, before, env);
    assert tail[1..] == after;
    assert Run(r.after, tail, env) == Turn(r.after.(status := Quit), []);
    assert r.effects + [] == r.effects;
  }

  /** Running two stretches of events one after the other is running their
      concatenation. */
  lemma {:induction false} IterateSplits(step: (State, Event) -> Turn, s: State, xs: seq<Event>, ys: seq<Event>)
    ensures Iterate(step, s, xs + ys) ==
      var r := Iterate(step, s, xs);
      var t := Iterate(step, r.after, ys);
      Turn(t.after, r.effects + t.effects)
    decreases |xs|
  {
    if xs == [] {
      assert xs + ys == ys;
    } else if s.status.Running? {
      var first := step(s, xs[0]);
      assert (xs + ys)[0] == xs[0];
      assert (xs + ys)[1..] == xs[1..] + ys;
      IterateSplits(step, first.after, xs[1..], ys);
      var r := Iterate(step, first.after, xs[1..]);
      var t := Iterate(step, r.after, ys);
      assert first.effects + (r.effects + t.effects) == (first.effects + r.effects) + t.effects;
    }
  }

  // ---- The loop in place ----

  /** The loop's state, updated in place as `main` does. */
  class App {
    var posts: seq<Post>
    var selected: Option<nat>
    var selectedPostIndex: nat
    var comments: seq<Comment>
    var status: Status

    function Model(): State
      reads this
    {
      State(posts, selected, selectedPostIndex, comments, status)
    }

    constructor (data: Fetched<seq<Post>>, initialSelection: Option<nat>)
      ensures Model() == Boot(data, initialSelection)
    {
      if data.Fetched? {
        posts, selected, status := data.value, initialSelection, Running;
      } else {
        posts, selected, status := [], None, Panicked(FetchPanic(data));
      }
      selectedPostIndex := 0;
      comments := [];
    }

    /** `open::that(url)?`. */
    method OpenLink(url: string, env: Env) returns (effects: seq<Effect>)
      modifies this
      ensures Model() == Launch(old(Model()), url, env).after
      ensures effects == Launch(old(Model()), url, env).effects
    {
      effects := [Open(url)];
      var outcome := env.open(url);
      if outcome.OpenError? {
        status := Exited(OpenFailed(outcome.message));
      }
    }

    /** One event. */
    method Step(e: Event, env: Env) returns (effects: seq<Effect>)
      requires status.Running?
      modifies this
      ensures Model() == Transition(old(Model()), e, env).after
      ensures effects == Transition(old(Model()), e, env).effects
    {
      effects := [];
      if e.Tick? {
        return;
      }
      match e.key {
        case Char(c) =>
          if c == 'q' {
            status := Quit;
          } else if c == 'c' {
            var chosen := SelectedPost(Model());
            if chosen.Err? {
              status := Panicked(chosen.error);
            } else if chosen.value.kids.Some? {
              var kids := chosen.value.kids.value;
              effects := [FetchComments(kids)];
              var fetched := GetComments(kids, env.get, env.decodeComment);
              if fetched.Fetched? {
                comments := fetched.value;
              } else {
                status := Panicked(FetchPanic(fetched));
              }
            }
          }
        case Left =>
          var chosen := SelectedPost(Model());
          if chosen.Err? {
            status := Panicked(chosen.error);
          } else {
            effects := OpenLink(ItemPageUrl(chosen.value.id), env);
          }
        case Down =>
          selected := env.next(|posts|, selected);
          if selected.Some? {
            selectedPostIndex := selected.value;
          } else {
            status := Panicked(NoSelection);
          }
        case Up =>
          selected := env.previous(|posts|, selected);
          if selected.Some? {
            selectedPostIndex := selected.value;
          } else {
            status := Panicked(NoSelection);
          }
        case Right =>
          var chosen := SelectedPost(Model());
          if chosen.Err? {
            status := Panicked(chosen.error);
          } else {
            effects := OpenLink(PostLink(chosen.value), env);
          }
        case OtherKey =>
      }
    }

    /** The `loop`: handle events until one ends it or they run out. */
    method RunLoop(inbox: seq<Event>, env: Env) returns (effects: seq<Effect>)
      modifies this
      ensures Turn(Model(), effects) == Run(old(Model()), inbox, env)
    {
      effects := [];
      var i := 0;
      while i < |inbox| && status.Running?
        invariant 0 <= i <= |inbox|
        invariant var r := Run(Model(), inbox[i..], env);
          Run(old(Model()), inbox, env) == Turn(r.after, effects + r.effects)
        decreases |inbox| - i
      {
        assert inbox[i..][1..] == inbox[i + 1..];
        var more := Step(inbox[i], env);
        effects := effects + more;
        i := i + 1;
      }
    }
  }
}
