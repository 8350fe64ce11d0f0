/**
 * The feed hook: pages of questions fetched on demand, merged into the list shown so far and
 * ordered with questions by followed authors first and, within each group, newest first.
 */
module Feed {
  import opened Wrappers

  /** The author fields of a fetched row's joined profile; either may be null. */
  datatype ProfileFields = ProfileFields(name: Option<string>, avatarUrl: Option<string>)

  /** A `questions` row as the feed selects it; `createdAt` is a timestamp in milliseconds. */
  datatype FeedRow = FeedRow(id: string, authorId: string, questionText: string,
                             yesVotes: Option<int>, noVotes: Option<int>, commentsCount: Option<int>,
                             createdAt: int, profile: Option<ProfileFields>)

  /** A question as the feed shows it. */
  datatype Question = Question(id: string, authorId: string, authorName: string, avatarUrl: string,
                               questionText: string, initialYesVotes: int, initialNoVotes: int,
                               commentsCount: int, createdAt: int)

  /** The mapping applied to each fetched row. */
  function ToQuestion(q: FeedRow): (r: Question)
    ensures r.id == q.id && r.authorId == q.authorId && r.questionText == q.questionText
    ensures r.createdAt == q.createdAt
    ensures r.authorName == (if q.profile.Some? && q.profile.value.name.Some? then q.profile.value.name.value else "")
    ensures r.avatarUrl == (if q.profile.Some? && q.profile.value.avatarUrl.Some? then q.profile.value.avatarUrl.value else "")
    ensures q.yesVotes.None? ==> r.initialYesVotes == 0
    ensures q.noVotes.None? ==> r.initialNoVotes == 0
    ensures q.commentsCount.None? ==> r.commentsCount == 0
    ensures q.yesVotes.Some? ==> r.initialYesVotes == q.yesVotes.value
    ensures q.noVotes.Some? ==> r.initialNoVotes == q.noVotes.value
    ensures q.commentsCount.Some? ==> r.commentsCount == q.commentsCount.value
  {
    var name := if q.profile.Some? then q.profile.value.name.GetOr("") else "";
    var avatar := if q.profile.Some? then q.profile.value.avatarUrl.GetOr("") else "";
    Question(q.id, q.authorId, name, avatar, q.questionText,
             q.yesVotes.GetOr(0), q.noVotes.GetOr(0), q.commentsCount.GetOr(0), q.createdAt)
  }

  function MapRows(rows: seq<FeedRow>): (r: seq<Question>)
    ensures |r| == |rows|
    ensures forall i :: 0 <= i < |rows| ==> r[i] == ToQuestion(rows[i])
  {
    if rows == [] then [] else [ToQuestion(rows[0])] + MapRows(rows[1..])
  }

  // ---------------------------------------------------------------------------------------
  // The ordering

  /** 1 when the question's author is among the followed ids, 0 otherwise. */
  function FollowRank(q: Question, followed: seq<string>): int {
    if q.authorId in followed then 1 else 0
  }

  /** The comparator handed to `sort`: negative puts `a` first, positive puts `b` first. */
  function Compare(a: Question, b: Question, followed: seq<string>): (c: int)
    ensures c == 0 <==> (a.authorId in followed <==> b.authorId in followed) && a.createdAt == b.createdAt
    ensures (a.authorId in followed) != (b.authorId in followed) ==> (c < 0 <==> a.authorId in followed)
  {
    var af := FollowRank(a, followed);
    var bf := FollowRank(b, followed);
    if af != bf then bf - af else b.createdAt - a.createdAt
  }

  /** `a` may stand before `b`: the comparator does not ask for `b` to come first. */
  predicate Precedes(a: Question, b: Question, followed: seq<string>) {
    Compare(a, b, followed) <= 0
  }

  /** What the comparator means: followed authors first, then newer first. */
  lemma PrecedesMeaning(a: Question, b: Question, followed: seq<string>)
    ensures Precedes(a, b, followed) <==>
      (a.authorId in followed && b.authorId !in followed) ||
      ((a.authorId in followed <==> b.authorId in followed) && a.createdAt >= b.createdAt)
  {
  }

  /** The comparator is a total preorder, as `sort` requires of it. */
  lemma PrecedesTotal(a: Question, b: Question, followed: seq<string>)
    ensures Precedes(a, b, followed) || Precedes(b, a, followed)
  {
  }

  lemma PrecedesTransitive(a: Question, b: Question, c: Question, followed: seq<string>)
    requires Precedes(a, b, followed) && Precedes(b, c, followed)
    ensures Precedes(a, c, followed)
  {
  }

  /** Every element may stand before every later one. */
  predicate SortedBy(s: seq<Question>, followed: seq<string>) {
    forall i, j :: 0 <= i < j < |s| ==> Precedes(s[i], s[j], followed)
  }

  /** Inserts `x` before the first element it may precede. */
  function Insert(x: Question, t: seq<Question>, followed: seq<string>): (r: seq<Question>)
    requires SortedBy(t, followed)
    ensures SortedBy(r, followed)
    ensures multiset(r) == multiset(t) + multiset{x}
    ensures |r| == |t| + 1
  {
    if t == [] then [x]
    else if Precedes(x, t[0], followed) then
      forall j | 0 <= j < |t| ensures Precedes(x, t[j], followed) {
        if j > 0 { PrecedesTransitive(x, t[0], t[j], followed); }
      }
      ConsSorted(x, t, followed);
      [x] + t
    else
      var rest := Insert(x, t[1..], followed);
      assert t == [t[0]] + t[1..];
      forall j | 0 <= j < |rest| ensures Precedes(t[0], rest[j], followed) {
        FirstPrecedesInserted(x, t, rest, j, followed);
      }
      ConsSorted(t[0], rest, followed);
      [t[0]] + rest
  }

  /** A sorted list stays sorted under a new head that may stand before all of it. */
  lemma ConsSorted(h: Question, s: seq<Question>, followed: seq<string>)
    requires SortedBy(s, followed)
    requires forall j :: 0 <= j < |s| ==> Precedes(h, s[j], followed)
    ensures SortedBy([h] + s, followed)
  {
    var r := [h] + s;
    forall i, j | 0 <= i < j < |r| ensures Precedes(r[i], r[j], followed) {
      assert r[j] == s[j - 1];
      if i > 0 {
        assert r[i] == s[i - 1];
      }
    }
  }

  /** Once `x` is inserted into the tail of a sorted `t` that `x` may not head, the head of `t`
      may stand before every element of the result. */
  lemma FirstPrecedesInserted(x: Question, t: seq<Question>, rest: seq<Question>, j: int, followed: seq<string>)
    requires t != [] && SortedBy(t, followed) && !Precedes(x, t[0], followed)
    requires multiset(rest) == multiset(t[1..]) + multiset{x}
    requires 0 <= j < |rest|
    ensures Precedes(t[0], rest[j], followed)
  {
    assert rest[j] in multiset(rest);
    if rest[j] == x {
      PrecedesTotal(x, t[0], followed);
    } else {
      assert rest[j] in multiset(t[1..]);
      var k :| 0 <= k < |t[1..]| && t[1..][k] == rest[j];
      assert Precedes(t[0], t[k + 1], followed);
    }
  }

  /** The list as `sort` leaves it under the feed's comparator. */
  function SortFeed(s: seq<Question>, followed: seq<string>): (r: seq<Question>)
    ensures SortedBy(r, followed)
    ensures multiset(r) == multiset(s)
    ensures |r| == |s|
  {
    if s == [] then []
    else
      assert s == [s[0]] + s[1..];
      Insert(s[0], SortFeed(s[1..], followed), followed)
  }

  /** In a sorted list no unfollowed author's question precedes a followed author's, and within
      one group no question precedes a newer one. */
  lemma SortedFeedOrder(s: seq<Question>, followed: seq<string>, i: int, j: int)
    requires SortedBy(s, followed) && 0 <= i < j < |s|
    ensures s[j].authorId in followed ==> s[i].authorId in followed
    ensures (s[i].authorId in followed <==> s[j].authorId in followed) ==> s[i].createdAt >= s[j].createdAt
  {
    PrecedesMeaning(s[i], s[j], followed);
  }

  // ---------------------------------------------------------------------------------------
  // Loading a page

  /** How a request the hook makes turns out: a parsed body, a non-ok status, or a rejection. */
  datatype Fetch<+T> = Answered(body: T) | NotOk | Threw

  /** `fetchFollowedIds()`: the followee ids, `[]` when signed out or on a non-ok status, and
      `None` when the request rejects. */
  function FollowedIds(signedIn: bool, follows: Fetch<seq<string>>): (r: Option<seq<string>>)
    ensures r.None? <==> signedIn && follows.Threw?
    ensures signedIn && follows.Answered? ==> r == Some(follows.body)
    ensures !signedIn || follows.NotOk? ==> r == Some([])
  {
    if !signedIn then Some([])
    else match follows
      case Answered(ids) => Some(ids)
      case NotOk => Some([])
      case Threw => None
  }

  /** The hook's state. */
  datatype FeedState = FeedState(questions: seq<Question>, page: int, loading: bool, hasMore: bool)

  const Initial: FeedState := FeedState([], 0, false, true)

  /** The page size when the hook is called without one. */
  const DefaultPageSize: int := 10

  /** What a `loadMore` call did: returned at once, stopped when the follows request rejected,
      or requested the rows `from` to `to` inclusive. */
  datatype LoadOutcome = Skipped | FollowsThrew | Requested(from: int, to: int)

  /** The inclusive row range of page `page`. */
  function PageRange(page: int, pageSize: int): (r: (int, int))
    ensures r.1 - r.0 + 1 == pageSize
  {
    var from := page * pageSize;
    (from, from + pageSize - 1)
  }

  /** The guard at the top of `loadMore`. */
  predicate Ignores(st: FeedState, reset: bool, configured: bool) {
    st.loading || (!st.hasMore && !reset) || !configured
  }

  /** The state and outcome of one `loadMore(reset)` call, with the follows and page requests'
      outcomes as inputs. */
  function LoadMoreStep(st: FeedState, pageSize: int, reset: bool, configured: bool, signedIn: bool,
                        follows: Fetch<seq<string>>, fetched: Fetch<seq<FeedRow>>): (r: (FeedState, LoadOutcome))
    ensures r.1.Skipped? <==> Ignores(st, reset, configured)
    ensures r.1.Requested? ==> r.1.to - r.1.from + 1 == pageSize
  {
    if Ignores(st, reset, configured) then (st, Skipped)
    else
      var started := Started(st, reset);
      match FollowedIds(signedIn, follows)
      case None => (started, FollowsThrew)
      case Some(followed) =>
        var currentPage := if reset then 0 else st.page;
        var range := PageRange(currentPage, pageSize);
        var requested := Requested(range.0, range.1);
        match fetched
        case Threw => (started, requested)
        case NotOk => (started.(loading := false), requested)
        case Answered(rows) => (Loaded(started, currentPage, pageSize, reset, followed, rows), requested)
  }

  /** The state once the guard is passed: loading, and emptied back to page 0 on a reset. */
  function Started(st: FeedState, reset: bool): FeedState {
    if reset then FeedState([], 0, true, true) else st.(loading := true)
  }

  /** The state after page `currentPage` arrived as `rows`. */
  function Loaded(started: FeedState, currentPage: int, pageSize: int, reset: bool,
                  followed: seq<string>, rows: seq<FeedRow>): FeedState
  {
    var mapped := MapRows(rows);
    var combined := if reset then mapped else started.questions + mapped;
    FeedState(SortFeed(combined, followed), currentPage + 1, false, started.hasMore && |mapped| >= pageSize)
  }

  /** The guard: a call while loading, after the last page without a reset, or without the
      service configuration changes nothing; any other call marks the hook as loading at once. */
  lemma LoadMoreGuard(st: FeedState, pageSize: int, reset: bool, configured: bool, signedIn: bool,
                      follows: Fetch<seq<string>>, fetched: Fetch<seq<FeedRow>>)
    ensures var (st', outcome) := LoadMoreStep(st, pageSize, reset, configured, signedIn, follows, fetched);
      (outcome.Skipped? <==> st.loading || (!st.hasMore && !reset) || !configured) &&
      (outcome.Skipped? ==> st' == st) &&
      (outcome.FollowsThrew? || (outcome.Requested? && fetched.Threw?) ==> st'.loading)
  {
  }

  /** The requested range is page `currentPage`, `pageSize` rows long, where `currentPage` is 0
      on a reset and the hook's page otherwise. */
  lemma LoadMoreRange(st: FeedState, pageSize: int, reset: bool, configured: bool, signedIn: bool,
                      follows: Fetch<seq<string>>, fetched: Fetch<seq<FeedRow>>)
    requires !Ignores(st, reset, configured)
    requires !(signedIn && follows.Threw?)
    ensures var outcome := LoadMoreStep(st, pageSize, reset, configured, signedIn, follows, fetched).1;
      var currentPage := if reset then 0 else st.page;
      outcome.Requested? && outcome.from == currentPage * pageSize &&
      outcome.to == outcome.from + pageSize - 1
  {
  }

  /** A non-ok page response only clears `loading`, after the reset when there was one. */
  lemma LoadMoreNotOk(st: FeedState, pageSize: int, reset: bool, configured: bool, signedIn: bool,
                      follows: Fetch<seq<string>>)
    requires !Ignores(st, reset, configured)
    requires !(signedIn && follows.Threw?)
    ensures var st' := LoadMoreStep(st, pageSize, reset, configured, signedIn, follows, NotOk).0;
      !st'.loading &&
      (reset ==> st'.questions == [] && st'.page == 0 && st'.hasMore) &&
      (!reset ==> st'.questions == st.questions && st'.page == st.page && st'.hasMore == st.hasMore)
  {
  }

  /** A loaded page: the list becomes a permutation of the previous list followed by the new
      rows (of the new rows alone on a reset), ordered by the comparator; the page advances past
      `currentPage`, and more is expected exactly when a full page arrived. */
  lemma LoadMoreLoaded(st: FeedState, pageSize: int, reset: bool, configured: bool, signedIn: bool,
                       follows: Fetch<seq<string>>, rows: seq<FeedRow>)
    requires !Ignores(st, reset, configured)
    requires !(signedIn && follows.Threw?)
    ensures var st' := LoadMoreStep(st, pageSize, reset, configured, signedIn, follows, Answered(rows)).0;
      var followed := FollowedIds(signedIn, follows).value;
      var previous := if reset then [] else st.questions;
      multiset(st'.questions) == multiset(previous + MapRows(rows)) &&
      SortedBy(st'.questions, followed) &&
      st'.page == (if reset then 0 else st.page) + 1 &&
      (st'.hasMore <==> |rows| >= pageSize) &&
      !st'.loading
  {
    var followed := FollowedIds(signedIn, follows).value;
    var currentPage := if reset then 0 else st.page;
    var started := Started(st, reset);
    assert LoadMoreStep(st, pageSize, reset, configured, signedIn, follows, Answered(rows)).0 ==
      Loaded(started, currentPage, pageSize, reset, followed, rows);
    var previous := if reset then [] else st.questions;
    var combined := if reset then MapRows(rows) else started.questions + MapRows(rows);
    assert combined == previous + MapRows(rows);
  }

  /** The hook itself: its state, and `loadMore` updating it step by step. */
  class FeedHook {
    const pageSize: int
    var questions: seq<Question>
    var page: int
    var loading: bool
    var hasMore: bool

    function State(): FeedState
      reads this
    {
      FeedState(questions, page, loading, hasMore)
    }

    /** `useFeed(pageSize = 10)`: an empty list on page 0, not loading, more expected. */
    constructor (pageSize: Option<int>)
      ensures this.pageSize == pageSize.GetOr(DefaultPageSize) && State() == Initial
    {
      this.pageSize := pageSize.GetOr(DefaultPageSize);
      questions := [];
      page := 0;
      loading := false;
      hasMore := true;
    }

    /** The updates made once the guard is passed. */
    method Start(reset: bool)
      modifies this
      ensures State() == Started(old(State()), reset)
    {
      loading := true;
      if reset {
        page := 0;
        hasMore := true;
        questions := [];
      }
    }

    /** The updates made when page `currentPage` arrives as `rows`. */
    method Receive(reset: bool, currentPage: int, followed: seq<string>, rows: seq<FeedRow>)
      modifies this
      ensures State() == Loaded(old(State()), currentPage, pageSize, reset, followed, rows)
    {
      var mapped := MapRows(rows);
      var combined := if reset then mapped else questions + mapped;
      questions := SortFeed(combined, followed);
      if |mapped| < pageSize {
        hasMore := false;
      }
      page := currentPage + 1;
      loading := false;
    }

    /** `loadMore(reset)`, run to completion against the given request outcomes. */
    method LoadMore(reset: bool, configured: bool, signedIn: bool,
                    follows: Fetch<seq<string>>, fetched: Fetch<seq<FeedRow>>) returns (outcome: LoadOutcome)
      modifies this
      ensures State() == LoadMoreStep(old(State()), pageSize, reset, configured, signedIn, follows, fetched).0
      ensures outcome == LoadMoreStep(old(State()), pageSize, reset, configured, signedIn, follows, fetched).1
    {
      ghost var st := State();
      if loading || (!hasMore && !reset) || !configured {
        return Skipped;
      }
      var previousPage := page;
      Start(reset);
      ghost var started := State();
      var followedIds := FollowedIds(signedIn, follows);
      if followedIds.None? {
        return FollowsThrew;
      }
      var currentPage := if reset then 0 else previousPage;
      var from := currentPage * pageSize;
      var to := from + pageSize - 1;
      outcome := Requested(from, to);
      assert outcome == LoadMoreStep(st, pageSize, reset, configured, signedIn, follows, fetched).1;
      if fetched.Threw? {
        return;
      }
      if fetched.NotOk? {
        loading := false;
        return;
      }
      Receive(reset, currentPage, followedIds.value, fetched.body);
      assert State() == Loaded(started, currentPage, pageSize, reset, followedIds.value, fetched.body);
    }
  }
}
