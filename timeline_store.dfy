/**
 * The timeline store: a cursor-paginated list of posts, optionally filtered
 * by one user or one group.
 *
 * `fetchPosts` is asynchronous. Its part up to the network call is
 * `FetchPosts`, which returns the query it sends; the part after the call
 * resumes is `Receive`, which is given the call's outcome. Any other
 * operation may run in between.
 */
module TimelineStore {

  import opened Wrappers
  import opened StoreCommon

  datatype TimelinePost = TimelinePost(id: string, title: string, content: string, publishedAt: string)

  /** The response body: a page of posts and the cursor of the next page, if any. */
  datatype TimelinePage = TimelinePage(posts: seq<TimelinePost>, nextCursor: Option<string>)

  /** The query parameters of `GET /api/timeline`; `None` means the parameter is not sent. */
  datatype Query = Query(limit: int, cursor: Option<string>, userId: Option<string>, groupId: Option<string>)

  const PageSize := 20

  /**
   * The parameters `fetchPosts` sends: a page of 20, the cursor only when
   * continuing from a non-empty one, and at most one filter, the user
   * filter taking precedence.
   */
  function BuildQuery(reset: bool, nextCursor: Option<string>, userId: Option<string>, groupId: Option<string>): (q: Query)
    ensures q.limit == PageSize
    ensures q.cursor.Some? <==> !reset && NonEmpty(nextCursor)
    ensures q.cursor.Some? ==> q.cursor == nextCursor
    ensures q.userId.Some? <==> NonEmpty(userId)
    ensures q.userId.Some? ==> q.userId == userId
    ensures q.groupId.Some? <==> !NonEmpty(userId) && NonEmpty(groupId)
    ensures q.groupId.Some? ==> q.groupId == groupId
    ensures !(q.userId.Some? && q.groupId.Some?)
  {
    var cursor := if !reset && NonEmpty(nextCursor) then nextCursor else None;
    if NonEmpty(userId) then Query(PageSize, cursor, userId, None)
    else if NonEmpty(groupId) then Query(PageSize, cursor, None, groupId)
    else Query(PageSize, cursor, None, None)
  }

  /** `data.next_cursor || null`. */
  function CursorOf(page: TimelinePage): (c: Option<string>)
    ensures c.Some? <==> NonEmpty(page.nextCursor)
    ensures c.Some? ==> c == page.nextCursor
  {
    if NonEmpty(page.nextCursor) then page.nextCursor else None
  }

  /** A `setFilter` argument field: left out (`undefined`), or given, possibly as `null`. */
  datatype FilterParam = Absent | Given(value: Option<string>)

  class TimelineStore {
    var posts: seq<TimelinePost>
    var nextCursor: Option<string>
    var loading: bool
    var error: Option<string>
    var userId: Option<string>
    var groupId: Option<string>
    /** The `reset` argument of the fetch awaiting its response, if one is. */
    var inFlight: Option<bool>

    /**
     * `loading` is set exactly while a fetch awaits its response, a stored
     * cursor is never empty, and at most one filter is set.
     */
    ghost predicate Valid()
      reads this
    {
      (loading <==> inFlight.Some?) &&
      nextCursor != Some("") &&
      !(userId.Some? && groupId.Some?)
    }

    /** `hasMore`. */
    function HasMore(): (more: bool)
      reads this
      ensures more <==> nextCursor.Some?
    {
      nextCursor != None
    }

    constructor ()
      ensures Valid()
      ensures posts == [] && nextCursor == None && !loading && error == None
      ensures userId == None && groupId == None
    {
      posts := [];
      nextCursor := None;
      loading := false;
      error := None;
      userId := None;
      groupId := None;
      inFlight := None;
    }

    /**
     * The synchronous part of `fetchPosts(reset)`: nothing happens while a
     * fetch is pending or, unless resetting, when there is no next page;
     * otherwise the store starts loading, clears the error and sends the
     * query.
     */
    method FetchPosts(reset: bool) returns (sent: Option<Query>)
      requires Valid()
      modifies this
      ensures Valid()
      ensures sent.None? <==> old(loading) || (!reset && !old(HasMore()))
      ensures sent.None? ==> unchanged(this)
      ensures sent.Some? ==>
        sent.value == BuildQuery(reset, nextCursor, userId, groupId) &&
        loading && error == None && inFlight == Some(reset)
      ensures posts == old(posts) && nextCursor == old(nextCursor)
      ensures userId == old(userId) && groupId == old(groupId)
    {
      if loading || (!reset && !HasMore()) {
        return None;
      }
      loading := true;
      error := None;
      inFlight := Some(reset);
      sent := Some(BuildQuery(reset, nextCursor, userId, groupId));
    }

    /**
     * The rest of `fetchPosts`, once the call settles: a failure records its
     * text and keeps the posts and cursor; data replaces the posts after a
     * reset fetch and is appended after the others otherwise; loading ends
     * in every case.
     */
    method Receive(outcome: ApiOutcome<TimelinePage>)
      requires Valid() && inFlight.Some?
      modifies this
      ensures Valid()
      ensures !loading
      ensures outcome.Data? ==>
        posts == (if old(inFlight.value) then outcome.value.posts else old(posts) + outcome.value.posts) &&
        nextCursor == CursorOf(outcome.value) && error == old(error)
      ensures !outcome.Data? ==> posts == old(posts) && nextCursor == old(nextCursor)
      ensures outcome.ErrorBody? || outcome.Thrown? ==> error == FailureText(outcome, "Failed to fetch timeline")
      ensures outcome.NoData? ==> error == old(error)
      ensures userId == old(userId) && groupId == old(groupId)
    {
      match outcome {
        case ErrorBody(message) =>
          error := Some(MessageOr(message, "Failed to fetch timeline"));
        case Thrown(thrown) =>
          error := Some(ThrownText(thrown));
        case NoData =>
        case Data(page) =>
          if inFlight.value {
            posts := page.posts;
          } else {
            posts := posts + page.posts;
          }
          nextCursor := CursorOf(page);
      }
      loading := false;
      inFlight := None;
    }

    /** `reset`: clears the list, the cursor and the error, then starts a reset fetch. */
    method Reset() returns (sent: Option<Query>)
      requires Valid()
      modifies this
      ensures Valid()
      ensures posts == [] && nextCursor == None && loading
      ensures sent.None? <==> old(loading)
      ensures sent.None? ==> error == None && inFlight == old(inFlight)
      ensures sent.Some? ==> sent.value == BuildQuery(true, None, userId, groupId) && error == None && inFlight == Some(true)
      ensures userId == old(userId) && groupId == old(groupId)
    {
      posts := [];
      nextCursor := None;
      error := None;
      sent := FetchPosts(true);
    }

    /** `setFilter`: a given user filter clears the group filter, else a given group filter clears the user filter; then `reset`. */
    method SetFilter(user: FilterParam, group: FilterParam) returns (sent: Option<Query>)
      requires Valid()
      modifies this
      ensures Valid()
      ensures user.Given? ==> userId == user.value && groupId == None
      ensures user.Absent? && group.Given? ==> groupId == group.value && userId == None
      ensures user.Absent? && group.Absent? ==> userId == old(userId) && groupId == old(groupId)
      ensures posts == [] && nextCursor == None && error == None && loading
      ensures sent.None? <==> old(loading)
      ensures sent.None? ==> inFlight == old(inFlight)
      ensures sent.Some? ==> sent.value == BuildQuery(true, None, userId, groupId) && inFlight == Some(true)
    {
      if user.Given? {
        userId := user.value;
        groupId := None;
      } else if group.Given? {
        groupId := group.value;
        userId := None;
      }
      sent := Reset();
    }

    /** `loadMore`: fetches the next page only when there is one and nothing is loading. */
    method LoadMore() returns (sent: Option<Query>)
      requires Valid()
      modifies this
      ensures Valid()
      ensures sent.Some? <==> old(HasMore()) && !old(loading)
      ensures sent.Some? ==> sent.value.cursor == old(nextCursor) && loading && inFlight == Some(false)
      ensures sent.Some? ==> sent.value == BuildQuery(false, old(nextCursor), old(userId), old(groupId)) && error == None
      ensures sent.None? ==> unchanged(this)
      ensures posts == old(posts) && nextCursor == old(nextCursor)
      ensures userId == old(userId) && groupId == old(groupId)
    {
      if HasMore() && !loading {
        sent := FetchPosts(false);
      } else {
        sent := None;
      }
    }
  }

  /**
   * A filter change while the first filter's fetch is still pending: the
   * second fetch is skipped, and the first filter's posts arrive under the
   * second filter.
   */
  method FilterChangeWhilePending(page: TimelinePage) returns (first: Option<Query>, second: Option<Query>, store: TimelineStore)
    ensures first.Some? && first.value.userId == Some("alice")
    ensures second.None?
    ensures store.userId == Some("bob") && store.posts == page.posts && !store.loading
  {
    store := new TimelineStore();
    first := store.SetFilter(Given(Some("alice")), Absent);
    second := store.SetFilter(Given(Some("bob")), Absent);
    store.Receive(Data(page));
  }
}
