/** ListUsersUseCase
    (src/application/use-cases/queries/list-users/list-users.use-case.ts):
    one page of users, optionally only those with one status, with the
    pagination figures. */
module ListUsersUseCase {
  import opened Wrappers
  import opened Exceptions
  import opened Ports
  import opened UserAggregateRoot
  import opened PortToDomainMapper
  import S = UserStatusValueObject

  const DefaultPage: int := 1
  const DefaultLimit: int := 10

  datatype ListUsersQuery = ListUsersQuery(status: Option<int>, page: Option<int>, limit: Option<int>)

  datatype UserSummary = UserSummary(id: string, email: string, fullName: string, status: string, createdAt: int)

  datatype Pagination = Pagination(total: nat, page: int, limit: int, totalPages: nat)

  datatype ListUsersResult = ListUsersResult(users: seq<UserSummary>, pagination: Pagination)

  /** `Math.ceil(total / limit)`: the fewest pages of `limit` rows that hold
      `total` rows. */
  function CeilDiv(total: nat, limit: int): (pages: nat)
    requires limit >= 1
    ensures total <= pages * limit
    ensures pages == 0 || (pages - 1) * limit < total
    ensures pages == 0 <==> total == 0
  {
    if total == 0 then 0 else 1 + CeilDiv(if total <= limit then 0 else total - limit, limit)
  }

  /** The fields a listed user shows. */
  function SummaryOf(d: UserData): UserSummary {
    UserSummary(d.id, d.email.ToString(), d.fullName.ToString(), d.status.ToString(), d.createdAt)
  }

  /** A record that rebuilds into a user. */
  predicate IsReadable(o: UserRecord) {
    ToUserData(o).Success?
  }

  /** What each record rebuilds into: the user, or the error that stops
      the listing. */
  function Rebuilt(records: seq<UserRecord>): (r: seq<Result<UserData, Error>>)
    ensures |r| == |records|
    ensures forall k {:trigger r[k]} | 0 <= k < |records| :: r[k] == ToUserData(records[k])
  {
    seq(|records|, k requires 0 <= k < |records| => ToUserData(records[k]))
  }

  /** The position of the first result that is not a user, if any. */
  function FirstUnreadable(results: seq<Result<UserData, Error>>): (r: Option<nat>)
    ensures r.Some? ==> r.value < |results| && results[r.value].Failure?
    ensures r.Some? ==> forall j | 0 <= j < r.value :: results[j].Success?
    ensures r.None? <==> forall j | 0 <= j < |results| :: results[j].Success?
  {
    if results == [] then None
    else if results[0].Failure? then Some(0)
    else
      var rest := FirstUnreadable(results[1..]);
      assert forall j | 1 <= j < |results| :: results[j] == results[1..][j - 1];
      if rest.None? then None else Some(rest.value + 1)
  }

  /** The summaries of rebuilt records, in order; the first result that is
      not a user stops the listing with its error. */
  function Summaries(results: seq<Result<UserData, Error>>): (r: Result<seq<UserSummary>, Error>)
    ensures r.Failure? <==> FirstUnreadable(results).Some?
    ensures r.Failure? ==> r.error == results[FirstUnreadable(results).value].error
    ensures r.Success? ==>
              && |r.value| == |results|
              && forall k {:trigger r.value[k]} | 0 <= k < |results| ::
                   results[k].Success? && r.value[k] == SummaryOf(results[k].value)
  {
    var bad := FirstUnreadable(results);
    if bad.Some? then Failure(results[bad.value].error)
    else Success(seq(|results|, k requires 0 <= k < |results| => SummaryOf(results[k].value)))
  }

  /** ListUsersUseCase.execute. A missing page is 1, a missing limit 10. */
  function Execute(store: UserStore, query: ListUsersQuery): (r: Result<ListUsersResult, Error>)
    reads store
    ensures var found := store.FindAll(query.status, query.page.GetOr(DefaultPage), query.limit.GetOr(DefaultLimit));
            && (found.Failure? ==> r == Failure(found.error))
            && (found.Success? ==> (r.Failure? <==> Summaries(Rebuilt(found.value.users)).Failure?))
    ensures r.Success? ==>
              var p := r.value.pagination;
              && p.page == query.page.GetOr(DefaultPage) && p.limit == query.limit.GetOr(DefaultLimit)
              && p.page >= 1 && p.limit >= 1
              && p.total == |WithStatus(store.rows, query.status)|
              && p.totalPages == CeilDiv(p.total, p.limit)
              && |r.value.users| <= p.limit
  {
    var page := query.page.GetOr(DefaultPage);
    var limit := query.limit.GetOr(DefaultLimit);
    var found :- store.FindAll(query.status, page, limit);
    var users :- Summaries(Rebuilt(found.users));
    Success(ListUsersResult(users, Pagination(found.total, page, limit, CeilDiv(found.total, limit))))
  }

  // ---------------------------------------------------------------------

  /** The k-th listed user is the k-th record of the page findAll read
      (the requested page of the matching records), rebuilt. */
  lemma ListedUsersAreThePage(store: UserStore, query: ListUsersQuery, k: int)
    requires Execute(store, query).Success?
    requires 0 <= k < |Execute(store, query).value.users|
    ensures var rows := store.FindAll(query.status, query.page.GetOr(DefaultPage), query.limit.GetOr(DefaultLimit));
            && rows.Success? && k < |rows.value.users|
            && rows.value.users == PageOf(WithStatus(store.rows, query.status),
                                          Skip(query.page.GetOr(DefaultPage), query.limit.GetOr(DefaultLimit)),
                                          query.limit.GetOr(DefaultLimit))
            && IsReadable(rows.value.users[k])
            && Execute(store, query).value.users[k] == SummaryOf(ToUserData(rows.value.users[k]).value)
  {
    var page := query.page.GetOr(DefaultPage);
    var limit := query.limit.GetOr(DefaultLimit);
    var matching := WithStatus(store.rows, query.status);
    var users := PageOf(matching, Skip(page, limit), limit);
    assert store.FindAll(query.status, page, limit) == Success(UsersPage(users, |matching|));
    var results := Rebuilt(users);
    assert Execute(store, query).value.users == Summaries(results).value;
    assert users[k] == matching[Skip(page, limit) + k];
    assert results[k] == ToUserData(users[k]);
  }

  /** A page that was read fails to list exactly when one of its records
      does not rebuild, and then with the error of the first such record. */
  lemma UnreadableRecordStopsListing(store: UserStore, query: ListUsersQuery)
    requires store.FindAll(query.status, query.page.GetOr(DefaultPage), query.limit.GetOr(DefaultLimit)).Success?
    ensures var rows := store.FindAll(query.status, query.page.GetOr(DefaultPage), query.limit.GetOr(DefaultLimit)).value.users;
            && (Execute(store, query).Failure? <==> exists k | 0 <= k < |rows| :: !IsReadable(rows[k]))
            && (Execute(store, query).Failure? ==>
                  exists k | 0 <= k < |rows| ::
                    && !IsReadable(rows[k]) && Execute(store, query).error == ToUserData(rows[k]).error
                    && forall j | 0 <= j < k :: IsReadable(rows[j]))
  {
    var rows := store.FindAll(query.status, query.page.GetOr(DefaultPage), query.limit.GetOr(DefaultLimit)).value.users;
    var results := Rebuilt(rows);
    var bad := FirstUnreadable(results);
    if bad.Some? {
      var i := bad.value;
      assert results[i] == ToUserData(rows[i]);
      forall j | 0 <= j < i ensures IsReadable(rows[j]) {
        assert results[j] == ToUserData(rows[j]);
      }
    } else {
      forall k | 0 <= k < |rows| ensures IsReadable(rows[k]) {
        assert results[k] == ToUserData(rows[k]);
      }
    }
  }

  /** Filtering by a status lists only users with that status's name. */
  lemma FilteredListHasStatus(store: UserStore, query: ListUsersQuery, k: int)
    requires Execute(store, query).Success? && query.status.Some?
    requires 0 <= k < |Execute(store, query).value.users|
    ensures S.From(query.status.value).Success?
    ensures Execute(store, query).value.users[k].status == S.From(query.status.value).value.ToString()
  {
    ListedUsersAreThePage(store, query, k);
    var rows := store.FindAll(query.status, query.page.GetOr(DefaultPage), query.limit.GetOr(DefaultLimit)).value.users;
    SummaryShowsStatus(rows[k]);
  }

  /** A readable record's summary shows the name of its status code. */
  lemma SummaryShowsStatus(o: UserRecord)
    requires IsReadable(o)
    ensures S.From(o.status).Success?
    ensures SummaryOf(ToUserData(o).value).status == S.From(o.status).value.ToString()
  {
    ReconstituteFailsOnInvalidField(ToReconstituteProps(o));
  }

  /** Every position among the matching records lies on a page that
      totalPages counts: page `page` holds the positions from
      `(page - 1) * limit` up to `page * limit`. */
  lemma {:induction false} PageOfPosition(total: nat, limit: int, i: nat) returns (page: nat)
    requires limit >= 1 && i < total
    ensures 1 <= page <= CeilDiv(total, limit)
    ensures (page - 1) * limit <= i < page * limit
    decreases total
  {
    if i < limit {
      page := 1;
    } else {
      var previous := PageOfPosition(total - limit, limit, i - limit);
      page := previous + 1;
      assert page * limit == previous * limit + limit;
      assert (page - 1) * limit == (previous - 1) * limit + limit;
    }
  }
}
