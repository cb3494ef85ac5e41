/**
 * The azuread_directory_role table: listing roles under the row budget,
 * getting one role by id, collecting a role's member ids across pages, and
 * the title column.
 */
module DirectoryRoleTable {
  import opened Wrappers
  import opened Plugin

  /** A directory role as the directory returns it; every field may be nil. */
  datatype DirectoryRole = DirectoryRole(id: Option<string>, displayName: Option<string>,
                                         description: Option<string>, roleTemplateId: Option<string>)

  /** A member of a role (user, group, service principal, ...); only its id is read. */
  datatype DirectoryObject = DirectoryObject(id: Option<string>)

  /** One fetch of a page of members: the members it holds, or the error it failed with. */
  type PageFetch = Result<seq<DirectoryObject>, Error>

  /**
   * What the directory answers for a role's members: the first request, then
   * each page reached by following the next link, in order. A chain of next
   * links always ends.
   */
  datatype MemberPages = MemberPages(first: PageFetch, next: seq<PageFetch>)

  /** Error patterns that the get path turns into "no row" instead of a query error. */
  const GetIgnoredErrors: seq<string> := ["Request_ResourceNotFound", "Invalid object identifier"]

  /**
   * The directory roles endpoint. `respond` answers a role list request with
   * an optional `$filter`; `members` answers the member pages of a role id;
   * `requests` logs the role list requests.
   */
  class DirectoryRolesClient {
    const respond: Option<string> -> Result<seq<DirectoryRole>, Error>
    const members: string -> MemberPages
    var requests: seq<Option<string>>

    constructor (respond: Option<string> -> Result<seq<DirectoryRole>, Error>, members: string -> MemberPages)
      ensures this.respond == respond && this.members == members && requests == []
    {
      this.respond := respond;
      this.members := members;
      requests := [];
    }

    /** One role list request, with `filter` as its `$filter` when present. */
    method Get(filter: Option<string>) returns (roles: Result<seq<DirectoryRole>, Error>)
      modifies this
      ensures requests == old(requests) + [filter]
      ensures roles == respond(filter)
    {
      requests := requests + [filter];
      roles := respond(filter);
    }
  }

  /**
   * How many of `n` roles are streamed when `budget` rows remain: the budget
   * is looked at only after a row is streamed, so the first row always goes out.
   */
  function EmittedCount(n: nat, budget: nat): nat
  {
    if n == 0 then 0
    else if budget <= 1 then 1
    else 1 + EmittedCount(n - 1, budget - 1)
  }

  /** With a budget of K >= 1 and N roles, exactly min(K, N) rows are streamed; with K = 0 one row still is. */
  lemma {:induction false} EmittedCountIsMin(n: nat, budget: nat)
    ensures budget >= 1 ==> EmittedCount(n, budget) == if n < budget then n else budget
    ensures budget == 0 ==> EmittedCount(n, budget) == if n == 0 then 0 else 1
  {
    if n > 0 && budget > 1 {
      EmittedCountIsMin(n - 1, budget - 1);
    }
  }

  /**
   * Lists roles with one unfiltered request and streams them in order,
   * stopping as soon as no rows remain after a row is streamed.
   */
  method ListAdDirectoryRoles(d: QueryData<DirectoryRole>, client: DirectoryRolesClient) returns (err: Option<Error>)
    modifies d, client
    ensures client.requests == old(client.requests) + [None]
    ensures client.respond(None).Failure? ==>
              err == Some(client.respond(None).error) && d.rows == old(d.rows) && d.remaining == old(d.remaining)
    ensures client.respond(None).Success? ==>
              var roles := client.respond(None).value;
              var count := EmittedCount(|roles|, old(d.remaining));
              err == None && count <= |roles|
              && d.rows == old(d.rows) + roles[..count]
              && d.remaining == RemainingAfter(old(d.remaining), count)
  {
    var result := client.Get(None);
    if result.Failure? {
      return Some(result.error);
    }

    var roles := result.value;
    ghost var budget := d.remaining;
    for i := 0 to |roles|
      invariant client.requests == old(client.requests) + [None] && result == client.respond(None)
      invariant d.rows == old(d.rows) + roles[..i]
      invariant d.remaining == RemainingAfter(budget, i)
      invariant i > 0 ==> i < budget
      invariant EmittedCount(|roles|, budget) == i + EmittedCount(|roles| - i, budget - i)
    {
      d.StreamListItem(roles[i]);
      assert roles[..i + 1] == roles[..i] + [roles[i]];

      if d.RowsRemaining() == 0 {
        return None;
      }
    }
    assert roles[..|roles|] == roles;
    return None;
  }

  /** A budget of 2 over 4 roles streams exactly the first 2. */
  lemma BudgetTwoOfFourExample(roles: seq<DirectoryRole>)
    requires |roles| == 4
    ensures roles[..EmittedCount(|roles|, 2)] == roles[..2]
  {
  }

  /**
   * The get result for a role list response: the error, or the first role,
   * which a successful response must hold.
   */
  function FirstRole(response: Result<seq<DirectoryRole>, Error>): (r: Result<Option<DirectoryRole>, Error>)
    requires response.Success? ==> |response.value| > 0
    ensures response.Failure? ==> r == Failure(response.error)
    ensures response.Success? ==> r.Success? && r.value.Some? && r.value.value in response.value
    ensures response.Success? ==> r.value.value == response.value[0]
  {
    match response
    case Failure(e) => Failure(e)
    case Success(roles) => Success(Some(roles[0]))
  }

  /** The id qualifier of a get request, "" when there is none. */
  function RequestedId(equalQuals: EqualsQualMap): string
  {
    if "id" in equalQuals then equalQuals["id"].GetStringValue() else ""
  }

  /**
   * Gets one role: no request and no row for an empty id; otherwise one
   * request whose `$filter` is the id verbatim, answered by its first role.
   */
  method GetAdDirectoryRole(client: DirectoryRolesClient, equalQuals: EqualsQualMap)
    returns (r: Result<Option<DirectoryRole>, Error>)
    requires RequestedId(equalQuals) != "" && client.respond(Some(RequestedId(equalQuals))).Success?
             ==> |client.respond(Some(RequestedId(equalQuals))).value| > 0
    modifies client
    ensures RequestedId(equalQuals) == "" ==> r == Success(None) && client.requests == old(client.requests)
    ensures RequestedId(equalQuals) != "" ==>
              client.requests == old(client.requests) + [Some(RequestedId(equalQuals))]
              && r == FirstRole(client.respond(Some(RequestedId(equalQuals))))
  {
    var directoryRoleId := RequestedId(equalQuals);
    if directoryRoleId == "" {
      return Success(None);
    }

    var directoryRoles := client.Get(Some(directoryRoleId));
    r := FirstRole(directoryRoles);
  }

  /**
   * Whether the host drops a get error instead of failing the query: it does
   * when the error matches one of the two ignored patterns. How a pattern is
   * matched against an error is given by `matches`.
   */
  function ShouldIgnoreGetError(err: Error, matches: (string, Error) -> bool): (ignore: bool)
    ensures ignore <==> matches("Request_ResourceNotFound", err) || matches("Invalid object identifier", err)
  {
    assert GetIgnoredErrors[0] == "Request_ResourceNotFound" && GetIgnoredErrors[1] == "Invalid object identifier";
    exists i | 0 <= i < |GetIgnoredErrors| :: matches(GetIgnoredErrors[i], err)
  }

  /** The first failed fetch among `fetches`, or None when all succeeded. */
  function FirstError(fetches: seq<PageFetch>): (r: Option<Error>)
  {
    if |fetches| == 0 then None
    else if fetches[0].Failure? then Some(fetches[0].error)
    else FirstError(fetches[1..])
  }

  /** The members of successful fetches, page after page. */
  function Flatten(fetches: seq<PageFetch>): seq<DirectoryObject>
  {
    if |fetches| == 0 then []
    else (if fetches[0].Success? then fetches[0].value else []) + Flatten(fetches[1..])
  }

  /** The ids of `objects`, position by position. */
  function Ids(objects: seq<DirectoryObject>): (ids: seq<Option<string>>)
    ensures |ids| == |objects| && forall i | 0 <= i < |objects| :: ids[i] == objects[i].id
  {
    seq(|objects|, i requires 0 <= i < |objects| => objects[i].id)
  }

  /**
   * The member ids of a role: the first failure if any fetch failed (no
   * partial list), otherwise every member's id in page and member order.
   */
  function MemberIds(pages: MemberPages): Result<seq<Option<string>>, Error>
  {
    match pages.first
    case Failure(e) => Failure(e)
    case Success(firstPage) =>
      match FirstError(pages.next)
      case Some(e) => Failure(e)
      case None => Success(Ids(firstPage + Flatten(pages.next)))
  }

  /** The fetches fail exactly when one of them does, and then the first failure is reported. */
  lemma {:induction false} FirstErrorIsFirstFailure(fetches: seq<PageFetch>)
    ensures FirstError(fetches).None? <==> forall k | 0 <= k < |fetches| :: fetches[k].Success?
    ensures FirstError(fetches).Some? ==>
              exists k | 0 <= k < |fetches| :: fetches[k] == Failure(FirstError(fetches).value)
                                               && forall j | 0 <= j < k :: fetches[j].Success?
  {
    if |fetches| > 0 && fetches[0].Success? {
      FirstErrorIsFirstFailure(fetches[1..]);
      assert forall k | 1 <= k < |fetches| :: fetches[k] == fetches[1..][k - 1];
      if FirstError(fetches).Some? {
        var k :| 0 <= k < |fetches[1..]| && fetches[1..][k] == Failure(FirstError(fetches).value)
                 && forall j | 0 <= j < k :: fetches[1..][j].Success?;
        assert fetches[k + 1] == Failure(FirstError(fetches).value);
        assert forall j | 0 <= j < k + 1 :: fetches[j].Success? by {
          forall j | 0 <= j < k + 1 ensures fetches[j].Success? {
            if j > 0 { assert fetches[j] == fetches[1..][j - 1]; }
          }
        }
      }
    }
  }

  /** Flattening two runs of fetches one after the other concatenates their members. */
  lemma {:induction false} FlattenAppend(a: seq<PageFetch>, b: seq<PageFetch>)
    ensures Flatten(a + b) == Flatten(a) + Flatten(b)
  {
    if |a| > 0 {
      assert (a + b)[1..] == a[1..] + b;
      FlattenAppend(a[1..], b);
    } else {
      assert a + b == b;
    }
  }

  /** The first error of two runs of fetches is the first run's, if it has one, else the second's. */
  lemma {:induction false} FirstErrorAppend(a: seq<PageFetch>, b: seq<PageFetch>)
    ensures FirstError(a + b) == if FirstError(a).Some? then FirstError(a) else FirstError(b)
  {
    if |a| > 0 {
      assert (a + b)[1..] == a[1..] + b;
      FirstErrorAppend(a[1..], b);
    } else {
      assert a + b == b;
    }
  }

  /** The ids of two runs of members, one after the other. */
  lemma IdsAppend(a: seq<DirectoryObject>, b: seq<DirectoryObject>)
    ensures Ids(a + b) == Ids(a) + Ids(b)
  {
  }

  /**
   * The member list fails exactly when the first fetch or any later page
   * fetch fails; a failure of the first fetch is the one reported. On success
   * the list starts with the first page's ids and holds one id per member of
   * every page.
   */
  lemma MemberIdsOutcome(pages: MemberPages)
    ensures MemberIds(pages).Failure?
            <==> pages.first.Failure? || exists k | 0 <= k < |pages.next| :: pages.next[k].Failure?
    ensures pages.first.Failure? ==> MemberIds(pages) == Failure(pages.first.error)
    ensures MemberIds(pages).Success? ==>
              |MemberIds(pages).value| == |pages.first.value| + |Flatten(pages.next)|
              && forall i | 0 <= i < |pages.first.value| :: MemberIds(pages).value[i] == pages.first.value[i].id
  {
    FirstErrorIsFirstFailure(pages.next);
  }

  /**
   * One step of the page iterator after the successful fetches `next[..k]`:
   * a failed fetch is the first error; a successful one extends the members.
   */
  lemma NextPageStep(next: seq<PageFetch>, k: nat)
    requires k < |next| && FirstError(next[..k]).None?
    ensures next[k].Failure? ==> FirstError(next) == Some(next[k].error)
    ensures next[k].Success? ==> FirstError(next[..k + 1]).None?
                                 && Flatten(next[..k + 1]) == Flatten(next[..k]) + next[k].value
  {
    assert next == next[..k] + next[k..];
    FirstErrorAppend(next[..k], next[k..]);
    assert next[..k + 1] == next[..k] + [next[k]];
    FirstErrorAppend(next[..k], [next[k]]);
    FlattenAppend(next[..k], [next[k]]);
    assert [next[k]][1..] == [];
  }

  /**
   * Collects the ids of a role's members: the first page, then every page
   * behind the next links; the callback never stops the iteration early.
   */
  method GetDirectoryRoleMembers(client: DirectoryRolesClient, role: DirectoryRole)
    returns (r: Result<seq<Option<string>>, Error>)
    requires role.id.Some?
    ensures r == MemberIds(client.members(role.id.value))
  {
    var pages := client.members(role.id.value);
    var memberIds: seq<Option<string>> := [];
    if pages.first.Failure? {
      return Failure(pages.first.error);
    }

    // The page iterator: hand every member of the current page to the
    // callback, then follow the next link, until there is none.
    var page := pages.first.value;
    var k := 0;
    while true
      invariant 0 <= k <= |pages.next|
      invariant FirstError(pages.next[..k]).None?
      invariant memberIds + Ids(page) == Ids(pages.first.value + Flatten(pages.next[..k]))
      decreases |pages.next| - k
    {
      ghost var before := memberIds;
      for j := 0 to |page|
        invariant memberIds == before + Ids(page[..j])
      {
        memberIds := memberIds + [page[j].id];
        assert page[..j + 1] == page[..j] + [page[j]];
        IdsAppend(page[..j], [page[j]]);
      }
      assert page[..|page|] == page;
      if k == |pages.next| {
        break;
      }
      NextPageStep(pages.next, k);
      match pages.next[k] {
        case Failure(e) =>
          return Failure(e);
        case Success(p) =>
          IdsAppend(pages.first.value + Flatten(pages.next[..k]), p);
          page := p;
      }
      k := k + 1;
    }
    assert pages.next[..k] == pages.next;
    return Success(memberIds);
  }

  /**
   * The title column: the display name when it is set, otherwise the id; no
   * title without an item.
   */
  function DirectoryRoleTitle(item: Option<DirectoryRole>): (title: Option<string>)
    ensures item.None? ==> title.None?
    ensures item.Some? ==> title == item.value.displayName
                           || (item.value.displayName.None? && title == item.value.id)
    ensures title.None? <==> item.None? || (item.value.displayName.None? && item.value.id.None?)
  {
    match item
    case None => None
    case Some(role) =>
      if role.displayName.Some? then role.displayName else role.id
  }
}
