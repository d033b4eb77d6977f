/**
 * src/pages/admin/UserListPage.jsx: the admin user list. Each of the three filters (search,
 * role, status) appears in the query only when it is not empty, in that order; a change of any
 * of them fetches the list again, and only a successful result replaces it.
 */
module UserListPage {
  import opened Wrappers

  /** The parameters `URLSearchParams` holds, as (name, value) pairs in append order. */
  type Params = seq<(string, string)>

  /** The position of a filter in the order `fetchUsers` appends them. */
  function Rank(name: string): nat
  {
    if name == "search" then 0 else if name == "role" then 1 else 2
  }

  /** The pairs for the non-empty filters, in the order search, role, status. */
  function QueryParams(search: string, role: string, status: string): (p: Params)
    ensures |p| <= 3
    ensures forall i :: 0 <= i < |p| ==> p[i].1 != ""
    ensures forall i :: 0 <= i < |p| ==>
      p[i] == ("search", search) || p[i] == ("role", role) || p[i] == ("status", status)
    ensures forall i, j :: 0 <= i < j < |p| ==> Rank(p[i].0) < Rank(p[j].0)
    ensures ("search", search) in p <==> search != ""
    ensures ("role", role) in p <==> role != ""
    ensures ("status", status) in p <==> status != ""
  {
    (if search != "" then [("search", search)] else [])
    + (if role != "" then [("role", role)] else [])
    + (if status != "" then [("status", status)] else [])
  }

  /** Every parameter name occurs at most once, and only the three filter names occur. */
  lemma QueryParamsNames(search: string, role: string, status: string)
    ensures var p := QueryParams(search, role, status);
      (forall i, j :: 0 <= i < j < |p| ==> p[i].0 != p[j].0)
      && (forall i :: 0 <= i < |p| ==> p[i].0 in {"search", "role", "status"})
  {
  }

  /** The query is empty exactly when no filter is set. */
  lemma NoFilterNoQuery(search: string, role: string, status: string)
    ensures QueryParams(search, role, status) == [] <==> search == "" && role == "" && status == ""
  {
    var p := QueryParams(search, role, status);
    if p == [] {
      assert ("search", search) !in p && ("role", role) !in p && ("status", status) !in p;
    }
  }

  /** The parsed body of `GET /api/admin/users/?…`, or a failure before it. */
  datatype Reply<U> =
    | Threw
    | Result(success: bool, data: Option<seq<U>>)

  class Page<U> {
    /** `users`; `setUsers(result.data)` may store `undefined` (None). */
    var users: Option<seq<U>>
    var search: string
    var roleFilter: string
    var statusFilter: string
    /** The query of every fetch sent, in order. */
    var queries: seq<Params>

    constructor ()
      ensures users == Some([]) && search == "" && roleFilter == "" && statusFilter == "" && queries == []
    {
      users, search, roleFilter, statusFilter, queries := Some([]), "", "", "", [];
    }

    /** `fetchUsers`: the query is built by appending each non-empty filter. */
    method FetchUsers(reply: Reply<U>)
      modifies this
      ensures queries == old(queries) + [QueryParams(search, roleFilter, statusFilter)]
      ensures reply.Result? && reply.success ==> users == reply.data
      ensures !(reply.Result? && reply.success) ==> users == old(users)
      ensures search == old(search) && roleFilter == old(roleFilter) && statusFilter == old(statusFilter)
    {
      var params: Params := [];
      if search != "" {
        params := params + [("search", search)];
      }
      if roleFilter != "" {
        params := params + [("role", roleFilter)];
      }
      if statusFilter != "" {
        params := params + [("status", statusFilter)];
      }
      assert params == QueryParams(search, roleFilter, statusFilter);
      queries := queries + [params];
      if reply.Result? && reply.success {
        users := reply.data;
      }
    }

    /** A new search text; the effect refetches only when the value actually changed. */
    method OnSearch(value: string, reply: Reply<U>)
      modifies this
      ensures search == value && roleFilter == old(roleFilter) && statusFilter == old(statusFilter)
      ensures value == old(search) ==> queries == old(queries) && users == old(users)
      ensures value != old(search) ==> queries == old(queries) + [QueryParams(value, roleFilter, statusFilter)]
      ensures value != old(search) ==> users == if reply.Result? && reply.success then reply.data else old(users)
    {
      if value == search {
        return;
      }
      search := value;
      FetchUsers(reply);
    }

    method OnRoleFilter(value: string, reply: Reply<U>)
      modifies this
      ensures roleFilter == value && search == old(search) && statusFilter == old(statusFilter)
      ensures value == old(roleFilter) ==> queries == old(queries) && users == old(users)
      ensures value != old(roleFilter) ==> queries == old(queries) + [QueryParams(search, value, statusFilter)]
      ensures value != old(roleFilter) ==> users == if reply.Result? && reply.success then reply.data else old(users)
    {
      if value == roleFilter {
        return;
      }
      roleFilter := value;
      FetchUsers(reply);
    }

    method OnStatusFilter(value: string, reply: Reply<U>)
      modifies this
      ensures statusFilter == value && search == old(search) && roleFilter == old(roleFilter)
      ensures value == old(statusFilter) ==> queries == old(queries) && users == old(users)
      ensures value != old(statusFilter) ==> queries == old(queries) + [QueryParams(search, roleFilter, value)]
      ensures value != old(statusFilter) ==> users == if reply.Result? && reply.success then reply.data else old(users)
    {
      if value == statusFilter {
        return;
      }
      statusFilter := value;
      FetchUsers(reply);
    }
  }
}
