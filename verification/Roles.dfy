/** The roles of a caller (`internal/workflowauth/resolver.go`), read page by page from the authorization service. */
module Roles {
  import opened Model

  const PAGE_SIZE := 200

  datatype Binding = Binding(roleId: string, status: string)

  /** One answer of the authorization service; the page information may be missing. */
  datatype Response = Response(bindings: seq<Binding>, total: Option<nat>)

  /** The roles of the active bindings that name one, in order. */
  function ActiveRoles(bindings: seq<Binding>): seq<string> {
    if bindings == [] then [] else
    var last := bindings[|bindings| - 1];
    ActiveRoles(bindings[..|bindings| - 1]) + (if last.status == "active"
                                               && last.roleId != "" then [last.roleId] else [])
  }

  predicate Qualifies(b: Binding) {
    b.status == "active" && b.roleId != ""
  }

  /** `roles` are the roles of all qualifying bindings, in order: role `k` comes from place `places[k]`. */
  ghost predicate Selects(places: seq<nat>, bindings: seq<Binding>, roles: seq<string>) {
    && |places| == |roles|
    && (forall j, k | 0 <= j < k < |places| :: places[j] < places[k])
    && (forall k | 0 <= k < |places| ::
          places[k] < |bindings| && Qualifies(bindings[places[k]]) && roles[k] == bindings[places[k]].roleId)
    && (forall i: nat | i < |bindings| && Qualifies(bindings[i]) :: i in places)
  }

  /** One more binding adds its place if it qualifies. */
  lemma SelectsMore(places: seq<nat>, bindings: seq<Binding>, roles: seq<string>, b: Binding)
    requires Selects(places, bindings, roles)
    ensures var more := bindings + [b];
            if Qualifies(b) then Selects(places + [|bindings|], more, roles + [b.roleId])
            else Selects(places, more, roles)
  {
    var more := bindings + [b];
    forall i: nat | i < |more| && Qualifies(more[i]) ensures i in places || (i == |bindings| && Qualifies(b)) {
      assert i < |bindings| ==> Qualifies(bindings[i]);
    }
    assert (places + [|bindings|])[|places|] == |bindings|;
  }

  /** Where the active roles come from. */
  lemma {:induction false} ActiveRolesSelect(bindings: seq<Binding>) returns (places: seq<nat>)
    ensures Selects(places, bindings, ActiveRoles(bindings))
  {
    places := [];
    if bindings != [] {
      var front, last := bindings[..|bindings| - 1], bindings[|bindings| - 1];
      places := ActiveRolesSelect(front);
      SelectsMore(places, front, ActiveRoles(front), last);
      assert bindings == front + [last];
      if Qualifies(last) {
        places := places + [|front|];
      } else {
        assert ActiveRoles(front) + [] == ActiveRoles(front);
      }
    }
  }

  lemma {:induction false} ActiveRolesJoin(some: seq<Binding>, more: seq<Binding>)
    ensures ActiveRoles(some + more) == ActiveRoles(some) + ActiveRoles(more)
  {
    if more == [] {
      assert some + more == some;
    } else {
      ActiveRolesJoin(some, more[..|more| - 1]);
      assert (some + more)[..|some + more| - 1] == some + more[..|more| - 1];
    }
  }

  function Least(a: nat, b: nat): nat {
    if a <= b then a else b
  }

  /** The answer to a request for page `page` of a list that does not change. */
  function Serve(all: seq<Binding>, page: nat): Response
    requires page > 0
  {
    var from := Least((page - 1) * PAGE_SIZE, |all|);
    var to := Least(page * PAGE_SIZE, |all|);
    assert from <= to;
    Response(all[from..to], Some(|all|))
  }

  /** `list` answers as the service does over the stable list `all`, as long as it answers. */
  ghost predicate IsStable(list: nat -> Option<Response>, all: seq<Binding>) {
    forall page: nat {:trigger list(page)} | page > 0 && list(page).Some? :: list(page) == Some(Serve(all, page))
  }

  /** The number of pages of a list, and one for an empty list. */
  function Pages(n: nat): nat {
    if n == 0 then 1 else (n + PAGE_SIZE - 1) / PAGE_SIZE
  }

  method CollectRoles(bindings: seq<Binding>) returns (roles: seq<string>)
    ensures roles == ActiveRoles(bindings)
  {
    roles := [];
    for i := 0 to |bindings|
      invariant roles == ActiveRoles(bindings[..i])
    {
      assert bindings[..i + 1][..i] == bindings[..i];
      if bindings[i].status == "active" && bindings[i].roleId != "" {
        roles := roles + [bindings[i].roleId];
      } else {
        assert roles + [] == roles;
      }
    }
    assert bindings[..|bindings|] == bindings;
  }

  /**
   `RoleIDs` over a stable list: all its active non-empty roles, in order, in exactly as many calls as it has pages.
   A call without an answer ends it with an error; a caller of another tenant is refused without a call.  The page
   number is a 32-bit one, so the list must not have more pages than that.
   */
  method RoleIDs(identityTenant: string, tenantId: string, list: nat -> Option<Response>, ghost all: seq<Binding>)
    returns (r: Result<seq<string>>, calls: nat, ghost places: seq<nat>)
    requires IsStable(list, all) && Pages(|all|) < 0x1_0000_0000
    ensures identityTenant !in {"", tenantId} ==> r == Err(Forbidden) && calls == 0
    ensures identityTenant in {"", tenantId} ==>
              if r.Ok? then Selects(places, all, r.value) && calls == Pages(|all|)
              else 0 < calls <= Pages(|all|) && list(calls).None?
    ensures r.Ok? ==> 1 <= calls && |all| <= calls * PAGE_SIZE && (calls > 1 ==> (calls - 1) * PAGE_SIZE < |all|)
  {
    if identityTenant != "" && identityTenant != tenantId {
      return Err(Forbidden), 0, [];
    }
    var roles: seq<string> := [];
    var page: uint32 := 1;
    calls := 0;
    while true
      invariant page == calls + 1 <= Pages(|all|) && (calls > 0 ==> calls * PAGE_SIZE < |all|)
      invariant calls * PAGE_SIZE <= |all| && roles == ActiveRoles(all[..calls * PAGE_SIZE])
      decreases Pages(|all|) - calls
    {
      var response := list(page);
      calls := calls + 1;
      if response.None? {
        return Err(StoreFailure), calls, [];
      }
      var found := CollectRoles(response.value.bindings);
      roles := roles + found;
      ghost var from, to := (page - 1) * PAGE_SIZE, Least(page * PAGE_SIZE, |all|);
      assert all[..to] == all[..from] + all[from..to];
      ActiveRolesJoin(all[..from], all[from..to]);
      if response.value.total.None? || page * PAGE_SIZE >= response.value.total.value
        || |response.value.bindings| == 0
      {
        assert all[..|all|] == all;
        places := ActiveRolesSelect(all);
        return Ok(roles), calls, places;
      }
      page := page + 1;
    }
  }
}
