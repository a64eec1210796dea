/**
 * The client-side global store (src/zustand/globalStore.ts): the session,
 * the user's organizations and the selected organization; the action that
 * selects an organization by id; and `initializeStore`, which keeps at most
 * one store in a module-level cache and merges newly preloaded state into it.
 */
module GlobalStore {
  import opened Wrappers

  /** An organization as the backend describes it; only `id` is inspected. */
  datatype Organization = Organization(id: string, slug: string, name: string)

  /** The authenticated session; its contents are never inspected here. */
  datatype Session = Session(id: string, identityId: string)

  /**
   * The store's state. As preloaded state, `activeOrganization == None` means
   * the field is absent: the state arrives as JSON, which drops undefined fields.
   */
  datatype State = State(
    session: Session,
    organizations: seq<Organization>,
    activeOrganization: Option<Organization>)

  /** `organizations.find((o) => o.id === id)`: the first organization with that id. */
  function FindOrganization(organizations: seq<Organization>, id: string): (r: Option<Organization>)
    ensures r.None? <==> forall n :: 0 <= n < |organizations| ==> organizations[n].id != id
    ensures r.Some? ==> exists n :: 0 <= n < |organizations| && organizations[n] == r.value
                          && r.value.id == id
                          && forall m :: 0 <= m < n ==> organizations[m].id != id
  {
    if organizations == [] then None
    else if organizations[0].id == id then Some(organizations[0])
    else
      var r := FindOrganization(organizations[1..], id);
      assert r.Some? ==> exists n :: 0 <= n < |organizations[1..]| && organizations[1..][n] == r.value
                           && forall m :: 0 <= m < n ==> organizations[1..][m].id != id;
      assert r.Some? ==> exists n :: 0 <= n < |organizations| && organizations[n] == r.value
                           && forall m :: 0 <= m < n ==> organizations[m].id != id by {
        if r.Some? {
          var n :| 0 <= n < |organizations[1..]| && organizations[1..][n] == r.value
                   && forall m :: 0 <= m < n ==> organizations[1..][m].id != id;
          assert organizations[n + 1] == r.value;
          assert forall m :: 0 <= m < n + 1 ==> organizations[m].id != id by {
            forall m | 0 <= m < n + 1 ensures organizations[m].id != id {
              if m > 0 { assert organizations[m] == organizations[1..][m - 1]; }
            }
          }
        }
      }
      r
  }

  /**
   * The state `setActiveOrganization(id)` hands to `set`: the selected
   * organization becomes the first one with that id, or undefined when there
   * is none, whatever was selected before; nothing else changes.
   */
  function WithActiveOrganization(state: State, id: string): (r: State)
    ensures r.session == state.session && r.organizations == state.organizations
    ensures r.activeOrganization == FindOrganization(state.organizations, id)
    ensures r.activeOrganization.Some? ==>
              r.activeOrganization.value in state.organizations && r.activeOrganization.value.id == id
    ensures r.activeOrganization.None? <==> forall o :: o in state.organizations ==> o.id != id
  {
    state.(activeOrganization := FindOrganization(state.organizations, id))
  }

  /**
   * `{ ...current, ...preloaded }`: the preloaded state takes priority; only
   * a field the preloaded state lacks keeps its current value.
   */
  function MergeState(current: State, preloaded: State): (r: State)
    ensures r.session == preloaded.session && r.organizations == preloaded.organizations
    ensures preloaded.activeOrganization.Some? ==> r == preloaded
    ensures preloaded.activeOrganization.None? ==> r.activeOrganization == current.activeOrganization
  {
    match preloaded.activeOrganization
    case Some(_) => preloaded
    case None => preloaded.(activeOrganization := current.activeOrganization)
  }

  /**
   * A selection made in the current store survives a navigation whose
   * preloaded state carries no selection, even when the newly preloaded
   * organizations no longer contain the selected one.
   */
  lemma {:induction false} SelectionSurvivesNavigation(current: State, id: string, preloaded: State)
    requires preloaded.activeOrganization.None?
    requires exists n :: 0 <= n < |current.organizations| && current.organizations[n].id == id
    ensures MergeState(WithActiveOrganization(current, id), preloaded).activeOrganization.Some?
    ensures MergeState(WithActiveOrganization(current, id), preloaded).activeOrganization.value.id == id
  {
  }

  /** A zustand store: a mutable holder of the state. */
  class Store {
    var state: State

    /** `initStore`: a new store whose state is the given one. */
    constructor (preloaded: State)
      ensures state == preloaded
    {
      state := preloaded;
    }

    /** `getState()`. */
    function GetState(): State
      reads this
    {
      state
    }

    /** `setActiveOrganization(id)`: replaces the state by the selected one. */
    method SetActiveOrganization(id: string)
      modifies this
      ensures state == WithActiveOrganization(old(state), id)
    {
      state := WithActiveOrganization(state, id);
    }
  }

  /** The module-level `store` variable: the cached store, if any. */
  class StoreCache {
    var store: Store?

    constructor ()
      ensures store == null
    {
      store := null;
    }

    /**
     * `initializeStore(preloadedState)`, with `isServer` standing for
     * `typeof window === "undefined"`. Without a cached store, a new store
     * holds exactly the preloaded state; with one, a new store holds the
     * cached state overridden by the preloaded fields, and the cache is
     * cleared. On the server the cache is left empty; on the client it holds
     * the returned store afterwards. The cached store itself is not changed.
     */
    method InitializeStore(preloaded: State, isServer: bool) returns (s: Store)
      modifies this
      ensures fresh(s)
      ensures old(store) == null ==> s.state == preloaded
      ensures old(store) != null ==> s.state == MergeState(old(store.state), preloaded)
      ensures isServer ==> store == null
      ensures !isServer ==> store == s
    {
      // The preloaded state is always present, so a cached store that
      // `store ?? initStore(preloaded)` would pick is always replaced by the
      // merged one.
      var current := store;
      if current == null {
        s := new Store(preloaded);
      } else {
        s := new Store(MergeState(current.GetState(), preloaded));
        store := null;
      }
      if isServer {
        return;
      }
      if store == null {
        store := s;
      }
    }
  }
}
