/**
 * The route guard in front of the protected pages: an `isAuthed` flag read from the
 * token store when the guard mounts, refreshed by `storage` and `visibilitychange`
 * events, and the choice between rendering the nested route and redirecting to
 * "/login" with the requested location remembered in `state.from`.
 */
module ProtectedRoute {
  import opened Wrappers
  import opened Effects
  import opened SessionStore

  /** A `storage` event from another tab: `key` is `null` when that tab cleared the whole store. */
  datatype StorageEvent = StorageEvent(key: Option<string>, newValue: Option<string>)

  datatype Decision = RenderOutlet | Redirect(nav: Navigation)

  /** The flag after a `storage` event: set from `newValue` when the event is about "token", else kept. */
  function AfterStorageEvent(isAuthed: bool, e: StorageEvent): (r: bool)
    ensures e.key == Some(TokenKey) ==> (r <==> e.newValue.Some? && e.newValue.value != "")
    ensures e.key != Some(TokenKey) ==> r == isAuthed
  {
    if e.key == Some(TokenKey) then e.newValue.Some? && e.newValue.value != "" else isAuthed
  }

  /** What the guard renders: the nested route when authenticated, else a replacing redirect to the login page that remembers where the user was going. */
  function Decide(isAuthed: bool, location: Location): (d: Decision)
    ensures d.RenderOutlet? <==> isAuthed
    ensures d.Redirect? ==> d.nav.to == "/login" && d.nav.replace && d.nav.from == From(location)
  {
    if isAuthed then RenderOutlet else Redirect(Navigation("/login", true, From(location)))
  }

  /** The store as another tab leaves it after writing (`Some`) or removing (`None`) the token. */
  function AfterTokenWrite(items: map<string, string>, newValue: Option<string>): map<string, string> {
    match newValue
    case Some(v) => items[TokenKey := v]
    case None => items - {TokenKey}
  }

  /** A `storage` event about the token leaves the flag agreeing with the store that caused it. */
  lemma StorageEventResyncs(isAuthed: bool, items: map<string, string>, newValue: Option<string>)
    ensures AfterStorageEvent(isAuthed, StorageEvent(Some(TokenKey), newValue))
            == HasToken(AfterTokenWrite(items, newValue))
  {
  }

  /**
   * `localStorage.clear()` in another tab sends an event whose key is `null`: the flag
   * stays set although the store no longer holds a token, until a visibility change
   * re-reads the store.
   */
  lemma ClearEventLeavesFlagStale()
    ensures AfterStorageEvent(true, StorageEvent(None, None)) && !HasToken(map[])
  {
  }

  class Guard {
    var isAuthed: bool

    /** The lazy initial state: whether the store holds a non-empty token. The store is only read. */
    constructor (store: Storage)
      ensures isAuthed == HasToken(store.items)
      ensures unchanged(store)
    {
      isAuthed := store.GetItem(TokenKey).Some? && store.GetItem(TokenKey).value != "";
    }

    /** The `storage` listener. */
    method OnStorage(e: StorageEvent)
      modifies this
      ensures isAuthed == AfterStorageEvent(old(isAuthed), e)
    {
      if e.key == Some(TokenKey) {
        isAuthed := e.newValue.Some? && e.newValue.value != "";
      }
    }

    /** The `visibilitychange` listener: re-reads the store without writing it. */
    method OnVisibility(store: Storage)
      modifies this
      ensures isAuthed == HasToken(store.items)
      ensures unchanged(store)
    {
      var token := store.GetItem(TokenKey);
      isAuthed := token.Some? && token.value != "";
    }

  }
}
