/**
 * The navigation bar: the active-link test, the four menu entries, and the
 * logout handler, which clears the session and leaves for `/login` only
 * when the server answers with status 200.
 */
module Navbar {
  import opened Common
  import opened UserSlice

  /** `isActive(path)`: the current location is exactly `path`. */
  predicate IsActive(pathname: string, path: string)
  {
    pathname == path
  }

  datatype MenuEntry = DashboardEntry | CreateArticleEntry | MyArticlesEntry | SettingsEntry

  /** The route each menu entry navigates to. */
  function Target(entry: MenuEntry): string
  {
    match entry
    case DashboardEntry => "/dashboard"
    case CreateArticleEntry => "/create-article"
    case MyArticlesEntry => "/my-articles"
    case SettingsEntry => "/settings"
  }

  /** The entries lead to four different routes, so at most one entry is highlighted at a time. */
  lemma MenuTargets(e: MenuEntry, f: MenuEntry, pathname: string)
    ensures Target(e) == Target(f) <==> e == f
    ensures IsActive(pathname, Target(e)) && IsActive(pathname, Target(f)) ==> e == f
  {
  }

  /** How `POST /auth/logout` ended: a response with its status, or an exception with the server's message if any. */
  datatype LogoutReply = Responded(status: int) | LogoutThrew(message: Option<string>)

  datatype Toast = Success(text: string) | Error(text: string)

  const LogoutSucceeded := "Logout successful!"
  const LogoutRefused := "Failed to log out. Please try again."
  const LogoutFailed := "Logout failed. Please try again."

  /**
   * The toast shown: success for status 200, a fixed message for another
   * status, and for an exception the server's message unless it is missing
   * or empty, in which case a fallback.
   */
  function LogoutToast(reply: LogoutReply): (t: Toast)
    ensures t.Success? <==> reply == Responded(200)
    ensures reply.Responded? && reply.status != 200 ==> t == Error(LogoutRefused)
    ensures reply.LogoutThrew? && Truthy(reply.message) ==> t == Error(reply.message.value)
    ensures reply.LogoutThrew? && !Truthy(reply.message) ==> t == Error(LogoutFailed)
  {
    match reply
    case Responded(status) =>
      if status == 200 then Success(LogoutSucceeded) else Error(LogoutRefused)
    case LogoutThrew(message) =>
      Error(if Truthy(message) then message.value else LogoutFailed)
  }

  class NavbarView {
    const store: UserStore
    var navigations: seq<Navigation>
    var toasts: seq<Toast>

    constructor (store: UserStore)
      ensures this.store == store && navigations == [] && toasts == []
    {
      this.store := store;
      navigations := [];
      toasts := [];
    }

    /**
     * `handleLogout`: on status 200 the session is cleared and the page
     * moves to `/login`, replacing the history entry; otherwise the session
     * and the location stay as they are. Exactly one toast is shown.
     */
    method HandleLogout(reply: LogoutReply)
      modifies this`navigations, this`toasts, store
      ensures reply == Responded(200) ==>
        store.State() == InitialState && navigations == old(navigations) + [Navigation("/login", true)]
      ensures reply != Responded(200) ==>
        store.State() == old(store.State()) && navigations == old(navigations)
      ensures toasts == old(toasts) + [LogoutToast(reply)]
    {
      if reply.Responded? {
        if reply.status == 200 {
          store.ClearUser();
          toasts := toasts + [Success(LogoutSucceeded)];
          navigations := navigations + [Navigation("/login", true)];
        } else {
          toasts := toasts + [Error(LogoutRefused)];
        }
      } else {
        var text := if Truthy(reply.message) then reply.message.value else LogoutFailed;
        toasts := toasts + [Error(text)];
      }
    }
  }
}
