/**
 * The route table of src/App.jsx: two public pages, six pages behind a
 * signed-in guard that sends everyone else to "/login", and the admin page
 * behind a role guard that sends everyone else to "/". The navigation bar
 * sits outside the table and is there for every visitor.
 */
module App {
  import opened Wire
  import RoomCard

  datatype Page =
    | LoginPage
    | RegisterPage
    | DashboardPage
    | RoomListPage
    | RoomDashboardPage(roomId: Id)
    | MyPlaylistPage
    | JoinRequestsPage
    | ProfilePage
    | AdminDashboardPage

  /** What the table yields for a location: a page, a `<Navigate>` to
      another location, or nothing when no route matches. */
  datatype View = Render(page: Page) | Redirect(to: string) | NoMatch

  const LoginPath := "/login"
  const RegisterPath := "/register"
  const HomePath := "/"
  const AdminPath := "/admin"
  const RoomPrefix := "/room/"

  predicate NoSlash(s: string)
  {
    forall k :: 0 <= k < |s| ==> s[k] != '/'
  }

  /** The `:id` of `/room/:id`: one non-empty segment after the prefix. */
  function RoomParam(path: string): (r: Option<Id>)
    ensures r.Some? <==> exists id :: id != "" && NoSlash(id) && path == RoomPrefix + id
    ensures r.Some? ==> path == RoomPrefix + r.value
  {
    if |path| > |RoomPrefix| && path[..|RoomPrefix|] == RoomPrefix && NoSlash(path[|RoomPrefix|..]) then
      assert path == RoomPrefix + path[|RoomPrefix|..];
      Some(path[|RoomPrefix|..])
    else
      assert forall id :: id != "" && NoSlash(id) && path == RoomPrefix + id ==>
        path[..|RoomPrefix|] == RoomPrefix && path[|RoomPrefix|..] == id;
      None
  }

  /** The fixed locations of the table, none of them of the room shape. */
  const FixedPaths: seq<string> :=
    [LoginPath, RegisterPath, HomePath, "/rooms", "/my-playlist", "/join-requests", "/profile", AdminPath]

  /** No fixed location starts with "/room/": each differs from it at one
      of its first six characters, or is shorter. */
  lemma FixedPathsAreNotRooms(path: string)
    requires path in FixedPaths
    ensures |path| <= |RoomPrefix| || path[..|RoomPrefix|] != RoomPrefix
  {
    if |path| > |RoomPrefix| {
      if path == "/register" {
        assert path[5] != RoomPrefix[5];
      } else if path == "/my-playlist" {
        assert path[1] != RoomPrefix[1];
      } else if path == "/join-requests" {
        assert path[1] != RoomPrefix[1];
      } else if path == "/profile" {
        assert path[1] != RoomPrefix[1];
      }
      assert path[..|RoomPrefix|][1] == path[1] && path[..|RoomPrefix|][5] == path[5];
    }
  }

  /** The page a guarded location shows to a signed-in user. */
  function Protected(path: string): Option<Page>
  {
    if path == HomePath then Some(DashboardPage)
    else if path == "/rooms" then Some(RoomListPage)
    else if RoomParam(path).Some? then Some(RoomDashboardPage(RoomParam(path).value))
    else if path == "/my-playlist" then Some(MyPlaylistPage)
    else if path == "/join-requests" then Some(JoinRequestsPage)
    else if path == "/profile" then Some(ProfilePage)
    else None
  }

  /** The `<Routes>` table for a location and the signed-in user. */
  function Route(path: string, user: Option<User>): View
  {
    if path == LoginPath then Render(LoginPage)
    else if path == RegisterPath then Render(RegisterPage)
    else if path == AdminPath then (if IsAdmin(user) then Render(AdminDashboardPage) else Redirect(HomePath))
    else
      match Protected(path)
      case Some(page) => if user.Some? then Render(page) else Redirect(LoginPath)
      case None => NoMatch
  }

  /** What surrounds the table: the bar is always there; the bottom
      padding that leaves room for the player is there for a user. */
  datatype Shell = Shell(navbar: bool, bottomPadding: bool)

  function Frame(user: Option<User>): (r: Shell)
    ensures r.navbar
    ensures r.bottomPadding <==> user.Some?
  {
    Shell(true, user.Some?)
  }

  /** The navigation bar does not depend on who is signed in. */
  lemma NavbarForEveryone(a: Option<User>, b: Option<User>)
    ensures Frame(a).navbar == Frame(b).navbar
  {
  }

  /** "/login" and "/register" render their form, whoever is signed in. */
  lemma PublicRoutes(user: Option<User>)
    ensures Route(LoginPath, user) == Render(LoginPage)
    ensures Route(RegisterPath, user) == Render(RegisterPage)
  {
  }

  /** A guarded location renders its page exactly when a user is signed in,
      and otherwise redirects to "/login". */
  lemma ProtectedRoutes(path: string, user: Option<User>)
    requires path in {HomePath, "/rooms", "/my-playlist", "/join-requests", "/profile"} || RoomParam(path).Some?
    ensures Protected(path).Some?
    ensures Route(path, user).Render? <==> user.Some?
    ensures user.Some? ==> Route(path, user) == Render(Protected(path).value)
    ensures user.None? ==> Route(path, user) == Redirect(LoginPath)
  {
    if path in FixedPaths {
      FixedPathsAreNotRooms(path);
    }
  }

  /** "/admin" renders only for an admin; everyone else, signed in or not,
      is sent to "/". */
  lemma AdminRoute(user: Option<User>)
    ensures Route(AdminPath, user).Render? <==> user.Some? && user.value.role == AdminRole
    ensures Route(AdminPath, user).Render? ==> Route(AdminPath, user).page == AdminDashboardPage
    ensures !IsAdmin(user) ==> Route(AdminPath, user) == Redirect(HomePath)
  {
  }

  /** Over every location: without a user only the two forms render, and
      the admin page renders for admins alone. */
  lemma GuardsHold(path: string, user: Option<User>)
    ensures user.None? && Route(path, user).Render? ==>
      Route(path, user).page == LoginPage || Route(path, user).page == RegisterPage
    ensures Route(path, user) == Render(AdminDashboardPage) ==> IsAdmin(user)
  {
  }

  /** The table never loops: a redirect lands on a page within two hops
      ("/admin" to "/" to "/login" for a visitor). */
  lemma RedirectsSettle(path: string, user: Option<User>)
    requires Route(path, user).Redirect?
    ensures var to := Route(path, user).to;
      Route(to, user).Render? ||
      (Route(to, user).Redirect? && Route(Route(to, user).to, user).Render?)
  {
    assert RoomParam(HomePath).None?;
  }

  /** The Enter link of a room card opens that room's page: for any room id
      that is one path segment, the link routes to the room dashboard. */
  lemma EnterOpensRoom(room: Room, user: User)
    requires room.id != "" && NoSlash(room.id)
    requires RoomCard.EntryControl(room, user).Enter?
    ensures Route(RoomCard.EntryControl(room, user).link, Some(user)) == Render(RoomDashboardPage(room.id))
  {
    var link := RoomCard.EntryControl(room, user).link;
    assert link[..|RoomPrefix|] == RoomPrefix && link[|RoomPrefix|..] == room.id;
    if link in FixedPaths {
      FixedPathsAreNotRooms(link);
    }
  }
}
