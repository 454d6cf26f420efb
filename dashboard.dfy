/** The dashboard: a default-deny permission table, the header's role label with
    a fall-back to the raw role string, and the `currentView` state that the
    navigation buttons set. */
module Dashboard {
  import opened Users
  import Login

  datatype View = Main | Management | Archive | Items

  /** Feature name to the roles allowed to use it. */
  const Permissions: map<string, seq<Role>> :=
    map[
      "management" := [Admin, Creator, Nikitovsky],
      "archive" := [Creator, Nikitovsky],
      "fullAccess" := [Creator, Nikitovsky]
    ]

  /** `canAccess(feature)`: the feature has an entry and the role is listed in it. */
  predicate CanAccess(role: Role, feature: string)
  {
    feature in Permissions && role in Permissions[feature]
  }

  /** The header's label table, keyed by role string. */
  const RoleNames: map<string, string> :=
    map[
      "client" := "Клиент",
      "cashier" := "Кассир",
      "admin" := "Администратор",
      "creator" := "Создатель",
      "nikitovsky" := "Никитовский"
    ]

  /** `getRoleName(role)`: the table's label, or the role string itself when the
      table has no (non-empty) label for it. */
  function RoleName(role: string): string
  {
    if role in RoleNames && RoleNames[role] != "" then RoleNames[role] else role
  }

  /** The navigation buttons on offer: home always, items for every role but the
      client, management and archive only when the permission table allows. */
  predicate NavOffered(role: Role, v: View)
  {
    match v
    case Main => true
    case Items => role != Client
    case Management => CanAccess(role, "management")
    case Archive => CanAccess(role, "archive")
  }

  /** The view the content area renders for the current view, if any: the
      management and archive views are additionally guarded by `canAccess`. */
  function Rendered(role: Role, current: View): Option<View>
  {
    match current
    case Main => Some(Main)
    case Management => if CanAccess(role, "management") then Some(Management) else None
    case Archive => if CanAccess(role, "archive") then Some(Archive) else None
    case Items => Some(Items)
  }

  class DashboardPage {
    const user: User
    var currentView: View

    /** Only views whose navigation button exists can be current. */
    ghost predicate Valid()
      reads this
    {
      NavOffered(user.role, currentView)
    }

    /** The dashboard opens on the home view. */
    constructor (user: User)
      ensures this.user == user && currentView == Main && Valid()
      ensures Shown() == Some(Main)
    {
      this.user := user;
      currentView := Main;
    }

    /** A navigation button's `setCurrentView`; the button exists only when offered. */
    method Navigate(v: View)
      requires Valid() && NavOffered(user.role, v)
      modifies this
      ensures currentView == v && Valid()
      ensures Shown() == Some(v)
      ensures user.role == Client ==> v == Main
    {
      currentView := v;
      OfferedViewIsRendered(user.role, v);
    }

    function Shown(): Option<View>
      reads this
    {
      Rendered(user.role, currentView)
    }
  }

  /** Unknown feature names are denied to every role. */
  lemma DefaultDeny(role: Role, feature: string)
    requires feature !in {"management", "archive", "fullAccess"}
    ensures !CanAccess(role, feature)
  {
  }

  /** Management is open to admin, creator and nikitovsky; cashier and client are denied. */
  lemma ManagementAccess(role: Role)
    ensures CanAccess(role, "management") <==> role in {Admin, Creator, Nikitovsky}
  {
  }

  /** Archive and full access are open to creator and nikitovsky only. */
  lemma ArchiveAccess(role: Role)
    ensures CanAccess(role, "archive") <==> role in {Creator, Nikitovsky}
    ensures CanAccess(role, "fullAccess") <==> role in {Creator, Nikitovsky}
  {
  }

  /** Whoever may open the archive may also open management. */
  lemma ArchiveImpliesManagement(role: Role)
    ensures CanAccess(role, "archive") ==> CanAccess(role, "management")
  {
  }

  /** Whatever the current view, management and archive are rendered only with permission,
      and nothing but the current view is ever rendered. */
  lemma RenderedIsGuarded(role: Role, current: View)
    ensures Rendered(role, current) == Some(Management) ==> CanAccess(role, "management")
    ensures Rendered(role, current) == Some(Archive) ==> CanAccess(role, "archive")
    ensures Rendered(role, current).Some? ==> Rendered(role, current).value == current
  {
  }

  /** The items button is offered exactly to the non-client roles. */
  lemma ItemsNavOffered(role: Role)
    ensures NavOffered(role, Items) <==> role != Client
  {
  }

  /** A view reached through the navigation is always rendered, so the content area is
      never blank, and a client never reaches the items view. */
  lemma OfferedViewIsRendered(role: Role, v: View)
    requires NavOffered(role, v)
    ensures Rendered(role, v) == Some(v)
    ensures role == Client ==> v == Main
  {
  }

  /** The header falls back to the role string itself for strings the table lacks. */
  lemma RoleNameFallback(role: string)
    ensures role !in RoleNames ==> RoleName(role) == role
    ensures role in RoleNames ==> RoleName(role) == RoleNames[role]
  {
  }

  /** The header's label for each role agrees with the login page's label. */
  lemma RoleNamesAgree(role: Role)
    ensures RoleName(RoleKey(role)) == Login.RoleName(role)
  {
  }
}
