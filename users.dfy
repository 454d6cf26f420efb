/** The user record that the login page produces and every screen receives. */
module Users {

  datatype Option<+T> = None | Some(value: T)

  /** The closed set of roles a user can hold. */
  datatype Role = Client | Cashier | Admin | Creator | Nikitovsky

  /** The string each role is spelled as at run time; the permission and label
      tables are keyed by these strings. */
  function RoleKey(r: Role): string
  {
    match r
    case Client => "client"
    case Cashier => "cashier"
    case Admin => "admin"
    case Creator => "creator"
    case Nikitovsky => "nikitovsky"
  }

  /** A logged-in user: the role, the display name and, for clients, the phone number. */
  datatype User = User(role: Role, name: string, phone: Option<string>)

  /** The shape every login path produces: a phone number exactly for clients. */
  predicate PhoneIffClient(u: User)
  {
    u.phone.Some? <==> u.role == Client
  }
}
