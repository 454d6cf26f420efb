/** The login page: staff log in with a name and a password that alone decides
    the role; clients log in with a phone number and a name. */
module Login {
  import opened Users
  import Session

  /** The outcome of pressing a login button. `MissingFields` and `WrongPassword`
      are the two error toasts; neither logs anybody in. */
  datatype LoginResult = LoggedIn(user: User) | MissingFields | WrongPassword

  /** The fixed staff password table, tried in this order. */
  function StaffRole(password: string): Option<Role>
  {
    if password == "20252025" then Some(Nikitovsky)
    else if password == "2025" then Some(Admin)
    else if password == "25" then Some(Cashier)
    else if password == "202505" then Some(Creator)
    else None
  }

  /** What the staff login button decides for the entered name and password. */
  function StaffLogin(staffName: string, staffPassword: string): LoginResult
  {
    if staffName == "" || staffPassword == "" then MissingFields
    else match StaffRole(staffPassword)
      case Some(role) => LoggedIn(User(role, staffName, None))
      case None => WrongPassword
  }

  /** What the client login button decides for the entered phone and name. */
  function ClientLogin(clientPhone: string, clientName: string): LoginResult
  {
    if clientPhone == "" || clientName == "" then MissingFields
    else LoggedIn(User(Client, clientName, Some(clientPhone)))
  }

  /** The login page's role labels. */
  function RoleName(role: Role): string
  {
    match role
    case Client => "Клиент"
    case Cashier => "Кассир"
    case Admin => "Администратор"
    case Creator => "Создатель"
    case Nikitovsky => "Никитовский"
  }

  /** `handleStaffLogin`: checks the fields, picks the role through the password
      if-chain and, when a role was found, hands the new user to the root page. */
  method HandleStaffLogin(app: Session.App, staffName: string, staffPassword: string)
    returns (result: LoginResult)
    modifies app
    ensures result == StaffLogin(staffName, staffPassword)
    ensures app.user == if result.LoggedIn? then Some(result.user) else old(app.user)
  {
    if staffName == "" || staffPassword == "" {
      return MissingFields;
    }
    var role: Option<Role> := None;
    if staffPassword == "20252025" {
      role := Some(Nikitovsky);
    } else if staffPassword == "2025" {
      role := Some(Admin);
    } else if staffPassword == "25" {
      role := Some(Cashier);
    } else if staffPassword == "202505" {
      role := Some(Creator);
    }
    if role.Some? {
      var u := User(role.value, staffName, None);
      app.HandleLogin(u);
      result := LoggedIn(u);
    } else {
      result := WrongPassword;
    }
  }

  /** `handleClientLogin`: any non-empty phone and name log in as a client. */
  method HandleClientLogin(app: Session.App, clientPhone: string, clientName: string)
    returns (result: LoginResult)
    modifies app
    ensures result == ClientLogin(clientPhone, clientName)
    ensures app.user == if result.LoggedIn? then Some(result.user) else old(app.user)
  {
    if clientPhone == "" || clientName == "" {
      return MissingFields;
    }
    var u := User(Client, clientName, Some(clientPhone));
    app.HandleLogin(u);
    result := LoggedIn(u);
  }

  /** An empty name or password is refused before the password is looked at. */
  lemma StaffLoginNeedsBothFields(staffName: string, staffPassword: string)
    ensures staffName == "" || staffPassword == "" <==> StaffLogin(staffName, staffPassword) == MissingFields
  {
  }

  /** The password table is exactly these four entries; every other password opens nothing. */
  lemma StaffPasswordTable(password: string)
    ensures StaffRole(password) == Some(Nikitovsky) <==> password == "20252025"
    ensures StaffRole(password) == Some(Admin) <==> password == "2025"
    ensures StaffRole(password) == Some(Cashier) <==> password == "25"
    ensures StaffRole(password) == Some(Creator) <==> password == "202505"
    ensures StaffRole(password) == None <==> password !in {"20252025", "2025", "25", "202505"}
    ensures StaffRole(password) != Some(Client)
  {
  }

  /** A staff login succeeds exactly for a non-empty name and a password in the table;
      the user then has the table's role, exactly the entered name and no phone. */
  lemma StaffLoginOutcome(staffName: string, staffPassword: string)
    ensures StaffLogin(staffName, staffPassword).LoggedIn?
        <==> staffName != "" && StaffRole(staffPassword).Some?
    ensures StaffLogin(staffName, staffPassword).LoggedIn? ==>
              StaffLogin(staffName, staffPassword).user
                == User(StaffRole(staffPassword).value, staffName, None)
    ensures staffName != "" && staffPassword != "" && StaffRole(staffPassword).None? ==>
              StaffLogin(staffName, staffPassword) == WrongPassword
  {
    StaffPasswordTable(staffPassword);
  }

  /** Staff login never yields a client and never records a phone. */
  lemma StaffLoginIsNeverClient(staffName: string, staffPassword: string)
    ensures StaffLogin(staffName, staffPassword).LoggedIn? ==>
              StaffLogin(staffName, staffPassword).user.role != Client
              && StaffLogin(staffName, staffPassword).user.phone == None
  {
  }

  /** A client login succeeds exactly when both fields are filled in, and yields
      the client with the entered name and phone. */
  lemma ClientLoginOutcome(clientPhone: string, clientName: string)
    ensures ClientLogin(clientPhone, clientName).LoggedIn? <==> clientPhone != "" && clientName != ""
    ensures ClientLogin(clientPhone, clientName).LoggedIn? ==>
              ClientLogin(clientPhone, clientName).user == User(Client, clientName, Some(clientPhone))
    ensures !ClientLogin(clientPhone, clientName).LoggedIn? ==> ClientLogin(clientPhone, clientName) == MissingFields
  {
  }

  /** Both login paths produce users that carry a phone exactly when they are clients. */
  lemma LoginsKeepPhoneIffClient(a: string, b: string)
    ensures StaffLogin(a, b).LoggedIn? ==> PhoneIffClient(StaffLogin(a, b).user)
    ensures ClientLogin(a, b).LoggedIn? ==> PhoneIffClient(ClientLogin(a, b).user)
  {
  }

  /** The label table covers every role and gives each a label of its own. */
  lemma RoleNamesDistinct(r1: Role, r2: Role)
    ensures RoleName(r1) != ""
    ensures RoleName(r1) == RoleName(r2) <==> r1 == r2
  {
  }
}
