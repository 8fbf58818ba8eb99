/** The user list behind sign-up and log-in; emails are compared ignoring letter case. */
module Users {
  import opened Outcomes
  import opened Text

  /** A registered account; the password is an opaque string compared for equality. */
  datatype User = User(name: string, email: string, password: string)

  predicate SameEmail(a: string, b: string) {
    Lower(a) == Lower(b)
  }

  /** Position of the first user whose email equals `email` up to letter case. */
  function FindUserIndex(users: seq<User>, email: string): (r: Option<nat>)
    ensures r.Some? ==> r.value < |users| && SameEmail(users[r.value].email, email)
    ensures r.Some? ==> forall j :: 0 <= j < r.value ==> !SameEmail(users[j].email, email)
    ensures r.None? ==> forall j :: 0 <= j < |users| ==> !SameEmail(users[j].email, email)
  {
    if users == [] then None
    else if SameEmail(users[0].email, email) then Some(0)
    else match FindUserIndex(users[1..], email)
      case None => None
      case Some(k) => Some(k + 1)
  }

  /** `findUser(email)`: the first user with that email, ignoring case. */
  function FindUser(users: seq<User>, email: string): (r: Option<User>)
    ensures r.Some? ==> SameEmail(r.value.email, email)
    ensures r.Some? ==> exists i :: 0 <= i < |users| && users[i] == r.value &&
                                    (forall j :: 0 <= j < i ==> !SameEmail(users[j].email, email))
    ensures r.None? <==> forall j :: 0 <= j < |users| ==> !SameEmail(users[j].email, email)
  {
    match FindUserIndex(users, email)
    case None => None
    case Some(i) => Some(users[i])
  }

  /** No two accounts share an email up to letter case. */
  ghost predicate UniqueEmails(users: seq<User>) {
    forall i, j :: 0 <= i < j < |users| ==> !SameEmail(users[i].email, users[j].email)
  }

  datatype SignupError = MissingField | EmailTaken

  /** The checks of the sign-up form, applied to already trimmed fields; on success the
      new account is appended to the list. */
  function Signup(users: seq<User>, name: string, email: string, password: string)
    : (r: Result<seq<User>, SignupError>)
    ensures r == Err(MissingField) <==> name == "" || email == "" || password == ""
    ensures r == Err(EmailTaken) <==>
      name != "" && email != "" && password != "" && FindUser(users, email).Some?
    ensures r.Ok? ==> r.value == users + [User(name, email, password)]
  {
    if name == "" || email == "" || password == "" then Err(MissingField)
    else if FindUser(users, email).Some? then Err(EmailTaken)
    else Ok(users + [User(name, email, password)])
  }

  /** The check of the log-in form: the account found for `email` has that password. */
  function Login(users: seq<User>, email: string, password: string): (r: bool)
    ensures r ==> exists i :: 0 <= i < |users| && SameEmail(users[i].email, email) && users[i].password == password
    ensures FindUser(users, email).None? ==> !r
  {
    var u := FindUser(users, email);
    u.Some? && u.value.password == password
  }

  /** Sign-up never creates a second account for an email, whatever its letter case. */
  lemma SignupKeepsEmailsUnique(users: seq<User>, name: string, email: string, password: string)
    requires UniqueEmails(users) && Signup(users, name, email, password).Ok?
    ensures UniqueEmails(Signup(users, name, email, password).value)
  {
    var us := Signup(users, name, email, password).value;
    forall i, j | 0 <= i < j < |us|
      ensures !SameEmail(us[i].email, us[j].email)
    {
      if j == |users| {
        assert us[i] == users[i];
      }
    }
  }

  /** With unique emails, log-in succeeds exactly when some account has that email (in any
      letter case) and that password. */
  lemma LoginIffAccount(users: seq<User>, email: string, password: string)
    requires UniqueEmails(users)
    ensures Login(users, email, password) <==>
      exists i :: 0 <= i < |users| && SameEmail(users[i].email, email) && users[i].password == password
  {
    var k := FindUserIndex(users, email);
    if k.Some? {
      forall i | 0 <= i < |users| && SameEmail(users[i].email, email)
        ensures i == k.value
      {
        if i > k.value {
          assert SameEmail(users[k.value].email, users[i].email);
        }
      }
    }
  }

  /** A freshly registered account can log in with its password, under any letter case
      of its email. */
  lemma SignupThenLogin(users: seq<User>, name: string, email: string, password: string, typed: string)
    requires Signup(users, name, email, password).Ok? && SameEmail(typed, email)
    ensures Login(Signup(users, name, email, password).value, typed, password)
  {
    var us := Signup(users, name, email, password).value;
    var k := FindUserIndex(us, typed);
    assert SameEmail(us[|users|].email, typed);
    if k.value < |users| {
      assert us[k.value] == users[k.value];
      assert SameEmail(users[k.value].email, email);
      assert false;
    }
  }
}
