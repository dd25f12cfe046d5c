/**
  Registration and login (backend/routes/auth.py).

  Password hashing and token signing belong to libraries outside the shop;
  they are stood in for by an injective `Hash` with its check, and by a
  `Token` that carries the identity the handler signs (the user's id as a
  decimal string).
*/
module AuthRoutes {
  import opened Common
  import opened Models
  import opened Db

  /** Stand-in for generate_password_hash: any injective encoding serves. */
  function Hash(password: string): string {
    "#" + password
  }

  /** Stand-in for check_password_hash. */
  predicate CheckHash(hash: string, password: string) {
    hash == Hash(password)
  }

  /** A stored hash accepts exactly the password it was made from. */
  lemma HashChecksOnlyItsPassword(p: string, q: string)
    ensures CheckHash(Hash(p), q) <==> p == q
  {
    if CheckHash(Hash(p), q) {
      assert p == Hash(p)[1..] && q == Hash(q)[1..];
    }
  }

  /** Python truthiness of an optional string field: present and non-empty. */
  predicate Given(s: Option<string>) {
    s.Some? && s.value != ""
  }

  /** email.strip().lower() */
  function NormalEmail(email: string): string {
    Lower(Trim(email))
  }

  /** Index of the first user with this email (filter_by(email=...).first()). */
  function UserByEmail(us: seq<User>, email: string): (r: Option<nat>)
    ensures r.Some? ==> r.value < |us| && us[r.value].email == email
    ensures r.Some? ==> forall k :: 0 <= k < r.value ==> us[k].email != email
    ensures r.None? ==> forall k :: 0 <= k < |us| ==> us[k].email != email
  {
    if us == [] then None
    else if us[0].email == email then Some(0)
    else match UserByEmail(us[1..], email)
      case None => None
      case Some(k) => Some(k + 1)
  }

  // ---------------------------------------------------------------
  // The password pattern (?=.*[@$!%*?&])[A-Za-z\d@$!%*?&]{8,}$ under re.match
  // ---------------------------------------------------------------

  /** A character of the class [A-Za-z\d@$!%*?&]. */
  predicate PasswordChar(c: char) {
    ('A' <= c <= 'Z') || ('a' <= c <= 'z') || IsDigit(c) || IsPasswordSymbol(c)
  }

  predicate AllPasswordChars(s: string) {
    forall i :: 0 <= i < |s| ==> PasswordChar(s[i])
  }

  predicate HasSymbol(s: string) {
    exists i :: 0 <= i < |s| && IsPasswordSymbol(s[i])
  }

  /** The look-ahead (?=.*[@$!%*?&]) at the start: a symbol with no line break before it ('.' skips "\n"). */
  predicate SymbolAhead(p: string) {
    exists i :: 0 <= i < |p| && IsPasswordSymbol(p[i]) && forall j :: 0 <= j < i ==> p[j] != '\n'
  }

  /** Where `$` matches: at the end, or before a final "\n". */
  predicate EndAnchor(p: string, m: nat) {
    m == |p| || (m + 1 == |p| && p[m] == '\n')
  }

  /** re.match succeeds: the look-ahead holds and a run of at least eight class characters from the start meets `$`. */
  predicate PasswordPatternMatches(p: string) {
    && SymbolAhead(p)
    && exists m :: 8 <= m <= |p| && AllPasswordChars(p[..m]) && EndAnchor(p, m)
  }

  /** The two shapes of password the pattern accepts. */
  predicate PlainShape(p: string) {
    |p| >= 8 && AllPasswordChars(p) && HasSymbol(p)
  }

  predicate LineBreakShape(p: string) {
    |p| >= 9 && p[|p| - 1] == '\n' && AllPasswordChars(p[..|p| - 1]) && HasSymbol(p[..|p| - 1])
  }

  lemma PatternMatchHasShape(p: string)
    requires PasswordPatternMatches(p)
    ensures PlainShape(p) || LineBreakShape(p)
  {
    var m :| 8 <= m <= |p| && AllPasswordChars(p[..m]) && EndAnchor(p, m);
    var i :| 0 <= i < |p| && IsPasswordSymbol(p[i]) && forall j :: 0 <= j < i ==> p[j] != '\n';
    if m == |p| {
      assert p[..m] == p;
    } else {
      assert i < m;
      assert p[..m][i] == p[i];
    }
  }

  lemma PlainShapeMatches(p: string)
    requires PlainShape(p)
    ensures PasswordPatternMatches(p)
  {
    assert p[..|p|] == p;
    var i :| 0 <= i < |p| && IsPasswordSymbol(p[i]);
    assert forall j :: 0 <= j < i ==> p[j] != '\n';
  }

  lemma LineBreakShapeMatches(p: string)
    requires LineBreakShape(p)
    ensures PasswordPatternMatches(p)
  {
    var q := p[..|p| - 1];
    var i :| 0 <= i < |q| && IsPasswordSymbol(q[i]);
    assert forall j :: 0 <= j < i ==> p[j] == q[j] && p[j] != '\n';
    assert EndAnchor(p, |q|);
  }

  /**
    The pattern in plain words: eight or more characters from the class with
    at least one symbol, optionally followed by a single final line break.
  */
  lemma PasswordPatternRule(p: string)
    ensures PasswordPatternMatches(p) <==>
      || (|p| >= 8 && AllPasswordChars(p) && HasSymbol(p))
      || (|p| >= 9 && p[|p| - 1] == '\n' && AllPasswordChars(p[..|p| - 1]) && HasSymbol(p[..|p| - 1]))
  {
    if PasswordPatternMatches(p) {
      PatternMatchHasShape(p);
    }
    if PlainShape(p) {
      PlainShapeMatches(p);
    } else if LineBreakShape(p) {
      LineBreakShapeMatches(p);
    }
  }

  /** The pattern lets a password through with a line break after it. */
  lemma TrailingLineBreakAccepted()
    ensures PasswordPatternMatches("abcdefg@\n")
  {
    var p := "abcdefg@\n";
    assert IsPasswordSymbol(p[7]);
    assert EndAnchor(p, 8) && AllPasswordChars(p[..8]);
  }

  /** What the backend answers when the pattern refuses a password. */
  const WeakPasswordMessage: string :=
    "Password must be at least 8 characters and include uppercase, lowercase, number, and special character."

  // ---------------------------------------------------------------
  // POST /api/register
  // ---------------------------------------------------------------

  /**
    The "role" key: absent, present with null, or a string. data.get("role", "parent")
    gives "parent" only for an absent key; a null gives None, which the insert leaves
    out, so the column default of users.role applies.
  */
  datatype RoleField = NoRole | NullRole | GivenRole(name: string)

  /** The keys register reads; None is an absent or null key. `None` as a whole body stands for no JSON or an empty object. */
  datatype RegisterBody = RegisterBody(
    name: Option<string>,
    email: Option<string>,
    password: Option<string>,
    confirmPassword: Option<string>,
    role: RoleField)

  /** The role stored: the client's, "parent" when the key is absent, the column default when it is null. */
  function RoleOf(b: RegisterBody): string {
    match b.role
    case NoRole => "parent"
    case NullRole => DefaultRole
    case GivenRole(name) => name
  }

  /** The user register inserts. */
  function NewUser(us: seq<User>, b: RegisterBody): User
    requires Given(b.name) && Given(b.email) && Given(b.password)
  {
    User(FreshKey(us, UserId), Trim(b.name.value), NormalEmail(b.email.value), Hash(b.password.value), RoleOf(b))
  }

  /** Why register refuses a body, checked in the handler's order; None when it accepts. */
  function RegisterRefusal(us: seq<User>, body: Option<RegisterBody>): (r: Option<string>)
    ensures body.None? ==> r == Some("Invalid request")
    ensures body.Some? && !(Given(body.value.name) && Given(body.value.email) && Given(body.value.password) && Given(body.value.confirmPassword))
      ==> r == Some("All fields are required")
    ensures body.Some? && Given(body.value.name) && Given(body.value.email) && Given(body.value.password) && Given(body.value.confirmPassword) ==>
      var b := body.value;
      var taken := UserByEmail(us, NormalEmail(b.email.value)).Some?;
      && (!PasswordPatternMatches(b.password.value) ==> r == Some(WeakPasswordMessage))
      && (PasswordPatternMatches(b.password.value) && b.password != b.confirmPassword ==> r == Some("Passwords do not match"))
      && (PasswordPatternMatches(b.password.value) && b.password == b.confirmPassword && taken ==> r == Some("User already exists"))
    ensures r.None? <==>
      && body.Some?
      && Given(body.value.name) && Given(body.value.email) && Given(body.value.password) && Given(body.value.confirmPassword)
      && PasswordPatternMatches(body.value.password.value)
      && body.value.password == body.value.confirmPassword
      && UserByEmail(us, NormalEmail(body.value.email.value)).None?
  {
    match body
    case None => Some("Invalid request")
    case Some(b) =>
      if !(Given(b.name) && Given(b.email) && Given(b.password) && Given(b.confirmPassword)) then Some("All fields are required")
      else if !PasswordPatternMatches(b.password.value) then Some(WeakPasswordMessage)
      else if b.password != b.confirmPassword then Some("Passwords do not match")
      else if UserByEmail(us, NormalEmail(b.email.value)).Some? then Some("User already exists")
      else None
  }

  /** The effect of register: every refusal is a 400 that inserts nothing. */
  function RegisterOn(t: Tables, body: Option<RegisterBody>): (res: (Tables, Reply<string>))
    ensures res.1.Err? ==> res.0 == t && res.1.code == 400
    ensures res.1.Ok? <==> RegisterRefusal(t.users, body).None?
    ensures res.1.Err? ==> res.1.message == RegisterRefusal(t.users, body).value
    ensures res.1.Ok? ==>
      && res.1 == Ok(201, "User registered successfully")
      && res.0 == t.(users := t.users + [NewUser(t.users, body.value)])
  {
    match RegisterRefusal(t.users, body)
    case Some(m) => (t, Err(400, m))
    case None => (t.(users := t.users + [NewUser(t.users, body.value)]), Ok(201, "User registered successfully"))
  }

  /** A stored user has the trimmed name, the normalised email, the hash of the password, and the client's role. */
  lemma RegisterStores(t: Tables, body: Option<RegisterBody>)
    requires RegisterOn(t, body).1.Ok?
    ensures var us := RegisterOn(t, body).0.users;
      var b := body.value;
      && |us| == |t.users| + 1
      && us[|t.users|] == User(FreshKey(t.users, UserId), Trim(b.name.value), Lower(Trim(b.email.value)),
                               Hash(b.password.value), RoleOf(b))
      && (b.role.NoRole? ==> us[|t.users|].role == "parent")
      && (b.role.NullRole? ==> us[|t.users|].role == "user")
      && (b.role.GivenRole? ==> us[|t.users|].role == b.role.name)
      && us[..|t.users|] == t.users
  {
    var us := RegisterOn(t, body).0.users;
    assert us == t.users + [NewUser(t.users, body.value)];
  }

  lemma RegisterKeepsValid(t: Tables, body: Option<RegisterBody>)
    requires Valid(t)
    ensures Valid(RegisterOn(t, body).0)
  {
    var res := RegisterOn(t, body);
    if res.1.Ok? {
      var nu := NewUser(t.users, body.value);
      assert res.0 == t.(users := t.users + [nu]);
      AppendAscending(t.users, UserId, nu);
      forall x | x in t.users ensures x.email != nu.email {
        var k :| 0 <= k < |t.users| && t.users[k] == x;
      }
      AppendKeepsEmailsUnique(t.users, nu);
    }
  }

  lemma AppendKeepsEmailsUnique(us: seq<User>, nu: User)
    requires EmailsUnique(us) && forall x :: x in us ==> x.email != nu.email
    ensures EmailsUnique(us + [nu])
  {
  }

  method Register(db: Store, body: Option<RegisterBody>) returns (r: Reply<string>)
    requires Valid(db.Snapshot())
    modifies db
    ensures (db.Snapshot(), r) == RegisterOn(old(db.Snapshot()), body)
    ensures Valid(db.Snapshot())
  {
    RegisterKeepsValid(db.Snapshot(), body);
    var refusal := RegisterRefusal(db.users, body);
    if refusal.Some? {
      return Err(400, refusal.value);
    }
    db.Commit(db.Snapshot().(users := db.users + [NewUser(db.users, body.value)]));
    return Ok(201, "User registered successfully");
  }

  // ---------------------------------------------------------------
  // POST /api/login
  // ---------------------------------------------------------------

  datatype LoginBody = LoginBody(email: Option<string>, password: Option<string>)

  /** Stand-in for the signed access token: the identity it carries. */
  datatype Token = Token(identity: string)

  datatype LoggedIn = LoggedIn(accessToken: Token, id: int, name: string, email: string, role: string)

  /** login: a user found by normalised email whose hash accepts the password gets a token for str(user.id). */
  function LoginOn(us: seq<User>, body: Option<LoginBody>): (r: Reply<LoggedIn>)
    ensures body.None? ==> r == Err(400, "Invalid request")
    ensures body.Some? && !(Given(body.value.email) && Given(body.value.password)) ==> r == Err(400, "Email and password required")
    ensures r.Ok? <==>
      && body.Some? && Given(body.value.email) && Given(body.value.password)
      && var k := UserByEmail(us, NormalEmail(body.value.email.value));
         k.Some? && CheckHash(us[k.value].passwordHash, body.value.password.value)
    ensures r.Err? && body.Some? && Given(body.value.email) && Given(body.value.password) ==>
      r == Err(401, "Invalid email or password")
    ensures r.Ok? ==>
      var u := us[UserByEmail(us, NormalEmail(body.value.email.value)).value];
      r == Ok(200, LoggedIn(Token(IntToString(u.id)), u.id, u.name, u.email, u.role))
  {
    match body
    case None => Err(400, "Invalid request")
    case Some(b) =>
      if !(Given(b.email) && Given(b.password)) then Err(400, "Email and password required")
      else match UserByEmail(us, NormalEmail(b.email.value))
        case None => Err(401, "Invalid email or password")
        case Some(k) =>
          var u := us[k];
          if !CheckHash(u.passwordHash, b.password.value) then Err(401, "Invalid email or password")
          else Ok(200, LoggedIn(Token(IntToString(u.id)), u.id, u.name, u.email, u.role))
  }

  /** The token's identity reads back, with int(...), as the id of the user who signed in. */
  lemma LoginIdentityRoundTrip(t: Tables, body: Option<LoginBody>)
    requires Valid(t)
    requires LoginOn(t.users, body).Ok?
    ensures var r := LoginOn(t.users, body).body;
      && ParseNat(r.accessToken.identity) == Some(r.id)
      && FindUser(t.users, r.id).Some? && FindUser(t.users, r.id).value.email == r.email
  {
    var r := LoginOn(t.users, body).body;
    var k := UserByEmail(t.users, NormalEmail(body.value.email.value)).value;
    assert t.users[k].id >= 1;
    ParseNatToString(r.id);
    FindUserAt(t.users, k);
  }

  /** With ascending ids, looking a user up by the id of row k finds row k. */
  lemma {:induction false} FindUserAt(us: seq<User>, k: nat)
    requires AscendingBy(us, UserId)
    requires k < |us|
    ensures FindUser(us, us[k].id) == Some(us[k])
  {
    if k > 0 {
      assert us[0].id < us[k].id;
      assert AscendingBy(us[1..], UserId);
      assert us[1..][k - 1] == us[k];
      FindUserAt(us[1..], k - 1);
    }
  }

  /**
    After a registration, signing in with the same email in any spacing and
    case succeeds exactly with the registered password, as the new user.
  */
  lemma RegisterThenLogin(t: Tables, b: RegisterBody, email: string, password: string)
    requires RegisterOn(t, Some(b)).1.Ok?
    requires email != "" && password != ""
    requires NormalEmail(email) == NormalEmail(b.email.value)
    ensures var us := RegisterOn(t, Some(b)).0.users;
      var r := LoginOn(us, Some(LoginBody(Some(email), Some(password))));
      && (r.Ok? <==> password == b.password.value)
      && (r.Ok? ==> r.body.id == FreshKey(t.users, UserId) && r.body.role == RoleOf(b) && r.body.name == Trim(b.name.value))
  {
    var us := RegisterOn(t, Some(b)).0.users;
    var nu := NewUser(t.users, b);
    assert us == t.users + [nu];
    UserByEmailAppend(t.users, nu);
    HashChecksOnlyItsPassword(b.password.value, password);
  }

  /** A user appended with an email no earlier user has is the one found by that email. */
  lemma {:induction false} UserByEmailAppend(us: seq<User>, u: User)
    requires UserByEmail(us, u.email).None?
    ensures UserByEmail(us + [u], u.email) == Some(|us|)
  {
    if us != [] {
      assert (us + [u])[1..] == us[1..] + [u];
      assert UserByEmail(us[1..], u.email).None?;
      UserByEmailAppend(us[1..], u);
    }
  }

  /** A second registration with an email that differs only in spacing or case is refused. */
  lemma RegisterSameEmailRefused(t: Tables, b: RegisterBody, b2: RegisterBody)
    requires RegisterOn(t, Some(b)).1.Ok?
    requires Given(b2.name) && Given(b2.email) && Given(b2.password) && Given(b2.confirmPassword)
    requires PasswordPatternMatches(b2.password.value) && b2.password == b2.confirmPassword
    requires NormalEmail(b2.email.value) == NormalEmail(b.email.value)
    ensures var t' := RegisterOn(t, Some(b)).0;
      RegisterOn(t', Some(b2)) == (t', Err(400, "User already exists"))
  {
    var t' := RegisterOn(t, Some(b)).0;
    var nu := NewUser(t.users, b);
    assert t'.users == t.users + [nu];
    UserByEmailAppend(t.users, nu);
  }
}
