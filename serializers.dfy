/**
  The serializers of users/serializers.py: what each one accepts or rejects
  (with the message it raises), what it writes to the account table, and
  what it shows of an account.

  A serializer's validate() sees the payload only after the declared fields
  have passed their own checks; of those field checks this module keeps the
  choice fields (role, provider) and the uniqueness of the signup email.
  Errors are DRF's error dictionary: field name to message, with the errors
  raised by validate() under "non_field_errors".
*/
module Serializers {
  import opened Wrappers
  import opened Accounts

  type FieldErrors = map<string, string>

  /** A validated payload as DRF hands it to validate() and create(): field name to value. */
  type Payload = map<string, string>

  const NonField := "non_field_errors"

  /** ChoiceField's message for a value outside its choices. */
  function InvalidChoice(input: string): string {
    "\"" + input + "\" is not a valid choice."
  }

  // ---------------------------------------------------------------------------
  // UserSerializer and the read side of UserSignupSerializer
  // ---------------------------------------------------------------------------

  datatype Json = JNumber(n: int) | JText(s: string) | JBool(b: bool) | JNull

  /** The value of an account attribute named by a serializer field. */
  function Attribute(a: Account, name: string): Json {
    if name == "id" then JNumber(a.id)
    else if name == "email" then JText(a.email)
    else if name == "role" then JText(a.role)
    else if name == "date_joined" then JNumber(a.dateJoined)
    else if name == "password" then (if a.password.Hashed? then JText(a.password.encoded) else JNull)
    else if name == "is_active" then JBool(a.isActive)
    else if name == "is_staff" then JBool(a.isStaff)
    else if name == "is_superuser" then JBool(a.isSuperuser)
    else JNull
  }

  /** The representation of an account: each declared field that is not write-only, with its value. */
  function Represent(a: Account, fields: seq<string>, writeOnly: set<string>): (out: map<string, Json>)
    ensures forall f :: f in out <==> f in fields && f !in writeOnly
    ensures forall f | f in out :: out[f] == Attribute(a, f)
  {
    if fields == [] then map[]
    else
      var rest := Represent(a, fields[1..], writeOnly);
      if fields[0] in writeOnly then rest else rest[fields[0] := Attribute(a, fields[0])]
  }

  const UserFields := ["id", "email", "role", "date_joined"]

  const SignupFields := ["id", "email", "role", "password", "password_confirmation"]
  const SignupWriteOnly := {"password", "password_confirmation"}

  /** UserSerializer: the public view of an account. */
  function UserData(a: Account): (out: map<string, Json>)
    ensures out.Keys == {"id", "email", "role", "date_joined"}
    ensures out["id"] == JNumber(a.id) && out["email"] == JText(a.email)
    ensures out["role"] == JText(a.role) && out["date_joined"] == JNumber(a.dateJoined)
  {
    Represent(a, UserFields, {})
  }

  /** What UserSignupSerializer returns for the account it created: the two password fields are write-only. */
  function SignupData(a: Account): (out: map<string, Json>)
    ensures out.Keys == {"id", "email", "role"}
    ensures "password" !in out && "password_confirmation" !in out
    ensures out["id"] == JNumber(a.id) && out["email"] == JText(a.email) && out["role"] == JText(a.role)
  {
    Represent(a, SignupFields, SignupWriteOnly)
  }

  // ---------------------------------------------------------------------------
  // UserSignupSerializer
  // ---------------------------------------------------------------------------

  const PasswordsDoNotMatch := "Passwords do not match."
  const EmailTaken := "custom user with this email already exists."

  /** validate(): the two passwords must be equal; the payload comes back as it was. */
  function ValidateSignup(data: Payload): (r: Result<Payload, FieldErrors>)
    requires "password" in data && "password_confirmation" in data
    ensures r.Ok? <==> data["password"] == data["password_confirmation"]
    ensures r.Ok? ==> r.value == data
    ensures r.Err? ==> r.error == map[NonField := PasswordsDoNotMatch]
  {
    if data["password"] != data["password_confirmation"] then Err(map[NonField := PasswordsDoNotMatch])
    else Ok(data)
  }

  /** The field checks the model gives the signup serializer: email unique, role one of ROLE_CHOICES. */
  function SignupFieldErrors(accounts: map<Email, Account>, data: Payload): (errs: FieldErrors)
    requires "email" in data && "role" in data
    ensures errs.Keys <= {"email", "role"}
    ensures "email" in errs <==> FindByEmail(accounts, data["email"]).Some?
    ensures "email" in errs ==> errs["email"] == EmailTaken
    ensures "role" in errs <==> !IsRoleChoice(data["role"])
    ensures "role" in errs ==> errs["role"] == InvalidChoice(data["role"])
  {
    var emailErrors: FieldErrors :=
      if FindByEmail(accounts, data["email"]).Some? then map["email" := EmailTaken] else map[];
    if IsRoleChoice(data["role"]) then emailErrors
    else emailErrors["role" := InvalidChoice(data["role"])]
  }

  /** is_valid() of the signup serializer: the field checks first, and validate() only when they all pass. */
  function SignupIsValid(accounts: map<Email, Account>, data: Payload): (r: Result<Payload, FieldErrors>)
    requires "email" in data && "role" in data && "password" in data && "password_confirmation" in data
    ensures r.Ok? <==>
      && FindByEmail(accounts, data["email"]).None?
      && IsRoleChoice(data["role"])
      && data["password"] == data["password_confirmation"]
    ensures r.Ok? ==> r.value == data
    ensures FindByEmail(accounts, data["email"]).Some? || !IsRoleChoice(data["role"]) ==>
      r.Err? && NonField !in r.error
  {
    var errs := SignupFieldErrors(accounts, data);
    if errs != map[] then Err(errs) else ValidateSignup(data)
  }

  /**
    create(): drop the confirmation, replace the password by its hash and
    save through the default manager (objects.create), so the email is
    stored exactly as given and the boolean fields take their defaults.
  */
  function SignupEffect(t: Table, data: Payload, hash: Hasher, salt: string, now: int): (eff: Effect)
    requires "email" in data && "role" in data && "password" in data
    ensures eff.outcome.Ok? <==> data["email"] !in t.accounts
    ensures eff.outcome.Err? ==> eff.outcome.error == UniqueViolation("email") && eff.after == t
    ensures eff.outcome.Ok? ==>
      var a := eff.outcome.value;
      && a.email == data["email"]
      && a.role == data["role"]
      && a.password == Hashed(hash(data["password"], salt))
      && a.isActive && !a.isStaff && !a.isSuperuser
      && eff.after.accounts == t.accounts[a.email := a]
    ensures eff.outcome.Ok? && NeverEchoesPlaintext(hash) ==>
      eff.outcome.value.password != Hashed(data["password"])
    ensures WellFormed(t) ==> WellFormed(eff.after) && OnlyPasswordsChange(t, eff.after)
  {
    var d := NewInstance(data["email"], Some(data["role"]), Flags(None, None, None));
    InsertEffect(t, d.(password := Hashed(hash(data["password"], salt))), now)
  }

  method SignupCreate(store: UserStore, validatedData: Payload, hash: Hasher, salt: string, now: int)
    returns (r: Result<Account, StoreError>)
    requires store.Valid()
    requires "email" in validatedData && "role" in validatedData
    requires "password" in validatedData && "password_confirmation" in validatedData
    modifies store
    ensures store.Valid()
    ensures Effect(r, store.State()) == SignupEffect(old(store.State()), validatedData, hash, salt, now)
  {
    var data := validatedData;
    data := data - {"password_confirmation"};
    data := data["password" := hash(data["password"], salt)];
    var user := NewInstance(data["email"], Some(data["role"]), Flags(None, None, None));
    user := user.(password := Hashed(data["password"]));
    r := store.Insert(user, now);
  }

  // ---------------------------------------------------------------------------
  // UserLoginSerializer
  // ---------------------------------------------------------------------------

  /** Django's authenticate(email=..., password=...): the matching user, or None. */
  type Authenticator = (string, string) -> Option<Account>

  /** The login payload; validate() adds the authenticated user to it. */
  datatype LoginData = LoginData(email: Option<string>, password: Option<string>, user: Option<Account>)

  const InvalidCredentials := "Invalid email or password."
  const AccountInactive := "This account is inactive."
  const CredentialsRequired := "Both email and password are required."

  /**
    validate(): both fields must be present and non-empty, or the credential
    check is never made; then a failed credential check, then an inactive
    account; on success the authenticated user is attached to the payload.
  */
  method ValidateLogin(data: LoginData, authenticate: Authenticator) returns (r: Result<LoginData, FieldErrors>)
    ensures !(Present(data.email) && Present(data.password)) ==> r == Err(map[NonField := CredentialsRequired])
    ensures Present(data.email) && Present(data.password) ==>
      var found := authenticate(data.email.value, data.password.value);
      && (found.None? ==> r == Err(map[NonField := InvalidCredentials]))
      && (found.Some? && !found.value.isActive ==> r == Err(map[NonField := AccountInactive]))
      && (found.Some? && found.value.isActive ==> r.Ok?)
    ensures r.Ok? ==>
      && Present(data.email) && Present(data.password)
      && r.value.user == authenticate(data.email.value, data.password.value)
      && r.value.user.Some? && r.value.user.value.isActive
      && r.value == data.(user := r.value.user)
  {
    var result := data;
    if Present(data.email) && Present(data.password) {
      var user := authenticate(data.email.value, data.password.value);
      if user.None? {
        return Err(map[NonField := InvalidCredentials]);
      }
      if !user.value.isActive {
        return Err(map[NonField := AccountInactive]);
      }
      result := result.(user := user);
    } else {
      return Err(map[NonField := CredentialsRequired]);
    }
    r := Ok(result);
  }

  // ---------------------------------------------------------------------------
  // PasswordResetRequestSerializer
  // ---------------------------------------------------------------------------

  const NoSuchUser := "No user is associated with this email."

  /** validate_email(): the address must belong to an account; the error is reported on the email field. */
  function ValidateResetEmail(accounts: map<Email, Account>, value: string): (r: Result<string, FieldErrors>)
    ensures KeyedByEmail(accounts) ==> (r.Ok? <==> exists a :: a in accounts.Values && a.email == value)
    ensures r.Ok? ==> r.value == value
    ensures r.Err? ==> r.error == map["email" := NoSuchUser]
  {
    if FindByEmail(accounts, value).None? then Err(map["email" := NoSuchUser]) else Ok(value)
  }

  /** An outgoing message, the one observable effect of a reset request. */
  datatype Mail = Mail(subject: string, body: string, sender: string, recipients: seq<Email>)

  const ResetSubject := "Password Reset"
  const ResetSender := "from@example.com"
  const TokenIntro := "Your password reset token is: "
  const TokenOutro := "\nUse this token to reset your password."

  /** The reset message: to the account's address only, with the token right after the fixed introduction. */
  function ResetMail(to: Email, token: string): (m: Mail)
    ensures m.recipients == [to]
    ensures m.subject == ResetSubject && m.sender == ResetSender
    ensures |m.body| == |TokenIntro| + |token| + |TokenOutro|
    ensures m.body[|TokenIntro|..|TokenIntro| + |token|] == token
  {
    var body := TokenIntro + token + TokenOutro;
    assert body[|TokenIntro|..|TokenIntro| + |token|] == token;
    Mail(ResetSubject, body, ResetSender, [to])
  }

  /**
    create(): look the user up again, make a token for it and mail it. The
    method has no modifies clause: the account table is only read.
  */
  method RequestPasswordReset(store: UserStore, email: string, makeToken: Account -> string)
    returns (r: Result<Mail, StoreError>)
    requires store.Valid()
    ensures r.Ok? <==> ValidateResetEmail(store.accounts, email).Ok?
    ensures r.Err? ==> r.error == DoesNotExist
    ensures r.Ok? ==>
      var user := store.accounts[email];
      && user.email == email
      && r.value == ResetMail(user.email, makeToken(user))
  {
    var found := store.Get(email);
    if found.Err? {
      return Err(found.error);
    }
    var user := found.value;
    var token := makeToken(user);
    r := Ok(ResetMail(user.email, token));
  }

  // ---------------------------------------------------------------------------
  // PasswordChangeSerializer
  // ---------------------------------------------------------------------------

  /** default_token_generator.check_token(user, token). */
  type TokenCheck = (Account, string) -> bool

  datatype ChangeData = ChangeData(email: string, token: string, newPassword: string)

  const InvalidToken := "Invalid token."
  const PasswordTooShort := "Password must be at least 8 characters long."
  const MinPasswordLength := 8

  /**
    validate(): an unknown email or a token that does not check is refused
    as an invalid token, before the length of the new password is looked at.
  */
  function ValidatePasswordChange(accounts: map<Email, Account>, data: ChangeData, checkToken: TokenCheck)
    : (r: Result<ChangeData, FieldErrors>)
    ensures var user := FindByEmail(accounts, data.email);
      (user.None? || !checkToken(user.value, data.token)) ==> r == Err(map[NonField := InvalidToken])
    ensures r.Ok? <==>
      var user := FindByEmail(accounts, data.email);
      user.Some? && checkToken(user.value, data.token) && |data.newPassword| >= MinPasswordLength
    ensures r.Ok? ==> r.value == data
    ensures r.Err? && r.error != map[NonField := InvalidToken] ==>
      && r.error == map[NonField := PasswordTooShort]
      && data.email in accounts && checkToken(accounts[data.email], data.token)
  {
    var user := FindByEmail(accounts, data.email);
    if user.None? || !checkToken(user.value, data.token) then Err(map[NonField := InvalidToken])
    else if |data.newPassword| < MinPasswordLength then Err(map[NonField := PasswordTooShort])
    else Ok(data)
  }

  /** save(): the account with that email gets the hash of the new password; nothing else changes. */
  function PasswordChangeEffect(t: Table, email: string, newPassword: string, hash: Hasher, salt: string)
    : (eff: Effect)
    ensures eff.outcome.Ok? <==> email in t.accounts
    ensures eff.outcome.Err? ==> eff.outcome.error == DoesNotExist && eff.after == t
    ensures eff.outcome.Ok? ==>
      && eff.outcome.value == t.accounts[email].(password := Hashed(hash(newPassword, salt)))
      && eff.after.accounts.Keys == t.accounts.Keys
      && eff.after.accounts[email] == eff.outcome.value
      && (forall e | e in t.accounts && e != email :: eff.after.accounts[e] == t.accounts[e])
      && eff.after.nextId == t.nextId
    ensures WellFormed(t) ==> WellFormed(eff.after) && OnlyPasswordsChange(t, eff.after)
  {
    match FindByEmail(t.accounts, email)
    case None => Effect(Err(DoesNotExist), t)
    case Some(user) =>
      var changed := user.(password := Hashed(hash(newPassword, salt)));
      Effect(Ok(changed), Table(t.accounts[email := changed], t.nextId))
  }

  method SavePasswordChange(store: UserStore, email: string, newPassword: string, hash: Hasher, salt: string)
    returns (r: Result<Account, StoreError>)
    requires store.Valid()
    modifies store
    ensures store.Valid()
    ensures Effect(r, store.State()) == PasswordChangeEffect(old(store.State()), email, newPassword, hash, salt)
  {
    var found := store.Get(email);
    if found.Err? {
      return Err(found.error);
    }
    var user := found.value;
    user := user.(password := MakePassword(Some(newPassword), hash, salt));
    store.Update(user);
    r := Ok(user);
  }

  // ---------------------------------------------------------------------------
  // SocialSignupSerializer and SocialLoginSerializer
  // ---------------------------------------------------------------------------

  const ProviderChoices := ["google", "facebook"]

  datatype SocialData = SocialData(provider: string, accessToken: string)

  /** The provider ChoiceField shared by both social serializers. */
  function ValidateSocial(data: SocialData): (r: Result<SocialData, FieldErrors>)
    ensures r.Ok? <==> data.provider == "google" || data.provider == "facebook"
    ensures r.Ok? ==> r.value == data
    ensures r.Err? ==> r.error == map["provider" := InvalidChoice(data.provider)]
  {
    if data.provider in ProviderChoices then Ok(data) else Err(map["provider" := InvalidChoice(data.provider)])
  }
}
