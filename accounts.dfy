/**
  The account table of users/models.py: the role choices, the CustomUser row,
  the database constraints that decide whether a save succeeds (UNIQUE email,
  NOT NULL role), and CustomUserManager.create_user / create_superuser.

  Library collaborators are parameters: the salted password hasher
  (make_password, with the salt it would draw at random), email
  normalisation (BaseUserManager.normalize_email) and the clock that fills
  date_joined.
*/
module Accounts {
  import opened Wrappers

  type Email = string

  /** A salted one-way hasher: (raw password, salt) to the encoded hash string. */
  type Hasher = (string, string) -> string

  /** ROLE_CHOICES: the stored value and the display label of each role. */
  const RoleChoices: seq<(string, string)> :=
    [("admin", "Admin"), ("coach", "Coach"), ("agent", "Agent"), ("football_player", "Football Player")]

  /** A role is admissible when it is the stored value of one of the choices. */
  predicate IsRoleChoice(role: string) {
    exists i | 0 <= i < |RoleChoices| :: RoleChoices[i].0 == role
  }

  lemma RoleChoicesAreExactly(role: string)
    ensures IsRoleChoice(role) <==> role in {"admin", "coach", "agent", "football_player"}
  {
    if role == "admin" {
      assert RoleChoices[0].0 == role;
    } else if role == "coach" {
      assert RoleChoices[1].0 == role;
    } else if role == "agent" {
      assert RoleChoices[2].0 == role;
    } else if role == "football_player" {
      assert RoleChoices[3].0 == role;
    }
  }

  /** The password column: an encoded salted hash, or the marker set_password(None) leaves. */
  datatype PasswordHash = Hashed(encoded: string) | Unusable

  /** set_password: hash a given password with the salt; no password makes the account unusable for password login. */
  function MakePassword(raw: Option<string>, hash: Hasher, salt: string): PasswordHash {
    match raw
    case None => Unusable
    case Some(pw) => Hashed(hash(pw, salt))
  }

  /** What the model relies on from the hasher: it never hands back the plaintext it was given. */
  ghost predicate NeverEchoesPlaintext(hash: Hasher) {
    forall pw, salt :: hash(pw, salt) != pw
  }

  /** A saved CustomUser row. */
  datatype Account = Account(
    id: nat,
    email: Email,
    role: string,
    password: PasswordHash,
    isActive: bool,
    isStaff: bool,
    isSuperuser: bool,
    dateJoined: int)

  /** A model instance built in memory and not saved yet: no id, no date_joined, and role may be None. */
  datatype Draft = Draft(
    email: Email,
    role: Option<string>,
    password: PasswordHash,
    isActive: bool,
    isStaff: bool,
    isSuperuser: bool)

  /** Boolean keyword arguments of the model constructor; None means "not supplied". */
  datatype Flags = Flags(isActive: Option<bool>, isStaff: Option<bool>, isSuperuser: Option<bool>)

  /** The model constructor: a boolean that is not supplied takes its field default. */
  function NewInstance(email: Email, role: Option<string>, flags: Flags): (d: Draft)
    ensures d.email == email && d.role == role
    ensures d.isActive <==> flags.isActive != Some(false)
    ensures d.isStaff <==> flags.isStaff == Some(true)
    ensures d.isSuperuser <==> flags.isSuperuser == Some(true)
  {
    Draft(email, role, Hashed(""),
      if flags.isActive.Some? then flags.isActive.value else true,
      if flags.isStaff.Some? then flags.isStaff.value else false,
      if flags.isSuperuser.Some? then flags.isSuperuser.value else false)
  }

  /** The account table: rows keyed by their email, and the next primary key the database hands out. */
  datatype Table = Table(accounts: map<Email, Account>, nextId: nat)

  /** Every row sits under its own email, so no two rows share an email. */
  ghost predicate KeyedByEmail(accounts: map<Email, Account>) {
    forall e | e in accounts :: accounts[e].email == e
  }

  /** Emails are unique, and primary keys are distinct and already handed out. */
  ghost predicate WellFormed(t: Table) {
    && KeyedByEmail(t.accounts)
    && (forall e | e in t.accounts :: t.accounts[e].id < t.nextId)
    && (forall e, f | e in t.accounts && f in t.accounts && e != f :: t.accounts[e].id != t.accounts[f].id)
  }

  /** The row whose email column equals email (objects.get / filter(...).first()); the table is keyed by email. */
  function FindByEmail(accounts: map<Email, Account>, email: string): Option<Account> {
    if email in accounts then Some(accounts[email]) else None
  }

  /** Looking a row up by key is the same as searching the email column. */
  lemma FindByEmailSearchesColumn(accounts: map<Email, Account>, email: string)
    requires KeyedByEmail(accounts)
    ensures FindByEmail(accounts, email).Some? <==> exists a :: a in accounts.Values && a.email == email
    ensures FindByEmail(accounts, email).Some? ==> FindByEmail(accounts, email).value.email == email
  {
  }

  /** No row disappears and no field of an existing row other than its password changes. */
  ghost predicate OnlyPasswordsChange(before: Table, after: Table) {
    && before.nextId <= after.nextId
    && before.accounts.Keys <= after.accounts.Keys
    && forall e | e in before.accounts ::
         after.accounts[e] == before.accounts[e].(password := after.accounts[e].password)
  }

  /** A ValueError raised by the manager, an IntegrityError raised by the database, or a failed objects.get. */
  datatype StoreError =
    | ValueError(message: string)
    | UniqueViolation(column: string)
    | NotNullViolation(column: string)
    | DoesNotExist

  const EmailRequired := "The Email field must be set"
  const SuperuserMustBeAdmin := "Superuser must have role as Admin."

  /** What an operation on the table returns, and the table after it. */
  datatype Effect = Effect(outcome: Result<Account, StoreError>, after: Table)

  /**
    Saving a new instance: the database refuses a NULL role, then a duplicate
    email; otherwise it assigns the next primary key and the join time.
  */
  function InsertEffect(t: Table, d: Draft, now: int): (eff: Effect)
    ensures eff.outcome.Ok? <==> d.role.Some? && d.email !in t.accounts
    ensures d.role.None? ==> eff.outcome == Err(NotNullViolation("role"))
    ensures d.role.Some? && d.email in t.accounts ==> eff.outcome == Err(UniqueViolation("email"))
    ensures eff.outcome.Err? ==> eff.after == t
    ensures eff.outcome.Ok? ==>
      var a := eff.outcome.value;
      && a == Account(t.nextId, d.email, d.role.value, d.password, d.isActive, d.isStaff, d.isSuperuser, now)
      && eff.after.accounts == t.accounts[d.email := a]
      && |eff.after.accounts| == |t.accounts| + 1
    ensures WellFormed(t) ==> WellFormed(eff.after) && OnlyPasswordsChange(t, eff.after)
  {
    if d.role.None? then Effect(Err(NotNullViolation("role")), t)
    else if d.email in t.accounts then Effect(Err(UniqueViolation("email")), t)
    else
      var a := Account(t.nextId, d.email, d.role.value, d.password, d.isActive, d.isStaff, d.isSuperuser, now);
      Effect(Ok(a), Table(t.accounts[d.email := a], t.nextId + 1))
  }

  /**
    create_user: refuse a missing or empty email, normalise it, build the
    instance, set the (hashed) password and save it.
  */
  function CreateUserEffect(
    t: Table, email: Option<string>, role: Option<string>, password: Option<string>, flags: Flags,
    normalize: string -> string, hash: Hasher, salt: string, now: int): (eff: Effect)
    ensures !Present(email) ==> eff == Effect(Err(ValueError(EmailRequired)), t)
    ensures Present(email) ==> (eff.outcome.Ok? <==> role.Some? && normalize(email.value) !in t.accounts)
    ensures eff.outcome.Err? ==> eff.after == t
    ensures eff.outcome.Ok? ==>
      var a := eff.outcome.value;
      && Present(email)
      && a.email == normalize(email.value)
      && Some(a.role) == role
      && a.password == MakePassword(password, hash, salt)
      && (a.isActive <==> flags.isActive != Some(false))
      && (a.isStaff <==> flags.isStaff == Some(true))
      && (a.isSuperuser <==> flags.isSuperuser == Some(true))
      && eff.after.accounts == t.accounts[a.email := a]
      && |eff.after.accounts| == |t.accounts| + 1
    ensures WellFormed(t) ==> WellFormed(eff.after) && OnlyPasswordsChange(t, eff.after)
  {
    if !Present(email) then Effect(Err(ValueError(EmailRequired)), t)
    else
      var d := NewInstance(normalize(email.value), role, flags);
      InsertEffect(t, d.(password := MakePassword(password, hash, salt)), now)
  }

  /** The keyword arguments of create_superuser that it fills in: the role and the boolean flags. */
  datatype SuperuserFields = SuperuserFields(role: Option<string>, flags: Flags)

  /** The three setdefault calls: a value the caller supplied is kept, a missing one gets the superuser default. */
  function WithSuperuserDefaults(x: SuperuserFields): (y: SuperuserFields)
    ensures y.role.Some? && y.flags.isStaff.Some? && y.flags.isSuperuser.Some?
    ensures x.role.Some? ==> y.role == x.role
    ensures x.role.None? ==> y.role == Some("admin")
    ensures x.flags.isStaff.Some? ==> y.flags.isStaff == x.flags.isStaff
    ensures x.flags.isStaff.None? ==> y.flags.isStaff == Some(true)
    ensures x.flags.isSuperuser.Some? ==> y.flags.isSuperuser == x.flags.isSuperuser
    ensures x.flags.isSuperuser.None? ==> y.flags.isSuperuser == Some(true)
    ensures y.flags.isActive == x.flags.isActive
  {
    SuperuserFields(
      if x.role.Some? then x.role else Some("admin"),
      Flags(
        x.flags.isActive,
        if x.flags.isStaff.Some? then x.flags.isStaff else Some(true),
        if x.flags.isSuperuser.Some? then x.flags.isSuperuser else Some(true)))
  }

  /**
    create_superuser: fill in the defaults, refuse any role but "admin"
    (before the email is looked at), then create_user.
  */
  function CreateSuperuserEffect(
    t: Table, email: Option<string>, password: Option<string>, fields: SuperuserFields,
    normalize: string -> string, hash: Hasher, salt: string, now: int): (eff: Effect)
    ensures fields.role.Some? && fields.role.value != "admin" ==>
      eff == Effect(Err(ValueError(SuperuserMustBeAdmin)), t)
    ensures fields.role.None? || fields.role == Some("admin") ==>
      (eff.outcome.Ok? <==> Present(email) && normalize(email.value) !in t.accounts)
    ensures eff.outcome.Err? ==> eff.after == t
    ensures eff.outcome.Ok? ==>
      var a := eff.outcome.value;
      && a.role == "admin"
      && a.email == normalize(email.value)
      && a.password == MakePassword(password, hash, salt)
      && (a.isStaff <==> fields.flags.isStaff != Some(false))
      && (a.isSuperuser <==> fields.flags.isSuperuser != Some(false))
      && (a.isActive <==> fields.flags.isActive != Some(false))
      && eff.after.accounts == t.accounts[a.email := a]
    ensures WellFormed(t) ==> WellFormed(eff.after) && OnlyPasswordsChange(t, eff.after)
  {
    var x := WithSuperuserDefaults(fields);
    if x.role != Some("admin") then Effect(Err(ValueError(SuperuserMustBeAdmin)), t)
    else CreateUserEffect(t, email, x.role, password, x.flags, normalize, hash, salt, now)
  }

  /**
    The users table with CustomUserManager's operations on it. The fields are
    the rows and the primary-key sequence; every method keeps Valid().
  */
  class UserStore {
    var accounts: map<Email, Account>
    var nextId: nat

    function State(): Table
      reads this
    {
      Table(accounts, nextId)
    }

    ghost predicate Valid()
      reads this
    {
      WellFormed(State())
    }

    constructor ()
      ensures Valid()
      ensures State() == Table(map[], 1)
    {
      accounts := map[];
      nextId := 1;
    }

    /** objects.get(email=...): the row with that email, or DoesNotExist. */
    method Get(email: Email) returns (r: Result<Account, StoreError>)
      requires Valid()
      ensures r.Ok? <==> exists e | e in accounts :: accounts[e].email == email
      ensures r.Ok? ==> r.value in accounts.Values && r.value.email == email
      ensures r.Err? ==> r.error == DoesNotExist
    {
      if email in accounts {
        r := Ok(accounts[email]);
      } else {
        r := Err(DoesNotExist);
      }
    }

    /** save() of a new instance. */
    method Insert(d: Draft, now: int) returns (r: Result<Account, StoreError>)
      requires Valid()
      modifies this
      ensures Valid()
      ensures Effect(r, State()) == InsertEffect(old(State()), d, now)
    {
      if d.role.None? {
        return Err(NotNullViolation("role"));
      }
      if d.email in accounts {
        return Err(UniqueViolation("email"));
      }
      var a := Account(nextId, d.email, d.role.value, d.password, d.isActive, d.isStaff, d.isSuperuser, now);
      accounts := accounts[d.email := a];
      nextId := nextId + 1;
      r := Ok(a);
    }

    /** save() of an instance fetched from the table: its row is overwritten, nothing else. */
    method Update(a: Account)
      requires Valid()
      requires a.email in accounts && accounts[a.email].id == a.id
      modifies this
      ensures Valid()
      ensures accounts == old(accounts)[a.email := a]
      ensures nextId == old(nextId)
    {
      accounts := accounts[a.email := a];
    }

    method CreateUser(
      email: Option<string>, role: Option<string>, password: Option<string>, flags: Flags,
      normalize: string -> string, hash: Hasher, salt: string, now: int)
      returns (r: Result<Account, StoreError>)
      requires Valid()
      modifies this
      ensures Valid()
      ensures Effect(r, State()) == CreateUserEffect(old(State()), email, role, password, flags, normalize, hash, salt, now)
    {
      if !Present(email) {
        return Err(ValueError(EmailRequired));
      }
      var normalized := normalize(email.value);
      var user := NewInstance(normalized, role, flags);
      user := user.(password := MakePassword(password, hash, salt));
      r := Insert(user, now);
    }

    method CreateSuperuser(
      email: Option<string>, password: Option<string>, fields: SuperuserFields,
      normalize: string -> string, hash: Hasher, salt: string, now: int)
      returns (r: Result<Account, StoreError>)
      requires Valid()
      modifies this
      ensures Valid()
      ensures Effect(r, State()) == CreateSuperuserEffect(old(State()), email, password, fields, normalize, hash, salt, now)
    {
      var extra := fields;
      if extra.role.None? {
        extra := extra.(role := Some("admin"));
      }
      if extra.flags.isStaff.None? {
        extra := extra.(flags := extra.flags.(isStaff := Some(true)));
      }
      if extra.flags.isSuperuser.None? {
        extra := extra.(flags := extra.flags.(isSuperuser := Some(true)));
      }
      if extra.role != Some("admin") {
        return Err(ValueError(SuperuserMustBeAdmin));
      }
      r := CreateUser(email, extra.role, password, extra.flags, normalize, hash, salt, now);
    }
  }
}
