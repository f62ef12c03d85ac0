/**
  Every way the core writes to the account table, applied in any order: the
  table stays well formed (one row per email, distinct primary keys), no row
  is ever removed, and a row, once saved, only ever changes its password.
*/
module Lifecycle {
  import opened Wrappers
  import opened Accounts
  import opened Serializers

  /** One write request against the table, with the salt and clock reading it would draw. */
  datatype Operation =
    | CreateUser(email: Option<string>, role: Option<string>, password: Option<string>, flags: Flags,
                 salt: string, now: int)
    | CreateSuperuser(email: Option<string>, password: Option<string>, fields: SuperuserFields,
                      salt: string, now: int)
    | Signup(address: string, chosenRole: string, rawPassword: string, salt: string, now: int)
    | ChangePassword(account: string, newPassword: string, salt: string)
    | RequestReset(resetAddress: string)

  /** The table after one operation, whether it succeeded or raised. */
  function Apply(t: Table, op: Operation, normalize: string -> string, hash: Hasher): Table {
    match op
    case CreateUser(email, role, password, flags, salt, now) =>
      CreateUserEffect(t, email, role, password, flags, normalize, hash, salt, now).after
    case CreateSuperuser(email, password, fields, salt, now) =>
      CreateSuperuserEffect(t, email, password, fields, normalize, hash, salt, now).after
    case Signup(email, role, password, salt, now) =>
      var data := map["email" := email, "role" := role, "password" := password, "password_confirmation" := password];
      SignupEffect(t, data, hash, salt, now).after
    case ChangePassword(email, newPassword, salt) =>
      PasswordChangeEffect(t, email, newPassword, hash, salt).after
    case RequestReset(_) =>
      t
  }

  function Run(t: Table, ops: seq<Operation>, normalize: string -> string, hash: Hasher): Table
    decreases |ops|
  {
    if ops == [] then t else Run(Apply(t, ops[0], normalize, hash), ops[1..], normalize, hash)
  }

  lemma OnlyPasswordsChangeTransitive(a: Table, b: Table, c: Table)
    requires OnlyPasswordsChange(a, b) && OnlyPasswordsChange(b, c)
    ensures OnlyPasswordsChange(a, c)
  {
  }

  lemma {:induction false} RunKeepsTableSound(t: Table, ops: seq<Operation>, normalize: string -> string, hash: Hasher)
    requires WellFormed(t)
    ensures WellFormed(Run(t, ops, normalize, hash))
    ensures OnlyPasswordsChange(t, Run(t, ops, normalize, hash))
    decreases |ops|
  {
    if ops == [] {
      assert Run(t, ops, normalize, hash) == t;
    } else {
      var next := Apply(t, ops[0], normalize, hash);
      assert WellFormed(next) && OnlyPasswordsChange(t, next);
      RunKeepsTableSound(next, ops[1..], normalize, hash);
      OnlyPasswordsChangeTransitive(t, next, Run(next, ops[1..], normalize, hash));
    }
  }
}
