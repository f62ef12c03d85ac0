# Account store of the django-assesment users app, in Dafny

This project models the part of the `users` app that holds logic of its own:
the custom user table with its manager (`users/models.py`) and the
serializers that validate signup, login, password-reset and social payloads
and write to that table (`users/serializers.py`).

- `wrappers.dfy` — `Option`, `Result` and Python truthiness of an optional string.
- `accounts.dfy` (module `Accounts`) — `ROLE_CHOICES`, the `Account` row, the
  database constraints a save runs into (UNIQUE email, NOT NULL role), and
  `CustomUserManager.create_user` / `create_superuser`. The table is the class
  `UserStore` (a `map<Email, Account>` keyed by email and the next primary
  key); each of its methods is imperative and its `ensures` ties the new table
  to a function of the old one (`InsertEffect`, `CreateUserEffect`,
  `CreateSuperuserEffect`), whose contracts state what the manager promises.
- `serializers.dfy` (module `Serializers`) — each serializer's checks, in the
  order the code makes them and with the messages it raises, as functions
  returning `Ok(payload)` or `Err(field errors)`; the writes (`SignupCreate`,
  `SavePasswordChange`) as methods on a `UserStore`; the reset request as a
  method with no `modifies` clause that returns the message it would mail.
- `lifecycle.dfy` (module `Lifecycle`) — every write the core can make,
  applied in any order, keeps emails unique and primary keys distinct, never
  removes a row and never changes anything of a saved row but its password.

Library collaborators are parameters, never implemented: the salted hasher
behind `make_password`/`set_password` (with the salt it would draw), Django's
`normalize_email`, `authenticate`, `default_token_generator.make_token` and
`check_token`, and the clock that fills `date_joined`. Where the model needs
something of the hasher (that its output is never the plaintext) it says so
with the predicate `NeverEchoesPlaintext`.

Points where the behaviour is easy to misread:

- Signup does not go through `create_user`: `UserSignupSerializer.create` saves
  through the default manager's `create`, so the email is stored exactly as
  submitted, not normalised. Only `create_user` normalises.
- The role column has choices but the database does not check them: a role
  outside `ROLE_CHOICES` is refused by the signup serializer's choice field,
  while `create_user` stores whatever role it is given. A role of `None` fails
  the NOT NULL constraint when the row is saved.
- `create_superuser` only fills in `is_staff` and `is_superuser` when the
  caller leaves them out; a caller that passes `False` gets a superuser row
  with that flag false. Its role check runs before the email is looked at.
- Email uniqueness is stated twice in the code: the signup serializer's
  uniqueness check on the email field reports a duplicate as a field error
  before `validate()` runs, and the database constraint refuses a duplicate
  insert, leaving the table unchanged.

## Model

| member | source | states |
|---|---|---|
| `Accounts.RoleChoicesAreExactly` | users/models.py:8-13 | a role is admissible exactly when it is one of admin, coach, agent, football_player |
| `Accounts.NewInstance` | users/models.py:40-41 | a new instance is active unless `is_active=False` is passed, and is staff or superuser only when `True` is passed |
| `Accounts.FindByEmailSearchesColumn` | users/models.py:38 | in a table keyed by email, looking up an address finds a row exactly when some row has that email, and the row found has it |
| `Accounts.InsertEffect` | users/models.py:37-42 | saving a new row fails with a NOT NULL error for a missing role, then with a UNIQUE error for an existing email, leaving the table unchanged; otherwise exactly one row is added under its email with the next id and the join time, and the table stays well formed |
| `Accounts.CreateUserEffect` | users/models.py:17-24 | a missing or empty email raises "The Email field must be set" and adds nothing; otherwise the stored email is the normalised one, the password is `set_password`'s value, the flags take their defaults, exactly one row is added, and a failure changes nothing |
| `Accounts.WithSuperuserDefaults` | users/models.py:27-29 | role defaults to admin and `is_staff`/`is_superuser` to true only when the caller did not supply them; supplied values are kept |
| `Accounts.CreateSuperuserEffect` | users/models.py:26-34 | any role other than admin raises "Superuser must have role as Admin." before the email is looked at and adds nothing; a created superuser has role admin and staff/superuser flags unless the caller passed false |
| `Accounts.UserStore.Get` | users/serializers.py:116 | `objects.get(email=...)` returns a row of the table with that email exactly when one exists, else DoesNotExist |
| `Accounts.UserStore.Insert` | users/models.py:23 | the table after a save is `InsertEffect` of the table before, and stays valid |
| `Accounts.UserStore.Update` | users/serializers.py:118 | saving a fetched row overwrites that row only |
| `Accounts.UserStore.CreateUser` | users/models.py:17-24 | the table after `create_user` is `CreateUserEffect` of the table before |
| `Accounts.UserStore.CreateSuperuser` | users/models.py:26-34 | the three `setdefault` calls and the role check, then `create_user`: the result is `CreateSuperuserEffect` of the table before |
| `Serializers.Represent` | users/serializers.py:10-22 | a representation holds exactly the declared fields that are not write-only, each with the account's attribute |
| `Serializers.UserData` | users/serializers.py:10-13 | the public view exposes exactly id, email, role and date_joined with the account's values |
| `Serializers.SignupData` | users/serializers.py:16-22 | the signup response holds id, email and role; neither password field is ever echoed |
| `Serializers.ValidateSignup` | users/serializers.py:24-28 | validation fails with "Passwords do not match." exactly when the two passwords differ; otherwise the payload is returned unchanged |
| `Serializers.SignupFieldErrors` | users/serializers.py:20-22 | the email field is in error exactly when an account has that email, the role field exactly when the role is not a `ROLE_CHOICES` key |
| `Serializers.SignupIsValid` | users/serializers.py:16-28 | signup validates exactly when the email is new, the role admissible and the passwords equal; a field error is reported without reaching `validate()` |
| `Serializers.SignupEffect` | users/serializers.py:30-34 | the stored row has the email as given (not normalised), the role, the hash of the submitted password (never the plaintext when the hasher never echoes it), default flags; a duplicate email fails and changes nothing; no confirmation is stored |
| `Serializers.SignupCreate` | users/serializers.py:30-34 | popping the confirmation and replacing the password by its hash in the payload, then saving, yields `SignupEffect` of the table before |
| `Serializers.ValidateLogin` | users/serializers.py:42-57 | a missing or empty email or password fails with "Both email and password are required." whatever `authenticate` would say; then a failed credential check gives "Invalid email or password." before the inactive check; success attaches the authenticated active user and keeps the rest of the payload |
| `Serializers.ValidateResetEmail` | users/serializers.py:70-75 | a reset request validates exactly when some account has that email, else "No user is associated with this email." on the email field |
| `Serializers.ResetMail` | users/serializers.py:82-88 | the reset message goes to the account's address only, from the fixed sender with the fixed subject, and carries the token right after the introduction |
| `Serializers.RequestPasswordReset` | users/serializers.py:77-89 | the request only reads the table; for an address that validates it mails a token made for that account to that account's email |
| `Serializers.ValidatePasswordChange` | users/serializers.py:100-111 | an unknown email or a failed token check gives "Invalid token." before the length rule; a new password shorter than 8 gives the length message only for a known account with a valid token; otherwise the payload is accepted unchanged |
| `Serializers.PasswordChangeEffect` | users/serializers.py:113-118 | a save changes only the password of the account with that email, to the hash of the new one; every other account and every other field is unchanged; an unknown email raises DoesNotExist and changes nothing |
| `Serializers.SavePasswordChange` | users/serializers.py:113-118 | fetching the user, `set_password` and saving yields `PasswordChangeEffect` of the table before |
| `Serializers.ValidateSocial` | users/serializers.py:121-128 | a social payload validates exactly when the provider is google or facebook; otherwise the provider field reports an invalid choice |
| `Lifecycle.RunKeepsTableSound` | users/models.py:37-42 | any sequence of creates, signups, password changes and reset requests keeps emails unique and ids distinct, removes no row and changes nothing of a saved row but its password |

## Left out

- HTTP views and URL routing (`users/views.py`, `users/urls.py`, `django_assesment/urls.py`): they only call `is_valid`, `save` and `create` and map the outcome to a status code. `users/urls.py` imports a `SocialSignupView` that the views module does not define; that wiring is not part of this model.
- JWT issuance (`get_tokens`, `RefreshToken.for_user`): library code; a login that validates is where the model stops.
- `authenticate`, password hashing, email normalisation and reset-token make/check: parameters of the model, not implemented. Whether Django's default backend already refuses inactive users is not decided: the inactive branch of login is modelled as written, with no claim that it is reachable or unreachable.
- Mail delivery: `RequestPasswordReset` returns the message `send_mail` would send; delivery and its failures (`fail_silently=False`) are not modelled, and the `validated_data` that `create` returns, which the caller ignores, is not returned.
- Social provider exchange and get-or-create: the code declares only the two social serializers' fields, so only the provider choice is modelled; the `access_token` field's own checks are not.
- Field-level serializer checks other than the role and provider choices and signup email uniqueness: email syntax, required and blank fields, whitespace trimming of character fields, maximum lengths (role 20, email 254) and the read-only `id`. Because of these, the "Both email and password are required." branch of login may not be reachable through DRF; it is modelled as the code writes it.
- `date_joined` is the clock value passed in, an integer; its serialised date format is not modelled. The primary-key sequence advances only on a successful insert.
- Keyword arguments of the model constructor other than `role`, `is_active`, `is_staff` and `is_superuser`, and an explicit `role=None` passed to `create_superuser` (it is refused like any other non-admin role), are not modelled.
- The unusable password that `set_password(None)` stores is a single marker; its random suffix is not modelled.
- Concurrency: two requests racing between the uniqueness check and the insert are not modelled; operations apply one at a time.
- Reset tokens: that a token is bound to one account, stops checking once the password changes, and expires, are properties of Django's token generator, which is a parameter here.
