/** The credentials provider's `authorize`: checks an email and password
    against the single mock account, with bcrypt reduced to an abstract
    hash/compare pair. */
module Auth {
  import opened Wrappers

  /** A password hash. Only `Hash` makes one and only `Compare` looks inside. */
  datatype Digest = Digest(preimage: string)

  /** The bcrypt contract: a password matches a digest exactly when the
      digest is the hash of that password. */
  function Hash(password: string): (d: Digest)
    ensures forall candidate :: Compare(candidate, d) <==> candidate == password
  {
    Digest(password)
  }

  predicate Compare(candidate: string, d: Digest)
  {
    d.preimage == candidate
  }

  /** What the login form submits; a field the form leaves out is `None`. */
  datatype Credentials = Credentials(email: Option<string>, password: Option<string>)

  /** An identity handed to the session layer. It always has an id; the
      email, name and role may be missing because the OAuth provider may
      leave them out. */
  datatype User = User(id: string, email: Option<string>, name: Option<string>, role: Option<string>)

  /** A stored account, with the hash of its password. */
  datatype Account = Account(id: string, email: string, passwordHash: Digest, name: string, role: string)

  const MockEmail := "admin@edudash.com"
  const MockPassword := "admin123"

  /** The one account that stands in for the user database. */
  function MockAccount(): Account
  {
    Account("1", MockEmail, Hash(MockPassword), "Admin User", "ADMIN")
  }

  /** JavaScript truthiness of an optional string: present and non-empty. */
  predicate Given(field: Option<string>)
  {
    field.Some? && field.value != ""
  }

  /** The result is null when either field is missing or empty and for any
      email but the mock account's whatever the password; for that email it
      succeeds exactly when the password is the account's, and then gives the
      account's id, email, name and role and never the password. */
  function Authorize(credentials: Option<Credentials>): (r: Option<User>)
    ensures credentials.None? || !Given(credentials.value.email) || !Given(credentials.value.password) ==> r.None?
    ensures credentials.Some? && credentials.value.email != Some("admin@edudash.com") ==> r.None?
    ensures r.Some? <==>
      credentials == Some(Credentials(Some("admin@edudash.com"), Some("admin123")))
    ensures r.Some? ==>
      r.value == User("1", Some("admin@edudash.com"), Some("Admin User"), Some("ADMIN"))
  {
    if credentials.None? || !Given(credentials.value.email) || !Given(credentials.value.password) then
      None
    else
      var account := MockAccount();
      if credentials.value.email.value == account.email
         && Compare(credentials.value.password.value, account.passwordHash)
      then
        Some(User(account.id, Some(account.email), Some(account.name), Some(account.role)))
      else
        None
  }
}
