/**
 * The account store behind `/auth/signup` and `/auth/login`: a dictionary
 * from lowered e-mail address to the user's name and password. Signup
 * validates the stripped fields and adds one entry; login compares the
 * stored password.
 */
module Accounts {
  import opened Text

  /** One stored user: `{"username": ..., "password": ...}`. */
  datatype Account = Account(username: string, password: string)

  datatype SignupOutcome =
    | Created(username: string, email: string)
    | MissingField
    | NotGmail
    | AlreadyExists

  datatype LoginOutcome =
    | LoggedIn(username: string, email: string)
    | InvalidCredentials

  /** The HTTP status each signup outcome is answered with. */
  function SignupStatus(o: SignupOutcome): int
  {
    match o
    case Created(_, _) => 200
    case MissingField => 400
    case NotGmail => 400
    case AlreadyExists => 409
  }

  /** The HTTP status each login outcome is answered with. */
  function LoginStatus(o: LoginOutcome): int
  {
    match o
    case LoggedIn(_, _) => 200
    case InvalidCredentials => 401
  }

  /** The fragment a signup address must contain. */
  const GmailMarker: string := "@gmail.com"

  /** The address key a request's e-mail field is stored under: stripped, then lowered. */
  function EmailKey(email: string): (k: string)
    ensures |k| <= |email|
    ensures forall i :: 0 <= i < |k| ==> !IsUpper(k[i])
  {
    Lower(Strip(email))
  }

  /** The credentials `login` accepts against a given dictionary. */
  predicate Accepts(users: map<string, Account>, email: string, password: string)
  {
    email in users && users[email].password == password
  }

  class UserStore {
    /** The contents of the user file, keyed by e-mail address. */
    var users: map<string, Account>

    constructor (initial: map<string, Account>)
      ensures users == initial
    {
      users := initial;
    }

    /**
     * `signup`: rejects a field that is empty after stripping (400), an
     * address without "@gmail.com" (400) and a known address (409), leaving
     * the dictionary as it was; otherwise stores exactly one new entry for the
     * address and keeps every other entry.
     */
    method Signup(username: string, email: string, password: string) returns (o: SignupOutcome)
      modifies this
      ensures var u, e, p := Strip(username), EmailKey(email), Strip(password);
        && (o == MissingField <==> u == [] || e == [] || p == [])
        && (o == NotGmail <==> u != [] && e != [] && p != [] && !Contains(e, GmailMarker))
        && (o == AlreadyExists <==>
              u != [] && e != [] && p != [] && Contains(e, GmailMarker) && e in old(users))
        && (o.Created? <==>
              u != [] && e != [] && p != [] && Contains(e, GmailMarker) && e !in old(users))
        && (o.Created? ==> o == Created(u, e) && users == old(users)[e := Account(u, p)])
      ensures !o.Created? ==> users == old(users)
      ensures o.Created? ==>
        && o.email !in old(users)
        && users.Keys == old(users).Keys + {o.email}
        && |users| == |old(users)| + 1
        && (forall k :: k in old(users) ==> users[k] == old(users)[k])
    {
      var u := Strip(username);
      var e := EmailKey(email);
      var p := Strip(password);
      if u == [] || e == [] || p == [] {
        return MissingField;
      }
      if !Contains(e, GmailMarker) {
        return NotGmail;
      }
      if e in users {
        return AlreadyExists;
      }
      users := users[e := Account(u, p)];
      o := Created(u, e);
    }

    /**
     * `login`: succeeds exactly when the lowered, stripped address is stored
     * with the stripped password, and then answers with the stored name.
     */
    method Login(email: string, password: string) returns (o: LoginOutcome)
      ensures o.LoggedIn? <==> Accepts(users, EmailKey(email), Strip(password))
      ensures o.LoggedIn? ==>
        o == LoggedIn(users[EmailKey(email)].username, EmailKey(email))
    {
      var e := EmailKey(email);
      var p := Strip(password);
      if e !in users || users[e].password != p {
        return InvalidCredentials;
      }
      o := LoggedIn(users[e].username, e);
    }
  }

  /**
   * After a successful signup the new credentials are accepted, and the
   * answer for every other address is what it was.
   */
  lemma SignupEnablesLogin(users: map<string, Account>, username: string, email: string, password: string,
                           otherEmail: string, otherPassword: string)
    requires otherEmail != email
    ensures Accepts(users[email := Account(username, password)], email, password)
    ensures Accepts(users[email := Account(username, password)], otherEmail, otherPassword)
        <==> Accepts(users, otherEmail, otherPassword)
  {
  }

  /**
   * A stored address is its own key: signing up with `a` and logging in with
   * the stored key of `a` reach the same entry.
   */
  lemma EmailKeyIdempotent(email: string)
    ensures EmailKey(EmailKey(email)) == EmailKey(email)
  {
    var k := EmailKey(email);
    StripOfUnpadded(k);
    LowerOfLowercase(k);
  }
}
