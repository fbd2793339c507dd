/** Registration and login against the stored list of users. E-mails and
    passwords are compared exactly (case-sensitive, no normalisation). */
module Accounts {
  import opened Model
  import Decimal

  predicate Matches(u: User, email: string, password: string) {
    u.email == email && u.password == password
  }

  predicate EmailTaken(users: seq<User>, email: string) {
    exists i :: 0 <= i < |users| && users[i].email == email
  }

  predicate DistinctEmails(users: seq<User>) {
    forall i, j :: 0 <= i < j < |users| ==> users[i].email != users[j].email
  }

  /** The signed-in identity is the reserved admin. */
  predicate IsAdmin(currentUser: Option<User>) {
    currentUser.Some? && currentUser.value.email == AdminEmail
  }

  /** `users.find(u => u.email === email && u.password === password)`: the
      index of the first matching user, or |users| when none matches. */
  method FindByCredentials(users: seq<User>, email: string, password: string) returns (k: nat)
    ensures k <= |users|
    ensures forall j :: 0 <= j < k ==> !Matches(users[j], email, password)
    ensures k < |users| ==> Matches(users[k], email, password)
  {
    k := 0;
    while k < |users| && !Matches(users[k], email, password)
      invariant k <= |users|
      invariant forall j :: 0 <= j < k ==> !Matches(users[j], email, password)
    {
      k := k + 1;
    }
  }

  /** `users.find(u => u.email === email)` as used by registration: finds a
      user exactly when the e-mail is taken. */
  method FindByEmail(users: seq<User>, email: string) returns (k: nat)
    ensures k <= |users|
    ensures k < |users| <==> EmailTaken(users, email)
    ensures k < |users| ==> users[k].email == email
  {
    k := 0;
    while k < |users| && users[k].email != email
      invariant k <= |users|
      invariant forall j :: 0 <= j < k ==> users[j].email != email
    {
      k := k + 1;
    }
  }

  /** The user record registration creates; its id is the timestamp's numeral. */
  function NewUser(now: nat, name: string, rollNo: string, email: string, password: string,
                   registeredAt: Date): User
  {
    User(Decimal.DecimalString(now), name, rollNo, email, password, registeredAt)
  }

  /** Appending a user whose e-mail is not taken keeps the e-mails pairwise
      distinct. */
  lemma RegisterKeepsEmailsDistinct(users: seq<User>, u: User)
    requires DistinctEmails(users) && !EmailTaken(users, u.email)
    ensures DistinctEmails(users + [u])
  {
    var all := users + [u];
    forall i, j | 0 <= i < j < |all| ensures all[i].email != all[j].email {
      if j == |users| {
        assert all[i] == users[i];
      }
    }
  }

  /** Users registered at different instants get different ids. */
  lemma NewUserIdsDiffer(a: nat, b: nat, name: string, rollNo: string, email: string,
                         password: string, at: Date)
    requires a != b
    ensures NewUser(a, name, rollNo, email, password, at).id != NewUser(b, name, rollNo, email, password, at).id
  {
    if Decimal.DecimalString(a) == Decimal.DecimalString(b) {
      Decimal.DecimalStringInjective(a, b);
    }
  }

  /** With distinct e-mails at most one user matches a login, so "the first
      matching user" is "the matching user". */
  lemma LoginMatchUnique(users: seq<User>, email: string, password: string, i: nat, j: nat)
    requires DistinctEmails(users)
    requires i < |users| && j < |users|
    requires Matches(users[i], email, password) && Matches(users[j], email, password)
    ensures i == j
  {
  }
}
