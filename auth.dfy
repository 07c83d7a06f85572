/** The sign-in page (src/pages/Auth.tsx): a registry of accounts kept in
    the browser's `users` storage slot, looked up by login and extended by
    registration, and the page each role lands on. */
module Auth {
  import opened Wrappers
  import opened Types
  import opened Seqs

  /** A stored account, as registration writes it. */
  datatype Account = Account(email: string, password: string, role: Role, name: string, id: string)

  /** The roles the sign-in and registration forms offer. */
  const FormRoleChoices: seq<Role> := [Farmer, Transporter, Warehouse, Consumer]

  /** `getRolePath` of the sign-in page, on a role string: the producer-side
      roles go to their own page, retailers and consumers both to
      `/consumer`, and any other string to `/`. */
  function RolePath(role: string): (path: string)
    ensures ParseRole(role) in {Some(Farmer), Some(Transporter), Some(Warehouse)} ==> path == "/" + role
    ensures path == "/consumer" <==> ParseRole(role) in {Some(Retailer), Some(Consumer)}
    ensures path == "/" <==> ParseRole(role) in {None, Some(Admin)}
  {
    match ParseRole(role)
    case Some(Farmer) => "/farmer"
    case Some(Transporter) => "/transporter"
    case Some(Warehouse) => "/warehouse"
    case Some(Retailer) => "/consumer"
    case Some(Consumer) => "/consumer"
    case _ => "/"
  }

  /** The login `find`: the first account with that email, password and role. */
  function FindAccount(users: seq<Account>, email: string, password: string, role: Role): Option<Account>
  {
    Find(users, (u: Account) => u.email == email && u.password == password && u.role == role)
  }

  /** The lookup is absent exactly when no account matches, and otherwise
      is the first match. */
  lemma FindAccountFirst(users: seq<Account>, email: string, password: string, role: Role)
    ensures FindAccount(users, email, password, role).None? <==>
      forall i :: 0 <= i < |users| ==>
        !(users[i].email == email && users[i].password == password && users[i].role == role)
    ensures FindAccount(users, email, password, role).Some? ==>
      exists i :: 0 <= i < |users| && users[i] == FindAccount(users, email, password, role).value &&
        users[i].email == email && users[i].password == password && users[i].role == role &&
        forall k :: 0 <= k < i ==> !(users[k].email == email && users[k].password == password && users[k].role == role)
  {
    FindFirst(users, (u: Account) => u.email == email && u.password == password && u.role == role);
  }

  /** The registration `some`. */
  predicate EmailTaken(users: seq<Account>, email: string)
  {
    exists i :: 0 <= i < |users| && users[i].email == email
  }

  predicate DistinctEmails(users: seq<Account>)
  {
    forall i, j :: 0 <= i < j < |users| ==> users[i].email != users[j].email
  }

  /** `Date.now().toString()` for a non-negative millisecond count. */
  function DecimalString(n: nat): (s: string)
    ensures |s| > 0 && forall i :: 0 <= i < |s| ==> '0' <= s[i] <= '9'
    decreases n
  {
    if n < 10 then [('0' as int + n) as char]
    else DecimalString(n / 10) + [('0' as int + n % 10) as char]
  }

  /** The number a string of decimal digits spells, most significant digit
      first (what `parseInt(s, 10)` gives back). */
  function DigitsValue(s: string): int
    decreases |s|
  {
    if s == [] then 0
    else DigitsValue(s[..|s| - 1]) * 10 + (s[|s| - 1] as int - '0' as int)
  }

  /** The id spells the clock reading it was made from. */
  lemma {:induction false} DecimalStringValue(n: nat)
    ensures DigitsValue(DecimalString(n)) == n
  {
    if n >= 10 {
      var s := DecimalString(n);
      assert s[..|s| - 1] == DecimalString(n / 10);
      DecimalStringValue(n / 10);
    }
  }

  /** Registrations at different times get different ids. */
  lemma DistinctTimesDistinctIds(n: nat, m: nat)
    requires n != m
    ensures DecimalString(n) != DecimalString(m)
  {
    DecimalStringValue(n);
    DecimalStringValue(m);
  }

  /** Registering a fresh email and then logging in with the same email,
      password and role finds exactly the new account. */
  lemma {:induction false} LoginAfterRegister(users: seq<Account>, a: Account)
    requires !EmailTaken(users, a.email)
    ensures FindAccount(users + [a], a.email, a.password, a.role) == Some(a)
  {
    if users == [] {
      assert users + [a] == [a];
    } else {
      assert (users + [a])[1..] == users[1..] + [a];
      assert users[0].email != a.email;
      assert !EmailTaken(users[1..], a.email) by {
        forall i | 0 <= i < |users[1..]| ensures users[1..][i].email != a.email {
          assert users[1..][i] == users[i + 1];
        }
      }
      LoginAfterRegister(users[1..], a);
    }
  }

  /** Appending an account whose email is not yet taken keeps emails pairwise
      distinct. */
  lemma AppendKeepsDistinct(users: seq<Account>, a: Account)
    requires DistinctEmails(users) && !EmailTaken(users, a.email)
    ensures DistinctEmails(users + [a])
  {
    var r := users + [a];
    forall i, j | 0 <= i < j < |r| ensures r[i].email != r[j].email {
      if j == |users| {
        assert r[i] == users[i];
      }
    }
  }

  datatype LoginOutcome = LoggedIn(user: Account, path: string) | LoginFailed

  datatype RegisterOutcome = Registered(path: string) | AlreadyExists

  /** The page: the role picked on the form and the stored accounts. */
  class AuthPage {
    var role: Role
    var users: seq<Account>

    /** The picked role is one the form offers. */
    predicate Valid()
      reads this
    {
      role in FormRoleChoices
    }

    /** The page opens with farmer picked and with whatever the storage slot
        holds (`'[]'` when it is empty). */
    constructor (stored: seq<Account>)
      ensures Valid() && role == Farmer && users == stored
    {
      role := Farmer;
      users := stored;
    }

    /** `handleRoleChange`, reachable only from the form's role buttons. */
    method ChangeRole(r: Role)
      requires r in FormRoleChoices
      modifies this
      ensures Valid() && role == r && users == old(users)
    {
      role := r;
    }

    /** `handleSubmit`: succeeds exactly when some stored account has the
        entered email and password and the picked role, reports the first
        such account and lands on the role's page; the accounts are not
        changed. */
    method Login(email: string, password: string) returns (outcome: LoginOutcome)
      requires Valid()
      ensures outcome.LoggedIn? <==>
        exists i :: 0 <= i < |users| && users[i].email == email && users[i].password == password &&
          users[i].role == role
      ensures outcome.LoggedIn? ==>
        exists i :: 0 <= i < |users| && users[i] == outcome.user &&
          outcome.user.email == email && outcome.user.password == password && outcome.user.role == role &&
          forall k :: 0 <= k < i ==> !(users[k].email == email && users[k].password == password && users[k].role == role)
      ensures outcome.LoggedIn? ==> outcome.path == RolePath(RoleName(role))
      ensures outcome.LoggedIn? ==> outcome.path in {"/farmer", "/transporter", "/warehouse", "/consumer"}
    {
      RoleNameRoundTrip(role);
      FindAccountFirst(users, email, password, role);
      var found := FindAccount(users, email, password, role);
      if found.Some? {
        outcome := LoggedIn(found.value, RolePath(RoleName(role)));
      } else {
        outcome := LoginFailed;
      }
    }

    /** `handleRegister` at time `now` (milliseconds): an email already
        stored, under any role, is refused and nothing changes; otherwise
        the new account is appended, with the decimal time as its id. */
    method Register(name: string, email: string, password: string, now: nat) returns (outcome: RegisterOutcome)
      requires Valid()
      modifies this
      ensures Valid() && role == old(role)
      ensures EmailTaken(old(users), email) ==> outcome == AlreadyExists && users == old(users)
      ensures !EmailTaken(old(users), email) ==>
        outcome == Registered(RolePath(RoleName(role))) &&
        users == old(users) + [Account(email, password, role, name, DecimalString(now))]
      ensures DistinctEmails(old(users)) ==> DistinctEmails(users)
      ensures outcome.Registered? ==> FindAccount(users, email, password, role) == Some(users[|users| - 1])
      ensures outcome.Registered? ==> outcome.path in {"/farmer", "/transporter", "/warehouse", "/consumer"}
    {
      RoleNameRoundTrip(role);
      if EmailTaken(users, email) {
        outcome := AlreadyExists;
        return;
      }
      var a := Account(email, password, role, name, DecimalString(now));
      if DistinctEmails(users) {
        AppendKeepsDistinct(users, a);
      }
      LoginAfterRegister(users, a);
      users := users + [a];
      outcome := Registered(RolePath(RoleName(role)));
    }
  }
}
