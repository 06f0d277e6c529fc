/**
 * The accounts created on a first login: the username base taken from the
 * login value, the counter appended until the username is free, and the
 * fields the new account is given. The user table is a sequence the login
 * appends to.
 */
module Usernames {
  import opened Wrappers
  import opened Validation

  /** A user row as a first login creates it; `deleted` is `is_deleted`. */
  datatype Account = Account(email: string, username: string, firstname: string, lastname: string, deleted: bool)

  // ---------------------------------------------------------------------------
  // Counters as text

  /** The character of a decimal digit. */
  function Digit(d: nat): (c: char)
    requires d < 10
    ensures '0' <= c <= '9'
  {
    (48 + d) as char
  }

  /** PHP's conversion of a non-negative integer to a string: its decimal digits, no leading zeros. */
  function Decimal(n: nat): (s: string)
    ensures 1 <= |s|
    ensures n >= 10 ==> 2 <= |s|
    ensures forall i :: 0 <= i < |s| ==> '0' <= s[i] <= '9'
  {
    if n < 10 then [Digit(n)] else Decimal(n / 10) + [Digit(n % 10)]
  }

  /** Different counters are written differently. */
  lemma {:induction false} DecimalInjective(a: nat, b: nat)
    requires Decimal(a) == Decimal(b)
    ensures a == b
  {
    if a >= 10 && b >= 10 {
      var sa, sb := Decimal(a), Decimal(b);
      assert sa[|sa| - 1] == sb[|sb| - 1];
      assert sa[..|sa| - 1] == Decimal(a / 10) && sb[..|sb| - 1] == Decimal(b / 10);
      DecimalInjective(a / 10, b / 10);
    }
  }

  /** The username tried after `counter` taken ones: the base itself first, then the base followed by 1, 2, … */
  function Candidate(base: string, counter: nat): string
  {
    if counter == 0 then base else base + Decimal(counter)
  }

  /** Different counters give different usernames, so the loop never tries one twice. */
  lemma CandidateInjective(base: string, i: nat, j: nat)
    requires Candidate(base, i) == Candidate(base, j)
    ensures i == j
  {
    if i > 0 && j > 0 {
      var ci, cj := Candidate(base, i), Candidate(base, j);
      assert ci[|base|..] == Decimal(i) && cj[|base|..] == Decimal(j);
      DecimalInjective(i, j);
    }
  }

  /** The first `n` usernames tried. */
  ghost function TriedBelow(base: string, n: nat): set<string>
  {
    set j | 0 <= j < n :: Candidate(base, j)
  }

  /** The first `n` usernames tried are `n` different usernames. */
  lemma {:induction false} TriedBelowSize(base: string, n: nat)
    ensures |TriedBelow(base, n)| == n
  {
    if n > 0 {
      TriedBelowSize(base, n - 1);
      assert TriedBelow(base, n) == TriedBelow(base, n - 1) + {Candidate(base, n - 1)};
      if Candidate(base, n - 1) in TriedBelow(base, n - 1) {
        var j :| 0 <= j < n - 1 && Candidate(base, j) == Candidate(base, n - 1);
        CandidateInjective(base, j, n - 1);
      }
    }
  }

  /** A subset is no larger than the set. */
  lemma {:induction false} SubsetSize<T>(a: set<T>, b: set<T>)
    requires a <= b
    ensures |a| <= |b|
  {
    assert b == a + (b - a);
  }

  /**
   * `u` is what the loop settles on for `base`: it is free, and it is the
   * first username tried that is free.
   */
  ghost predicate FirstFree(u: string, base: string, taken: set<string>)
  {
    u !in taken && exists c: nat :: u == Candidate(base, c) && forall j :: 0 <= j < c ==> Candidate(base, j) in taken
  }

  /** At most one username is the first free one, so `FirstFree` pins the loop's result down. */
  lemma FirstFreeUnique(u: string, v: string, base: string, taken: set<string>)
    requires FirstFree(u, base, taken) && FirstFree(v, base, taken)
    ensures u == v
  {
    var cu: nat :| u == Candidate(base, cu) && forall j :: 0 <= j < cu ==> Candidate(base, j) in taken;
    var cv: nat :| v == Candidate(base, cv) && forall j :: 0 <= j < cv ==> Candidate(base, j) in taken;
    assert cu < cv ==> Candidate(base, cu) in taken;
    assert cv < cu ==> Candidate(base, cv) in taken;
  }

  /**
   * The username loop: tries the base, then the base followed by 1, 2, …
   * until a username is free. It always stops, because the usernames tried
   * are all different and only finitely many are taken.
   */
  method UniqueUsername(base: string, taken: set<string>) returns (username: string)
    ensures FirstFree(username, base, taken)
    ensures base !in taken ==> username == base
    ensures base in taken ==> exists c: nat :: c >= 1 && username == base + Decimal(c)
  {
    username := base;
    var counter := 1;
    while username in taken
      invariant counter >= 1 && username == Candidate(base, counter - 1)
      invariant forall j :: 0 <= j < counter - 1 ==> Candidate(base, j) in taken
      decreases |taken| - (counter - 1)
    {
      TriedBelowSize(base, counter);
      SubsetSize(TriedBelow(base, counter), taken);
      username := base + Decimal(counter);
      counter := counter + 1;
    }
  }

  // ---------------------------------------------------------------------------
  // Fields of a new account

  /** `explode('@', $s)[0]`: everything before the first `@`, or all of `s` when it has none. */
  function BeforeAt(s: string): (r: string)
    ensures |r| <= |s| && r == s[..|r|]
    ensures '@' !in r
    ensures |r| < |s| ==> s[|r|] == '@'
  {
    if |s| == 0 || s[0] == '@' then [] else [s[0]] + BeforeAt(s[1..])
  }

  /** `strtolower` on one character: ASCII capitals to small letters, every other character kept. */
  function LowerChar(c: char): char
  {
    if 'A' <= c <= 'Z' then (c as int + 32) as char else c
  }

  /** `strtolower`. */
  function Lower(s: string): string
  {
    seq(|s|, i requires 0 <= i < |s| => LowerChar(s[i]))
  }

  /** Lower-casing keeps the length, leaves no capital and changes nothing already in lower case. */
  lemma LowerIsIdempotent(s: string)
    ensures |Lower(s)| == |s|
    ensures forall i :: 0 <= i < |s| ==> !('A' <= Lower(s)[i] <= 'Z')
    ensures Lower(Lower(s)) == Lower(s)
  {
  }

  /** `explode('@', …)` always has a first part, so the `?? 'user'` fallbacks never apply: the base is `BeforeAt`. */
  function EmailBase(email: string): string
  {
    BeforeAt(email)
  }

  /** The account a first login by email creates, given its username. */
  function EmailAccount(email: string, username: string): Account
  {
    Account(Lower(email), username, EmailBase(email), "User", false)
  }

  /**
   * The account a first login by username creates, given its username. The
   * login field is first set to the lower-cased value, but the username
   * chosen by the loop is stored over it, so the case is kept.
   */
  function UsernameAccount(login: string, username: string): Account
  {
    Account(login + "@example.com", username, login, "User", false)
  }

  /** The username of every row, deleted ones included. */
  function Taken(accounts: seq<Account>): (t: set<string>)
    ensures forall k :: 0 <= k < |accounts| ==> accounts[k].username in t
    ensures forall u :: u in t ==> exists k :: 0 <= k < |accounts| && accounts[k].username == u
  {
    set k | 0 <= k < |accounts| :: accounts[k].username
  }

  /** The first row that is not deleted and whose email (or username) is the value given. */
  function FindLive(accounts: seq<Account>, byEmail: bool, value: string): (k: Option<nat>)
    ensures k.Some? ==> k.value < |accounts| && !accounts[k.value].deleted
                        && (if byEmail then accounts[k.value].email else accounts[k.value].username) == value
    ensures k.None? ==> forall j :: 0 <= j < |accounts| && !accounts[j].deleted ==>
                          (if byEmail then accounts[j].email else accounts[j].username) != value
  {
    if |accounts| == 0 then None
    else if !accounts[0].deleted && (if byEmail then accounts[0].email else accounts[0].username) == value then Some(0)
    else
      var k := FindLive(accounts[1..], byEmail, value);
      if k.Some? then Some(k.value + 1) else None
  }

  /** An account created for `base` keeps the usernames of the table distinct. */
  lemma FreshUsernameKeepsDistinct(accounts: seq<Account>, a: Account, base: string)
    requires forall i, j :: 0 <= i < j < |accounts| ==> accounts[i].username != accounts[j].username
    requires FirstFree(a.username, base, Taken(accounts))
    ensures var t := accounts + [a];
            forall i, j :: 0 <= i < j < |t| ==> t[i].username != t[j].username
  {
  }

  // ---------------------------------------------------------------------------
  // The user table

  class UserTable {
    var accounts: seq<Account>

    /** No two rows share a username. */
    ghost predicate Valid()
      reads this
    {
      forall i, j :: 0 <= i < j < |accounts| ==> accounts[i].username != accounts[j].username
    }

    constructor ()
      ensures Valid() && accounts == []
    {
      accounts := [];
    }

    /**
     * `login`, which creates the account on a first login: the login value
     * and the password are required (not blank); a live row whose login field (email
     * when the value is an email address, username otherwise) equals the
     * value logs in; otherwise a row is appended with a username no row has.
     */
    method Login(login: string, password: string, isEmail: bool) returns (account: Option<Account>)
      requires Valid()
      modifies this
      ensures Valid()
      ensures Blank(login) || Blank(password) ==> account.None? && accounts == old(accounts)
      ensures !Blank(login) && !Blank(password) ==>
                var found := FindLive(old(accounts), isEmail, login);
                && account.Some?
                && (found.Some? ==> accounts == old(accounts) && account.value == old(accounts)[found.value])
                && (found.None? ==>
                      && accounts == old(accounts) + [account.value]
                      && (isEmail ==>
                            && FirstFree(account.value.username, EmailBase(login), Taken(old(accounts)))
                            && account.value == EmailAccount(login, account.value.username))
                      && (!isEmail ==>
                            && FirstFree(account.value.username, login, Taken(old(accounts)))
                            && account.value == UsernameAccount(login, account.value.username)))
    {
      if Blank(login) || Blank(password) {
        return None;
      }
      var found := FindLive(accounts, isEmail, login);
      if found.Some? {
        return Some(accounts[found.value]);
      }
      var a;
      if isEmail {
        var username := UniqueUsername(EmailBase(login), Taken(accounts));
        a := EmailAccount(login, username);
        FreshUsernameKeepsDistinct(accounts, a, EmailBase(login));
      } else {
        var username := UniqueUsername(login, Taken(accounts));
        a := UsernameAccount(login, username);
        FreshUsernameKeepsDistinct(accounts, a, login);
      }
      accounts := accounts + [a];
      account := Some(a);
    }

    /**
     * `devLogin`: the email is required and must be an email address; a live
     * row with that email logs in; otherwise a row is appended, named after
     * the part of the email before the `@`, with a username no row has.
     */
    method DevLogin(email: string, isEmail: bool) returns (account: Option<Account>)
      requires Valid()
      modifies this
      ensures Valid()
      ensures Blank(email) || !isEmail ==> account.None? && accounts == old(accounts)
      ensures !Blank(email) && isEmail ==>
                var found := FindLive(old(accounts), true, email);
                && account.Some?
                && (found.Some? ==> accounts == old(accounts) && account.value == old(accounts)[found.value])
                && (found.None? ==>
                      && accounts == old(accounts) + [account.value]
                      && FirstFree(account.value.username, EmailBase(email), Taken(old(accounts)))
                      && account.value == EmailAccount(email, account.value.username))
    {
      if Blank(email) || !isEmail {
        return None;
      }
      var found := FindLive(accounts, true, email);
      if found.Some? {
        return Some(accounts[found.value]);
      }
      var username := UniqueUsername(EmailBase(email), Taken(accounts));
      var a := EmailAccount(email, username);
      FreshUsernameKeepsDistinct(accounts, a, EmailBase(email));
      accounts := accounts + [a];
      account := Some(a);
    }
  }
}
