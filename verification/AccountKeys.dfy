/** The key that namespaces daily risk state: broker server and account login. */
module AccountKeys {
  import opened Types

  predicate IsSpace(c: char) {
    c == ' ' || '\t' <= c <= '\r' || '\U{1c}' <= c <= '\U{1f}'
    || c == '\U{85}' || c == '\U{a0}' || c == '\U{1680}' || '\U{2000}' <= c <= '\U{200a}'
    || c == '\U{2028}' || c == '\U{2029}' || c == '\U{202f}' || c == '\U{205f}' || c == '\U{3000}'
  }

  predicate Blank(s: string) {
    forall i | 0 <= i < |s| :: IsSpace(s[i])
  }

  function NatText(n: nat): (s: string)
    ensures |s| > 0
    ensures forall i | 0 <= i < |s| :: '0' <= s[i] <= '9'
  {
    (if n < 10 then "" else NatText(n / 10)) + ['0' + (n % 10) as char]
  }

  function IntText(n: int): string {
    if n < 0 then "-" + NatText(-n) else NatText(n)
  }

  function KeyText(server: string, login: int): string {
    server + "|" + IntText(login)
  }

  /** None when the identity is not reliable: no server, a blank one, or no login. */
  function AccountKeyFor(account: Account): Option<string> {
    if account.server.None? || Blank(account.server.value) || account.login.None? || account.login.value == 0
    then None
    else Some(KeyText(account.server.value, account.login.value))
  }

  // ---- what the key is ----

  /** The code points that `str.strip` takes away. */
  const WHITE_SPACE := {
    9, 10, 11, 12, 13, 28, 29, 30, 31, 32, 0x85, 0xa0, 0x1680,
    0x2000, 0x2001, 0x2002, 0x2003, 0x2004, 0x2005, 0x2006, 0x2007, 0x2008, 0x2009, 0x200a,
    0x2028, 0x2029, 0x202f, 0x205f, 0x3000}

  /** A server name with something to see in it, and a login other than zero. */
  predicate Known(a: Account) {
    && a.server.Some? && (exists i :: 0 <= i < |a.server.value| && a.server.value[i] as int !in WHITE_SPACE)
    && a.login.Some? && a.login.value != 0
  }

  /** Server, bar and login in decimal. */
  function NameOf(a: Account): string {
    a.server.GetOr("") + "|" + IntText(a.login.GetOr(0))
  }

  lemma SpaceIsWhite(c: char)
    ensures IsSpace(c) <==> c as int in WHITE_SPACE
  {
  }

  /** An account has a key exactly when it is known, and the key is its name. */
  lemma KeyOfKnown(a: Account)
    ensures AccountKeyFor(a) == if Known(a) then Some(NameOf(a)) else None
  {
    if a.server.Some? {
      forall i | 0 <= i < |a.server.value|
        ensures IsSpace(a.server.value[i]) <==> a.server.value[i] as int in WHITE_SPACE
      {
        SpaceIsWhite(a.server.value[i]);
      }
    }
  }

  /** The number that a string of decimal digits stands for. */
  function Decimal(s: string): int {
    if s == "" then 0 else 10 * Decimal(s[..|s| - 1]) + (s[|s| - 1] as int - '0' as int)
  }

  /** The login is written in decimal, without leading zeros. */
  lemma {:induction false} NatTextIsDecimal(n: nat)
    ensures Decimal(NatText(n)) == n && (NatText(n)[0] == '0' ==> NatText(n) == "0")
  {
    var s := NatText(n);
    assert s[|s| - 1] == '0' + (n % 10) as char;
    if n >= 10 {
      NatTextIsDecimal(n / 10);
      assert s[..|s| - 1] == NatText(n / 10);
      assert Decimal(NatText(n / 10)) == n / 10 && n / 10 > 0;
    } else {
      assert s[..|s| - 1] == "";
    }
  }

  lemma IntTextIsDecimal(n: int)
    ensures n >= 0 ==> Decimal(IntText(n)) == n
    ensures n < 0 ==> IntText(n)[0] == '-' && Decimal(IntText(n)[1..]) == -n
  {
    if n >= 0 {
      NatTextIsDecimal(n);
    } else {
      NatTextIsDecimal(-n);
      assert IntText(n)[1..] == NatText(-n);
    }
  }

  // ---- different accounts have different keys ----

  lemma {:induction false} NatTextInjective(n: nat, m: nat)
    requires NatText(n) == NatText(m)
    ensures n == m
  {
    var a, b := NatText(n), NatText(m);
    assert a[|a| - 1] == '0' + (n % 10) as char && b[|b| - 1] == '0' + (m % 10) as char;
    if |a| > 1 {
      assert n >= 10 && m >= 10;
      assert a[..|a| - 1] == NatText(n / 10) && b[..|b| - 1] == NatText(m / 10);
      NatTextInjective(n / 10, m / 10);
    } else {
      assert |NatText(n / 10)| > 0 && |NatText(m / 10)| > 0;
    }
  }

  lemma IntTextInjective(n: int, m: int)
    requires IntText(n) == IntText(m)
    ensures n == m
  {
    assert IntText(n)[0] == '-' <==> n < 0;
    assert IntText(m)[0] == '-' <==> m < 0;
    if n < 0 {
      assert IntText(n)[1..] == NatText(-n) && IntText(m)[1..] == NatText(-m);
      NatTextInjective(-n, -m);
    } else {
      NatTextInjective(n, m);
    }
  }

  /** The bar that the key adds is its last one. */
  lemma KeyShape(s: string, n: int)
    ensures var k := KeyText(s, n);
      && |s| < |k| && k[|s|] == '|' && k[..|s|] == s && k[|s| + 1..] == IntText(n)
      && forall i | |s| < i < |k| :: k[i] != '|'
  {
    var k, t := KeyText(s, n), IntText(n);
    assert forall i | 0 <= i < |t| :: t[i] != '|';
    forall i | |s| < i < |k|
      ensures k[i] != '|'
    {
      assert k[i] == t[i - |s| - 1];
    }
    assert k[|s| + 1..] == t;
  }

  /** A bar in the server name cannot confuse two accounts: the key is cut at its last bar. */
  lemma KeyTextInjective(s: string, n: int, t: string, m: int)
    requires KeyText(s, n) == KeyText(t, m)
    ensures s == t && n == m
  {
    KeyShape(s, n);
    KeyShape(t, m);
    assert |s| == |t|;
    IntTextInjective(n, m);
  }

  /** Two accounts share a key exactly when they are the same server and login. */
  lemma AccountKeysSeparate(a: Account, b: Account)
    requires AccountKeyFor(a).Some? && AccountKeyFor(b).Some?
    ensures AccountKeyFor(a) == AccountKeyFor(b) <==> a.server == b.server && a.login == b.login
  {
    if AccountKeyFor(a) == AccountKeyFor(b) {
      KeyTextInjective(a.server.value, a.login.value, b.server.value, b.login.value);
    }
  }
}
