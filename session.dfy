/** Session ids of the form `{userId}-{timestamp}`, written to local storage
    under `sessionId`. The clock is a parameter: `timestamp` is the value
    `Date.now()` returned, in milliseconds. */
module Session {
  import opened BrowserStorage

  predicate IsDigit(c: char)
  {
    '0' <= c <= '9'
  }

  function DigitChar(d: nat): (c: char)
    requires d < 10
    ensures IsDigit(c)
  {
    ('0' as int + d) as char
  }

  function DigitValue(c: char): (d: nat)
    requires IsDigit(c)
    ensures d < 10 && DigitChar(d) == c
  {
    c as int - '0' as int
  }

  /** The decimal rendering of a non-negative integer, as a template literal writes it. */
  function Decimal(n: nat): (s: string)
    ensures |s| >= 1
    ensures forall i :: 0 <= i < |s| ==> IsDigit(s[i])
    ensures s[0] == '0' ==> n == 0
    decreases n
  {
    if n < 10 then [DigitChar(n)] else Decimal(n / 10) + [DigitChar(n % 10)]
  }

  /** The value of a string of decimal digits. */
  function DecimalValue(s: string): nat
    requires forall i :: 0 <= i < |s| ==> IsDigit(s[i])
    decreases |s|
  {
    if s == [] then 0 else DecimalValue(s[..|s| - 1]) * 10 + DigitValue(s[|s| - 1])
  }

  /** Reading back a rendered number gives the number. */
  lemma {:induction false} DecimalRoundTrip(n: nat)
    ensures DecimalValue(Decimal(n)) == n
    decreases n
  {
    var s := Decimal(n);
    if n >= 10 {
      assert s[..|s| - 1] == Decimal(n / 10);
      DecimalRoundTrip(n / 10);
      assert DigitValue(s[|s| - 1]) == n % 10 by {
        assert s[|s| - 1] == DigitChar(n % 10);
      }
    }
  }

  /** Distinct numbers render differently. */
  lemma DecimalInjective(a: nat, b: nat)
    requires Decimal(a) == Decimal(b)
    ensures a == b
  {
    DecimalRoundTrip(a);
    DecimalRoundTrip(b);
  }

  /** `${userId}-${timestamp}`. */
  function SessionId(userId: string, timestamp: nat): (r: string)
    ensures |r| > |userId| && r[..|userId| + 1] == userId + "-"
    ensures r[|userId| + 1..] == Decimal(timestamp)
    ensures forall j :: |userId| < j < |r| ==> IsDigit(r[j])
  {
    userId + "-" + Decimal(timestamp)
  }

  /** A session id determines both the user id and the timestamp: the last
      '-' separates them, since the timestamp has no '-' in it. So distinct
      timestamps for the same user give distinct ids, and so do distinct users. */
  lemma SessionIdInjective(u1: string, t1: nat, u2: string, t2: nat)
    requires SessionId(u1, t1) == SessionId(u2, t2)
    ensures u1 == u2 && t1 == t2
  {
    var s := SessionId(u1, t1);
    var d1, d2 := Decimal(t1), Decimal(t2);
    // Each id has its '-' at the end of its user id and only digits after it,
    // so the two separators sit at the same place.
    assert s[|u1|] == '-' && s[|u2|] == '-';
    assert |u1| == |u2|;
    assert u1 == s[..|u1|] == u2;
    assert d1 == s[|u1| + 1..] == d2;
    DecimalInjective(t1, t2);
  }

  /** `generateSessionId`: stores the id under `sessionId` and returns the same string. */
  method GenerateSessionId(storage: LocalStorage, userId: string, timestamp: nat) returns (id: string)
    modifies storage
    ensures id == SessionId(userId, timestamp)
    ensures storage.items == old(storage.items)[SESSION_ID := id]
  {
    id := userId + "-" + Decimal(timestamp);
    storage.SetItem(SESSION_ID, id);
  }
}
