/** The names under which engines claim instances (nextClaimOwner in engine/engine.go). */
module Owners {

  const DIGITS := "0123456789"

  function Decimal(n: nat): (s: string)
    ensures s != "" && forall i :: 0 <= i < |s| ==> s[i] != '-'
  {
    if n < 10 then [DIGITS[n]] else Decimal(n / 10) + [DIGITS[n % 10]]
  }

  lemma {:induction false} DecimalIsUnique(m: nat, n: nat)
    requires Decimal(m) == Decimal(n)
    ensures m == n
  {
    if m >= 10 && n >= 10 {
      var s, t := Decimal(m / 10), Decimal(n / 10);
      assert (s + [DIGITS[m % 10]])[..|s|] == s && (t + [DIGITS[n % 10]])[..|t|] == t;
      assert Decimal(m)[|s|] == DIGITS[m % 10] && Decimal(n)[|t|] == DIGITS[n % 10];
      DecimalIsUnique(m / 10, n / 10);
      DigitIsUnique(m % 10, n % 10);
    } else if m < 10 && n < 10 {
      assert Decimal(m)[0] == Decimal(n)[0];
      DigitIsUnique(m, n);
    }
  }

  lemma DigitIsUnique(m: nat, n: nat)
    requires m < 10 && n < 10 && DIGITS[m] == DIGITS[n]
    ensures m == n
  {
  }

  const CLAIM := "-claim-"

  function OwnerName(consumer: string, n: nat): string {
    consumer + CLAIM + Decimal(n)
  }

  lemma OwnerExample()
    ensures OwnerName("host-7", 0) == "host-7-claim-0" && OwnerName("host-7", 120) == "host-7-claim-120"
  {
    assert Decimal(120) == Decimal(12) + "0" && Decimal(12) == Decimal(1) + "2";
  }

  /** Two owner names are the same only if consumer and number are: no two claims of engines with different consumer names,
      and no two of one engine, share an owner. */
  lemma OwnersDiffer(consumer: string, m: nat, other: string, n: nat)
    ensures OwnerName(consumer, m) == OwnerName(other, n) <==> consumer == other && m == n
  {
    var s, c, d := OwnerName(consumer, m), Decimal(m), Decimal(n);
    if s == OwnerName(other, n) {
      LastDash(consumer, c);
      LastDash(other, d);
      assert |c| == |d|;
      assert s[|s| - |c|..] == c && s[|s| - |d|..] == d;
      DecimalIsUnique(m, n);
      assert s[..|s| - |c| - |CLAIM|] == consumer && s[..|s| - |d| - |CLAIM|] == other;
    }
  }

  /** The number stands after the last dash. */
  lemma LastDash(consumer: string, digits: string)
    requires forall i :: 0 <= i < |digits| ==> digits[i] != '-'
    ensures var s := consumer + CLAIM + digits;
      && s[|s| - |digits| - 1] == '-' && forall i :: |s| - |digits| <= i < |s| ==> s[i] != '-'
  {
    var s := consumer + CLAIM + digits;
    assert CLAIM[|CLAIM| - 1] == '-';
    forall i | |s| - |digits| <= i < |s| ensures s[i] != '-' {
      assert s[i] == digits[i - (|s| - |digits|)];
    }
  }
}
