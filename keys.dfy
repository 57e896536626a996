/**
 * Storage keys of the conversation histories: `history-<id>`, where `<id>` is the
 * Telegram user id rendered in decimal by a template string.
 */
module Keys {
  /**
   * Telegram user ids are positive integers below 2^53, so JavaScript holds them exactly;
   * the type admits any natural number, and `Decimal` is their rendering only below 2^53.
   */
  type UserId = nat

  const HistoryPrefix: string := "history-"

  function DigitChar(d: nat): (c: char)
    requires d < 10
    ensures '0' <= c <= '9'
  {
    ('0' as int + d) as char
  }

  /**
   * The decimal rendering of `n`: what the template string `${n}` produces for an integer
   * number below 2^53 (larger ones are not exact in JavaScript, and from 10^21 on the
   * rendering switches to exponent notation).
   */
  function Decimal(n: nat): (r: string)
    ensures |r| >= 1
    ensures forall i :: 0 <= i < |r| ==> '0' <= r[i] <= '9'
    ensures r[0] == '0' ==> n == 0
    ensures n < 10 <==> |r| == 1
  {
    if n < 10 then [DigitChar(n)] else Decimal(n / 10) + [DigitChar(n % 10)]
  }

  /** The store key under which one user's history lives (`getHistoryKey`). */
  function HistoryKey(u: UserId): string
  {
    HistoryPrefix + Decimal(u)
  }

  /** A key is `history-` followed by at least one digit, and the digits read back as the id's rendering. */
  lemma HistoryKeyParts(u: UserId)
    ensures |HistoryKey(u)| > |HistoryPrefix|
    ensures HistoryKey(u)[..|HistoryPrefix|] == HistoryPrefix
    ensures HistoryKey(u)[|HistoryPrefix|..] == Decimal(u)
  {
  }

  /** Two numbers with the same decimal rendering are equal. */
  lemma {:induction false} DecimalInjective(a: nat, b: nat)
    requires Decimal(a) == Decimal(b)
    ensures a == b
    decreases a
  {
    if a >= 10 && b >= 10 {
      var ra, rb := Decimal(a), Decimal(b);
      assert ra[..|ra| - 1] == Decimal(a / 10);
      assert rb[..|rb| - 1] == Decimal(b / 10);
      DecimalInjective(a / 10, b / 10);
      assert DigitChar(a % 10) == ra[|ra| - 1] == rb[|rb| - 1] == DigitChar(b % 10);
    }
  }

  /** Distinct users never share a history key, so one user's commands cannot touch another's history. */
  lemma HistoryKeyInjective(a: UserId, b: UserId)
    ensures HistoryKey(a) == HistoryKey(b) <==> a == b
  {
    if HistoryKey(a) == HistoryKey(b) {
      HistoryKeyParts(a);
      HistoryKeyParts(b);
      DecimalInjective(a, b);
    }
  }
}
