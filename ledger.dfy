/**
 * A ledger entry records one transfer and a digest of its five fields.
 * The digest algorithm (SHA-256 in hexadecimal) is a parameter `digest`,
 * and the clock reading is given as the text it renders to.
 */
module Ledger {

  /** The character for a decimal digit. */
  function DigitChar(d: nat): (c: char)
    requires d < 10
    ensures '0' <= c <= '9' && c as int - '0' as int == d
  {
    ('0' as int + d) as char
  }

  predicate IsDigits(s: string)
  {
    forall i :: 0 <= i < |s| ==> '0' <= s[i] <= '9'
  }

  /** The number a string of decimal digits denotes, read most significant digit first. */
  function DigitsValue(s: string): nat
    requires IsDigits(s)
    decreases |s|
  {
    if s == [] then 0 else DigitsValue(s[..|s| - 1]) * 10 + (s[|s| - 1] as int - '0' as int)
  }

  /** The number a decimal text denotes, with an optional leading '-'. */
  function DecimalValue(s: string): int
  {
    if |s| > 0 && s[0] == '-' && IsDigits(s[1..]) then -(DigitsValue(s[1..]) as int)
    else if IsDigits(s) then DigitsValue(s)
    else 0
  }

  /** The decimal digits of `n`, most significant first, without leading zeros. */
  function NaturalDigits(n: nat): (s: string)
    ensures |s| >= 1 && IsDigits(s)
    ensures (s[0] == '0') <==> n == 0
    decreases n
  {
    if n < 10 then [DigitChar(n)] else NaturalDigits(n / 10) + [DigitChar(n % 10)]
  }

  /** The digits of `n` denote `n`. */
  lemma {:induction false} NaturalDigitsRoundTrip(n: nat)
    ensures DigitsValue(NaturalDigits(n)) == n
    decreases n
  {
    var s := NaturalDigits(n);
    if n >= 10 {
      assert s[..|s| - 1] == NaturalDigits(n / 10);
      NaturalDigitsRoundTrip(n / 10);
    }
  }

  /** How an integer amount reads inside the payload (Python's `str` of an int). */
  function DecimalString(n: int): (s: string)
    ensures |s| >= 1
    ensures (s[0] == '-') <==> n < 0
    ensures n >= 0 ==> IsDigits(s)
    ensures n < 0 ==> |s| >= 2 && IsDigits(s[1..])
  {
    if n < 0 then "-" + NaturalDigits(-n) else NaturalDigits(n)
  }

  /** The decimal text of an amount denotes that amount. */
  lemma DecimalRoundTrip(n: int)
    ensures DecimalValue(DecimalString(n)) == n
  {
    var s := DecimalString(n);
    if n < 0 {
      assert s[1..] == NaturalDigits(-n);
      NaturalDigitsRoundTrip(-n);
    } else {
      NaturalDigitsRoundTrip(n);
    }
  }

  /** Hence distinct amounts never render alike. */
  lemma DecimalStringInjective(m: int, n: int)
    requires DecimalString(m) == DecimalString(n)
    ensures m == n
  {
    DecimalRoundTrip(m);
    DecimalRoundTrip(n);
  }

  /**
   * The hashed text: the five fields run together in a fixed order, with no
   * delimiter.  The amount occupies the slice after sender and receiver, and
   * that slice reads back as the amount.
   */
  function Payload(sender: string, receiver: string, amount: int, asset: string, timestamp: string): (p: string)
    ensures var k, d := |sender| + |receiver|, |DecimalString(amount)|;
      && |p| == k + d + |asset| + |timestamp|
      && DecimalValue(p[k..k + d]) == amount
  {
    var d := DecimalString(amount);
    var p := sender + receiver + d + asset + timestamp;
    assert p[|sender| + |receiver|..|sender| + |receiver| + |d|] == d;
    DecimalRoundTrip(amount);
    p
  }

  /**
   * Without delimiters, any two sender/receiver pairs that run together to
   * the same text give the same payload.
   */
  lemma BoundaryShiftCollides(s1: string, r1: string, s2: string, r2: string,
                              amount: int, asset: string, timestamp: string)
    requires s1 + r1 == s2 + r2
    ensures Payload(s1, r1, amount, asset, timestamp) == Payload(s2, r2, amount, asset, timestamp)
  {
    var tail := DecimalString(amount) + asset + timestamp;
    assert Payload(s1, r1, amount, asset, timestamp) == (s1 + r1) + tail;
    assert Payload(s2, r2, amount, asset, timestamp) == (s2 + r2) + tail;
  }

  /** One such pair: sender "ab" to receiver "c", and sender "a" to receiver "bc". */
  lemma FieldSplitCollides(amount: int, asset: string, timestamp: string)
    ensures Payload("ab", "c", amount, asset, timestamp) == Payload("a", "bc", amount, asset, timestamp)
  {
    BoundaryShiftCollides("ab", "c", "a", "bc", amount, asset, timestamp);
  }

  /**
   * Conversely, once the lengths of the four text fields are known the
   * payload determines every field, the amount included.
   */
  lemma PayloadDeterminesFields(s1: string, r1: string, n1: int, a1: string, t1: string,
                                s2: string, r2: string, n2: int, a2: string, t2: string)
    requires Payload(s1, r1, n1, a1, t1) == Payload(s2, r2, n2, a2, t2)
    requires |s1| == |s2| && |r1| == |r2| && |a1| == |a2| && |t1| == |t2|
    ensures s1 == s2 && r1 == r2 && n1 == n2 && a1 == a2 && t1 == t2
  {
    var d1, d2 := DecimalString(n1), DecimalString(n2);
    var p := Payload(s1, r1, n1, a1, t1);
    assert p == s1 + r1 + d1 + a1 + t1;
    assert p == s2 + r2 + d2 + a2 + t2;
    var i := |s1|;
    var j := i + |r1|;
    var k := j + |d1|;
    var l := k + |a1|;
    assert s1 == p[..i] == s2;
    assert r1 == p[i..j] == r2;
    assert d1 == p[j..k] == d2;
    assert a1 == p[k..l] == a2;
    assert t1 == p[l..] == t2;
    DecimalStringInjective(n1, n2);
  }

  /**
   * A ledger entry.  `digest` is the hash algorithm (SHA-256, hex-encoded)
   * and `timestamp` the clock reading taken at construction.
   */
  class LedgerEntry {
    const sender: string
    const receiver: string
    const amount: int
    const asset: string
    const timestamp: string
    const hash: string
    const digest: string -> string

    /**
     * `compute_hash`: the digest of the payload of the five fields.  It does
     * not tell apart entries whose sender and receiver run together alike.
     */
    function ComputeHash(): (h: string)
      ensures forall s, r :: s + r == sender + receiver ==> h == digest(Payload(s, r, amount, asset, timestamp))
    {
      BoundaryShiftCollidesAll(sender, receiver, amount, asset, timestamp);
      digest(Payload(sender, receiver, amount, asset, timestamp))
    }

    /** The stored hash is the one the fields recompute to. */
    predicate Valid()
    {
      hash == ComputeHash()
    }

    /** `now` is the clock reading, taken once and before the hash. */
    constructor (sender: string, receiver: string, amount: int, asset: string,
                 now: string, digest: string -> string)
      ensures this.sender == sender && this.receiver == receiver
      ensures this.amount == amount && this.asset == asset
      ensures timestamp == now && this.digest == digest
      ensures Valid()
    {
      this.sender := sender;
      this.receiver := receiver;
      this.amount := amount;
      this.asset := asset;
      timestamp := now;
      this.digest := digest;
      hash := digest(Payload(sender, receiver, amount, asset, now));
    }
  }

  lemma BoundaryShiftCollidesAll(sender: string, receiver: string, amount: int, asset: string, timestamp: string)
    ensures forall s, r :: s + r == sender + receiver ==>
      Payload(s, r, amount, asset, timestamp) == Payload(sender, receiver, amount, asset, timestamp)
  {
    forall s, r | s + r == sender + receiver
      ensures Payload(s, r, amount, asset, timestamp) == Payload(sender, receiver, amount, asset, timestamp)
    {
      BoundaryShiftCollides(s, r, sender, receiver, amount, asset, timestamp);
    }
  }

  /**
   * Two well-formed entries with the same five fields, hashed by the same
   * algorithm, store the same hash.
   */
  lemma SameFieldsSameHash(e1: LedgerEntry, e2: LedgerEntry)
    requires e1.Valid() && e2.Valid() && e1.digest == e2.digest
    requires e1.sender == e2.sender && e1.receiver == e2.receiver && e1.amount == e2.amount
    requires e1.asset == e2.asset && e1.timestamp == e2.timestamp
    ensures e1.hash == e2.hash
  {
  }

  /** Entries from "ab" to "c" and from "a" to "bc", otherwise alike, store the same hash. */
  lemma SplitEntriesCollide(e1: LedgerEntry, e2: LedgerEntry)
    requires e1.Valid() && e2.Valid() && e1.digest == e2.digest
    requires e1.sender == "ab" && e1.receiver == "c" && e2.sender == "a" && e2.receiver == "bc"
    requires e1.amount == e2.amount && e1.asset == e2.asset && e1.timestamp == e2.timestamp
    ensures e1.hash == e2.hash
  {
    FieldSplitCollides(e1.amount, e1.asset, e1.timestamp);
  }
}
