/**
 * The correlation token `externalTransactionId` that ties a payment request
 * to the webhook confirming it: `{invoiceId}inv{timestamp}`, sanitised to
 * `[A-Za-z0-9_-]` and cut to 15 characters when the payment is created, and
 * read back as the digits before the first "inv" when the webhook arrives.
 */
module Token {
  import opened Wrappers
  import opened PhpString

  const Separator: string := "inv"
  const MaxLength: nat := 15

  /** The token `process` sends for invoice `invoiceId` at Unix time `now`. */
  function Encode(invoiceId: int, now: nat): (token: string)
    ensures |token| <= MaxLength
    ensures AllSatisfy(token, IsTokenChar)
  {
    Truncate(Filter(IntToString(invoiceId) + Separator + NatToString(now), IsTokenChar), MaxLength)
  }

  /**
   * The candidate invoice id `processTransaction` reads from a token: the
   * digits of the part before the first "inv", or of the whole token.
   */
  function DecodeDigits(token: string): (digits: string)
    ensures AllSatisfy(digits, IsDigit)
    ensures IsSubsequence(digits, Before(token, Separator))
    ensures |token| <= MaxLength ==> |digits| <= MaxLength
  {
    Filter(Before(token, Separator), IsDigit)
  }

  /** The decoded invoice id, or None when it is PHP-false ("" or "0"). */
  function ParseInvoiceId(token: string): (r: Option<string>)
    ensures r.Some? ==> IsTruthyString(r.value) && AllSatisfy(r.value, IsDigit)
    ensures r.None? <==> DecodeDigits(token) == "" || DecodeDigits(token) == "0"
    ensures r.Some? ==> r.value == DecodeDigits(token)
  {
    var digits := DecodeDigits(token);
    if IsTruthyString(digits) then Some(digits) else None
  }

  lemma IntToStringIsTokenText(i: int)
    ensures AllSatisfy(IntToString(i), IsTokenChar)
    ensures forall k :: 0 <= k < |IntToString(i)| ==> IntToString(i)[k] != 'i'
  {
    var d := NatToString(if i < 0 then -i else i);
    assert forall k :: 0 <= k < |d| ==> IsDigit(d[k]);
    if i < 0 {
      assert forall k :: 1 <= k < |IntToString(i)| ==> IntToString(i)[k] == d[k - 1];
    }
  }

  /**
   * Sanitising changes nothing: the token is exactly the first
   * min(15, length) characters of `str(id) + "inv" + str(now)`.
   */
  lemma EncodeIsPrefix(invoiceId: int, now: nat)
    ensures Encode(invoiceId, now) == Truncate(IntToString(invoiceId) + Separator + NatToString(now), MaxLength)
    ensures Encode(invoiceId, now) <= IntToString(invoiceId) + Separator + NatToString(now)
  {
    var id, t := IntToString(invoiceId), NatToString(now);
    IntToStringIsTokenText(invoiceId);
    var s := id + Separator + t;
    forall k | 0 <= k < |s| ensures IsTokenChar(s[k]) {
      if k < |id| {
        assert s[k] == id[k];
      } else if k < |id| + 3 {
        assert s[k] == Separator[k - |id|];
      } else {
        assert s[k] == t[k - |id| - 3];
      }
    }
  }

  /** Whatever survives of `"inv" + rest` after the cut contributes no digit. */
  lemma SeparatorTailHasNoDigits(rest: string, k: nat)
    ensures Filter(Before(Truncate(Separator + rest, k), Separator), IsDigit) == []
  {
    var x := Truncate(Separator + rest, k);
    var tail := Before(x, Separator);
    if k >= 3 {
      assert x[..3] == (Separator + rest)[..3] == Separator;
      assert tail == [];
    } else {
      assert x == Separator[..k];
      assert tail == x;
      assert forall i :: 0 <= i < |tail| ==> !IsDigit(tail[i]);
    }
  }

  /**
   * The decoding of a token cut from `p + "inv" + rest`, where p fits in the
   * 15 characters and holds no 'i': whatever part of "inv" survives, the
   * digits recovered are exactly those of p.
   */
  lemma DecodeAfterShortPrefix(p: string, rest: string)
    requires |p| <= MaxLength
    requires forall i :: 0 <= i < |p| ==> p[i] != 'i'
    ensures DecodeDigits(Truncate(p + Separator + rest, MaxLength)) == Filter(p, IsDigit)
  {
    var room: nat := MaxLength - |p|;
    var a := Truncate(p + Separator + rest, MaxLength);
    var b := p + Truncate(Separator + rest, room);
    TruncateBehindPrefix(p, rest);
    assert a == b;
    DecodeBehindPrefix(p, rest, room);
    assert DecodeDigits(b) == Filter(p, IsDigit);
    assert DecodeDigits(a) == DecodeDigits(b);
  }

  /** Cutting `p + "inv" + rest` to 15 characters keeps p whole when it fits. */
  lemma TruncateBehindPrefix(p: string, rest: string)
    requires |p| <= MaxLength
    ensures Truncate(p + Separator + rest, MaxLength) == p + Truncate(Separator + rest, MaxLength - |p|)
  {
    assert p + Separator + rest == p + (Separator + rest);
    TruncateAppend(p, Separator + rest, MaxLength);
  }

  /** Digits are read from p and then from what is left of `"inv" + rest`, which adds none. */
  lemma DecodeBehindPrefix(p: string, rest: string, room: nat)
    requires forall i :: 0 <= i < |p| ==> p[i] != 'i'
    ensures DecodeDigits(p + Truncate(Separator + rest, room)) == Filter(p, IsDigit)
  {
    var x := Truncate(Separator + rest, room);
    SeparatorTailHasNoDigits(rest, room);
    BeforeSkip(p, x, Separator);
    FilterAppendRejected(p, Before(x, Separator), IsDigit);
  }

  /**
   * Round trip: for an id of at most 15 decimal digits and any timestamp,
   * the token decodes to the decimal rendering of the id.
   */
  lemma RoundTrip(invoiceId: nat, now: nat)
    requires invoiceId < Pow10(MaxLength)
    ensures DecodeDigits(Encode(invoiceId, now)) == NatToString(invoiceId)
  {
    var d := NatToString(invoiceId);
    NatToStringLength(invoiceId, MaxLength);
    EncodeIsPrefix(invoiceId, now);
    IntToStringIsTokenText(invoiceId);
    DecodeAfterShortPrefix(d, NatToString(now));
  }

  /**
   * An id from 1 to 10^15 - 1 is accepted, and the accepted digits denote
   * the id.
   */
  lemma ParseRoundTrip(invoiceId: nat, now: nat)
    requires 1 <= invoiceId < Pow10(MaxLength)
    ensures ParseInvoiceId(Encode(invoiceId, now)) == Some(NatToString(invoiceId))
    ensures DecimalValue(NatToString(invoiceId)) == invoiceId
  {
    RoundTrip(invoiceId, now);
    DecimalValueOfNatToString(invoiceId);
  }

  /** Invoice id 0 encodes, but its decoding "0" is PHP-false and is refused. */
  lemma ZeroIdRefused(now: nat)
    ensures DecodeDigits(Encode(0, now)) == "0"
    ensures ParseInvoiceId(Encode(0, now)) == None
  {
    RoundTrip(0, now);
  }

  /**
   * An id of 16 or more digits loses its tail to truncation: the decoding
   * is its first 15 digits, which denote a different number.
   */
  lemma LongIdMisdecoded(invoiceId: nat, now: nat)
    requires invoiceId >= Pow10(MaxLength)
    ensures |NatToString(invoiceId)| > MaxLength
    ensures DecodeDigits(Encode(invoiceId, now)) == NatToString(invoiceId)[..MaxLength]
    ensures ParseInvoiceId(Encode(invoiceId, now)) == Some(NatToString(invoiceId)[..MaxLength])
    ensures DecimalValue(NatToString(invoiceId)[..MaxLength]) != invoiceId
  {
    var d := NatToString(invoiceId);
    LongIdToken(invoiceId, now);
    var token := d[..MaxLength];
    AllSatisfyPrefix(d, MaxLength, IsDigit);
    DigitsDecodeWhole(token);
    assert DecimalValue(token) < Pow10(MaxLength);
  }

  /** The token of an id of 16 or more digits is its first 15 digits. */
  lemma LongIdToken(invoiceId: nat, now: nat)
    requires invoiceId >= Pow10(MaxLength)
    ensures |NatToString(invoiceId)| > MaxLength
    ensures Encode(invoiceId, now) == NatToString(invoiceId)[..MaxLength]
  {
    var d := NatToString(invoiceId);
    NatToStringLength(invoiceId, MaxLength);
    EncodeIsPrefix(invoiceId, now);
    IntToStringOfNat(invoiceId);
    TruncateWithin(d, Separator, NatToString(now), MaxLength);
  }

  /** A token of digits only holds no "inv" and decodes to itself. */
  lemma DigitsDecodeWhole(token: string)
    requires AllSatisfy(token, IsDigit)
    ensures DecodeDigits(token) == token
  {
  }

  /**
   * A negative id (`getId()` is not checked) loses its sign: '-' is kept
   * by the sanitiser but dropped by the digit filter.
   */
  lemma NegativeIdLosesSign(invoiceId: int, now: nat)
    requires 0 < -invoiceId < Pow10(MaxLength - 1)
    ensures |Encode(invoiceId, now)| >= 1 && Encode(invoiceId, now)[0] == '-'
    ensures DecodeDigits(Encode(invoiceId, now)) == NatToString(-invoiceId)
  {
    var id := IntToString(invoiceId);
    NegativeRendering(invoiceId);
    EncodeIsPrefix(invoiceId, now);
    DecodeAfterShortPrefix(id, NatToString(now));
    FilterDropsSign(NatToString(-invoiceId));
  }

  /** A negative id of at most 14 digits renders as '-' and its digits: 15 characters at most, no 'i'. */
  lemma NegativeRendering(invoiceId: int)
    requires 0 < -invoiceId < Pow10(MaxLength - 1)
    ensures IntToString(invoiceId) == "-" + NatToString(-invoiceId)
    ensures |IntToString(invoiceId)| <= MaxLength
    ensures AllSatisfy(NatToString(-invoiceId), IsDigit)
    ensures forall k :: 0 <= k < |IntToString(invoiceId)| ==> IntToString(invoiceId)[k] != 'i'
  {
    NatToStringLength(-invoiceId, MaxLength - 1);
    IntToStringIsTokenText(invoiceId);
  }

  /** The digit filter drops a leading '-' and keeps the digits after it. */
  lemma FilterDropsSign(d: string)
    requires AllSatisfy(d, IsDigit)
    ensures Filter("-" + d, IsDigit) == d
  {
    FilterAppend("-", d, IsDigit);
    assert Filter("-", IsDigit) == [];
    assert "" + d == d;
  }

  /** Invoice 4821 keeps the whole "inv" at any time and decodes back to "4821". */
  lemma Example4821(now: nat)
    ensures |Encode(4821, now)| >= 7 && Encode(4821, now)[..7] == "4821inv"
    ensures ParseInvoiceId(Encode(4821, now)) == Some("4821")
  {
    Render4821();
    assert |Encode(4821, now)| >= 7 && Encode(4821, now)[..7] == "4821inv" by {
      EncodeIsPrefix(4821, now);
      var s := "4821" + Separator + NatToString(now);
      assert |s| >= 8 && s[..7] == "4821inv";
    }
    NatToStringLength(4821, MaxLength);
    ParseRoundTrip(4821, now);
  }

  /** The token issued for invoice 4821 at Unix time 1700000000. */
  lemma Example4821Encoded()
    ensures Encode(4821, 1700000000) == "4821inv17000000"
  {
    Render4821();
    Render1700000000();
    EncodeFromRenderings(4821, 1700000000);
  }

  lemma EncodeFromRenderings(invoiceId: int, now: nat)
    requires IntToString(invoiceId) == "4821" && NatToString(now) == "1700000000"
    ensures Encode(invoiceId, now) == "4821inv17000000"
  {
    EncodeIsPrefix(invoiceId, now);
    assert IntToString(invoiceId) + Separator + NatToString(now) == "4821inv1700000000";
  }

  lemma Render4821()
    ensures IntToString(4821) == "4821"
  {
    assert NatToString(4821) == "4821";
  }

  lemma Render1700000000()
    ensures NatToString(1700000000) == "1700000000"
  {
    assert NatToString(17) == "17";
    assert NatToString(170) == "170";
    assert NatToString(1700) == "1700";
    assert NatToString(17000) == "17000";
    assert NatToString(170000) == "170000";
    assert NatToString(1700000) == "1700000";
    assert NatToString(17000000) == "17000000";
    assert NatToString(170000000) == "170000000";
  }

  /** That token, read back. */
  lemma Example4821Token()
    ensures ParseInvoiceId("4821inv17000000") == Some("4821")
  {
    assert "4821inv17000000" == "4821" + Separator + "17000000";
    DecodeUncut("4821", "17000000");
  }

  /** A token that was not cut, with digits only before "inv", decodes to those digits. */
  lemma DecodeUncut(d: string, rest: string)
    requires AllSatisfy(d, IsDigit)
    requires |d + Separator + rest| <= MaxLength
    ensures DecodeDigits(d + Separator + rest) == d
  {
    DecodeAfterShortPrefix(d, rest);
  }
}
