/**
 * The key encodings of the single DynamoDB table: the `KIND#id` tags used as
 * partition and sort keys, and the zero-padded millisecond timestamps that make
 * event sort keys order chronologically.
 */
module Keys {
  import opened Text

  // ---------------------------------------------------------------------------
  // Decimal digits
  // ---------------------------------------------------------------------------

  function Pow10(k: nat): (p: nat)
    ensures p >= 1
  {
    if k == 0 then 1 else 10 * Pow10(k - 1)
  }

  /** Epoch milliseconds below this bound print with at most 13 digits. */
  const PAD_BOUND: nat := 10_000_000_000_000

  lemma Pow10Of13()
    ensures Pow10(13) == PAD_BOUND
  {
  }

  function DigitChar(d: nat): (c: char)
    requires d < 10
    ensures IsDigit(c) && c as int - '0' as int == d
  {
    (d + '0' as int) as char
  }

  function DigitOf(c: char): nat
    requires IsDigit(c)
  {
    c as int - '0' as int
  }

  predicate AllDigits(s: string) {
    forall i :: 0 <= i < |s| ==> IsDigit(s[i])
  }

  /** `String(n)` for a non-negative integer. */
  function Decimal(n: nat): (s: string)
    ensures AllDigits(s) && |s| >= 1
  {
    if n < 10 then [DigitChar(n)] else Decimal(n / 10) + [DigitChar(n % 10)]
  }

  /** The number a string of decimal digits denotes, read from the most significant digit. */
  function DigitsValue(s: string): nat
    requires AllDigits(s)
  {
    if s == [] then 0 else DigitOf(s[0]) * Pow10(|s| - 1) + DigitsValue(s[1..])
  }

  lemma {:induction false} DigitsValueBound(s: string)
    requires AllDigits(s)
    ensures DigitsValue(s) < Pow10(|s|)
    decreases |s|
  {
    if s != [] {
      DigitsValueBound(s[1..]);
      var p := Pow10(|s| - 1);
      var d := DigitOf(s[0]);
      assert DigitsValue(s) < d * p + p;
      assert (d + 1) * p <= 10 * p by { MulMonotone(d + 1, 10, p); }
      MulSucc(d, p);
    }
  }

  lemma MulMonotone(a: nat, b: nat, p: nat)
    requires a <= b
    ensures a * p <= b * p
  {
    assert b * p == a * p + (b - a) * p;
  }

  lemma {:induction false} DigitsValueSnoc(s: string, c: char)
    requires AllDigits(s) && IsDigit(c)
    ensures AllDigits(s + [c]) && DigitsValue(s + [c]) == DigitsValue(s) * 10 + DigitOf(c)
    decreases |s|
  {
    assert AllDigits(s + [c]);
    if s == [] {
      assert s + [c] == [c];
    } else {
      var t := s + [c];
      assert t[1..] == s[1..] + [c];
      DigitsValueSnoc(s[1..], c);
      var d := DigitOf(s[0]);
      var p := Pow10(|s| - 1);
      var v := DigitsValue(s[1..]);
      assert Pow10(|t| - 1) == 10 * p;
      assert DigitsValue(t) == d * (10 * p) + (v * 10 + DigitOf(c));
      assert DigitsValue(s) == d * p + v;
      ShiftDigit(d, p, v);
    }
  }

  lemma {:induction false} DecimalValue(n: nat)
    ensures DigitsValue(Decimal(n)) == n
    decreases n
  {
    if n >= 10 {
      DecimalValue(n / 10);
      DigitsValueSnoc(Decimal(n / 10), DigitChar(n % 10));
    }
  }

  lemma {:induction false} DecimalLength(n: nat, k: nat)
    requires 1 <= k && n < Pow10(k)
    ensures |Decimal(n)| <= k
    decreases k
  {
    if n >= 10 {
      assert Pow10(1) == 10;
      DecimalLength(n / 10, k - 1);
    }
  }

  lemma {:induction false} LeadingZerosValue(m: nat, s: string)
    requires AllDigits(s)
    ensures AllDigits(Repeat('0', m) + s) && DigitsValue(Repeat('0', m) + s) == DigitsValue(s)
    decreases m
  {
    var t := Repeat('0', m) + s;
    assert AllDigits(t);
    if m > 0 {
      assert t[1..] == Repeat('0', m - 1) + s;
      LeadingZerosValue(m - 1, s);
    } else {
      assert t == s;
    }
  }

  /** Among digit strings of one length, string order and numeric order agree. */
  lemma {:induction false} LexOrderIsNumericOrder(s: string, t: string)
    requires |s| == |t| && AllDigits(s) && AllDigits(t)
    ensures LexLess(s, t) <==> DigitsValue(s) < DigitsValue(t)
    decreases |s|
  {
    if s != [] {
      if s[0] == t[0] {
        LexOrderIsNumericOrder(s[1..], t[1..]);
        assert DigitsValue(s) - DigitsValue(s[1..]) == DigitsValue(t) - DigitsValue(t[1..]);
      } else if s[0] < t[0] {
        SmallerLeadingDigit(s, t);
      } else {
        SmallerLeadingDigit(t, s);
      }
    }
  }

  /** Of two digit strings of one length, the one with the smaller leading digit denotes the smaller number. */
  lemma SmallerLeadingDigit(s: string, t: string)
    requires |s| == |t| && AllDigits(s) && AllDigits(t)
    requires s != [] && s[0] < t[0]
    ensures DigitsValue(s) < DigitsValue(t)
  {
    var p := Pow10(|s| - 1);
    var ds, dt := DigitOf(s[0]), DigitOf(t[0]);
    var low, high := ds * p, dt * p;
    assert DigitsValue(s) == low + DigitsValue(s[1..]);
    assert DigitsValue(t) == high + DigitsValue(t[1..]);
    DigitsValueBound(s[1..]);
    assert low + p <= high by {
      MulMonotone(ds + 1, dt, p);
      MulSucc(ds, p);
    }
  }

  lemma ShiftDigit(d: nat, p: nat, v: nat)
    ensures d * (10 * p) + v * 10 == (d * p + v) * 10
  {
  }

  lemma MulSucc(a: nat, p: nat)
    ensures (a + 1) * p == a * p + p
  {
  }

  // ---------------------------------------------------------------------------
  // pad13
  // ---------------------------------------------------------------------------

  /** `s.padStart(width, fill)`: never truncates. */
  function PadStart(s: string, width: nat, fill: char): string {
    if |s| >= width then s else Repeat(fill, width - |s|) + s
  }

  /** `pad13(n)`: negative inputs clamp to zero, then the decimal form is left-padded to 13 digits. */
  function Pad13(n: int): string {
    PadStart(Decimal(if n < 0 then 0 else n), 13, '0')
  }

  function ClampToZero(n: int): nat {
    if n < 0 then 0 else n
  }

  /** Below 10^13 the padded form has exactly 13 digits and denotes the clamped input. */
  lemma Pad13Shape(n: int)
    requires n < PAD_BOUND
    ensures |Pad13(n)| == 13 && AllDigits(Pad13(n)) && DigitsValue(Pad13(n)) == ClampToZero(n)
  {
    var m := ClampToZero(n);
    Pow10Of13();
    DecimalLength(m, 13);
    DecimalValue(m);
    LeadingZerosValue(13 - |Decimal(m)|, Decimal(m));
  }

  lemma Pad13Negative(n: int)
    requires n < 0
    ensures Pad13(n) == Repeat('0', 13)
  {
    assert Decimal(0) == ['0'];
    assert Repeat('0', 12) + ['0'] == Repeat('0', 13);
  }

  /** For timestamps in [0, 10^13), comparing padded strings is comparing numbers. */
  lemma Pad13Order(a: int, b: int)
    requires 0 <= a < PAD_BOUND && 0 <= b < PAD_BOUND
    ensures LexLess(Pad13(a), Pad13(b)) <==> a < b
  {
    Pad13Shape(a);
    Pad13Shape(b);
    LexOrderIsNumericOrder(Pad13(a), Pad13(b));
  }

  // ---------------------------------------------------------------------------
  // Key tags
  // ---------------------------------------------------------------------------

  const USER_PREFIX := "USER#"
  const FAMILY_PREFIX := "FAMILY#"
  const INVITE_PREFIX := "INVITE#"
  const MEMBER_PREFIX := "MEMBER#"
  const PUSH_PREFIX := "PUSH#"
  const EVENT_PREFIX := "EVENT#"
  const META := "META"
  const PROFILE := "PROFILE"

  /** `USER#sub`: a user's partition. */
  function UserTag(sub: string): string { USER_PREFIX + sub }
  /** `FAMILY#id`: a family's partition, a membership's sort key and a GSI partition. */
  function FamilyTag(familyId: string): string { FAMILY_PREFIX + familyId }
  /** `INVITE#hash`: the partition of an invite mapping. */
  function InviteTag(hash: string): string { INVITE_PREFIX + hash }
  /** `MEMBER#sub`: a membership's GSI sort key. */
  function MemberTag(sub: string): string { MEMBER_PREFIX + sub }
  /** `PUSH#hash`: a push subscription's sort key. */
  function PushTag(hash: string): string { PUSH_PREFIX + hash }
  /** `USER#sub#PUSH#hash`: a push subscription's GSI sort key. */
  function PushGsiTag(sub: string, hash: string): string { UserTag(sub) + "#" + PushTag(hash) }

  /** The largest code point below the supplementary planes, appended to an upper range bound. */
  const MAX_BMP: char := '\U{FFFF}'

  /** `EVENT#<pad13(ms)>#<eventId>`. */
  function EventTag(ms: int, eventId: string): string {
    EVENT_PREFIX + Pad13(ms) + "#" + eventId
  }

  /** Lower bound of an event range query: `EVENT#<pad13(from)>#`. */
  function EventFromKey(from: int): string {
    EVENT_PREFIX + Pad13(from) + "#"
  }

  /** Upper bound of an event range query: `EVENT#<pad13(to)>#￿`. */
  function EventToKey(to: int): string {
    EVENT_PREFIX + Pad13(to) + "#" + [MAX_BMP]
  }

  /** The text `randomUUID` produces: lower-case hex digits and dashes. */
  predicate IsUuidText(id: string) {
    forall i :: 0 <= i < |id| ==> IsDigit(id[i]) || ('a' <= id[i] <= 'f') || id[i] == '-'
  }

  lemma LexLeCommonPrefix(p: string, a: string, b: string)
    ensures LexLe(p + a, p + b) <==> LexLe(a, b)
  {
    LexCommonPrefix(p, a, b);
    if p + a == p + b {
      assert a == (p + a)[|p|..] && b == (p + b)[|p|..];
    }
  }

  /**
   * An event key lies in the inclusive range [EventFromKey(from), EventToKey(to)]
   * exactly when its timestamp lies between the clamped bounds: the range query
   * of the event listing and of the reminder job is a time-range query.
   */
  lemma EventKeyInRange(from: int, to: int, ms: int, eventId: string)
    requires from < PAD_BOUND && to < PAD_BOUND && 0 <= ms < PAD_BOUND
    requires IsUuidText(eventId)
    ensures (LexLe(EventFromKey(from), EventTag(ms, eventId)) && LexLe(EventTag(ms, eventId), EventToKey(to)))
            <==> ClampToZero(from) <= ms <= ClampToZero(to)
  {
    var f, t := ClampToZero(from), ClampToZero(to);
    assert Pad13(from) == Pad13(f) && Pad13(to) == Pad13(t);
    var pf, pm, pt := Pad13(f), Pad13(ms), Pad13(t);
    Pad13Shape(f);
    Pad13Shape(ms);
    Pad13Shape(t);
    var key := EventTag(ms, eventId);
    assert key == EVENT_PREFIX + (pm + ("#" + eventId));
    assert EventFromKey(from) == EVENT_PREFIX + (pf + "#");
    assert EventToKey(to) == EVENT_PREFIX + (pt + ("#" + [MAX_BMP]));
    LexLeCommonPrefix(EVENT_PREFIX, pf + "#", pm + ("#" + eventId));
    LexLeCommonPrefix(EVENT_PREFIX, pm + ("#" + eventId), pt + ("#" + [MAX_BMP]));
    // lower bound
    Pad13Order(f, ms);
    Pad13Order(ms, f);
    if f < ms {
      LexLessExtend(pf, pm, "#", "#" + eventId);
    } else if f == ms {
      assert pm + ("#" + eventId) == (pf + "#") + eventId;
      LexPrefixLe(pf + "#", eventId);
    } else {
      LexLessExtend(pm, pf, "#" + eventId, "#");
      LexLessAsymmetric(pm + ("#" + eventId), pf + "#");
    }
    // upper bound
    Pad13Order(t, ms);
    Pad13Order(ms, t);
    if ms < t {
      LexLessExtend(pm, pt, "#" + eventId, "#" + [MAX_BMP]);
    } else if ms == t {
      assert LexLess(eventId, [MAX_BMP]);
      LexCommonPrefix(pm + "#", eventId, [MAX_BMP]);
      assert pm + ("#" + eventId) == (pm + "#") + eventId;
      assert pt + ("#" + [MAX_BMP]) == (pm + "#") + [MAX_BMP];
    } else {
      LexLessExtend(pt, pm, "#" + [MAX_BMP], "#" + eventId);
      LexLessAsymmetric(pt + ("#" + [MAX_BMP]), pm + ("#" + eventId));
    }
  }

  /**
   * The bounds of an event range query are in order, lower not after upper,
   * exactly when the clamped `from` is not later than the clamped `to`.
   */
  lemma WindowBoundsOrdered(from: int, to: int)
    requires from < PAD_BOUND && to < PAD_BOUND
    ensures LexLe(EventFromKey(from), EventToKey(to)) <==> ClampToZero(from) <= ClampToZero(to)
  {
    var f := ClampToZero(from);
    assert EventTag(f, "") == EventFromKey(from);
    EventKeyInRange(from, to, f, "");
  }

  /** Event keys of earlier timestamps sort first, whatever the event ids: sort-key order is chronological. */
  lemma EventTagChronological(a: int, b: int, idA: string, idB: string)
    requires 0 <= a < b < PAD_BOUND
    ensures LexLess(EventTag(a, idA), EventTag(b, idB))
  {
    Pad13Shape(a);
    Pad13Shape(b);
    Pad13Order(a, b);
    LexLessExtend(Pad13(a), Pad13(b), "#" + idA, "#" + idB);
    LexCommonPrefix(EVENT_PREFIX, Pad13(a) + ("#" + idA), Pad13(b) + ("#" + idB));
    assert EventTag(a, idA) == EVENT_PREFIX + (Pad13(a) + ("#" + idA));
    assert EventTag(b, idB) == EVENT_PREFIX + (Pad13(b) + ("#" + idB));
  }

  /** `pad13` of any input, however large, is made of digits only. */
  lemma PadIsDigits(n: int)
    ensures AllDigits(Pad13(n))
  {
    var d := Decimal(ClampToZero(n));
    if |d| < 13 {
      assert Pad13(n) == Repeat('0', 13 - |d|) + d;
    }
  }

  /** Two events with different ids never share a sort key, whatever their timestamps. */
  lemma EventTagSeparatesIds(ms1: int, id1: string, ms2: int, id2: string)
    requires id1 != id2
    ensures EventTag(ms1, id1) != EventTag(ms2, id2)
  {
    var p1, p2 := Pad13(ms1), Pad13(ms2);
    var s1, s2 := EventTag(ms1, id1), EventTag(ms2, id2);
    var n := |EVENT_PREFIX|;
    assert s1 == EVENT_PREFIX + p1 + "#" + id1 && s2 == EVENT_PREFIX + p2 + "#" + id2;
    if |p1| == |p2| {
      assert s1[n + |p1| + 1..] == id1;
      assert s2[n + |p1| + 1..] == id2;
    } else {
      PadIsDigits(ms1);
      PadIsDigits(ms2);
      if |p1| < |p2| {
        assert s1[n + |p1|] == '#' && IsDigit(s2[n + |p1|]);
      } else {
        assert s2[n + |p2|] == '#' && IsDigit(s1[n + |p2|]);
      }
    }
  }

  /** For timestamps in [0, 10^13), the order of two event sort keys agrees with the order of their timestamps. */
  lemma EventOrderIsTimeOrder(ms1: int, id1: string, ms2: int, id2: string)
    requires 0 <= ms1 < PAD_BOUND && 0 <= ms2 < PAD_BOUND
    ensures ms1 < ms2 ==> LexLess(EventTag(ms1, id1), EventTag(ms2, id2))
    ensures LexLe(EventTag(ms1, id1), EventTag(ms2, id2)) ==> ms1 <= ms2
  {
    if ms1 < ms2 {
      EventTagChronological(ms1, ms2, id1, id2);
    } else if ms2 < ms1 {
      EventTagChronological(ms2, ms1, id2, id1);
      LexLessAsymmetric(EventTag(ms2, id2), EventTag(ms1, id1));
    }
  }
}
