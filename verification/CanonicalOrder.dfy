/** What the order of keys in canonical JSON comes to, and which values have a canonical form. */
module CanonicalOrder {
  import opened Schema
  import opened CanonicalJson

  // ----- code units

  /** Two keys agree up to a position, where the first ends or has the smaller unit. */
  ghost predicate DiffersAt(a: Text, b: Text, k: nat) {
    && k <= |a| && k < |b| && (forall i :: 0 <= i < k ==> a[i] == b[i])
    && (k == |a| || a[k] < b[k])
  }

  ghost predicate SmallerUnits(a: Text, b: Text) { exists k: nat :: DiffersAt(a, b, k) }

  lemma {:induction false} UnitsDecide(a: Text, b: Text)
    ensures Lexicographic(a, b) <==> SmallerUnits(a, b)
  {
    if a == [] || b == [] || a[0] != b[0] {
      FirstUnitDecides(a, b);
    } else {
      UnitsDecide(a[1..], b[1..]);
      if k: nat :| DiffersAt(a[1..], b[1..], k) {
        assert forall i :: 0 <= i < k + 1 ==> a[i] == b[i];
        assert DiffersAt(a, b, k + 1);
      }
      if k: nat :| DiffersAt(a, b, k) {
        assert DiffersAt(a[1..], b[1..], k - 1);
      }
    }
  }

  lemma FirstUnitDecides(a: Text, b: Text)
    requires a == [] || b == [] || a[0] != b[0]
    ensures Lexicographic(a, b) <==> SmallerUnits(a, b)
  {
    if b != [] && (a == [] || a[0] < b[0]) {
      assert DiffersAt(a, b, 0);
    }
  }

  // ----- array indices

  function Decimal(n: nat): Text {
    if n < 10 then [0x30 + n as CodeUnit] else Decimal(n / 10) + [0x30 + (n % 10) as CodeUnit]
  }

  ghost predicate Digits(key: Text) { forall i :: 0 <= i < |key| ==> 0x30 <= key[i] <= 0x39 }

  function Worth(key: Text): nat
    requires Digits(key)
  {
    if key == [] then 0 else Worth(key[..|key| - 1]) * 10 + (key[|key| - 1] as int - 0x30)
  }

  function Power(n: nat): nat { if n == 0 then 1 else 10 * Power(n - 1) }

  lemma {:induction false} DecimalIsWorth(n: nat)
    ensures Digits(Decimal(n)) && Worth(Decimal(n)) == n
    ensures Decimal(n) != [] && (Decimal(n)[0] == 0x30 ==> n == 0 && |Decimal(n)| == 1)
  {
    if n >= 10 {
      DecimalIsWorth(n / 10);
      var init := Decimal(n / 10);
      assert Decimal(n)[..|init|] == init && Decimal(n)[0] == init[0];
    }
  }

  lemma {:induction false} WorthIsDecimal(key: Text)
    requires Digits(key) && key != [] && (key[0] == 0x30 ==> |key| == 1)
    ensures Decimal(Worth(key)) == key
    ensures |key| > 1 ==> Worth(key) > 9
  {
    var init, last := key[..|key| - 1], key[|key| - 1];
    assert key == init + [last];
    if init == [] {
      assert Worth(init) == 0;
    } else {
      WorthIsDecimal(init);
      assert Worth(init) > 0 by { if |init| == 1 { assert Worth(init[..0]) == 0 && init[0] == key[0]; } }
      assert Worth(key) / 10 == Worth(init) && Worth(key) % 10 == last as int - 0x30;
    }
  }

  lemma TenTimes(digit: nat, power: nat, rest: nat)
    ensures (digit * power + rest) * 10 == digit * (10 * power) + rest * 10
  {
  }

  lemma {:induction false} FirstDigit(key: Text)
    requires Digits(key) && key != []
    ensures Worth(key) == (key[0] as int - 0x30) * Power(|key| - 1) + Worth(key[1..])
    ensures Worth(key[1..]) < Power(|key| - 1)
  {
    if |key| == 1 {
      assert Worth(key[..0]) == 0 && Worth(key[1..]) == 0;
    } else {
      var init, rest := key[..|key| - 1], key[1..];
      FirstDigit(init);
      assert init[1..] == rest[..|rest| - 1];
      TenTimes(key[0] as int - 0x30, Power(|init| - 1), Worth(init[1..]));
    }
  }

  lemma FirstDigitsDecide(p: nat, q: nat, power: nat, x: nat, y: nat)
    requires x < power && y < power
    ensures p * power + x < q * power + y <==> p < q || (p == q && x < y)
  {
    if p < q {
      assert (p + 1) * power <= q * power;
    } else if q < p {
      assert (q + 1) * power <= p * power;
    }
  }

  /** Keys of one length stand in the order of the numbers they write. */
  lemma {:induction false} SameLengthByWorth(a: Text, b: Text)
    requires Digits(a) && Digits(b) && |a| == |b|
    ensures Lexicographic(a, b) <==> Worth(a) < Worth(b)
  {
    if a != [] {
      SameLengthByWorth(a[1..], b[1..]);
      FirstDigit(a);
      FirstDigit(b);
      FirstDigitsDecide(a[0] as int - 0x30, b[0] as int - 0x30, Power(|a| - 1), Worth(a[1..]), Worth(b[1..]));
    }
  }

  lemma AtLeastOnce(times: nat, power: nat)
    requires times > 0
    ensures times * power >= power
  {
  }

  lemma LongerIsWorthMore(a: Text, b: Text)
    requires Digits(a) && Digits(b) && |a| < |b| && b[0] != 0x30
    ensures Worth(a) < Worth(b)
  {
    Bounded(a);
    FirstDigit(b);
    PowersGrow(|a|, |b| - 1);
    AtLeastOnce(b[0] as int - 0x30, Power(|b| - 1));
  }

  lemma Bounded(key: Text)
    requires Digits(key)
    ensures Worth(key) < Power(|key|)
  {
    var padded := [0x30] + key;
    FirstDigit(padded);
    assert padded[1..] == key;
  }

  lemma {:induction false} PowersGrow(m: nat, n: nat)
    requires m <= n
    ensures 0 < Power(m) <= Power(n)
    decreases n
  {
    if m < n {
      PowersGrow(m, n - 1);
    } else if m > 0 {
      PowersGrow(m - 1, m - 1);
    }
  }

  const LAST := 0x1_0000_0000 - 2

  lemma {:induction false} LastIndexUpTo(k: nat)
    requires k <= 10
    ensures Digits(LAST_INDEX[..k])
            && Worth(LAST_INDEX[..k]) == [0, 4, 42, 429, 4294, 42949, 429496, 4294967, 42949672, 429496729, LAST][k]
  {
    if k > 0 {
      LastIndexUpTo(k - 1);
      assert LAST_INDEX[..k][..k - 1] == LAST_INDEX[..k - 1];
    }
  }

  lemma LastIndex()
    ensures Digits(LAST_INDEX) && Worth(LAST_INDEX) == LAST
  {
    LastIndexUpTo(10);
    assert LAST_INDEX[..10] == LAST_INDEX;
  }

  ghost predicate Writes(key: Text, n: nat) { n <= LAST && key == Decimal(n) }

  /** The keys taken for indices are exactly the numbers from 0 to 2^32 - 2, as they are usually written. */
  lemma IndicesAreNumbers(key: Text)
    ensures IsIndex(key) <==> exists n: nat :: Writes(key, n)
  {
    LastIndex();
    if n: nat :| Writes(key, n) {
      DecimalIsWorth(n);
      FitsIndex(key);
    }
    if IsIndex(key) {
      WorthIsDecimal(key);
      FitsIndex(key);
      assert Writes(key, Worth(key));
    }
  }

  lemma FitsIndex(key: Text)
    requires Digits(key) && key != [] && (key[0] == 0x30 ==> |key| == 1)
    ensures |key| < 10 || (|key| == 10 && !Lexicographic(LAST_INDEX, key)) <==> Worth(key) <= LAST
  {
    LastIndex();
    if |key| < 10 {
      LongerIsWorthMore(key, LAST_INDEX);
    } else if |key| == 10 {
      SameLengthByWorth(LAST_INDEX, key);
    } else {
      LongerIsWorthMore(LAST_INDEX, key);
    }
  }

  ghost predicate NotANumber(key: Text) { forall n: nat :: !Writes(key, n) }

  /** Indices come first, by value; the other keys follow by their code units. */
  ghost predicate ListedBefore(a: Text, b: Text) {
    || (exists m: nat, n: nat :: Writes(a, m) && Writes(b, n) && m < n)
    || ((exists m: nat :: Writes(a, m)) && NotANumber(b))
    || (NotANumber(a) && NotANumber(b) && SmallerUnits(a, b))
  }

  lemma OrderOfKeys(a: Text, b: Text)
    ensures Before(a, b) <==> ListedBefore(a, b)
  {
    IndicesAreNumbers(a);
    IndicesAreNumbers(b);
    if IsIndex(a) && IsIndex(b) {
      IndicesByValue(a, b);
    } else {
      UnitsDecide(a, b);
    }
  }

  lemma IndicesByValue(a: Text, b: Text)
    requires IsIndex(a) && IsIndex(b)
    ensures Before(a, b) <==> exists m: nat, n: nat :: Writes(a, m) && Writes(b, n) && m < n
  {
    forall m: nat | Writes(a, m)
      ensures m == Worth(a)
    {
      DecimalIsWorth(m);
    }
    forall n: nat | Writes(b, n)
      ensures n == Worth(b)
    {
      DecimalIsWorth(n);
    }
    IndicesAreNumbers(a);
    IndicesAreNumbers(b);
    if |a| == |b| {
      SameLengthByWorth(a, b);
    } else if |a| < |b| {
      LongerIsWorthMore(a, b);
    } else {
      LongerIsWorthMore(b, a);
    }
  }

  // ----- canonical objects

  /** In a canonical object the keys are those of the object, listed in that order. */
  lemma CanonicalKeysAreListed(members: seq<Member>, i: nat, j: nat)
    requires DistinctKeys(members) && Canonical(Object(members)).Ok?
    ensures var listed := Canonical(Object(members)).value.members;
            && |listed| == |members| && (i < j < |listed| ==> ListedBefore(listed[i].key, listed[j].key))
  {
    var canonical := CanonicalMembers(members).value;
    MembersAreCanonical(members, 0);
    MembersKeepKeys(members);
    SortOrders(canonical);
    if members != [] {
      SortKeeps(canonical, canonical[0]);
    } else {
      SortKeeps(canonical, Member([], Null));
    }
    var listed := SortMembers(canonical);
    if i < j < |listed| {
      OrderOfKeys(listed[i].key, listed[j].key);
    }
  }

  // ----- what has a canonical form

  /** No hole, no number that is not finite, and nothing that is not plain data, at any level. */
  ghost predicate PlainData(value: Value) {
    match value
    case Numeric(number) => number != NotFinite
    case Array(items) => forall i :: 0 <= i < |items| ==> items[i].Element? && PlainData(items[i].value)
    case Object(members) => forall i :: 0 <= i < |members| ==> PlainData(members[i].value)
    case Unsupported => false
    case _ => true
  }

  /** Exactly plain data has a canonical form. */
  lemma {:induction false} PlainDataIsCanonical(value: Value)
    ensures Canonical(value).Ok? <==> PlainData(value)
    decreases value
  {
    match value
    case Array(items) => PlainItems(items);
    case Object(members) => PlainMembers(members);
    case _ =>
  }

  lemma {:induction false} PlainItems(items: seq<Item>)
    ensures CanonicalItems(items).Ok? <==>
            forall i :: 0 <= i < |items| ==> items[i].Element? && PlainData(items[i].value)
    decreases items
  {
    if items != [] {
      PlainItem(items[0]);
      PlainItems(items[1..]);
      assert forall i :: 0 < i < |items| ==> items[i] == items[1..][i - 1];
      assert forall i :: 0 <= i < |items| - 1 ==> items[1..][i] == items[i + 1];
    }
  }

  lemma {:induction false} PlainItem(item: Item)
    ensures CanonicalItem(item).Ok? <==> item.Element? && PlainData(item.value)
    decreases item
  {
    if item.Element? {
      PlainDataIsCanonical(item.value);
    }
  }

  lemma {:induction false} PlainMembers(members: seq<Member>)
    ensures CanonicalMembers(members).Ok? <==>
            forall i :: 0 <= i < |members| ==> PlainData(members[i].value)
    decreases members
  {
    if members != [] {
      PlainDataIsCanonical(members[0].value);
      PlainMembers(members[1..]);
      assert forall i :: 0 < i < |members| ==> members[i] == members[1..][i - 1];
      assert forall i :: 0 <= i < |members| - 1 ==> members[1..][i] == members[i + 1];
    }
  }
}
