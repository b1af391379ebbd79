/** The canonical form of plain JSON values: keys in one order, and no negative zero. */
module CanonicalJson {
  import opened Wrappers
  import opened Sequences
  import opened Schema

  /** A finite number other than negative zero: a mantissa times a power of two, in lowest terms. */
  datatype Double = Double(mantissa: int, exponent: int)
  const ZERO := Double(0, 0)

  datatype Number = Finite(value: Double) | NegativeZero | NotFinite

  /** A value as a program may pass it: arrays can have holes, and not every object is plain. */
  datatype Value =
    | Null
    | Bool(value: bool)
    | Numeric(number: Number)
    | Str(text: Text)
    | Array(items: seq<Item>)
    | Object(members: seq<Member>)
    | Unsupported

  datatype Item = Hole | Element(value: Value)
  datatype Member = Member(key: Text, value: Value)

  function Key(member: Member): Text { member.key }
  function Keys(members: seq<Member>): (r: seq<Text>)
    ensures |r| == |members| && forall i :: 0 <= i < |r| ==> r[i] == members[i].key
  {
    seq(|members|, i requires 0 <= i < |members| => members[i].key)
  }

  // ----- the order of keys

  predicate Lexicographic(a: Text, b: Text) {
    if b == [] then false
    else if a == [] then true
    else a[0] < b[0] || (a[0] == b[0] && Lexicographic(a[1..], b[1..]))
  }

  const LAST_INDEX: Text := [0x34, 0x32, 0x39, 0x34, 0x39, 0x36, 0x37, 0x32, 0x39, 0x34]

  /** An array index up to 2^32 - 2, written in decimal. */
  predicate IsIndex(key: Text) {
    && key != [] && (forall i :: 0 <= i < |key| ==> 0x30 <= key[i] <= 0x39)
    && (key[0] == 0x30 ==> |key| == 1)
    && (|key| < 10 || (|key| == 10 && !Lexicographic(LAST_INDEX, key)))
  }

  /**
   The order in which an object made from sorted entries lists its keys: indices by value first, because
   the language keeps them there, then the other keys by their code units.
  */
  predicate Before(a: Text, b: Text) {
    if IsIndex(a) != IsIndex(b) then IsIndex(a)
    else if IsIndex(a) && |a| != |b| then |a| < |b|
    else Lexicographic(a, b)
  }

  lemma {:induction false} LexicographicIsTotal(a: Text, b: Text)
    ensures a == b || Lexicographic(a, b) || Lexicographic(b, a)
    ensures !(Lexicographic(a, b) && Lexicographic(b, a)) && !Lexicographic(a, a)
  {
    if a != [] && b != [] {
      LexicographicIsTotal(a[1..], b[1..]);
      LexicographicIsTotal(a[1..], a[1..]);
      assert a == [a[0]] + a[1..] && b == [b[0]] + b[1..];
    } else if a != [] {
      LexicographicIsTotal(a[1..], a[1..]);
    }
  }

  lemma {:induction false} LexicographicIsTransitive(a: Text, b: Text, c: Text)
    requires Lexicographic(a, b) && Lexicographic(b, c)
    ensures Lexicographic(a, c)
  {
    if a != [] && a[0] == b[0] == c[0] {
      LexicographicIsTransitive(a[1..], b[1..], c[1..]);
    }
  }

  lemma BeforeIsTotal(a: Text, b: Text)
    ensures a == b || Before(a, b) || Before(b, a)
    ensures !(Before(a, b) && Before(b, a)) && !Before(a, a)
  {
    LexicographicIsTotal(a, b);
    LexicographicIsTotal(a, a);
  }

  lemma BeforeIsTransitive(a: Text, b: Text, c: Text)
    requires Before(a, b) && Before(b, c)
    ensures Before(a, c)
  {
    if Lexicographic(a, b) && Lexicographic(b, c) {
      LexicographicIsTransitive(a, b, c);
    }
  }

  // ----- sorting members

  ghost predicate Ordered(members: seq<Member>) {
    forall i, j :: 0 <= i < j < |members| ==> Before(members[i].key, members[j].key)
  }

  function InsertMember(member: Member, members: seq<Member>): seq<Member> {
    if members == [] || Before(members[|members| - 1].key, member.key) then members + [member]
    else InsertMember(member, members[..|members| - 1]) + [members[|members| - 1]]
  }

  function SortMembers(members: seq<Member>): seq<Member> {
    if members == [] then [] else InsertMember(members[|members| - 1], SortMembers(members[..|members| - 1]))
  }

  lemma {:induction false} InsertKeeps(member: Member, members: seq<Member>, other: Member)
    ensures other in InsertMember(member, members) <==> other == member || other in members
    ensures |InsertMember(member, members)| == |members| + 1
  {
    if members != [] {
      assert members == members[..|members| - 1] + [members[|members| - 1]];
      if !Before(members[|members| - 1].key, member.key) {
        InsertKeeps(member, members[..|members| - 1], other);
      }
    }
  }

  lemma {:induction false} InsertOrders(member: Member, members: seq<Member>)
    requires Ordered(members) && forall other :: other in members ==> other.key != member.key
    ensures Ordered(InsertMember(member, members))
  {
    if members != [] {
      var init, last := members[..|members| - 1], members[|members| - 1];
      assert last in members;
      BeforeIsTotal(last.key, member.key);
      if Before(last.key, member.key) {
        forall i | 0 <= i < |members|
          ensures Before(members[i].key, member.key)
        {
          if i < |members| - 1 {
            BeforeIsTransitive(members[i].key, last.key, member.key);
          }
        }
      } else {
        assert forall other :: other in init ==> other in members;
        InsertOrders(member, init);
        var rest := InsertMember(member, init);
        forall i | 0 <= i < |rest|
          ensures Before(rest[i].key, last.key)
        {
          InsertKeeps(member, init, rest[i]);
          if rest[i] != member {
            var k :| 0 <= k < |init| && init[k] == rest[i];
            assert members[k] == rest[i];
          }
        }
      }
    }
  }

  ghost predicate DistinctKeys(members: seq<Member>) { Distinct(Keys(members)) }

  lemma {:induction false} SortKeeps(members: seq<Member>, member: Member)
    ensures member in SortMembers(members) <==> member in members
    ensures |SortMembers(members)| == |members|
  {
    if members != [] {
      var init := members[..|members| - 1];
      assert members == init + [members[|members| - 1]];
      SortKeeps(init, member);
      InsertKeeps(members[|members| - 1], SortMembers(init), member);
    }
  }

  lemma {:induction false} SortOrders(members: seq<Member>)
    requires DistinctKeys(members)
    ensures Ordered(SortMembers(members))
  {
    if members != [] {
      var init, last := members[..|members| - 1], members[|members| - 1];
      assert forall i :: 0 <= i < |init| ==> Keys(init)[i] == Keys(members)[i];
      SortOrders(init);
      forall other | other in SortMembers(init)
        ensures other.key != last.key
      {
        SortKeeps(init, other);
        var k :| 0 <= k < |init| && init[k] == other;
        assert Keys(members)[k] != Keys(members)[|init|];
      }
      InsertOrders(last, SortMembers(init));
    }
  }

  /** Ordered members with the same content are the same sequence. */
  lemma {:induction false} OrderIsUnique(a: seq<Member>, b: seq<Member>)
    requires Ordered(a) && Ordered(b)
    requires forall member :: member in a <==> member in b
    ensures a == b
  {
    if a == [] {
      NothingIn(b);
    } else {
      assert a[0] in a && b != [];
      var init, rest := a[..|a| - 1], b[..|b| - 1];
      LastIsLast(a, b);
      forall member
        ensures member in init <==> member in rest
      {
        InitMembers(a, member);
        InitMembers(b, member);
      }
      OrderIsUnique(init, rest);
      assert a == init + [a[|a| - 1]] && b == rest + [b[|b| - 1]];
    }
  }

  lemma NothingIn<T>(s: seq<T>)
    ensures s == [] <==> forall x :: x !in s
  {
    if s != [] {
      assert s[0] in s;
    }
  }

  lemma LastIsLast(a: seq<Member>, b: seq<Member>)
    requires Ordered(a) && Ordered(b) && a != [] && b != [] && forall member :: member in a <==> member in b
    ensures a[|a| - 1] == b[|b| - 1]
  {
    var x, y := a[|a| - 1], b[|b| - 1];
    assert x in a && y in b;
    var i :| 0 <= i < |b| && b[i] == x;
    var j :| 0 <= j < |a| && a[j] == y;
    BeforeIsTotal(x.key, y.key);
    assert i < |b| - 1 ==> Before(x.key, y.key);
    assert j < |a| - 1 ==> Before(y.key, x.key);
  }

  lemma InitMembers(a: seq<Member>, member: Member)
    requires Ordered(a) && a != []
    ensures member in a[..|a| - 1] <==> member in a && member != a[|a| - 1]
  {
    assert a == a[..|a| - 1] + [a[|a| - 1]];
    if member in a[..|a| - 1] {
      var i :| 0 <= i < |a| - 1 && a[..|a| - 1][i] == member;
      assert Before(a[i].key, a[|a| - 1].key);
      BeforeIsTotal(a[i].key, a[i].key);
    }
  }

  // ----- the canonical form

  function CanonicalNumber(number: Number): Number {
    if number == NegativeZero then Finite(ZERO) else number
  }

  function Canonical(value: Value): Result<Value> {
    match value
    case Numeric(number) => if number == NotFinite then Err else Ok(Numeric(CanonicalNumber(number)))
    case Array(items) =>
      var canonical := CanonicalItems(items);
      if canonical.Err? then Err else Ok(Array(canonical.value))
    case Object(members) =>
      var canonical := CanonicalMembers(members);
      if canonical.Err? then Err else Ok(Object(SortMembers(canonical.value)))
    case Unsupported => Err
    case _ => Ok(value)
  }

  function CanonicalItems(items: seq<Item>): Result<seq<Item>> {
    if items == [] then Ok([])
    else
      var first := CanonicalItem(items[0]);
      var rest := CanonicalItems(items[1..]);
      if first.Err? || rest.Err? then Err else Ok([Element(first.value)] + rest.value)
  }

  function CanonicalItem(item: Item): Result<Value> {
    if item.Hole? then Err else Canonical(item.value)
  }

  function CanonicalMembers(members: seq<Member>): Result<seq<Member>> {
    if members == [] then Ok([])
    else
      var first := Canonical(members[0].value);
      var rest := CanonicalMembers(members[1..]);
      if first.Err? || rest.Err? then Err else Ok([Member(members[0].key, first.value)] + rest.value)
  }

  lemma {:induction false} ItemsAreCanonical(items: seq<Item>, i: nat)
    requires CanonicalItems(items).Ok?
    ensures |CanonicalItems(items).value| == |items|
    ensures i < |items| ==>
              items[i].Element? && Canonical(items[i].value).Ok?
              && CanonicalItems(items).value[i] == Element(Canonical(items[i].value).value)
  {
    if items != [] {
      ItemsAreCanonical(items[1..], if i == 0 then 0 else i - 1);
    }
  }

  lemma {:induction false} MembersAreCanonical(members: seq<Member>, i: nat)
    requires CanonicalMembers(members).Ok?
    ensures |CanonicalMembers(members).value| == |members|
    ensures i < |members| ==>
              Canonical(members[i].value).Ok?
              && CanonicalMembers(members).value[i] == Member(members[i].key, Canonical(members[i].value).value)
  {
    if members != [] {
      MembersAreCanonical(members[1..], if i == 0 then 0 else i - 1);
    }
  }

  lemma MembersKeepKeys(members: seq<Member>)
    requires CanonicalMembers(members).Ok?
    ensures Keys(CanonicalMembers(members).value) == Keys(members)
  {
    MembersAreCanonical(members, 0);
    forall i | 0 <= i < |members|
      ensures Keys(CanonicalMembers(members).value)[i] == Keys(members)[i]
    {
      MembersAreCanonical(members, i);
    }
  }

  // ----- values that differ only in the order of keys and the sign of zero

  /** An object has every key once, at every level. */
  ghost predicate Proper(value: Value) {
    match value
    case Array(items) => forall i :: 0 <= i < |items| && items[i].Element? ==> Proper(items[i].value)
    case Object(members) => DistinctKeys(members) && forall i :: 0 <= i < |members| ==> Proper(members[i].value)
    case _ => true
  }

  ghost predicate Same(left: Value, right: Value)
    decreases left
  {
    match left
    case Numeric(number) => right.Numeric? && CanonicalNumber(number) == CanonicalNumber(right.number)
    case Array(items) =>
      && right.Array? && |items| == |right.items|
      && forall i :: 0 <= i < |items| && items[i].Element? ==>
           right.items[i].Element? && Same(items[i].value, right.items[i].value)
    case Object(members) =>
      && right.Object? && Elements(Keys(members)) == Elements(Keys(right.members))
      && forall i, j :: 0 <= i < |members| && 0 <= j < |right.members| && members[i].key == right.members[j].key ==>
           Same(members[i].value, right.members[j].value)
    case _ => left == right
  }

  lemma {:induction false} SortedAlike(a: seq<Member>, b: seq<Member>)
    requires DistinctKeys(a) && DistinctKeys(b)
    ensures SortMembers(a) == SortMembers(b) <==> forall member :: member in a <==> member in b
  {
    SortOrders(a);
    SortOrders(b);
    forall member
      ensures member in a <==> member in SortMembers(a)
      ensures member in b <==> member in SortMembers(b)
    {
      SortKeeps(a, member);
      SortKeeps(b, member);
    }
    if forall member :: member in a <==> member in b {
      OrderIsUnique(SortMembers(a), SortMembers(b));
    }
  }

  /** The canonical members of two objects are alike exactly when their keys are, and the values under each key. */
  lemma MembersAlike(a: seq<Member>, b: seq<Member>)
    requires DistinctKeys(a) && DistinctKeys(b)
    ensures (forall member :: member in a <==> member in b) <==>
            && Elements(Keys(a)) == Elements(Keys(b))
            && forall i, j :: 0 <= i < |a| && 0 <= j < |b| && a[i].key == b[j].key ==> a[i].value == b[j].value
  {
    if forall member :: member in a <==> member in b {
      SameKeys(a, b);
      SameKeys(b, a);
      forall i, j | 0 <= i < |a| && 0 <= j < |b| && a[i].key == b[j].key
        ensures a[i].value == b[j].value
      {
        assert a[i] in b;
        var k :| 0 <= k < |b| && b[k] == a[i];
        assert Keys(b)[k] == Keys(b)[j];
      }
    }
    if Elements(Keys(a)) == Elements(Keys(b))
       && forall i, j :: 0 <= i < |a| && 0 <= j < |b| && a[i].key == b[j].key ==> a[i].value == b[j].value {
      CounterpartsExist(a, b);
      CounterpartsExist(b, a);
    }
  }

  lemma SameKeys(a: seq<Member>, b: seq<Member>)
    requires forall member :: member in a ==> member in b
    ensures Elements(Keys(a)) <= Elements(Keys(b))
  {
    forall key | key in Elements(Keys(a))
      ensures key in Elements(Keys(b))
    {
      var i :| 0 <= i < |a| && Keys(a)[i] == key;
      assert a[i] in b;
      var j :| 0 <= j < |b| && b[j] == a[i];
      assert Keys(b)[j] == key;
    }
  }

  lemma CounterpartsExist(a: seq<Member>, b: seq<Member>)
    requires Elements(Keys(a)) <= Elements(Keys(b))
    requires forall i, j :: 0 <= i < |a| && 0 <= j < |b| && a[i].key == b[j].key ==> a[i].value == b[j].value
    ensures forall member :: member in a ==> member in b
  {
    forall member | member in a
      ensures member in b
    {
      var i :| 0 <= i < |a| && a[i] == member;
      assert Keys(a)[i] in Elements(Keys(a));
      var j :| 0 <= j < |b| && Keys(b)[j] == a[i].key;
      assert b[j] == a[i];
    }
  }

  /** Two values have one canonical form exactly when they differ only in key order and the sign of zero. */
  lemma {:induction false} CanonicalFormsDecide(left: Value, right: Value)
    requires Proper(left) && Proper(right) && Canonical(left).Ok? && Canonical(right).Ok?
    ensures Canonical(left) == Canonical(right) <==> Same(left, right)
    decreases left
  {
    if left.Array? && right.Array? {
      ArraysDecide(left, right);
    } else if left.Object? && right.Object? {
      ObjectsDecide(left, right);
    }
  }

  lemma {:induction false} ArraysDecide(left: Value, right: Value)
    requires Proper(left) && Proper(right) && Canonical(left).Ok? && Canonical(right).Ok? && left.Array? && right.Array?
    ensures Canonical(left) == Canonical(right) <==> Same(left, right)
    decreases left, 0
  {
    var a, b := left.items, right.items;
    ItemsAreCanonical(a, 0);
    ItemsAreCanonical(b, 0);
    forall i | 0 <= i < |a| && |a| == |b|
      ensures a[i].Element? && b[i].Element?
              && (CanonicalItems(a).value[i] == CanonicalItems(b).value[i] <==> Same(a[i].value, b[i].value))
    {
      ItemsAreCanonical(a, i);
      ItemsAreCanonical(b, i);
      CanonicalFormsDecide(a[i].value, b[i].value);
    }
    if Same(left, right) {
      assert CanonicalItems(a).value == CanonicalItems(b).value;
    }
  }

  lemma {:induction false} ObjectsDecide(left: Value, right: Value)
    requires Proper(left) && Proper(right) && Canonical(left).Ok? && Canonical(right).Ok? && left.Object?
             && right.Object?
    ensures Canonical(left) == Canonical(right) <==> Same(left, right)
    decreases left, 0
  {
    var a, b := left.members, right.members;
    var x, y := CanonicalMembers(a).value, CanonicalMembers(b).value;
    MembersKeepKeys(a);
    MembersKeepKeys(b);
    MembersAreCanonical(a, 0);
    MembersAreCanonical(b, 0);
    forall i, j | 0 <= i < |a| && 0 <= j < |b|
      ensures x[i].key == a[i].key && y[j].key == b[j].key
      ensures x[i].value == y[j].value <==> Same(a[i].value, b[j].value)
    {
      MembersAreCanonical(a, i);
      MembersAreCanonical(b, j);
      CanonicalFormsDecide(a[i].value, b[j].value);
    }
    SortedAlike(x, y);
    MembersAlike(x, y);
  }

  // ----- idempotence

  lemma {:induction false} CanonicalIsIdempotent(value: Value)
    requires Proper(value) && Canonical(value).Ok?
    ensures Proper(Canonical(value).value) && Canonical(Canonical(value).value) == Canonical(value)
    decreases value
  {
    if value.Array? {
      var items := CanonicalItems(value.items).value;
      ItemsAreCanonical(value.items, 0);
      forall i | 0 <= i < |items|
        ensures items[i].Element? && Proper(items[i].value) && Canonical(items[i].value) == Ok(items[i].value)
      {
        ItemsAreCanonical(value.items, i);
        CanonicalIsIdempotent(value.items[i].value);
      }
      ItemsStay(items);
    } else if value.Object? {
      var members := CanonicalMembers(value.members).value;
      MembersAreCanonical(value.members, 0);
      forall i | 0 <= i < |members|
        ensures Proper(members[i].value) && Canonical(members[i].value) == Ok(members[i].value)
      {
        MembersAreCanonical(value.members, i);
        CanonicalIsIdempotent(value.members[i].value);
      }
      MembersKeepKeys(value.members);
      SortedStays(members);
    }
  }

  lemma {:induction false} ItemsStay(items: seq<Item>)
    requires forall i :: 0 <= i < |items| ==> items[i].Element? && Canonical(items[i].value) == Ok(items[i].value)
    ensures CanonicalItems(items) == Ok(items)
  {
    if items != [] {
      assert items[0].Element?;
      ItemsStay(items[1..]);
      assert items == [items[0]] + items[1..];
    }
  }

  lemma {:induction false} MembersStay(members: seq<Member>)
    requires forall i :: 0 <= i < |members| ==> Canonical(members[i].value) == Ok(members[i].value)
    ensures CanonicalMembers(members) == Ok(members)
  {
    if members != [] {
      assert Canonical(members[0].value) == Ok(members[0].value);
      MembersStay(members[1..]);
      assert members == [members[0]] + members[1..];
    }
  }

  lemma OrderedKeysDiffer(members: seq<Member>)
    requires Ordered(members)
    ensures DistinctKeys(members)
  {
    forall i, j | 0 <= i < j < |members|
      ensures Keys(members)[i] != Keys(members)[j]
    {
      BeforeIsTotal(members[i].key, members[j].key);
    }
  }

  /** Sorting members whose values are canonical gives members that stay as they are. */
  lemma SortedStays(members: seq<Member>)
    requires DistinctKeys(members)
    requires forall i :: 0 <= i < |members| ==>
               Proper(members[i].value) && Canonical(members[i].value) == Ok(members[i].value)
    ensures var sorted := SortMembers(members);
            Proper(Object(sorted)) && CanonicalMembers(sorted) == Ok(sorted) && SortMembers(sorted) == sorted
  {
    var sorted := SortMembers(members);
    SortOrders(members);
    OrderedKeysDiffer(sorted);
    forall i | 0 <= i < |sorted|
      ensures Proper(sorted[i].value) && Canonical(sorted[i].value) == Ok(sorted[i].value)
    {
      SortKeeps(members, sorted[i]);
    }
    MembersStay(sorted);
    SortOrders(sorted);
    forall member
      ensures member in SortMembers(sorted) <==> member in sorted
    {
      SortKeeps(sorted, member);
    }
    OrderIsUnique(SortMembers(sorted), sorted);
  }
}
