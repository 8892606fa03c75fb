/**
 `canonicalJson`: the text all signatures and document hashes are taken over.

 The replacer rebuilds every object from its sorted keys. The engine then enumerates the rebuilt object
 in its own order: keys that are array indices come first, by value, whatever order they were added in.
 */
module Canonical {
  import opened Wrappers
  import opened Utf16
  import opened Json
  import Decimal

  // ---- the order of the members ----

  /** Array indices: the canonical decimal texts below 2^32 - 1. */
  predicate IsIndex(key: Text) {
    Decimal.IsCanonical(key) && Decimal.Value(key) < 0xFFFF_FFFF
  }

  predicate IndexLess(a: Text, b: Text) {
    IsIndex(a) && IsIndex(b) && Decimal.Value(a) < Decimal.Value(b)
  }

  function Insert(m: Member, sorted: seq<Member>, less: (Text, Text) -> bool): seq<Member> {
    if sorted == [] || less(m.key, sorted[0].key) then [m] + sorted
    else [sorted[0]] + Insert(m, sorted[1..], less)
  }

  function Sort(members: seq<Member>, less: (Text, Text) -> bool): seq<Member> {
    if members == [] then [] else Insert(members[0], Sort(members[1..], less), less)
  }

  function Indices(members: seq<Member>): seq<Member> {
    if members == [] then []
    else if IsIndex(members[0].key) then [members[0]] + Indices(members[1..])
    else Indices(members[1..])
  }

  function Names(members: seq<Member>): seq<Member> {
    if members == [] then []
    else if IsIndex(members[0].key) then Names(members[1..])
    else [members[0]] + Names(members[1..])
  }

  /** The enumeration order of an object built by `Object.fromEntries` from distinct keys. */
  function FromEntries(members: seq<Member>): seq<Member> {
    Sort(Indices(members), IndexLess) + Names(members)
  }

  // ---- canonicalJson ----

  /** The replacer, applied at every level. */
  function Replace(v: Value): Value
    decreases v
  {
    match v
    case Arr(items) => Arr(ReplaceItems(items))
    case Obj(members) => Obj(FromEntries(Sort(ReplaceMembers(members), Less)))
    case _ => v
  }

  function ReplaceItems(items: seq<Value>): (r: seq<Value>)
    ensures |r| == |items|
    decreases items
  {
    if items == [] then [] else [Replace(items[0])] + ReplaceItems(items[1..])
  }

  function ReplaceMembers(members: seq<Member>): (r: seq<Member>)
    ensures |r| == |members|
    ensures forall i :: 0 <= i < |r| ==> r[i].key == members[i].key
    decreases members
  {
    if members == [] then []
    else [Member(members[0].key, Replace(members[0].value))] + ReplaceMembers(members[1..])
  }

  function CanonicalJson(v: Value): Option<Text>
    requires Legal(v)
  {
    ReplaceIsLegal(v);
    Stringify(Replace(v))
  }

  // ---- sorting ----

  predicate AnyKey(key: Text) {
    true
  }

  /** A strict total order on the given keys. */
  ghost predicate StrictOrder(less: (Text, Text) -> bool, keys: Text -> bool) {
    && (forall a :: keys(a) ==> !less(a, a))
    && (forall a, b :: keys(a) && keys(b) ==> a == b || less(a, b) || less(b, a))
    && (forall a, b, c :: keys(a) && keys(b) && keys(c) && less(a, b) && less(b, c) ==> less(a, c))
  }

  /** Every member comes before all later ones. */
  ghost predicate Sorted(members: seq<Member>, less: (Text, Text) -> bool) {
    members == [] ||
    ((forall m :: m in members[1..] ==> less(members[0].key, m.key)) && Sorted(members[1..], less))
  }

  ghost predicate KeysIn(members: seq<Member>, keys: Text -> bool) {
    forall m :: m in members ==> keys(m.key)
  }

  lemma {:induction false} InsertSorts(m: Member, sorted: seq<Member>, less: (Text, Text) -> bool, keys: Text -> bool)
    requires StrictOrder(less, keys) && keys(m.key) && KeysIn(sorted, keys)
    requires Sorted(sorted, less) && forall n :: n in sorted ==> n.key != m.key
    ensures Sorted(Insert(m, sorted, less), less)
    ensures forall n :: n in Insert(m, sorted, less) <==> n == m || n in sorted
  {
    if sorted == [] {
    } else if less(m.key, sorted[0].key) {
      assert ([m] + sorted)[1..] == sorted;
      assert forall n :: n in sorted ==> n == sorted[0] || n in sorted[1..];
    } else {
      var rest := Insert(m, sorted[1..], less);
      InsertSorts(m, sorted[1..], less, keys);
      assert ([sorted[0]] + rest)[1..] == rest;
      assert forall n :: n in sorted <==> n == sorted[0] || n in sorted[1..];
    }
  }

  /** No key twice. */
  ghost predicate Distinct(members: seq<Member>) {
    members == [] ||
    ((forall m :: m in members[1..] ==> m.key != members[0].key) && Distinct(members[1..]))
  }

  lemma {:induction false} SortSorts(members: seq<Member>, less: (Text, Text) -> bool, keys: Text -> bool)
    requires StrictOrder(less, keys) && KeysIn(members, keys) && Distinct(members)
    ensures Sorted(Sort(members, less), less)
    ensures forall m :: m in Sort(members, less) <==> m in members
  {
    if members != [] {
      SortSorts(members[1..], less, keys);
      InsertSorts(members[0], Sort(members[1..], less), less, keys);
      assert forall m :: m in members <==> m == members[0] || m in members[1..];
    }
  }

  /** A sorted arrangement of given members is unique. */
  lemma {:induction false} SortedUnique(a: seq<Member>, b: seq<Member>, less: (Text, Text) -> bool, keys: Text -> bool)
    requires StrictOrder(less, keys) && KeysIn(a, keys)
    requires Sorted(a, less) && Sorted(b, less)
    requires forall m :: m in a <==> m in b
    ensures a == b
  {
    assert b != [] ==> b[0] in b;
    assert a != [] ==> a[0] in a;
    if a != [] {
      assert a[0] in b && b[0] in a;
      assert forall m :: m in a <==> m == a[0] || m in a[1..];
      assert forall m :: m in b <==> m == b[0] || m in b[1..];
      assert a[0] == b[0];
      assert a[0] !in a[1..] && b[0] !in b[1..];
      SortedUnique(a[1..], b[1..], less, keys);
    }
  }

  // ---- the order objects are enumerated in ----

  /** Indices by value first, then the other keys as strings. */
  predicate Before(a: Text, b: Text) {
    if IsIndex(a) && IsIndex(b) then IndexLess(a, b)
    else if IsIndex(a) || IsIndex(b) then IsIndex(a)
    else Less(a, b)
  }

  lemma LessIsStrictOrder()
    ensures StrictOrder(Less, AnyKey)
  {
    forall a {
      LessIrreflexive(a);
    }
    forall a, b {
      LessTotal(a, b);
    }
    forall a, b, c | Less(a, b) && Less(b, c) {
      LessTransitive(a, b, c);
    }
  }

  lemma IndexLessIsStrictOrder()
    ensures StrictOrder(IndexLess, IsIndex)
  {
    forall a, b | IsIndex(a) && IsIndex(b)
      ensures a == b || IndexLess(a, b) || IndexLess(b, a)
    {
      Decimal.DigitsOfValue(a);
      Decimal.DigitsOfValue(b);
    }
  }

  lemma BeforeIsStrictOrder()
    ensures StrictOrder(Before, AnyKey)
  {
    LessIsStrictOrder();
    IndexLessIsStrictOrder();
    forall a, b
      ensures a == b || Before(a, b) || Before(b, a)
    {
      LessTotal(a, b);
      if IsIndex(a) && IsIndex(b) {
        Decimal.DigitsOfValue(a);
        Decimal.DigitsOfValue(b);
      }
    }
    forall a, b, c | Before(a, b) && Before(b, c)
      ensures Before(a, c)
    {
      if !IsIndex(a) {
        LessTransitive(a, b, c);
      }
    }
    forall a
      ensures !Before(a, a)
    {
      LessIrreflexive(a);
    }
  }

  lemma {:induction false} SplitMembers(members: seq<Member>)
    ensures forall m :: m in Indices(members) <==> m in members && IsIndex(m.key)
    ensures forall m :: m in Names(members) <==> m in members && !IsIndex(m.key)
  {
    if members != [] {
      SplitMembers(members[1..]);
      assert forall m :: m in members <==> m == members[0] || m in members[1..];
    }
  }

  lemma {:induction false} NamesSorted(members: seq<Member>)
    requires Sorted(members, Less)
    ensures Sorted(Names(members), Before)
  {
    if members != [] {
      NamesSorted(members[1..]);
      SplitMembers(members[1..]);
      if !IsIndex(members[0].key) {
        assert Names(members)[1..] == Names(members[1..]);
      }
    }
  }

  lemma {:induction false} IndicesDistinct(members: seq<Member>)
    requires Distinct(members)
    ensures Distinct(Indices(members))
  {
    if members != [] {
      IndicesDistinct(members[1..]);
      SplitMembers(members[1..]);
      if IsIndex(members[0].key) {
        assert Indices(members)[1..] == Indices(members[1..]);
      }
    }
  }

  lemma {:induction false} AppendNames(indices: seq<Member>, names: seq<Member>)
    requires Sorted(indices, IndexLess) && Sorted(names, Before)
    requires (forall m :: m in indices ==> IsIndex(m.key)) && (forall m :: m in names ==> !IsIndex(m.key))
    ensures Sorted(indices + names, Before)
  {
    if indices == [] {
      assert indices + names == names;
    } else {
      AppendNames(indices[1..], names);
      assert (indices + names)[1..] == indices[1..] + names;
    }
  }

  lemma {:induction false} SortedIsDistinct(members: seq<Member>, less: (Text, Text) -> bool, keys: Text -> bool)
    requires Sorted(members, less) && StrictOrder(less, keys) && KeysIn(members, keys)
    ensures Distinct(members)
  {
    if members != [] {
      SortedIsDistinct(members[1..], less, keys);
    }
  }

  /** Sorting the keys and rebuilding the object arranges its members in enumeration order and loses none. */
  lemma RebuildSorts(members: seq<Member>)
    requires Distinct(members)
    ensures Sorted(FromEntries(Sort(members, Less)), Before)
    ensures forall m :: m in FromEntries(Sort(members, Less)) <==> m in members
  {
    var sorted := Sort(members, Less);
    LessIsStrictOrder();
    SortSorts(members, Less, AnyKey);
    SortedIsDistinct(sorted, Less, AnyKey);
    SplitMembers(sorted);
    IndicesDistinct(sorted);
    IndexLessIsStrictOrder();
    SortSorts(Indices(sorted), IndexLess, IsIndex);
    NamesSorted(sorted);
    AppendNames(Sort(Indices(sorted), IndexLess), Names(sorted));
  }

  // ---- rebuilding keeps values legal ----

  lemma {:induction false} LegalIsDistinct(members: seq<Member>)
    requires LegalMembers(members)
    ensures Distinct(members)
    ensures forall m :: m in members ==> Legal(m.value)
  {
    if members != [] {
      LegalIsDistinct(members[1..]);
      forall m | m in members[1..]
        ensures m.key != members[0].key
      {
        var i :| 0 <= i < |members[1..]| && members[1..][i] == m;
      }
      assert forall m :: m in members ==> m == members[0] || m in members[1..];
    }
  }

  lemma {:induction false} DistinctIsLegal(members: seq<Member>)
    requires Distinct(members) && forall m :: m in members ==> Legal(m.value)
    ensures LegalMembers(members)
  {
    if members != [] {
      DistinctIsLegal(members[1..]);
    }
  }

  lemma {:induction false} ReplaceIsLegal(v: Value)
    requires Legal(v)
    ensures Legal(Replace(v))
    decreases v
  {
    match v
    case Arr(items) => ReplaceItemsIsLegal(items);
    case Obj(members) =>
      ReplaceMembersIsLegal(members);
      var replaced := ReplaceMembers(members);
      LegalIsDistinct(replaced);
      RebuildSorts(replaced);
      BeforeIsStrictOrder();
      SortedIsDistinct(FromEntries(Sort(replaced, Less)), Before, AnyKey);
      DistinctIsLegal(FromEntries(Sort(replaced, Less)));
    case _ =>
  }

  lemma {:induction false} ReplaceItemsIsLegal(items: seq<Value>)
    requires LegalItems(items)
    ensures LegalItems(ReplaceItems(items))
    decreases items
  {
    if items != [] {
      ReplaceIsLegal(items[0]);
      ReplaceItemsIsLegal(items[1..]);
    }
  }

  lemma {:induction false} ReplaceMembersIsLegal(members: seq<Member>)
    requires LegalMembers(members)
    ensures LegalMembers(ReplaceMembers(members))
    decreases members
  {
    if members != [] {
      ReplaceIsLegal(members[0].value);
      ReplaceMembersIsLegal(members[1..]);
      var r := ReplaceMembers(members);
      assert r[1..] == ReplaceMembers(members[1..]);
    }
  }

  // ---- what the canonical text depends on ----

  /** The value a canonical text spells out. */
  function Norm(v: Value): (n: Value)
    requires Legal(v)
    ensures Plain(n)
  {
    ReplaceIsLegal(v);
    Clean(Replace(v))
  }

  predicate PrintsNull(v: Value) {
    v.Null? || v.NonFinite?
  }

  /** The value of a key, if the object has it with anything but undefined. */
  function Find(members: seq<Member>, key: Text): (r: Option<Value>)
    ensures r.Some? ==> exists m :: m in members && m.key == key && m.value == r.value && !r.value.Undefined?
    ensures r.None? ==> forall m :: m in members ==> m.key != key || m.value.Undefined?
  {
    if members == [] then None
    else if members[0].key == key && !members[0].value.Undefined? then
      assert members[0] in members;
      Some(members[0].value)
    else
      assert forall m :: m in members <==> m == members[0] || m in members[1..];
      Find(members[1..], key)
  }

  /**
   Equality up to the order of object keys and to members that are absent or undefined. NaN and the
   infinities count as null, and so does undefined inside an array.
   */
  ghost predicate Same(a: Value, b: Value)
    decreases a, 0
  {
    match a
    case Arr(xs) =>
      b.Arr? && |xs| == |b.items| && forall i :: 0 <= i < |xs| ==> SameItem(xs[i], b.items[i])
    case Obj(ms) =>
      && b.Obj?
      && (forall i :: 0 <= i < |ms| && !ms[i].value.Undefined? ==>
            Find(b.members, ms[i].key).Some? && Same(ms[i].value, Find(b.members, ms[i].key).value))
      && (forall n :: n in b.members && !n.value.Undefined? ==> Find(ms, n.key).Some?)
    case _ => a == b || (PrintsNull(a) && PrintsNull(b))
  }

  ghost predicate SameItem(a: Value, b: Value)
    decreases a, 1
  {
    if a.Undefined? || b.Undefined? then
      (a.Undefined? || PrintsNull(a)) && (b.Undefined? || PrintsNull(b))
    else Same(a, b)
  }

  lemma {:induction false} CleanedMembers(members: seq<Member>)
    requires LegalMembers(members)
    ensures forall n :: n in CleanMembers(members) ==>
              exists m :: m in members && !m.value.Undefined? && Legal(m.value) && n == Member(m.key, Clean(m.value))
    ensures forall m :: m in members && !m.value.Undefined? ==>
              Legal(m.value) && Member(m.key, Clean(m.value)) in CleanMembers(members)
  {
    if members != [] {
      CleanedMembers(members[1..]);
      var head := members[0];
      assert forall m :: m in members <==> m == head || m in members[1..];
      forall n | n in CleanMembers(members)
        ensures exists m :: m in members && !m.value.Undefined? && Legal(m.value) && n == Member(m.key, Clean(m.value))
      {
        if n in CleanMembers(members[1..]) {
        } else {
          assert head in members && n == Member(head.key, Clean(head.value));
        }
      }
    }
  }

  lemma {:induction false} ReplacedMembers(members: seq<Member>)
    ensures forall n :: n in ReplaceMembers(members) ==>
              exists m :: m in members && n == Member(m.key, Replace(m.value))
    ensures forall m :: m in members ==> Member(m.key, Replace(m.value)) in ReplaceMembers(members)
  {
    if members != [] {
      ReplacedMembers(members[1..]);
      assert forall m :: m in members <==> m == members[0] || m in members[1..];
      forall n | n in ReplaceMembers(members)
        ensures exists m :: m in members && n == Member(m.key, Replace(m.value))
      {
        if n in ReplaceMembers(members[1..]) {
        } else {
          assert members[0] in members;
        }
      }
    }
  }

  lemma {:induction false} CleanKeepsOrder(members: seq<Member>)
    requires LegalMembers(members) && Sorted(members, Before)
    ensures Sorted(CleanMembers(members), Before)
  {
    if members != [] {
      CleanKeepsOrder(members[1..]);
      CleanedMembers(members[1..]);
      var rest := CleanMembers(members[1..]);
      if !members[0].value.Undefined? {
        assert CleanMembers(members)[1..] == rest;
      }
    }
  }

  /** The object the replacer builds, before anything is dropped. */
  function Rebuilt(members: seq<Member>): seq<Member> {
    FromEntries(Sort(ReplaceMembers(members), Less))
  }

  lemma RebuiltMembers(members: seq<Member>)
    requires LegalMembers(members)
    ensures LegalMembers(Rebuilt(members)) && Sorted(Rebuilt(members), Before)
    ensures forall r :: r in Rebuilt(members) ==> exists m :: m in members && r == Member(m.key, Replace(m.value))
    ensures forall m :: m in members ==> Member(m.key, Replace(m.value)) in Rebuilt(members)
  {
    ReplaceMembersIsLegal(members);
    LegalIsDistinct(ReplaceMembers(members));
    RebuildSorts(ReplaceMembers(members));
    ReplaceIsLegal(Obj(members));
    ReplacedMembers(members);
  }

  /** The members a canonical text spells out: the defined ones, in enumeration order. */
  lemma NormOfObject(members: seq<Member>)
    requires Legal(Obj(members))
    ensures Norm(Obj(members)).Obj?
    ensures Sorted(Norm(Obj(members)).members, Before)
    ensures forall n :: n in Norm(Obj(members)).members ==>
              exists m :: m in members && !m.value.Undefined? && Legal(m.value) && n == Member(m.key, Norm(m.value))
    ensures forall m :: m in members && !m.value.Undefined? ==>
              Legal(m.value) && Member(m.key, Norm(m.value)) in Norm(Obj(members)).members
  {
    LegalIsDistinct(members);
    RebuiltMembers(members);
    var rebuilt := Rebuilt(members);
    CleanedMembers(rebuilt);
    CleanKeepsOrder(rebuilt);
    var norm := CleanMembers(rebuilt);
    assert Norm(Obj(members)) == Obj(norm);
    forall n | n in norm
      ensures exists m :: m in members && !m.value.Undefined? && Legal(m.value) && n == Member(m.key, Norm(m.value))
    {
      var r :| r in rebuilt && !r.value.Undefined? && Legal(r.value) && n == Member(r.key, Clean(r.value));
      var m :| m in members && r == Member(m.key, Replace(m.value));
      assert n == Member(m.key, Norm(m.value));
    }
    forall m | m in members && !m.value.Undefined?
      ensures Legal(m.value) && Member(m.key, Norm(m.value)) in norm
    {
      assert Member(m.key, Replace(m.value)) in rebuilt;
    }
  }

  lemma {:induction false} NormEachItem(items: seq<Value>)
    requires LegalItems(items)
    ensures LegalItems(ReplaceItems(items))
    ensures forall i :: 0 <= i < |items| ==>
              Legal(items[i]) && CleanItems(ReplaceItems(items))[i] == Norm(items[i])
    decreases items
  {
    ReplaceItemsIsLegal(items);
    if items != [] {
      NormEachItem(items[1..]);
      ReplaceIsLegal(items[0]);
      assert ReplaceItems(items)[1..] == ReplaceItems(items[1..]);
    }
  }

  lemma NormOfItems(items: seq<Value>)
    requires Legal(Arr(items))
    ensures Norm(Arr(items)).Arr? && |Norm(Arr(items)).items| == |items|
    ensures forall i :: 0 <= i < |items| ==> Legal(items[i]) && Norm(Arr(items)).items[i] == Norm(items[i])
  {
    NormEachItem(items);
    assert Norm(Arr(items)) == Arr(CleanItems(ReplaceItems(items)));
  }

  /** Distinct keys make the found value the only one. */
  lemma {:induction false} FindIsUnique(members: seq<Member>, m: Member)
    requires Distinct(members) && m in members && !m.value.Undefined?
    ensures Find(members, m.key) == Some(m.value)
  {
    if m != members[0] {
      assert m in members[1..];
      FindIsUnique(members[1..], m);
    }
  }

  lemma {:induction false} SameIffSameNorm(a: Value, b: Value)
    requires Legal(a) && Legal(b) && !a.Undefined? && !b.Undefined?
    ensures Norm(a) == Norm(b) <==> Same(a, b)
    decreases a, 0
  {
    if a.Arr? && b.Arr? {
      NormOfItems(a.items);
      NormOfItems(b.items);
      if |a.items| == |b.items| {
        forall i | 0 <= i < |a.items|
          ensures Norm(a.items[i]) == Norm(b.items[i]) <==> SameItem(a.items[i], b.items[i])
        {
          SameItemIffSameNorm(a.items[i], b.items[i]);
        }
      }
    } else if a.Obj? && b.Obj? {
      if Same(a, b) {
        SameObjectsSameNorm(a, b);
      }
      if Norm(a) == Norm(b) {
        SameNormSameObjects(a, b);
      }
    } else {
      NormKeepsKind(a);
      NormKeepsKind(b);
    }
  }

  lemma NormKeepsKind(v: Value)
    requires Legal(v)
    ensures Norm(v).Arr? <==> v.Arr?
    ensures Norm(v).Obj? <==> v.Obj?
    ensures !v.Arr? && !v.Obj? ==> Norm(v) == if v.Undefined? || PrintsNull(v) then Null else v
  {
  }

  lemma {:induction false} SameItemIffSameNorm(a: Value, b: Value)
    requires Legal(a) && Legal(b)
    ensures Norm(a) == Norm(b) <==> SameItem(a, b)
    decreases a, 1
  {
    if a.Undefined? || b.Undefined? {
      NormKeepsKind(a);
      NormKeepsKind(b);
    } else {
      SameIffSameNorm(a, b);
    }
  }

  lemma {:induction false} SameObjectsSameNorm(a: Value, b: Value)
    requires a.Obj? && b.Obj? && Legal(a) && Legal(b) && Same(a, b)
    ensures Norm(a) == Norm(b)
    decreases a, -1
  {
    NormOfObject(a.members);
    NormOfObject(b.members);
    LegalIsDistinct(a.members);
    LegalIsDistinct(b.members);
    var x, y := Norm(a).members, Norm(b).members;
    forall i | 0 <= i < |a.members| && !a.members[i].value.Undefined?
      ensures Member(a.members[i].key, Norm(a.members[i].value)) in y
    {
      var m := a.members[i];
      var v := Find(b.members, m.key).value;
      assert m in a.members;
      SameIffSameNorm(m.value, v);
      assert Member(m.key, v) in b.members;
    }
    forall n | n in x
      ensures n in y
    {
      var m :| m in a.members && !m.value.Undefined? && Legal(m.value) && n == Member(m.key, Norm(m.value));
      var i :| 0 <= i < |a.members| && a.members[i] == m;
    }
    forall n | n in y
      ensures n in x
    {
      var m :| m in b.members && !m.value.Undefined? && Legal(m.value) && n == Member(m.key, Norm(m.value));
      var v := Find(a.members, m.key).value;
      var i :| 0 <= i < |a.members| && a.members[i] == Member(m.key, v);
      assert a.members[i] in a.members;
      FindIsUnique(b.members, m);
      SameIffSameNorm(v, m.value);
    }
    BeforeIsStrictOrder();
    SortedUnique(x, y, Before, AnyKey);
  }

  lemma {:induction false} SameNormSameObjects(a: Value, b: Value)
    requires a.Obj? && b.Obj? && Legal(a) && Legal(b) && Norm(a) == Norm(b)
    ensures Same(a, b)
    decreases a, -1
  {
    NormOfObject(a.members);
    NormOfObject(b.members);
    LegalIsDistinct(a.members);
    LegalIsDistinct(b.members);
    forall i | 0 <= i < |a.members| && !a.members[i].value.Undefined?
      ensures Find(b.members, a.members[i].key).Some?
      ensures Same(a.members[i].value, Find(b.members, a.members[i].key).value)
    {
      var m := a.members[i];
      assert m in a.members;
      var n :| n in b.members && !n.value.Undefined? && Legal(n.value)
               && Member(m.key, Norm(m.value)) == Member(n.key, Norm(n.value));
      FindIsUnique(b.members, n);
      SameIffSameNorm(m.value, n.value);
    }
    forall n | n in b.members && !n.value.Undefined?
      ensures Find(a.members, n.key).Some?
    {
      var m :| m in a.members && !m.value.Undefined? && Legal(m.value)
               && Member(n.key, Norm(n.value)) == Member(m.key, Norm(m.value));
    }
  }

  /** Two values have one canonical text exactly when they are equal up to key order and undefined members. */
  lemma CanonicalJsonIsComplete(a: Value, b: Value)
    requires Legal(a) && Legal(b)
    ensures CanonicalJson(a) == CanonicalJson(b) <==> Same(a, b)
  {
    if !a.Undefined? && !b.Undefined? {
      SameIffSameNorm(a, b);
      ParsePrint(Norm(a));
      ParsePrint(Norm(b));
    }
  }

  /** Parsing a canonical text gives an equal value, whose canonical text is the same one again. */
  lemma CanonicalJsonIsFixedPoint(v: Value)
    requires Legal(v) && !v.Undefined?
    ensures Parse(CanonicalJson(v).value) == Some(Norm(v))
    ensures Legal(Norm(v)) && Same(Norm(v), v)
    ensures CanonicalJson(Norm(v)) == CanonicalJson(v)
  {
    ReplaceIsLegal(v);
    ParsePrint(Norm(v));
    CleanIsLegal(Replace(v));
    NormIdempotent(v);
    SameIffSameNorm(Norm(v), v);
  }

  lemma {:induction false} NormIdempotent(v: Value)
    requires Legal(v)
    ensures Legal(Norm(v)) && Norm(Norm(v)) == Norm(v)
    decreases v
  {
    ReplaceIsLegal(v);
    CleanIsLegal(Replace(v));
    if v.Arr? {
      NormOfItems(v.items);
      var items := Norm(v).items;
      NormOfItems(items);
      forall i | 0 <= i < |items|
        ensures Norm(items[i]) == items[i]
      {
        NormIdempotent(v.items[i]);
      }
      assert Norm(Norm(v)).items == items;
    } else if v.Obj? {
      NormOfObject(v.members);
      var members := Norm(v).members;
      forall i | 0 <= i < |v.members| && !v.members[i].value.Undefined?
        ensures Legal(v.members[i].value) && Legal(Norm(v.members[i].value))
        ensures Norm(Norm(v.members[i].value)) == Norm(v.members[i].value)
      {
        assert v.members[i] in v.members;
        NormIdempotent(v.members[i].value);
      }
      forall m | m in members
        ensures Legal(m.value) && Norm(m.value) == m.value && !m.value.Undefined?
      {
        var w :| w in v.members && !w.value.Undefined? && Legal(w.value) && m == Member(w.key, Norm(w.value));
        var i :| 0 <= i < |v.members| && v.members[i] == w;
      }
      NormOfObject(members);
      BeforeIsStrictOrder();
      SortedUnique(members, Norm(Obj(members)).members, Before, AnyKey);
    } else {
      NormKeepsKind(v);
    }
  }
}
