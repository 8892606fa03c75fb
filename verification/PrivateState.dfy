/**
 The store for per-deal private state: JSON text in which byte arrays and big integers travel as tagged
 objects. Saving runs the replacer from the top down, loading runs the reviver from the leaves up.
 */
module PrivateState {
  import opened Wrappers
  import opened Utf16
  import Decimal
  import Hex
  import Json

  datatype Data =
    | Null
    | Bool(b: bool)
    | Num(repr: Text)
    | Str(s: Text)
    | Bytes(bytes: Hex.Bytes)
    | Big(i: int)
    | Arr(items: seq<Data>)
    | Obj(entries: seq<Entry>)

  datatype Entry = Entry(key: Text, value: Data)

  const U8: Text := [0x5F, 0x5F, 0x75, 0x38]                                              // __u8
  const BIGINT: Text := [0x5F, 0x5F, 0x62, 0x69, 0x67, 0x69, 0x6E, 0x74]                  // __bigint

  /** What the engine makes of a tag whose content is not a string: Buffer.from and BigInt coerce or throw. */
  datatype Coercions = Coercions(toBytes: Data -> Option<Hex.Bytes>, toBig: Data -> Option<int>)

  // ---- saving ----

  function Tagged(tag: Text, content: Text): Json.Value {
    Json.Obj([Json.Member(tag, Json.Str(content))])
  }

  function Encode(d: Data): Json.Value
    decreases d
  {
    match d
    case Null => Json.Null
    case Bool(b) => Json.Bool(b)
    case Num(repr) => Json.Num(repr)
    case Str(s) => Json.Str(s)
    case Bytes(bytes) => Tagged(U8, Hex.Encode(bytes))
    case Big(i) => Tagged(BIGINT, Decimal.Print(i))
    case Arr(items) => Json.Arr(EncodeItems(items))
    case Obj(entries) => Json.Obj(EncodeEntries(entries))
  }

  function EncodeItems(items: seq<Data>): (r: seq<Json.Value>)
    ensures |r| == |items|
    decreases items
  {
    if items == [] then [] else [Encode(items[0])] + EncodeItems(items[1..])
  }

  function EncodeEntries(entries: seq<Entry>): (r: seq<Json.Member>)
    ensures |r| == |entries|
    decreases entries
  {
    if entries == [] then []
    else [Json.Member(entries[0].key, Encode(entries[0].value))] + EncodeEntries(entries[1..])
  }

  /** Every number prints as a number. */
  predicate Printable(d: Data)
    decreases d
  {
    match d
    case Num(repr) => Json.IsNumber(repr)
    case Arr(items) => PrintableItems(items)
    case Obj(entries) => PrintableEntries(entries)
    case _ => true
  }

  predicate PrintableItems(items: seq<Data>)
    decreases items
  {
    items == [] || (Printable(items[0]) && PrintableItems(items[1..]))
  }

  predicate PrintableEntries(entries: seq<Entry>)
    decreases entries
  {
    entries == [] || (Printable(entries[0].value) && PrintableEntries(entries[1..]))
  }

  lemma {:induction false} EncodeIsPlain(d: Data)
    requires Printable(d)
    ensures Json.Plain(Encode(d))
    decreases d
  {
    match d
    case Arr(items) => EncodeItemsIsPlain(items);
    case Obj(entries) => EncodeEntriesIsPlain(entries);
    case _ =>
  }

  lemma {:induction false} EncodeItemsIsPlain(items: seq<Data>)
    requires PrintableItems(items)
    ensures Json.PlainItems(EncodeItems(items))
    decreases items
  {
    if items != [] {
      EncodeIsPlain(items[0]);
      EncodeItemsIsPlain(items[1..]);
    }
  }

  lemma {:induction false} EncodeEntriesIsPlain(entries: seq<Entry>)
    requires PrintableEntries(entries)
    ensures Json.PlainMembers(EncodeEntries(entries))
    decreases entries
  {
    if entries != [] {
      EncodeIsPlain(entries[0].value);
      EncodeEntriesIsPlain(entries[1..]);
    }
  }

  function Save(d: Data): Text
    requires Printable(d)
  {
    EncodeIsPlain(d);
    Json.Print(Encode(d))
  }

  // ---- loading ----

  function Lookup(entries: seq<Entry>, key: Text): (r: Option<Data>)
  {
    if entries == [] then None
    else if entries[0].key == key then Some(entries[0].value)
    else Lookup(entries[1..], key)
  }

  /** The reviver on an object whose members have been revived; None where it throws. */
  function ReviveTag(entries: seq<Entry>, c: Coercions): Option<Data> {
    match Lookup(entries, U8)
    case Some(Str(hex)) => Some(Bytes(Hex.Decode(hex)))
    case Some(other) => (match c.toBytes(other) case Some(b) => Some(Bytes(b)) case None => None)
    case None =>
      match Lookup(entries, BIGINT)
      case Some(Str(digits)) => (match Decimal.Parse(digits) case Some(i) => Some(Big(i)) case None => None)
      case Some(other) => (match c.toBig(other) case Some(i) => Some(Big(i)) case None => None)
      case None => Some(Obj(entries))
  }

  function Revive(j: Json.Value, c: Coercions): Option<Data>
    requires Json.Plain(j)
    decreases j
  {
    match j
    case Null => Some(Null)
    case Bool(b) => Some(Bool(b))
    case Num(repr) => Some(Num(repr))
    case Str(s) => Some(Str(s))
    case Arr(items) => (match ReviveItems(items, c) case Some(r) => Some(Arr(r)) case None => None)
    case Obj(members) => (match ReviveMembers(members, c) case Some(r) => ReviveTag(r, c) case None => None)
  }

  function ReviveItems(items: seq<Json.Value>, c: Coercions): Option<seq<Data>>
    requires Json.PlainItems(items)
    decreases items
  {
    if items == [] then Some([])
    else
      match Revive(items[0], c)
      case None => None
      case Some(first) =>
        match ReviveItems(items[1..], c)
        case None => None
        case Some(rest) => Some([first] + rest)
  }

  function ReviveMembers(members: seq<Json.Member>, c: Coercions): Option<seq<Entry>>
    requires Json.PlainMembers(members)
    decreases members
  {
    if members == [] then Some([])
    else
      match Revive(members[0].value, c)
      case None => None
      case Some(first) =>
        match ReviveMembers(members[1..], c)
        case None => None
        case Some(rest) => Some([Entry(members[0].key, first)] + rest)
  }

  /** `JSON.parse(text, reviver)`; None where it throws. */
  function Load(text: Text, c: Coercions): Option<Data> {
    match Json.Parse(text)
    case None => None
    case Some(j) => Json.ParseIsPlain(text); Revive(j, c)
  }

  // ---- exactly the states without a reserved key come back ----

  predicate HasReservedKey(entries: seq<Entry>) {
    Lookup(entries, U8).Some? || Lookup(entries, BIGINT).Some?
  }

  /** No plain object, at any depth, has a key that the store uses as a tag. */
  predicate Unreserved(d: Data)
    decreases d
  {
    match d
    case Arr(items) => UnreservedItems(items)
    case Obj(entries) => !HasReservedKey(entries) && UnreservedEntries(entries)
    case _ => true
  }

  predicate UnreservedItems(items: seq<Data>)
    decreases items
  {
    items == [] || (Unreserved(items[0]) && UnreservedItems(items[1..]))
  }

  predicate UnreservedEntries(entries: seq<Entry>)
    decreases entries
  {
    entries == [] || (Unreserved(entries[0].value) && UnreservedEntries(entries[1..]))
  }

  lemma ReviveTagged(tag: Text, content: Text, c: Coercions)
    ensures Json.Plain(Tagged(tag, content))
    ensures Revive(Tagged(tag, content), c) == ReviveTag([Entry(tag, Str(content))], c)
    ensures forall key :: Lookup([Entry(tag, Str(content))], key) == if key == tag then Some(Str(content)) else None
  {
    assert [Entry(tag, Str(content))][1..] == [];
    var members := [Json.Member(tag, Json.Str(content))];
    assert members[1..] == [];
    assert Json.PlainMembers(members) by {
      assert Json.PlainMembers(members[1..]) && Json.Plain(members[0].value);
    }
    assert ReviveMembers(members, c) == Some([Entry(tag, Str(content))] + []) by {
      assert Revive(members[0].value, c) == Some(Str(content));
      assert ReviveMembers(members[1..], c) == Some([]);
    }
    assert [Entry(tag, Str(content))] + [] == [Entry(tag, Str(content))];
  }

  lemma BytesReturn(bytes: Hex.Bytes, c: Coercions)
    ensures Json.Plain(Encode(Bytes(bytes))) && Revive(Encode(Bytes(bytes)), c) == Some(Bytes(bytes))
  {
    ReviveTagged(U8, Hex.Encode(bytes), c);
    Hex.DecodeEncode(bytes);
  }

  lemma BigReturns(i: int, c: Coercions)
    ensures Json.Plain(Encode(Big(i))) && Revive(Encode(Big(i)), c) == Some(Big(i))
  {
    ReviveTagged(BIGINT, Decimal.Print(i), c);
    Decimal.ParsePrint(i);
    assert |U8| != |BIGINT|;
  }

  lemma ArrayReturns(items: seq<Data>, c: Coercions)
    requires Json.PlainItems(EncodeItems(items))
    requires ReviveItems(EncodeItems(items), c) == Some(items) <==> UnreservedItems(items)
    ensures Json.Plain(Encode(Arr(items)))
    ensures Revive(Encode(Arr(items)), c) == Some(Arr(items)) <==> Unreserved(Arr(items))
  {
  }

  lemma ObjectReturns(entries: seq<Entry>, c: Coercions)
    requires Json.PlainMembers(EncodeEntries(entries))
    requires ReviveMembers(EncodeEntries(entries), c) == Some(entries) <==> UnreservedEntries(entries)
    ensures Json.Plain(Encode(Obj(entries)))
    ensures Revive(Encode(Obj(entries)), c) == Some(Obj(entries)) <==> Unreserved(Obj(entries))
  {
    var revived := ReviveMembers(EncodeEntries(entries), c);
    if revived.Some? {
      SameKeys(entries, revived.value, c);
    }
  }

  lemma {:induction false} ReviveUndoesEncode(d: Data, c: Coercions)
    requires Printable(d)
    ensures Json.Plain(Encode(d))
    ensures Revive(Encode(d), c) == Some(d) <==> Unreserved(d)
    decreases d
  {
    match d
    case Bytes(bytes) => BytesReturn(bytes, c);
    case Big(i) => BigReturns(i, c);
    case Arr(items) =>
      ReviveUndoesEncodeItems(items, c);
      ArrayReturns(items, c);
    case Obj(entries) =>
      ReviveUndoesEncodeEntries(entries, c);
      ObjectReturns(entries, c);
    case _ =>
  }

  /** Reviving an encoded sequence is reviving its first item and then the rest. */
  lemma ReviveItemsStep(items: seq<Data>, c: Coercions)
    requires items != [] && Json.PlainItems(EncodeItems(items))
    ensures Json.Plain(Encode(items[0])) && Json.PlainItems(EncodeItems(items[1..]))
    ensures
      ReviveItems(EncodeItems(items), c) == Some(items) <==>
      Revive(Encode(items[0]), c) == Some(items[0]) && ReviveItems(EncodeItems(items[1..]), c) == Some(items[1..])
  {
    assert EncodeItems(items)[1..] == EncodeItems(items[1..]);
    assert items == [items[0]] + items[1..];
    var first, rest := Revive(Encode(items[0]), c), ReviveItems(EncodeItems(items[1..]), c);
    if first.Some? && rest.Some? {
      assert ([first.value] + rest.value)[1..] == rest.value;
    }
  }

  lemma {:induction false} ReviveUndoesEncodeItems(items: seq<Data>, c: Coercions)
    requires PrintableItems(items)
    ensures Json.PlainItems(EncodeItems(items))
    ensures ReviveItems(EncodeItems(items), c) == Some(items) <==> UnreservedItems(items)
    decreases items
  {
    if items != [] {
      ReviveUndoesEncode(items[0], c);
      ReviveUndoesEncodeItems(items[1..], c);
      EncodeItemsIsPlain(items);
      ReviveItemsStep(items, c);
    }
  }

  lemma ReviveEntriesStep(entries: seq<Entry>, c: Coercions)
    requires entries != [] && Json.PlainMembers(EncodeEntries(entries))
    ensures Json.Plain(Encode(entries[0].value)) && Json.PlainMembers(EncodeEntries(entries[1..]))
    ensures
      ReviveMembers(EncodeEntries(entries), c) == Some(entries) <==>
      Revive(Encode(entries[0].value), c) == Some(entries[0].value) &&
      ReviveMembers(EncodeEntries(entries[1..]), c) == Some(entries[1..])
  {
    assert EncodeEntries(entries)[1..] == EncodeEntries(entries[1..]);
    assert entries == [entries[0]] + entries[1..];
    var first, rest := Revive(Encode(entries[0].value), c), ReviveMembers(EncodeEntries(entries[1..]), c);
    if first.Some? && rest.Some? {
      assert ([Entry(entries[0].key, first.value)] + rest.value)[1..] == rest.value;
    }
  }

  lemma {:induction false} ReviveUndoesEncodeEntries(entries: seq<Entry>, c: Coercions)
    requires PrintableEntries(entries)
    ensures Json.PlainMembers(EncodeEntries(entries))
    ensures ReviveMembers(EncodeEntries(entries), c) == Some(entries) <==> UnreservedEntries(entries)
    decreases entries
  {
    if entries != [] {
      ReviveUndoesEncode(entries[0].value, c);
      ReviveUndoesEncodeEntries(entries[1..], c);
      EncodeEntriesIsPlain(entries);
      ReviveEntriesStep(entries, c);
    }
  }

  /** Reviving the members of an object neither adds nor removes a key. */
  lemma {:induction false} SameKeys(entries: seq<Entry>, revived: seq<Entry>, c: Coercions)
    requires Json.PlainMembers(EncodeEntries(entries))
    requires ReviveMembers(EncodeEntries(entries), c) == Some(revived)
    ensures HasReservedKey(revived) == HasReservedKey(entries)
    decreases entries
  {
    if entries != [] {
      assert EncodeEntries(entries)[1..] == EncodeEntries(entries[1..]);
      assert revived[1..] == ReviveMembers(EncodeEntries(entries[1..]), c).value;
      SameKeys(entries[1..], revived[1..], c);
    }
  }

  /** A loaded state is the saved one exactly when no object in it has a reserved key. */
  lemma LoadSaveIff(d: Data, c: Coercions)
    requires Printable(d)
    ensures Load(Save(d), c) == Some(d) <==> Unreserved(d)
  {
    EncodeIsPlain(d);
    Json.ParsePrint(Encode(d));
    ReviveUndoesEncode(d, c);
  }

  /** The family the condition shuts out, at its smallest: a one-key object comes back as a byte array. */
  lemma ReservedKeyIsLost(c: Coercions)
    ensures
      var d := Obj([Entry(U8, Str([]))]);
      Printable(d) && !Unreserved(d) && Load(Save(d), c) == Some(Bytes([]))
  {
    var entries := [Entry(U8, Str([]))];
    assert entries[1..] == [];
    var d := Obj(entries);
    assert Printable(d);
    assert EncodeEntries(entries) == [Json.Member(U8, Json.Str([]))];
    assert Encode(d) == Tagged(U8, []);
    EncodeIsPlain(d);
    Json.ParsePrint(Encode(d));
    ReviveTagged(U8, [], c);
    LoadSaveIff(d, c);
  }
}
