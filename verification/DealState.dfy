/** The private state of a deal, kept per contract address as tagged JSON between the agent's actions. */
module DealState {
  import opened Wrappers
  import opened Utf16
  import opened Hex
  import opened Memo
  import opened EscrowContract
  import PrivateState

  datatype QualifiedCoin = QualifiedCoin(coin: CoinCore, mtIndex: nat)

  datatype DealState = DealState(
    portAuthoritySecretKey: Option<Bytes>,
    sellerAddress: Option<EitherAddress>,
    sellerAddressSalt: Option<Bytes>,
    buyerAddress: Option<EitherAddress>,
    buyerAddressSalt: Option<Bytes>,
    depositedCoin: Option<CoinCore>,
    depositSalt: Option<Bytes>,
    qualifiedCoin: Option<QualifiedCoin>,
    depositNonce: Option<Bytes>,
    ownMemoPrivateKey: Option<Bytes>,
    counterpartyMemoPublicKey: Option<Bytes>,
    agreedAmount: Option<int>,
    agreedAmountSalt: Option<Bytes>,
    resolvedPortAuthorityKeyHash: Option<Bytes>)

  const EMPTY := DealState(None, None, None, None, None, None, None, None, None, None, None, None, None, None)

  // ---- as data ----

  function BytesData(b: Option<Bytes>): PrivateState.Data {
    match b case None => PrivateState.Null case Some(bytes) => PrivateState.Bytes(bytes)
  }

  function AmountData(i: Option<int>): PrivateState.Data {
    match i case None => PrivateState.Null case Some(n) => PrivateState.Big(n)
  }

  function Named(name: string, value: PrivateState.Data): PrivateState.Entry
    requires forall i :: 0 <= i < |name| ==> name[i] < 128 as char
  {
    PrivateState.Entry(Ascii(name), value)
  }

  function Inner(bytes: Bytes): PrivateState.Data {
    PrivateState.Obj([Named("bytes", PrivateState.Bytes(bytes))])
  }

  function AddressData(a: Option<EitherAddress>): PrivateState.Data {
    match a
    case None => PrivateState.Null
    case Some(address) =>
      PrivateState.Obj([
        Named("is_left", PrivateState.Bool(address.isLeft)), Named("left", Inner(address.left)),
        Named("right", Inner(address.right))])
  }

  function CoinData(c: Option<CoinCore>): PrivateState.Data {
    match c
    case None => PrivateState.Null
    case Some(coin) =>
      PrivateState.Obj([
        Named("nonce", PrivateState.Bytes(coin.nonce)), Named("color", PrivateState.Bytes(coin.color)),
        Named("value", PrivateState.Big(coin.value))])
  }

  function QualifiedData(q: Option<QualifiedCoin>): PrivateState.Data {
    match q
    case None => PrivateState.Null
    case Some(QualifiedCoin(coin, mtIndex)) =>
      PrivateState.Obj([
        Named("nonce", PrivateState.Bytes(coin.nonce)), Named("color", PrivateState.Bytes(coin.color)),
        Named("value", PrivateState.Big(coin.value)), Named("mt_index", PrivateState.Big(mtIndex))])
  }

  function Front(s: DealState): seq<PrivateState.Entry> {
    [ Named("portAuthoritySecretKey", BytesData(s.portAuthoritySecretKey)),
      Named("sellerAddress", AddressData(s.sellerAddress)),
      Named("sellerAddressSalt", BytesData(s.sellerAddressSalt)),
      Named("buyerAddress", AddressData(s.buyerAddress)),
      Named("buyerAddressSalt", BytesData(s.buyerAddressSalt)),
      Named("depositedCoin", CoinData(s.depositedCoin)),
      Named("depositSalt", BytesData(s.depositSalt)) ]
  }

  function Back(s: DealState): seq<PrivateState.Entry> {
    [ Named("qualifiedCoin", QualifiedData(s.qualifiedCoin)),
      Named("depositNonce", BytesData(s.depositNonce)),
      Named("ownMemoPrivateKey", BytesData(s.ownMemoPrivateKey)),
      Named("counterpartyMemoPublicKey", BytesData(s.counterpartyMemoPublicKey)),
      Named("agreedAmount", AmountData(s.agreedAmount)),
      Named("agreedAmountSalt", BytesData(s.agreedAmountSalt)),
      Named("resolvedPortAuthorityKeyHash", BytesData(s.resolvedPortAuthorityKeyHash)) ]
  }

  function Fields(s: DealState): seq<PrivateState.Entry> {
    Front(s) + Back(s)
  }

  function ToData(s: DealState): PrivateState.Data {
    PrivateState.Obj(Fields(s))
  }

  // ---- back from data ----

  function BytesOf(d: PrivateState.Data): Option<Bytes> {
    if d.Bytes? then Some(d.bytes) else None
  }

  function AmountOf(d: PrivateState.Data): Option<int> {
    if d.Big? then Some(d.i) else None
  }

  /** The value of the member at a position; members come back in the order they were saved in. */
  function At(d: PrivateState.Data, i: nat): PrivateState.Data {
    if d.Obj? && i < |d.entries| then d.entries[i].value else PrivateState.Null
  }

  function AddressOf(d: PrivateState.Data): Option<EitherAddress> {
    match (At(d, 0), At(At(d, 1), 0), At(At(d, 2), 0))
    case (Bool(isLeft), Bytes(left), Bytes(right)) => Some(EitherAddress(isLeft, left, right))
    case _ => None
  }

  function CoinOf(d: PrivateState.Data): Option<CoinCore> {
    match (At(d, 0), At(d, 1), At(d, 2))
    case (Bytes(nonce), Bytes(color), Big(value)) => Some(CoinCore(nonce, color, value))
    case _ => None
  }

  function QualifiedOf(d: PrivateState.Data): Option<QualifiedCoin> {
    match (CoinOf(d), At(d, 3))
    case (Some(coin), Big(index)) => if index >= 0 then Some(QualifiedCoin(coin, index)) else None
    case _ => None
  }

  function FromData(d: PrivateState.Data): DealState {
    DealState(
      BytesOf(At(d, 0)), AddressOf(At(d, 1)), BytesOf(At(d, 2)), AddressOf(At(d, 3)), BytesOf(At(d, 4)),
      CoinOf(At(d, 5)), BytesOf(At(d, 6)), QualifiedOf(At(d, 7)), BytesOf(At(d, 8)), BytesOf(At(d, 9)),
      BytesOf(At(d, 10)), AmountOf(At(d, 11)), BytesOf(At(d, 12)), BytesOf(At(d, 13)))
  }

  lemma AddressReturns(a: Option<EitherAddress>)
    ensures AddressOf(AddressData(a)) == a
  {
  }

  lemma CoinsReturn(c: Option<CoinCore>, q: Option<QualifiedCoin>)
    ensures CoinOf(CoinData(c)) == c && QualifiedOf(QualifiedData(q)) == q
  {
  }

  lemma FieldsAt(s: DealState)
    ensures |Fields(s)| == 14
    ensures forall i :: 0 <= i < 7 ==> At(ToData(s), i) == Front(s)[i].value && At(ToData(s), 7 + i) == Back(s)[i].value
  {
  }

  lemma FrontReturns(s: DealState)
    ensures
      var t := FromData(ToData(s));
      && t.portAuthoritySecretKey == s.portAuthoritySecretKey && t.sellerAddress == s.sellerAddress
      && t.sellerAddressSalt == s.sellerAddressSalt && t.buyerAddress == s.buyerAddress
      && t.buyerAddressSalt == s.buyerAddressSalt && t.depositedCoin == s.depositedCoin
      && t.depositSalt == s.depositSalt
  {
    FieldsAt(s);
    AddressReturns(s.sellerAddress);
    AddressReturns(s.buyerAddress);
    CoinsReturn(s.depositedCoin, None);
  }

  lemma BackReturns(s: DealState)
    ensures
      var t := FromData(ToData(s));
      && t.qualifiedCoin == s.qualifiedCoin && t.depositNonce == s.depositNonce
      && t.ownMemoPrivateKey == s.ownMemoPrivateKey && t.counterpartyMemoPublicKey == s.counterpartyMemoPublicKey
      && t.agreedAmount == s.agreedAmount && t.agreedAmountSalt == s.agreedAmountSalt
      && t.resolvedPortAuthorityKeyHash == s.resolvedPortAuthorityKeyHash
  {
    FieldsAt(s);
    CoinsReturn(None, s.qualifiedCoin);
  }

  lemma DataReturns(s: DealState)
    ensures FromData(ToData(s)) == s
  {
    FrontReturns(s);
    BackReturns(s);
  }

  // ---- the store ----

  /** No name begins with the underscores of the reserved keys. */
  predicate PlainName(key: Text) {
    key != [] && key[0] != 0x5F
  }

  predicate PlainEntries(entries: seq<PrivateState.Entry>) {
    forall i :: 0 <= i < |entries| ==>
      PlainName(entries[i].key) && PrivateState.Unreserved(entries[i].value) && PrivateState.Printable(entries[i].value)
  }

  lemma {:induction false} PlainEntriesAreUnreserved(entries: seq<PrivateState.Entry>)
    requires PlainEntries(entries)
    ensures !PrivateState.HasReservedKey(entries) && PrivateState.UnreservedEntries(entries)
    ensures PrivateState.PrintableEntries(entries)
  {
    if entries != [] {
      PlainEntriesAreUnreserved(entries[1..]);
    }
  }

  lemma InnerIsPlain(bytes: Bytes)
    ensures PrivateState.Unreserved(Inner(bytes)) && PrivateState.Printable(Inner(bytes))
  {
    PlainEntriesAreUnreserved([Named("bytes", PrivateState.Bytes(bytes))]);
  }

  lemma AddressIsPlain(a: Option<EitherAddress>)
    ensures PrivateState.Unreserved(AddressData(a)) && PrivateState.Printable(AddressData(a))
  {
    if a.Some? {
      InnerIsPlain(a.value.left);
      InnerIsPlain(a.value.right);
      PlainEntriesAreUnreserved(AddressData(a).entries);
    }
  }

  lemma CoinIsPlain(c: Option<CoinCore>)
    ensures PrivateState.Unreserved(CoinData(c)) && PrivateState.Printable(CoinData(c))
  {
    if c.Some? {
      PlainEntriesAreUnreserved(CoinData(c).entries);
    }
  }

  lemma QualifiedIsPlain(q: Option<QualifiedCoin>)
    ensures PrivateState.Unreserved(QualifiedData(q)) && PrivateState.Printable(QualifiedData(q))
  {
    if q.Some? {
      PlainEntriesAreUnreserved(QualifiedData(q).entries);
    }
  }

  lemma FrontIsPlain(s: DealState)
    ensures PlainEntries(Front(s))
  {
    AddressIsPlain(s.sellerAddress);
    AddressIsPlain(s.buyerAddress);
    CoinIsPlain(s.depositedCoin);
  }

  lemma BackIsPlain(s: DealState)
    ensures PlainEntries(Back(s))
  {
    QualifiedIsPlain(s.qualifiedCoin);
  }

  lemma StateIsPlain(s: DealState)
    ensures PrivateState.Unreserved(ToData(s)) && PrivateState.Printable(ToData(s))
  {
    FrontIsPlain(s);
    BackIsPlain(s);
    PlainEntriesAreUnreserved(Fields(s));
  }

  function SaveDeal(s: DealState): Text {
    StateIsPlain(s);
    PrivateState.Save(ToData(s))
  }

  function LoadDeal(text: Text, c: PrivateState.Coercions): Option<DealState> {
    match PrivateState.Load(text, c)
    case None => None
    case Some(d) => Some(FromData(d))
  }

  /** Every state of a deal survives being saved and loaded: nulls, byte strings, amounts of any size. */
  lemma StateSurvives(s: DealState, c: PrivateState.Coercions)
    ensures LoadDeal(SaveDeal(s), c) == Some(s)
  {
    StateIsPlain(s);
    PrivateState.LoadSaveIff(ToData(s), c);
    DataReturns(s);
  }
}
