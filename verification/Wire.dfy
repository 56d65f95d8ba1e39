/**
 * The payload path of a saga branch: the action's request is serialised once
 * and the same bytes are handed to the action and to its compensation, which
 * declares another message type (Protocol Buffers "Encoding" guide, sections
 * "Base 128 Varints" and "Message Structure").
 */
module Wire {
  import opened Ints

  type byte = x: int | 0 <= x < 256

  datatype Option<+T> = None | Some(value: T)

  /** Width of the amount field: int64 in user.proto, int32 in product.proto. */
  datatype Width = Wide | Slim

  /** The two varint fields of a request message. */
  datatype Schema = Schema(idField: nat, amountField: nat, width: Width)

  const DEDUCT_BALANCE_REQUEST := Schema(1, 2, Wide)
  const RESTORE_BALANCE_REQ := Schema(1, 2, Wide)
  const DEDUCT_STOCK_SAGA_REQ := Schema(1, 2, Slim)
  const RESTORE_STOCK_REQ := Schema(1, 2, Slim)

  datatype Payload = Payload(id: int64, amount: int64)

  ghost predicate ValidSchema(s: Schema) {
    && 1 <= s.idField < 0x2000_0000
    && 1 <= s.amountField < 0x2000_0000
    && s.idField != s.amountField
  }

  ghost predicate Fits(s: Schema, p: Payload) {
    s.width.Slim? ==> FitsInt32(p.amount)
  }

  // ---------------------------------------------------------------- varints

  function Varint(u: nat): seq<byte> {
    if u < 128 then [u] else [u % 128 + 128] + Varint(u / 128)
  }

  /** Reads one varint of at most `budget` bytes; the value must fit 64 bits. */
  function ReadRaw(bs: seq<byte>, budget: nat): (r: Option<(nat, seq<byte>)>)
    ensures r.Some? ==> |r.value.1| < |bs|
  {
    if bs == [] || budget == 0 then None
    else if bs[0] < 128 then Some((bs[0], bs[1..]))
    else match ReadRaw(bs[1..], budget - 1)
      case None => None
      case Some((high, rest)) => Some((bs[0] - 128 + 128 * high, rest))
  }

  function ReadVarint(bs: seq<byte>): (r: Option<(uint64, seq<byte>)>)
    ensures r.Some? ==> |r.value.1| < |bs|
  {
    match ReadRaw(bs, 10)
    case Some((v, rest)) => if v < TWO_64 then Some((v, rest)) else None
    case None => None
  }

  function Power128(k: nat): nat {
    if k == 0 then 1 else 128 * Power128(k - 1)
  }

  lemma {:induction false} RawRoundTrip(u: nat, budget: nat, rest: seq<byte>)
    requires budget > 0 && u < Power128(budget)
    ensures ReadRaw(Varint(u) + rest, budget) == Some((u, rest))
  {
    var bs := Varint(u) + rest;
    if u < 128 {
      assert bs[1..] == rest;
    } else {
      assert budget > 1 by {
        assert Power128(0) == 1;
      }
      RawRoundTrip(u / 128, budget - 1, rest);
      assert bs[1..] == Varint(u / 128) + rest;
    }
  }

  lemma VarintRoundTrip(u: uint64, rest: seq<byte>)
    ensures ReadVarint(Varint(u) + rest) == Some((u, rest))
  {
    assert Power128(10) > TWO_64 by {
      assert Power128(5) == 128 * 128 * 128 * 128 * 128;
      assert Power128(10) == 128 * 128 * 128 * 128 * 128 * Power128(5);
    }
    RawRoundTrip(u, 10, rest);
  }

  /** A ten-byte varint that does not fit 64 bits is an error. */
  lemma VarintTooLarge(u: nat, rest: seq<byte>)
    requires TWO_64 <= u < Power128(10)
    ensures ReadVarint(Varint(u) + rest) == None
  {
    RawRoundTrip(u, 10, rest);
  }

  // --------------------------------------------------------------- messages

  /** A varint field; proto3 omits a field that holds its default. */
  function Field(number: nat, value: int64): seq<byte> {
    if value == 0 then [] else Varint(8 * number) + Varint(ToUnsigned(value))
  }

  function Marshal(s: Schema, p: Payload): seq<byte> {
    Field(s.idField, p.id) + Field(s.amountField, p.amount)
  }

  function Store(s: Schema, number: nat, raw: uint64, acc: Payload): Payload {
    if number == s.idField then acc.(id := ToSigned(raw))
    else if number == s.amountField then
      acc.(amount := if s.width.Slim? then Narrow(ToSigned(raw)) else ToSigned(raw))
    else acc
  }

  /** Unknown fields are skipped and a repeated field overwrites the earlier one. */
  function Parse(s: Schema, bs: seq<byte>, acc: Payload): Option<Payload>
    decreases |bs|
  {
    if bs == [] then Some(acc)
    else match ReadVarint(bs)
      case None => None
      case Some((tag, body)) =>
        var number, wireType := tag / 8, tag % 8;
        if number == 0 then None
        else if wireType == 0 then
          match ReadVarint(body)
          case None => None
          case Some((raw, rest)) => Parse(s, rest, Store(s, number, raw, acc))
        else if wireType == 1 then
          if |body| < 8 then None else Parse(s, body[8..], acc)
        else if wireType == 2 then
          match ReadVarint(body)
          case None => None
          case Some((len, rest)) => if |rest| < len then None else Parse(s, rest[len..], acc)
        else if wireType == 5 then
          if |body| < 4 then None else Parse(s, body[4..], acc)
        else None
  }

  function Unmarshal(s: Schema, bs: seq<byte>): Option<Payload> {
    Parse(s, bs, Payload(0, 0))
  }

  lemma ParseVarintField(s: Schema, number: nat, raw: uint64, rest: seq<byte>, acc: Payload)
    requires 1 <= number < 0x2000_0000
    ensures Parse(s, Varint(8 * number) + (Varint(raw) + rest), acc) == Parse(s, rest, Store(s, number, raw, acc))
  {
    hide ReadVarint, Varint, Store;
    var body := Varint(raw) + rest;
    var bs := Varint(8 * number) + body;
    VarintRoundTrip(8 * number, body);
    VarintRoundTrip(raw, rest);
    assert bs != [];
  }

  lemma ParseField(s: Schema, number: nat, value: int64, rest: seq<byte>, acc: Payload)
    requires 1 <= number < 0x2000_0000
    ensures Parse(s, Field(number, value) + rest, acc)
            == if value == 0 then Parse(s, rest, acc)
               else Parse(s, rest, Store(s, number, ToUnsigned(value), acc))
  {
    hide Parse, Store, Varint;
    if value == 0 {
      assert Field(number, value) + rest == rest;
    } else {
      ParseVarintField(s, number, ToUnsigned(value), rest, acc);
      assert Field(number, value) + rest == Varint(8 * number) + (Varint(ToUnsigned(value)) + rest);
    }
  }

  /** What a reader with schema `b` makes of bytes written with schema `a`. */
  lemma CrossDecode(a: Schema, b: Schema, p: Payload)
    requires ValidSchema(a) && ValidSchema(b)
    ensures Unmarshal(b, Marshal(a, p)) ==
      Some(var q := if p.id == 0 then Payload(0, 0) else Store(b, a.idField, ToUnsigned(p.id), Payload(0, 0));
           if p.amount == 0 then q else Store(b, a.amountField, ToUnsigned(p.amount), q))
  {
    var second := Field(a.amountField, p.amount);
    ParseField(b, a.idField, p.id, second, Payload(0, 0));
    var q := if p.id == 0 then Payload(0, 0) else Store(b, a.idField, ToUnsigned(p.id), Payload(0, 0));
    assert second + [] == second;
    ParseField(b, a.amountField, p.amount, [], q);
  }

  ghost predicate ReadsBack(a: Schema, b: Schema, p: Payload) {
    Unmarshal(b, Marshal(a, p)) == Some(p)
  }

  /**
   * A message type can stand in for another on every payload exactly when the
   * field numbers agree and no wide amount meets a slim reader.
   */
  lemma CompatibleIff(a: Schema, b: Schema)
    requires ValidSchema(a) && ValidSchema(b)
    ensures (forall p: Payload | Fits(a, p) :: ReadsBack(a, b, p))
            <==> a.idField == b.idField && a.amountField == b.amountField && (a.width.Wide? ==> b.width.Wide?)
  {
    hide Unmarshal, Marshal;
    var onlyId, onlyAmount, big := Payload(1, 0), Payload(0, 1), Payload(0, TWO_32);
    CrossDecode(a, b, onlyId);
    CrossDecode(a, b, onlyAmount);
    CrossDecode(a, b, big);
    assert Fits(a, onlyId) && Fits(a, onlyAmount) && (a.width.Wide? ==> Fits(a, big));
    if a.idField == b.idField && a.amountField == b.amountField && (a.width.Wide? ==> b.width.Wide?) {
      forall p: Payload | Fits(a, p) ensures ReadsBack(a, b, p) {
        CrossDecode(a, b, p);
        NarrowKeepsIff(p.amount);
      }
    } else {
      assert !ReadsBack(a, b, onlyId) || !ReadsBack(a, b, onlyAmount) ||
             (a.width.Wide? && !ReadsBack(a, b, big));
    }
  }

  lemma Carried(a: Schema, b: Schema, p: Payload)
    requires ValidSchema(a) && ValidSchema(b) && Fits(a, p)
    requires a.idField == b.idField && a.amountField == b.amountField && a.width == b.width
    ensures Unmarshal(b, Marshal(a, p)) == Some(p)
  {
    CompatibleIff(a, b);
    assert ReadsBack(a, b, p);
  }

  /**
   * The saga path end to end: an int32 amount is widened, serialised, read by
   * the action and by its compensation, and narrowed again. Both services see
   * the buyer, the product and the amount the coordinator was given.
   */
  lemma SagaPayloadsSurvive(user: int64, product: int64, amount: int32)
    ensures var balance := Marshal(DEDUCT_BALANCE_REQUEST, Payload(user, amount));
            && Unmarshal(DEDUCT_BALANCE_REQUEST, balance) == Some(Payload(user, amount))
            && Unmarshal(RESTORE_BALANCE_REQ, balance) == Some(Payload(user, amount))
    ensures var stock := Marshal(DEDUCT_STOCK_SAGA_REQ, Payload(product, amount));
            && Unmarshal(DEDUCT_STOCK_SAGA_REQ, stock) == Some(Payload(product, amount))
            && Unmarshal(RESTORE_STOCK_REQ, stock) == Some(Payload(product, amount))
    ensures Narrow(amount) == amount
  {
    hide Marshal, Unmarshal, Narrow;
    NarrowKeepsIff(amount);
    var debit, take := Payload(user, amount), Payload(product, amount);
    Carried(DEDUCT_BALANCE_REQUEST, DEDUCT_BALANCE_REQUEST, debit);
    Carried(DEDUCT_BALANCE_REQUEST, RESTORE_BALANCE_REQ, debit);
    Carried(DEDUCT_STOCK_SAGA_REQ, DEDUCT_STOCK_SAGA_REQ, take);
    Carried(DEDUCT_STOCK_SAGA_REQ, RESTORE_STOCK_REQ, take);
  }

  /** One byte of a varint, low seven bits first, with the mark that more follow. */
  lemma VarintStep(low: nat, high: nat)
    requires low < 128 && high > 0
    ensures Varint(low + 128 * high) == [low + 128] + Varint(high)
  {
  }

  /** The example of the "Encoding" guide: 150 is 96 01 in hexadecimal, and 08 96 01 as field 1. */
  lemma GuideExample()
    ensures Varint(150) == [0x96, 0x01] && Field(1, 150) == [0x08, 0x96, 0x01]
  {
    VarintStep(22, 1);
  }

  lemma PayloadExamples()
    ensures Marshal(DEDUCT_BALANCE_REQUEST, Payload(150, 1)) == [0x08, 0x96, 0x01, 0x10, 0x01]
    ensures Marshal(DEDUCT_STOCK_SAGA_REQ, Payload(1, 0)) == [0x08, 0x01]
  {
    GuideExample();
  }

  /** A negative number takes ten bytes. */
  lemma NegativeExample()
    ensures Varint(ToUnsigned(-2)) == [0xFE, 0xFF, 0xFF, 0xFF, 0xFF, 0xFF, 0xFF, 0xFF, 0xFF, 0x01]
  {
    hide Varint;
    VarintStep(126, 0x1FF_FFFF_FFFF_FFFF);
    VarintStep(127, 0x3_FFFF_FFFF_FFFF);
    VarintStep(127, 0x7FF_FFFF_FFFF);
    VarintStep(127, 0xF_FFFF_FFFF);
    VarintStep(127, 0x1FFF_FFFF);
    VarintStep(127, 0x3F_FFFF);
    VarintStep(127, 0x7FFF);
    VarintStep(127, 0xFF);
    VarintStep(127, 1);
    One();
  }

  lemma One()
    ensures Varint(1) == [1]
  {
  }

  /** Both stock messages carry an int32 amount, both balance messages an int64 one. */
  lemma WidthsMatter(id: int64, amount: int64)
    ensures Unmarshal(DEDUCT_STOCK_SAGA_REQ, Marshal(DEDUCT_BALANCE_REQUEST, Payload(id, amount)))
            == Some(Payload(id, Narrow(amount)))
    ensures Unmarshal(RESTORE_STOCK_REQ, Marshal(DEDUCT_BALANCE_REQUEST, Payload(id, amount)))
            == Some(Payload(id, Narrow(amount)))
    ensures Unmarshal(RESTORE_BALANCE_REQ, Marshal(DEDUCT_BALANCE_REQUEST, Payload(id, amount)))
            == Some(Payload(id, amount))
  {
    hide Unmarshal, Marshal;
    CrossDecode(DEDUCT_BALANCE_REQUEST, DEDUCT_STOCK_SAGA_REQ, Payload(id, amount));
    CrossDecode(DEDUCT_BALANCE_REQUEST, RESTORE_STOCK_REQ, Payload(id, amount));
    CrossDecode(DEDUCT_BALANCE_REQUEST, RESTORE_BALANCE_REQ, Payload(id, amount));
    NarrowKeepsIff(0);
  }

  predicate Unknown(s: Schema, number: nat) {
    1 <= number < 0x2000_0000 && number != s.idField && number != s.amountField
  }

  /** A field that the reader does not know, of any of the four wire types, is passed over whole. */
  lemma SkipsVarint(s: Schema, number: nat, raw: uint64, rest: seq<byte>, acc: Payload)
    requires Unknown(s, number)
    ensures Parse(s, Varint(8 * number) + (Varint(raw) + rest), acc) == Parse(s, rest, acc)
  {
    hide Varint, Parse;
    ParseVarintField(s, number, raw, rest, acc);
  }

  lemma SkipsFixed(s: Schema, number: nat, body: seq<byte>, rest: seq<byte>, acc: Payload)
    requires Unknown(s, number) && (|body| == 8 || |body| == 4)
    ensures Parse(s, Varint(8 * number + if |body| == 8 then 1 else 5) + (body + rest), acc) == Parse(s, rest, acc)
  {
    hide Varint, ReadVarint, Store;
    var tag := 8 * number + if |body| == 8 then 1 else 5;
    VarintRoundTrip(tag, body + rest);
    assert (body + rest)[|body|..] == rest;
    assert Varint(tag) + (body + rest) != [];
  }

  lemma SkipsBytes(s: Schema, number: nat, body: seq<byte>, rest: seq<byte>, acc: Payload)
    requires Unknown(s, number) && |body| < TWO_64
    ensures Parse(s, Varint(8 * number + 2) + (Varint(|body|) + (body + rest)), acc) == Parse(s, rest, acc)
  {
    hide Varint, ReadVarint, Store, Parse;
    var value := Varint(|body|) + (body + rest);
    VarintRoundTrip(8 * number + 2, value);
    VarintRoundTrip(|body|, body + rest);
    ParseBytes(s, Varint(8 * number + 2) + value, number, value, body, rest, acc);
  }

  lemma ParseBytes(s: Schema, bs: seq<byte>, number: nat, value: seq<byte>, body: seq<byte>, rest: seq<byte>, acc: Payload)
    requires number >= 1 && 8 * number + 2 < TWO_64 && |body| < TWO_64
    requires ReadVarint(bs) == Some((8 * number + 2, value)) && ReadVarint(value) == Some((|body|, body + rest))
    ensures Parse(s, bs, acc) == Parse(s, rest, acc)
  {
    hide ReadVarint, Store;
    assert (8 * number + 2) / 8 == number && (8 * number + 2) % 8 == 2;
    assert (body + rest)[|body|..] == rest;
    assert bs != [] by { NothingToRead(); }
  }

  lemma NothingToRead()
    ensures ReadVarint([]) == None
  {
  }

  /** A tag without its value, a length that runs past the end, and field number 0 are errors. */
  lemma RejectsBroken(s: Schema, acc: Payload)
    ensures Parse(s, [0x08], acc) == None && Parse(s, [0x80], acc) == None && Parse(s, [0x00, 0x01], acc) == None
    ensures Parse(s, [0x09, 0x01], acc) == None && Parse(s, [0x0D, 0x01], acc) == None
    ensures Parse(s, [0x0A, 0x02, 0x01], acc) == None
  {
    hide Store;
    assert [0x08][1..] == [];
    assert [0x00, 0x01][1..] == [0x01] && [0x09, 0x01][1..] == [0x01] && [0x0D, 0x01][1..] == [0x01];
    assert [0x0A, 0x02, 0x01][1..] == [0x02, 0x01] && [0x02, 0x01][1..] == [0x01];
  }
}
