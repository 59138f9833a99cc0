/** service/service_construction.go: contract call data of ERC-20 transfers and bridge unwraps, written and read
    back. */
module CallData {
  import opened Prelude

  // ---------------------------------------------------------------- bytes

  type Byte = n: int | 0 <= n < 256

  type Bytes = seq<Byte>

  function Pow256(n: nat): (p: nat)
    ensures p > 0
  {
    if n == 0 then 1 else 256 * Pow256(n - 1)
  }

  /** big.Int.SetBytes: big-endian. */
  function FromBytes(b: Bytes): nat {
    if b == [] then 0 else FromBytes(b[..|b| - 1]) * 256 + b[|b| - 1]
  }

  /** big.Int.Bytes: big-endian, without leading zeros. */
  function ToBytes(v: nat): Bytes {
    if v == 0 then [] else ToBytes(v / 256) + [v % 256]
  }

  function Zeros(n: nat): Bytes {
    seq(n, i => 0)
  }

  /** common.LeftPadBytes: longer slices are left alone. */
  function LeftPad(b: Bytes, n: nat): Bytes {
    if n <= |b| then b else Zeros(n - |b|) + b
  }

  lemma {:induction false} BytesOfValue(v: nat)
    ensures FromBytes(ToBytes(v)) == v
  {
    if v == 0 { return; }
    BytesOfValue(v / 256);
    assert ToBytes(v)[..|ToBytes(v)| - 1] == ToBytes(v / 256);
  }

  lemma {:induction false} BytesLength(v: nat, n: nat)
    ensures |ToBytes(v)| <= n <==> v < Pow256(n)
  {
    if v == 0 { return; }
    if n == 0 { return; }
    BytesLength(v / 256, n - 1);
    assert v < 256 * Pow256(n - 1) <==> v / 256 < Pow256(n - 1);
  }

  lemma {:induction false} FromConcat(a: Bytes, b: Bytes)
    ensures FromBytes(a + b) == FromBytes(a) * Pow256(|b|) + FromBytes(b)
    decreases |b|
  {
    if b == [] {
      assert a + b == a;
      return;
    }
    var n := |b| - 1;
    FromConcat(a, b[..n]);
    FromLast(b);
    FromLast(a + b);
    assert (a + b)[..|a| + n] == a + b[..n];
    MulStep(FromBytes(a), Pow256(n));
    hide FromBytes;
  }

  lemma FromLast(b: Bytes)
    requires b != []
    ensures FromBytes(b) == FromBytes(b[..|b| - 1]) * 256 + b[|b| - 1]
  {
  }

  lemma MulStep(x: nat, p: nat)
    ensures x * p * 256 == x * (256 * p)
  {
  }

  lemma {:induction false} FromBound(b: Bytes)
    ensures FromBytes(b) < Pow256(|b|)
  {
    if b != [] { FromBound(b[..|b| - 1]); }
  }

  lemma {:induction false} FromZeros(n: nat)
    ensures FromBytes(Zeros(n)) == 0
  {
    if n > 0 {
      assert Zeros(n)[..n - 1] == Zeros(n - 1);
      FromZeros(n - 1);
    }
  }

  /** Padding keeps the value, and the width is met exactly if the value fits. */
  lemma PadKeeps(v: nat, n: nat)
    ensures FromBytes(LeftPad(ToBytes(v), n)) == v
    ensures |LeftPad(ToBytes(v), n)| >= n
    ensures |LeftPad(ToBytes(v), n)| == n <==> v < Pow256(n)
  {
    hide Pow256, ToBytes, FromBytes;
    BytesOfValue(v);
    BytesLength(v, n);
    if n > |ToBytes(v)| {
      FromConcat(Zeros(n - |ToBytes(v)|), ToBytes(v));
      FromZeros(n - |ToBytes(v)|);
    }
  }

  /** Dropping leading bytes is reducing modulo a power of 256. */
  lemma SuffixIsMod(b: Bytes, k: nat)
    requires k <= |b|
    ensures FromBytes(b[k..]) == FromBytes(b) % Pow256(|b| - k)
  {
    assert b == b[..k] + b[k..];
    FromConcat(b[..k], b[k..]);
    FromBound(b[k..]);
    ModOfSum(FromBytes(b[..k]), Pow256(|b| - k), FromBytes(b[k..]));
  }

  lemma ModOfSum(q: nat, p: nat, r: nat)
    requires r < p
    ensures (q * p + r) % p == r
  {
    var x := q * p + r;
    assert x / p * p + x % p == x;
    if x / p < q { MulLe(x / p + 1, q, p); }
    if x / p > q { MulLe(q + 1, x / p, p); }
  }

  lemma MulLe(a: nat, b: nat, p: nat)
    requires a <= b
    ensures a * p <= b * p
  {
  }

  // ---------------------------------------------------------------- generating and parsing

  const BYTES_LENGTH := 68
  const PADDING := 32

  datatype CallError = IncorrectLength | IncorrectMethodID | IncorrectChainID

  /** A 20-byte address. */
  predicate IsAddress(a: nat) {
    a < Pow256(20)
  }

  /** Method id, then two arguments padded to 32 bytes (Solidity ABI, function selector and argument encoding). */
  function Encoded(methodID: Bytes, first: nat, second: nat): Bytes {
    methodID + LeftPad(ToBytes(first), PADDING) + LeftPad(ToBytes(second), PADDING)
  }

  method GenerateErc20TransferData(methodID: Bytes, to: nat, value: nat) returns (data: Bytes)
    requires IsAddress(to)
    ensures data == Encoded(methodID, to, value)
  {
    var toBytes := LeftPad(ToBytes(to), 20);
    AddressWidth(to);
    var paddedAddress := LeftPad(toBytes, PADDING);
    var paddedAmount := LeftPad(ToBytes(value), PADDING);
    data := [];
    data := data + methodID;
    data := data + paddedAddress;
    data := data + paddedAmount;
  }

  /** An address has 20 bytes, leading zeros included; padding it in two steps is the same. */
  lemma AddressWidth(a: nat)
    requires IsAddress(a)
    ensures LeftPad(LeftPad(ToBytes(a), 20), PADDING) == LeftPad(ToBytes(a), PADDING)
  {
    BytesLength(a, 20);
    hide Pow256, ToBytes;
    PadTwice(ToBytes(a));
  }

  lemma PadTwice(b: Bytes)
    requires |b| <= 20
    ensures LeftPad(LeftPad(b, 20), PADDING) == LeftPad(b, PADDING)
  {
    assert Zeros(12) + Zeros(20 - |b|) == Zeros(32 - |b|);
  }

  method GenerateBridgeUnwrapTransferData(methodID: Bytes, value: nat, chainID: nat) returns (data: Bytes)
    ensures data == Encoded(methodID, value, chainID)
  {
    var paddedAmount := LeftPad(ToBytes(value), PADDING);
    var paddedChainID := LeftPad(ToBytes(chainID), PADDING);
    data := [];
    data := data + methodID;
    data := data + paddedAmount;
    data := data + paddedChainID;
  }

  /** common.BytesToAddress keeps the last 20 bytes. */
  function BytesToAddress(b: Bytes): nat {
    FromBytes(if |b| > 20 then b[|b| - 20..] else b)
  }

  function ParseErc20TransferData(methodID: Bytes, data: Bytes): Result<(nat, nat), CallError> {
    if |data| != BYTES_LENGTH then Err(IncorrectLength)
    else if data[..4] != methodID then Err(IncorrectMethodID)
    else Ok((BytesToAddress(data[5..36]), FromBytes(data[37..])))
  }

  function ParseUnwrapData(methodID: Bytes, data: Bytes): Result<(nat, nat), CallError> {
    if |data| != BYTES_LENGTH then Err(IncorrectLength)
    else if data[..4] != methodID then Err(IncorrectMethodID)
    else if FromBytes(data[37..]) % TWO_64 != 0 then Err(IncorrectChainID)
    else Ok((FromBytes(data[5..36]), FromBytes(data[37..])))
  }

  // ---------------------------------------------------------------- round trips

  lemma Slices(methodID: Bytes, a: Bytes, b: Bytes)
    requires |methodID| == 4 && |a| == |b| == PADDING
    ensures var data := methodID + a + b;
            data[..4] == methodID && data[5..36] == a[1..] && data[16..36] == a[12..] && data[37..] == b[1..]
  {
  }

  lemma EncodedParts(methodID: Bytes, first: nat, second: nat)
    requires |methodID| == 4
    ensures |Encoded(methodID, first, second)| == BYTES_LENGTH <==> first < Pow256(32) && second < Pow256(32)
    ensures first < Pow256(32) && second < Pow256(32) ==>
              var data := Encoded(methodID, first, second);
              && data[..4] == methodID
              && FromBytes(data[5..36]) == first % Pow256(31)
              && FromBytes(data[16..36]) == first % Pow256(20)
              && FromBytes(data[37..]) == second % Pow256(31)
  {
    PadKeeps(first, PADDING);
    PadKeeps(second, PADDING);
    var a, b := LeftPad(ToBytes(first), PADDING), LeftPad(ToBytes(second), PADDING);
    var data := Encoded(methodID, first, second);
    hide Pow256, FromBytes, LeftPad, ToBytes;
    if |a| == PADDING && |b| == PADDING {
      Slices(methodID, a, b);
      SuffixIsMod(a, 1);
      SuffixIsMod(a, 12);
      SuffixIsMod(b, 1);
    }
  }

  /** Any 68 bytes that begin with the method id read as an address, the 20 bytes before the 36th, and a number, the 31
      bytes after the 37th. */
  lemma Erc20DataReads(methodID: Bytes, data: Bytes)
    ensures var r := ParseErc20TransferData(methodID, data);
            && (r == Err(IncorrectLength) <==> |data| != 68)
            && (r == Err(IncorrectMethodID) <==> |data| == 68 && data[..4] != methodID)
            && (r.Ok? ==> r.value == (FromBytes(data[16..36]), FromBytes(data[37..68])))
  {
    if |data| == 68 { assert data[5..36][11..] == data[16..36] && data[37..] == data[37..68]; }
    hide FromBytes;
  }

  /** Unwrap data reads as two numbers, of 31 bytes each; the low 64 bits of the second must be zero. */
  lemma UnwrapDataReads(methodID: Bytes, data: Bytes)
    ensures var r := ParseUnwrapData(methodID, data);
            && (r == Err(IncorrectLength) <==> |data| != 68)
            && (r == Err(IncorrectMethodID) <==> |data| == 68 && data[..4] != methodID)
            && (r == Err(IncorrectChainID) <==>
                |data| == 68 && data[..4] == methodID && FromBytes(data[37..68]) % 0x1_0000_0000_0000_0000 != 0)
            && (r.Ok? ==> r.value == (FromBytes(data[5..36]), FromBytes(data[37..68])))
  {
    if |data| == 68 { assert data[37..] == data[37..68]; }
    hide FromBytes;
  }

  /** Transfer data reads back as the same address and the value modulo 2^248, and not at all from 2^256 on. */
  lemma Erc20RoundTrip(methodID: Bytes, to: nat, value: nat)
    requires |methodID| == 4 && IsAddress(to)
    ensures ParseErc20TransferData(methodID, Encoded(methodID, to, value))
            == if value < Pow256(32) then Ok((to, value % Pow256(31))) else Err(IncorrectLength)
    ensures ParseErc20TransferData(methodID, Encoded(methodID, to, value)) == Ok((to, value)) <==> value < Pow256(31)
  {
    Powers();
    EncodedParts(methodID, to, value);
    var data := Encoded(methodID, to, value);
    hide Pow256, FromBytes, Encoded;
    if value < Pow256(32) {
      assert data[5..36][11..] == data[16..36];
      SmallMod(to, Pow256(20));
      SmallMod(value, Pow256(31));
    }
  }

  lemma Powers()
    ensures Pow256(20) < Pow256(31) < Pow256(32)
    ensures TWO_64 == Pow256(8) && Pow256(31) % TWO_64 == 0
  {
    hide Pow256;
    PowGrows(20, 31);
    PowGrows(31, 32);
    Pow64();
    PowSum(23, 8);
    ModOfSum(Pow256(23), Pow256(8), 0);
  }

  lemma Pow64()
    ensures TWO_64 == Pow256(8)
  {
  }

  lemma {:induction false} PowGrows(a: nat, b: nat)
    requires a < b
    ensures Pow256(a) < Pow256(b)
    decreases b
  {
    if a < b - 1 { PowGrows(a, b - 1); }
  }

  lemma {:induction false} PowSum(a: nat, b: nat)
    ensures Pow256(a + b) == Pow256(a) * Pow256(b)
  {
    if a > 0 {
      PowSum(a - 1, b);
      assert 256 * (Pow256(a - 1) * Pow256(b)) == (256 * Pow256(a - 1)) * Pow256(b);
    }
  }

  lemma SmallMod(x: nat, p: nat)
    requires p > 0
    ensures x % p == x <==> x < p
  {
  }

  /** Unwrap data reads back exactly if the amount is below 2^256 and the chain id's low 64 bits are zero; the amount
      comes back modulo 2^248. */
  lemma UnwrapRoundTrip(methodID: Bytes, value: nat, chainID: nat)
    requires |methodID| == 4
    ensures ParseUnwrapData(methodID, Encoded(methodID, value, chainID))
            == if value >= Pow256(32) || chainID >= Pow256(32) then Err(IncorrectLength)
               else if chainID % TWO_64 != 0 then Err(IncorrectChainID)
               else Ok((value % Pow256(31), chainID % Pow256(31)))
  {
    Powers();
    EncodedParts(methodID, value, chainID);
    hide Pow256, FromBytes, Encoded;
    ModOfMod(chainID, Pow256(31), TWO_64);
  }

  lemma ModOfMod(x: nat, p: nat, q: nat)
    requires p > 0 && q > 0 && p % q == 0
    ensures x % p % q == x % q
  {
    var a, b := x / p, p / q;
    assert p == b * q && x == a * p + x % p;
    var r, c := x % p % q, x % p / q;
    Regroup(a, b, c, q);
    assert x == (a * b + c) * q + r by { assert x % p == c * q + r; }
    ModOfSum(a * b + c, q, r);
  }

  lemma Regroup(a: nat, b: nat, c: nat, q: nat)
    ensures a * (b * q) + c * q == (a * b + c) * q
  {
  }

  // ---------------------------------------------------------------- operations

  datatype CallKind = Call | Erc20Transfer | Erc20Burn

  /** An address string: hex of some letter case, or no address at all. */
  datatype AddressText = Address(value: nat) | NoAddress(text: string)

  datatype Op = Op(index: nat, related: seq<nat>, kind: CallKind, account: nat, value: int, currency: CallCurrency)

  datatype CallCurrency = Avax | Contract(address: Option<nat>, symbol: string)

  /** The unsigned transaction that travels between payloads and parse. */
  datatype CallTx = CallTx(from: AddressText, to: AddressText, value: nat, data: Bytes, currency: CallCurrency)

  datatype ServiceError = InvalidInput

  /** createTransferOps: call data means a token transfer. */
  method CreateTransferOps(methodID: Bytes, tx: CallTx) returns (r: Result<(seq<Op>, nat), ServiceError>)
    ensures r == TransferOps(methodID, tx)
    ensures r.Ok? <==> tx.from.Address? && if tx.data == [] then tx.to.Address?
                                           else ParseErc20TransferData(methodID, tx.data).Ok?
    ensures r.Ok? && tx.data == [] ==>
              Moves(r.value.0, Call, tx.from.value, tx.to.value, tx.value, tx.currency) && r.value.1 == tx.from.value
    ensures r.Ok? && tx.data != [] ==>
              var (to, value) := ParseErc20TransferData(methodID, tx.data).value;
              Moves(r.value.0, Erc20Transfer, tx.from.value, to, value, tx.currency) && r.value.1 == tx.from.value
  {
    var kind: CallKind, value: nat, to: AddressText;
    if |tx.data| != 0 {
      var parsed := ParseErc20TransferData(methodID, tx.data);
      if parsed.Err? {
        return Err(InvalidInput);
      }
      value := parsed.value.1;
      kind := Erc20Transfer;
      to := Address(parsed.value.0);
    } else {
      value := tx.value;
      kind := Call;
      to := tx.to;
    }
    if tx.from.NoAddress? {
      return Err(InvalidInput);
    }
    if to.NoAddress? {
      return Err(InvalidInput);
    }
    var ops := [Op(0, [], kind, tx.from.value, -(value as int), tx.currency),
                Op(1, [0], kind, to.value, value, tx.currency)];
    r := Ok((ops, tx.from.value));
  }

  /** A debit of the sender, then a credit of the receiver related to it, of opposite values. */
  predicate Moves(ops: seq<Op>, kind: CallKind, from: nat, to: nat, value: nat, currency: CallCurrency) {
    && |ops| == 2 && ops[0].value == 0 - ops[1].value && ops[1].value == value
    && ops[0].index == 0 && ops[0].related == [] && ops[0].account == from
    && ops[1].index == 1 && ops[1].related == [0] && ops[1].account == to
    && ops[0].kind == ops[1].kind == kind && ops[0].currency == ops[1].currency == currency
  }

  function Transfer(kind: CallKind, from: nat, to: nat, value: nat, currency: CallCurrency): seq<Op> {
    [Op(0, [], kind, from, -(value as int), currency), Op(1, [0], kind, to, value, currency)]
  }

  function TransferOps(methodID: Bytes, tx: CallTx): Result<(seq<Op>, nat), ServiceError> {
    var parsed := ParseErc20TransferData(methodID, tx.data);
    if tx.data != [] && parsed.Err? then Err(InvalidInput)
    else if tx.from.NoAddress? then Err(InvalidInput)
    else if tx.data != [] then
      Ok((Transfer(Erc20Transfer, tx.from.value, parsed.value.0, parsed.value.1, tx.currency), tx.from.value))
    else if tx.to.NoAddress? then Err(InvalidInput)
    else Ok((Transfer(Call, tx.from.value, tx.to.value, tx.value, tx.currency), tx.from.value))
  }

  /** createTransferPayload for a matched pair of operations: value moves from the first account to the second. */
  method CreateTransferPayload(methodID: Bytes, from: AddressText, to: AddressText, value: nat, currency: CallCurrency)
    returns (r: Result<CallTx, ServiceError>)
    requires to.Address? ==> IsAddress(to.value)
    ensures r.Ok? <==> from.Address? && to.Address? && (currency.Contract? ==> currency.address.Some?)
    ensures r.Ok? ==>
              r.value == if currency.Avax? then CallTx(from, to, value, [], currency)
                         else CallTx(from, Address(currency.address.value), 0, Encoded(methodID, to.value, value),
                                     currency)
  {
    if from.NoAddress? {
      return Err(InvalidInput);
    }
    if to.NoAddress? {
      return Err(InvalidInput);
    }
    if currency.Avax? {
      return Ok(CallTx(from, to, value, [], currency));
    }
    if currency.address.None? {
      return Err(InvalidInput);
    }
    var data := GenerateErc20TransferData(methodID, to.value, value);
    r := Ok(CallTx(from, Address(currency.address.value), 0, data, currency));
  }

  /** The transfer a caller asks for is the transfer parse shows, for AVAX always, for a token exactly below 2^248. */
  lemma TransferRoundTrip(methodID: Bytes, from: nat, to: nat, value: nat, currency: CallCurrency, tx: CallTx)
    requires |methodID| == 4 && IsAddress(to)
    requires tx == if currency.Avax? then CallTx(Address(from), Address(to), value, [], currency)
                   else CallTx(Address(from), tx.to, 0, Encoded(methodID, to, value), currency)
    ensures var r, kind := TransferOps(methodID, tx), if currency.Avax? then Call else Erc20Transfer;
            && (r.Ok? <==> currency.Avax? || value < Pow256(32))
            && (r.Ok? ==>
                  var ops := r.value.0;
                  && |ops| == 2 && r.value.1 == from
                  && ops[0].index == 0 && ops[0].related == [] && ops[0].account == from && ops[0].kind == kind
                  && ops[1].index == 1 && ops[1].related == [0] && ops[1].account == to && ops[1].kind == kind
                  && ops[0].value == 0 - ops[1].value && ops[0].currency == ops[1].currency == currency
                  && (ops[1].value == value <==> currency.Avax? || value < Pow256(31)))
  {
    if !currency.Avax? {
      EncodedNotEmpty(methodID, to, value);
      Erc20RoundTrip(methodID, to, value);
      hide Pow256, Encoded, ParseErc20TransferData, IsAddress;
    }
  }

  lemma EncodedNotEmpty(methodID: Bytes, first: nat, second: nat)
    requires |methodID| == 4
    ensures Encoded(methodID, first, second) != []
  {
  }

  /** createUnwrapOps. */
  function UnwrapOps(methodID: Bytes, tx: CallTx): Result<(seq<Op>, nat), ServiceError> {
    var parsed := ParseUnwrapData(methodID, tx.data);
    if parsed.Err? then Err(InvalidInput)
    else if tx.from.NoAddress? then Err(InvalidInput)
    else Ok(([Op(0, [], Erc20Burn, tx.from.value, -(parsed.value.0 as int), tx.currency)], tx.from.value))
  }

  /** A bridge token burn comes back as it was asked for, exactly below 2^248: the service writes chain id zero. */
  lemma BurnRoundTrip(methodID: Bytes, from: nat, value: nat, tx: CallTx)
    requires |methodID| == 4 && tx.from == Address(from) && tx.data == Encoded(methodID, value, 0)
    ensures UnwrapOps(methodID, tx) == Ok(([Op(0, [], Erc20Burn, from, -(value as int), tx.currency)], from))
            <==> value < Pow256(31)
  {
    hide Pow256, Encoded, ParseUnwrapData;
    UnwrapSame(methodID, value);
  }

  lemma UnwrapSame(methodID: Bytes, value: nat)
    requires |methodID| == 4
    ensures var r := ParseUnwrapData(methodID, Encoded(methodID, value, 0));
            (r.Ok? && r.value.0 == value) <==> value < Pow256(31)
  {
    hide *;
    Powers();
    UnwrapRoundTrip(methodID, value, 0);
    SmallMod(value, Pow256(31));
  }

  /** A transfer of 2^248 units is shown as a transfer of nothing. */
  lemma LargeTransferShowsNothing(methodID: Bytes, to: nat)
    requires |methodID| == 4 && IsAddress(to)
    ensures ParseErc20TransferData(methodID, Encoded(methodID, to, Pow256(31))) == Ok((to, 0))
  {
    hide *;
    Powers();
    Erc20RoundTrip(methodID, to, Pow256(31));
    ModOfSum(1, Pow256(31), 0);
  }
}
