/** The P-chain entities the mapper works on, and the Rosetta operations it produces (mapper/pchain/types.go). */
module PchainModel {
  import opened Prelude

  /** A 32-byte identifier read as a number; numbers order like the bytes do. */
  type ID = nat

  /** A 20-byte address. */
  type ShortID = nat

  datatype UtxoID = UtxoID(txID: ID, outputIndex: nat)

  /** A coin identifier string: the text of a UTXO id, or any other text, which DecodeUTXOID rejects. */
  datatype CoinID = Coin(utxo: UtxoID) | Malformed(text: string)

  datatype ChainAlias = PChain | CChain | XChain | OtherChain(name: string)

  /** An account string: bech32 text made of a chain alias and an address, under the network's own prefix hrp,
      or any other text, which address.ParseToID rejects. */
  datatype Account = Bech32(chain: ChainAlias, owner: ShortID) | BadAddress(text: string)

  // ---------------------------------------------------------------- outputs and inputs

  datatype TransferOutput = TransferOutput(amount: uint64, locktime: uint64, threshold: uint32, addrs: seq<ShortID>)

  /** secp256k1fx.TransferOutput, stakeable.LockOut around another output, or an output of any other type, which
      may or may not list addresses. */
  datatype Output =
    | Transfer(out: TransferOutput)
    | LockOut(locktime: uint64, inner: Output)
    | OtherOutput(value: uint64, addresses: Option<seq<ShortID>>)

  datatype TransferableOutput = TransferableOutput(asset: ID, out: Output)

  datatype Utxo = Utxo(id: UtxoID, asset: ID, out: Output)

  datatype Input =
    | TransferInput(amount: uint64, sigIndices: seq<uint32>)
    | LockIn(locktime: uint64, inner: Input)
    | OtherInput(value: uint64)

  datatype TransferableInput = TransferableInput(utxo: UtxoID, asset: ID, input: Input)

  function OutputAmount(out: Output): uint64 {
    match out
    case Transfer(t) => t.amount
    case LockOut(_, inner) => OutputAmount(inner)
    case OtherOutput(value, _) => value
  }

  function InputAmount(input: Input): uint64 {
    match input
    case TransferInput(amount, _) => amount
    case LockIn(_, inner) => InputAmount(inner)
    case OtherInput(value) => value
  }

  /** avax.Addressable: the addresses an output lists, or None when it does not implement the interface. */
  function Addresses(out: Output): Option<seq<ShortID>> {
    match out
    case Transfer(t) => Some(t.addrs)
    case LockOut(_, inner) => Some(if Addresses(inner).Some? then Addresses(inner).value else [])
    case OtherOutput(_, addresses) => addresses
  }

  /** The transfer output the mapper sees after looking through one stakeable lock. */
  function Unlocked(out: Output): Option<TransferOutput> {
    match out
    case Transfer(t) => Some(t)
    case LockOut(_, inner) => if inner.Transfer? then Some(inner.out) else None
    case OtherOutput(_, _) => None
  }

  // ---------------------------------------------------------------- transactions

  datatype Kind =
    | AddValidator | AddSubnetValidator | AddDelegator | CreateChain | CreateSubnet | ImportAvax | ExportAvax
    | AdvanceTime | RewardValidator | RemoveSubnetValidator | TransformSubnetValidator
    | AddPermissionlessValidator | AddPermissionlessDelegator | TransferSubnetOwnership | Base | UnknownKind

  /** All transaction kinds in one record; a kind ignores the fields it does not have. */
  datatype UnsignedTx = UnsignedTx(
    kind: Kind, ins: seq<TransferableInput>, outs: seq<TransferableOutput>, stake: seq<TransferableOutput>,
    imported: seq<TransferableInput>, exported: seq<TransferableOutput>, destination: ID, rewarded: ID)

  datatype Tx = Tx(id: ID, unsigned: UnsignedTx)

  predicate IsStaking(kind: Kind) {
    kind.AddValidator? || kind.AddDelegator? || kind.AddPermissionlessValidator? || kind.AddPermissionlessDelegator?
  }

  /** A transaction some of whose outputs are spent, with the UTXOs created when its staking period ended. */
  datatype Dependency = Dependency(tx: Option<Tx>, rewards: seq<Utxo>)

  // ---------------------------------------------------------------- operations

  datatype MetaType =
    | MetaImport | MetaExport | MetaInput | MetaOutput | MetaStake | MetaReward | MetaOther(name: string)

  /** sigIndices is None when the key is absent. */
  datatype OpMetadata = OpMetadata(kind: MetaType, sigIndices: Option<seq<uint32>>, locktime: uint64, threshold: uint32)

  datatype Currency = AtomicAvax | OtherCurrency(symbol: string, decimals: nat)

  datatype Amount = Amount(value: int, currency: Currency)

  datatype CoinChange = CoinSpent(coin: CoinID) | CoinCreated(coin: CoinID)

  /** status is None in construction mode. */
  datatype Operation = Operation(
    index: Option<int>, kind: Kind, status: Option<bool>, account: Option<Account>, amount: Amount,
    coin: Option<CoinChange>, metadata: OpMetadata)
}
