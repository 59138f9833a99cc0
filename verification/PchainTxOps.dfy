/** mapper/pchain/tx_ops.go: the five operation lists a transaction is collected into. */
module PchainTxOps {
  import opened Prelude
  import opened PchainModel

  datatype OpLists = OpLists(ins: seq<Operation>, outs: seq<Operation>, stakeOuts: seq<Operation>,
                             importIns: seq<Operation>, exportOuts: seq<Operation>) {
    function Len(): nat {
      |ins| + |outs| + |stakeOuts|
    }

    function OutputLen(): nat {
      |outs| + |stakeOuts|
    }

    function Included(): seq<Operation> {
      ins + outs + stakeOuts
    }
  }

  const EMPTY: OpLists := OpLists([], [], [], [], [])

  /** Where an operation goes: imports and exports are kept apart, without identifier, outside construction. */
  function Appended(l: OpLists, construction: bool, op: Operation, m: MetaType): OpLists {
    match m
    case MetaImport =>
      if construction then l.(ins := l.ins + [op]) else l.(importIns := l.importIns + [op.(index := None)])
    case MetaExport =>
      if construction then l.(outs := l.outs + [op]) else l.(exportOuts := l.exportOuts + [op.(index := None)])
    case MetaStake => l.(stakeOuts := l.stakeOuts + [op])
    case MetaReward => l.(stakeOuts := l.stakeOuts + [op])
    case MetaOutput => l.(outs := l.outs + [op])
    case MetaInput => l.(ins := l.ins + [op])
    case MetaOther(_) => l
  }

  class TxOps {
    const isConstruction: bool
    var ins: seq<Operation>
    var outs: seq<Operation>
    var stakeOuts: seq<Operation>
    var importIns: seq<Operation>
    var exportOuts: seq<Operation>

    function Contents(): OpLists
      reads this
    {
      OpLists(ins, outs, stakeOuts, importIns, exportOuts)
    }

    constructor (isConstruction: bool)
      ensures this.isConstruction == isConstruction && Contents() == EMPTY
    {
      this.isConstruction := isConstruction;
      ins, outs, stakeOuts, importIns, exportOuts := [], [], [], [], [];
    }

    method IncludedOperations() returns (ops: seq<Operation>)
      ensures ops == Contents().Included()
    {
      ops := [];
      ops := ops + ins;
      ops := ops + outs;
      ops := ops + stakeOuts;
    }

    method Append(op: Operation, metaType: MetaType)
      modifies this
      ensures Contents() == Appended(old(Contents()), isConstruction, op, metaType)
    {
      match metaType {
        case MetaImport =>
          if isConstruction {
            ins := ins + [op];
          } else {
            importIns := importIns + [op.(index := None)];
          }
        case MetaExport =>
          if isConstruction {
            outs := outs + [op];
          } else {
            exportOuts := exportOuts + [op.(index := None)];
          }
        case MetaStake => stakeOuts := stakeOuts + [op];
        case MetaReward => stakeOuts := stakeOuts + [op];
        case MetaOutput => outs := outs + [op];
        case MetaInput => ins := ins + [op];
        case MetaOther(_) =>
      }
    }
  }
}
