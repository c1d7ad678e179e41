/** The schemas of the signed messages, with the callback records the signing code registers on
    their nodes. */
module Transaction {
  import opened Words
  import opened Schema
  import opened Encoding

  /** A `size` callback that accepts every size. */
  const NO_LIMIT := U32_SIZE
  /** Room for the components of a derivation path. */
  const PATH_BYTES := 20

  function OutPoint(): Schema {
    Struct(Quiet, [Array(Quiet, 32), Array(Quiet, 4)])
  }

  function PlainCell(): Schema {
    Struct(Quiet, [Array(Quiet, 8), OutPoint()])
  }

  function CellDep(): Schema {
    Struct(Quiet, [OutPoint(), Byte(Quiet)])
  }

  /** The input of an annotated input: `since` and the index are passed to callbacks. */
  function CellInput(): Schema {
    Struct(Quiet, [Array(Since, 8), Struct(Quiet, [Array(Quiet, 32), Array(PrevIndex, 4)])])
  }

  function CellDepVec(t: Tag): Schema { FixVec(t, CellDep(), NO_LIMIT) }

  function Byte32Vec(t: Tag): Schema { FixVec(t, Array(Quiet, 32), NO_LIMIT) }

  function BytesVec(t: Tag, item: Tag): Schema { DynVec(t, Bytes(item)) }

  function Script(t: Tag, hash: Tag, kind: Tag, args: Tag): Schema {
    Table(t, [Array(hash, 32), Byte(kind), Bytes(args)])
  }

  function CellOutput(t: Tag, lock: Tag, args: Tag): Schema {
    Table(t, [Array(Capacity, 8), Script(lock, LockHash, HashType, args),
              Option(Quiet, Script(Quiet, TypeHash, HashType, TypeArgs))])
  }

  /** The transaction whose output an input spends. */
  function SourceTx(): Schema {
    Table(Source, [Array(Quiet, 4), CellDepVec(Quiet), Byte32Vec(Quiet), FixVec(Quiet, PlainCell(), NO_LIMIT),
                   DynVec(SourceOutputs, CellOutput(Quiet, LockScript, LockArgs)), BytesVec(SourceData, InputDatum)])
  }

  function AnnotatedInput(): Schema {
    Table(Input, [CellInput(), SourceTx()])
  }

  function InputVec(): Schema {
    DynVec(Inputs, AnnotatedInput())
  }

  function OutputVec(): Schema {
    DynVec(Outputs, CellOutput(Output, Quiet, LockArgsOut))
  }

  function AnnotatedRaw(): Schema {
    Table(RawTx, [Array(Version, 4), CellDepVec(CellDeps), Byte32Vec(HeaderDeps), InputVec(),
                  OutputVec(), BytesVec(OutputsData, OutputDatum)])
  }

  /** The transaction the network knows: its inputs carry the hash of their source. */
  function RawTransaction(): Schema {
    Table(Quiet, [Array(Version, 4), CellDepVec(CellDeps), Byte32Vec(HeaderDeps), FixVec(Quiet, PlainCell(), NO_LIMIT),
                  OutputVec(), BytesVec(OutputsData, OutputDatum)])
  }

  function Bip32(t: Tag): Schema { FixVec(t, Array(PathComponent, 4), PATH_BYTES) }

  function AnnotatedTx(): Schema {
    Table(Quiet, [Bip32(SignPath), Bip32(ChangePath), Array(InputCount, 4), AnnotatedRaw(), BytesVec(Witnesses, Witness)])
  }

  function WitnessArgs(): Schema {
    Table(WitnessTable, [Option(Quiet, Bytes(WitnessLock)), Option(WitnessInType, Bytes(Quiet)),
                         Option(WitnessOutType, Bytes(Quiet))])
  }
}
