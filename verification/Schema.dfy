/** The Molecule type system, restricted to the shapes the generated readers implement,
    and the callbacks those readers fire. */
module Schema {
  import opened Words

  /** One name per callback record registered by the signing code; `Quiet` stands for a node
      whose parser is handed no callbacks. */
  datatype Tag =
    | Quiet
    | SignPath | ChangePath | PathComponent | InputCount
    | RawTx | Version | CellDeps | HeaderDeps
    | Inputs | Input | Since | PrevIndex | Source | SourceOutputs | SourceData
    | Outputs | Output | OutputsData
    | Capacity | LockScript | LockHash | HashType | LockArgs | LockArgsOut | TypeHash | TypeArgs
    | InputDatum | OutputDatum
    | Witnesses | Witness | WitnessTable | WitnessLock | WitnessInType | WitnessOutType

  /** `limit` on a fixvec is the largest body its `size` callback accepts. */
  datatype Schema =
    | Byte(tag: Tag)
    | Array(tag: Tag, n: nat)
    | Bytes(tag: Tag)
    | Struct(tag: Tag, fields: seq<Schema>)
    | FixVec(tag: Tag, item: Schema, limit: nat)
    | DynVec(tag: Tag, item: Schema)
    | Table(tag: Tag, fields: seq<Schema>)
    | Option(tag: Tag, item: Schema)
  {
    predicate IsLeaf() {
      Byte? || Array?
    }
  }

  /** Number of bytes of a fixed-size type; 0 for the types that have no fixed size. */
  function FixedSize(s: Schema): nat {
    match s
    case Byte(_) => 1
    case Array(_, n) => n
    case Struct(_, fields) => SumSizes(fields)
    case _ => 0
  }

  function SumSizes(fields: seq<Schema>): nat {
    if fields == [] then 0 else FixedSize(fields[0]) + SumSizes(fields[1..])
  }

  /** A call of a registered callback. */
  datatype Event =
    | Start(tag: Tag)
    | End(tag: Tag)
    | Leaf(tag: Tag, bytes: seq<u8>)
    | Body(tag: Tag, bytes: seq<u8>)
    | Chunk(tag: Tag, bytes: seq<u8>)
    | Size(tag: Tag, size: u32)
    | Length(tag: Tag, count: u32)
    | Index(tag: Tag, i: nat)
    | Offsets(tag: Tag, words: seq<u32>)
}
