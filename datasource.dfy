/** The value every collector saves and every packet carries. */
module Datasource {
  import opened Common

  /** Swift's `DataType`: a JSON-encodable tree. `Int` and `Int64` are the
      Swift integers (64 bits on every supported device) and hold `int`s
      here; `Float` and `Double` hold the IEEE bit patterns of the Swift
      values, which nothing in the model computes on. */
  datatype DataType =
    | Str(s: string)
    | Int(i: int)
    | Int64(l: int)
    | Float(f: bv32)
    | Double(d: bv64)
    | Array(items: seq<DataType>)
    | Dict(entries: map<string, DataType>)

  /** What a collector hands to `save`: the sequence key and the frame. */
  type Event = (int, DataType)

  /** A JSON encoder: `None` where `JSONEncoder.encode` throws. It is a
      parameter of everything that encodes, so nothing is assumed about the
      text it produces. */
  type Encoder = DataType -> Option<string>
}
