/** The shared store of the six most recently received values. Its setters check a range
    whose definition is not part of this model; `accepts` stands for it. */
module Storage {
  import opened Messages

  /** One reading of all six fields, as the consumer's getter returns it. */
  datatype Fields = Fields(x: Payload, y: Payload, z: Payload, roll: Payload, pitch: Payload, yaw: Payload) {

    /** The field a message kind is stored in. */
    function Get(k: DataType): Payload {
      match k
      case X => x
      case Y => y
      case Z => z
      case Roll => roll
      case Pitch => pitch
      case Yaw => yaw
    }

    /** The reading after the field for `k` alone is set to `v`. */
    function With(k: DataType, v: Payload): (r: Fields)
      ensures r.Get(k) == v
      ensures forall j :: j != k ==> r.Get(j) == Get(j)
    {
      match k
      case X => this.(x := v)
      case Y => this.(y := v)
      case Z => this.(z := v)
      case Roll => this.(roll := v)
      case Pitch => this.(pitch := v)
      case Yaw => this.(yaw := v)
    }
  }

  class MainStorage {
    var x: Payload
    var y: Payload
    var z: Payload
    var roll: Payload
    var pitch: Payload
    var yaw: Payload
    /** Whether the setter for a field takes a value. */
    const accepts: (DataType, Payload) -> bool

    /** Every field starts at zero. */
    constructor (accepts: (DataType, Payload) -> bool)
      ensures this.accepts == accepts
      ensures Snapshot() == Fields(0.0, 0.0, 0.0, 0.0, 0.0, 0.0)
    {
      this.accepts := accepts;
      x, y, z := 0.0, 0.0, 0.0;
      roll, pitch, yaw := 0.0, 0.0, 0.0;
    }

    /** The consumer's getter: all six fields. */
    function Snapshot(): Fields
      reads this
    {
      Fields(x, y, z, roll, pitch, yaw)
    }

    /** The setter for the field of kind `k`: stores `v` and reports success when the value is
        accepted, otherwise leaves every field as it was and reports failure. */
    method Set(k: DataType, v: Payload) returns (ok: bool)
      modifies this
      ensures ok == accepts(k, v)
      ensures Snapshot() == if ok then old(Snapshot()).With(k, v) else old(Snapshot())
    {
      ok := accepts(k, v);
      if ok {
        match k
        case X => x := v;
        case Y => y := v;
        case Z => z := v;
        case Roll => roll := v;
        case Pitch => pitch := v;
        case Yaw => yaw := v;
      }
    }
  }
}
