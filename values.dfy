/** Values shared by the whole engine: optional values, task ids, time, attribute values and
    references to externally owned domain objects. */
module Values {

  datatype Option<+T> = None | Some(value: T) {
    /** `x || default` for a value that is nil when absent. */
    function GetOr(default: T): T {
      match this
      case Some(v) => v
      case None => default
    }
  }

  /** Seconds since the epoch, UTC. The engine reads the clock as a `now` parameter. */
  type Time = int

  /** A task id. The source draws a fresh UUID; the model numbers ids with a serial. */
  datatype TaskId = TaskId(serial: nat)

  /** A scalar attribute value, as stored in a task's attribute map. */
  datatype Value = Nil | Bool(b: bool) | Int(i: int) | Str(s: string)

  /** Ruby truthiness: everything except nil and false. */
  predicate Truthy(v: Value) {
    !(v.Nil? || v == Bool(false))
  }

  type Attrs = map<string, Value>

  /** `hash[key]`: nil when the key is absent. */
  function Lookup(attrs: Attrs, key: string): Value {
    if key in attrs then attrs[key] else Nil
  }

  /** The `{id:, type:}` pair that stands for an externally owned domain object. */
  datatype ModelRef = ModelRef(id: string, typeName: string)

  /** What a task keeps under a model name: one model (has_model) or a list (has_models). */
  datatype ModelSlot = One(ref: ModelRef) | Many(refs: seq<ModelRef>)

  type Models = map<string, ModelSlot>
}
