/** Messages exchanged between tasks, and the names the tasks register their queues under. */
module Messages {

  /** A sample value carried by a message. The source uses a 32-bit float; the model never
      computes with it, so any value type does. */
  type Payload = real

  /** The store field a message is meant for. */
  datatype DataType = X | Y | Z | Roll | Pitch | Yaw {
    /** X, Y and Z carry coordinates; Roll, Pitch and Yaw carry angles. */
    predicate IsCoordinate() { this == X || this == Y || this == Z }
  }

  /** A message is copied by value into and out of the queues. */
  datatype Message = Message(data: Payload, kind: DataType)

  datatype Option<T> = None | Some(value: T)

  const TASK10_NAME: string := "Task10"
  const TASK20_NAME: string := "Task20"
  const TASK40_NAME: string := "Task40"
}
