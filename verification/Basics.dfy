/** Small definitions shared by the models. */
module Basics {

  /** Capacity of a worker's local queue, and how much a batch grab takes. */
  const LOCAL_CAPACITY: nat := 256
  const BATCH: nat := LOCAL_CAPACITY / 2

  const EAGAIN: int := 11

  datatype Option<T> = None | Some(value: T)

  type Byte = x: int | 0 <= x < 256

  function Least(a: nat, b: nat): nat { if a < b then a else b }

  /** One if b holds, for counting. */
  function One(b: bool): nat { if b then 1 else 0 }
}
