/** The machine integers, payloads and list names that every part of the model shares. */
module Types {

  type u8 = x: int | 0 <= x < 0x100
  type u64 = x: int | 0 <= x < TWO_64

  const TWO_64: int := 0x1_0000_0000_0000_0000

  /** `u64::wrapping_add`. */
  function WrappingAdd(a: u64, b: u64): u64 {
    (a + b) % TWO_64
  }

  datatype Option<+T> = None | Some(value: T)

  /** What a channel or a pool carries. No operation of the kernel looks inside it. */
  type Value = int

  /** A 32-bit flag word as the set of its one bits: `|` is union, `&` intersection, and clearing
      the bits of a mask is set difference. */
  type Flag = x: int | 0 <= x < 32
  type Flags = set<Flag>

  /** The uses of `Tcb::wait_ptr`: the address of a value parked on the waiter's frozen stack,
      the address of a receive slot before and after a sender wrote through it, a pool slot
      index, or an event mask. */
  datatype WaitPtr =
    | NoPtr
    | Parked(val: Value)
    | Hole
    | Filled(val: Value)
    | Index(slot: u8)
    | Mask(flags: Flags)

  /** One name for every intrusive wait list of the system: the kind of primitive, and which one. */
  datatype ListId =
    | MutexQ(i: nat)
    | CondQ(i: nat)
    | SemQ(i: nat)
    | OnceQ(i: nat)
    | SendQ(i: nat)
    | RecvQ(i: nat)
    | AnyQ(i: nat)
    | AllQ(i: nat)
    | PoolQ(i: nat)
}
