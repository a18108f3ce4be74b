/** Machine words and the constants of rdma_buffer_pool.h and rdma_utils.h. */
module Base {
  const TWO32: int := 0x1_0000_0000
  const TWO31: int := 0x8000_0000

  /** A C `uint32_t`. */
  type uint32 = x: int | 0 <= x < 0x1_0000_0000

  /** A C `uint8_t`. */
  type byte = x: int | 0 <= x < 256

  datatype Option<T> = None | Some(value: T)

  /** `a + b` and `a - b` on `uint32_t`, which wrap around. */
  function Add32(a: uint32, b: uint32): uint32 {
    (a + b) % TWO32
  }

  function Sub32(a: uint32, b: uint32): uint32 {
    (a - b) % TWO32
  }

  lemma AddExact(a: nat, b: nat)
    requires a + b < TWO32
    ensures Add32(a, b) == a + b
  {
  }

  lemma SubExact(a: uint32, b: uint32)
    requires b <= a
    ensures Sub32(a, b) == a - b
  {
  }

  /** Wrapping counters count modulo 2^32. */
  lemma CountUp(n: nat, k: nat)
    requires k < TWO32
    ensures Add32(n % TWO32, k) == (n + k) % TWO32
  {
  }

  lemma CountDown(n: nat, k: nat)
    requires k <= n && k < TWO32
    ensures Sub32(n % TWO32, k) == (n - k) % TWO32
  {
  }

  // RDMA_CHUNK_SIZE, RDMA_HEADER_SIZE (one uint8_t and five packed uint32_t) and RDMA_BODY_SIZE
  const CHUNK_SIZE: int := 65536
  const HEADER_SIZE: int := 21
  const BODY_SIZE: int := CHUNK_SIZE - HEADER_SIZE

  // RDMA_BUFFER_SIZE, the unit in which the pool grows
  const SLAB_UNIT: int := 4096

  const MAX_CQE: int := 2048
  const MAX_PRE_RECV_QP: int := 1024
  const MAX_EVENT_PER_POLL: int := 128

  /** What `append_rdma_buffer_pool` rounds a request up to, before any wrap-around. */
  function RoundUp(n: nat): nat {
    (n / SLAB_UNIT + if n % SLAB_UNIT == 0 then 0 else 1) * SLAB_UNIT
  }

  /** It is the next multiple of the unit. */
  lemma RoundUpIsNext(n: nat)
    ensures RoundUp(n) % SLAB_UNIT == 0 && n <= RoundUp(n) < n + SLAB_UNIT
  {
  }

  function Min(a: int, b: int): int {
    if a < b then a else b
  }

  function Max(a: int, b: int): int {
    if a < b then b else a
  }
}
