/** Small shared vocabulary: optional values, results of operations that can
    throw, the renderer's error cases and C++'s 32-bit unsigned integers. */
module Common {

  datatype Option<+T> = None | Some(value: T)

  /** The value of an operation, or the error it throws. */
  datatype Result<+T, +E> = Success(value: T) | Failure(error: E)

  /** The outcome of an operation that returns nothing but may throw. */
  datatype Outcome<+E> = Pass | Fail(error: E)

  /** The `std::runtime_error`s the modelled code throws. */
  datatype Error =
    | NoPhysicalDevices          // "No vulkan compatible GPU devices found."
    | LogicalDeviceCreationFailed
    | SwapchainCreationFailed
    | InvalidMeshIndex(index: nat)

  const UINT32_LIMIT: int := 0x1_0000_0000
  const UINT32_MAX: int := 0xFFFF_FFFF

  /** `uint32_t` */
  newtype uint32 = x: int | 0 <= x < 0x1_0000_0000

  /** `static_cast<uint32_t>(x)`: the value modulo 2^32. */
  function ToU32(x: int): (r: uint32)
    ensures 0 <= x < UINT32_LIMIT ==> r as int == x
    ensures -UINT32_LIMIT <= x < 0 ==> r as int == x + UINT32_LIMIT
  {
    (x % UINT32_LIMIT) as uint32
  }

  function Min(a: uint32, b: uint32): uint32 { if a <= b then a else b }
  function Max(a: uint32, b: uint32): uint32 { if a <= b then b else a }
}
