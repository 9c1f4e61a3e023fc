/** The configuration defaults the core depends on (`Settings` in
    src/config.py) and Python's `value or default` idiom for optional
    settings. */
module Config {
  import opened Wrappers

  const SimilarityThreshold: real := 0.7
  const MaxContextLength: int := 4000
  const ChunkSize: int := 1000
  const ChunkOverlap: int := 200

  /** `value or default` for an optional integer: `None` and `0` are falsy. */
  function IntOr(value: Option<int>, default: int): (r: int)
    ensures value.Some? && value.value != 0 ==> r == value.value
    ensures value.None? || value.value == 0 ==> r == default
  {
    if value.Some? && value.value != 0 then value.value else default
  }

  /** `value or default` for an optional float: `None` and `0.0` are falsy. */
  function RealOr(value: Option<real>, default: real): (r: real)
    ensures value.Some? && value.value != 0.0 ==> r == value.value
    ensures value.None? || value.value == 0.0 ==> r == default
  {
    if value.Some? && value.value != 0.0 then value.value else default
  }
}
