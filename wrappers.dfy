/** Option and Result, as the Rust source uses them. */
module Wrappers {
  datatype Option<T> = None | Some(value: T)
  {
    /** `Option::unwrap_or`. */
    function UnwrapOr(default: T): T
    {
      if Some? then value else default
    }
  }

  datatype Result<T, E> = Ok(value: T) | Err(error: E)
  {
    /** `Result::unwrap_or`. */
    function UnwrapOr(default: T): T
    {
      if Ok? then value else default
    }

    function ToOption(): Option<T>
    {
      if Ok? then Some(value) else None
    }
  }

  function Min(a: nat, b: nat): nat { if a <= b then a else b }
  function Max(a: nat, b: nat): nat { if a >= b then a else b }

  /** `u64::saturating_sub`. */
  function SaturatingSub(a: nat, b: nat): nat { if a >= b then a - b else 0 }
}
