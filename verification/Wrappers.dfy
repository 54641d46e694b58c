/** What more than one of the modules uses. */
module Wrappers {
  datatype Option<+T> = None | Some(value: T)

  /** 1 for true, 0 for false: for sums of facts. */
  function Bit(b: bool): nat { if b then 1 else 0 }

  const ENOENT: int := 2
  const ENOMEM: int := 12
  const ENODEV: int := 19
}
