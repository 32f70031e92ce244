/** Small arithmetic shared by several modules. */
module Numbers {

  /** How long a user waits for a work connection, in milliseconds. */
  const WORK_CONN_TIMEOUT: nat := 10_000

  function Min(a: nat, b: nat): nat {
    if a <= b then a else b
  }

  function Max(a: nat, b: nat): nat {
    if a >= b then a else b
  }

  /** The difference of two clock readings, zero when the clock seems to run backwards. */
  function Elapsed(now: nat, since: nat): nat {
    if now >= since then now - since else 0
  }
}
