/** Minute arithmetic shared by the collector's stages. */
module Minutes {
  const SECONDS_IN_MINUTE: nat := 60

  function Distance(a: nat, b: nat): nat { if a < b then b - a else a - b }

  /** The configured delay of a minute stage, or else the closest one of at least a minute and less than two. */
  function ResetDelaySeconds(delay: nat): (r: nat)
    ensures SECONDS_IN_MINUTE <= r < 2 * SECONDS_IN_MINUTE
    ensures SECONDS_IN_MINUTE <= delay < 2 * SECONDS_IN_MINUTE ==> r == delay
    ensures forall x :: SECONDS_IN_MINUTE <= x < 2 * SECONDS_IN_MINUTE ==> Distance(r, delay) <= Distance(x, delay)
  {
    if SECONDS_IN_MINUTE <= delay < SECONDS_IN_MINUTE * 2 then delay
    else if delay < SECONDS_IN_MINUTE then SECONDS_IN_MINUTE
    else SECONDS_IN_MINUTE * 2 - 1
  }
}
