/** What several parts share: durations, small arithmetic, and choices from and outside a map. */
module Numbers {

  /** One second in the nanoseconds of a Go duration. */
  const NANOS := 1_000_000_000

  function Min(a: int, b: int): int
  {
    if a < b then a else b
  }

  /** Conversion of a float to an integer: toward zero. */
  function Trunc(x: real): int
  {
    if x >= 0.0 then x.Floor else -((-x).Floor)
  }

  /** Some key of the map. */
  ghost function Pick<T>(m: map<nat, T>): (k: nat)
    requires m != map[]
    ensures k in m
  {
    var k :| k in m;
    k
  }

  lemma FreshKey<T>(m: map<nat, T>) returns (k: nat)
    ensures k !in m
  {
    k := 0;
    var rest := m.Keys;
    while k in m
      invariant forall u :: u in m && k <= u ==> u in rest
      decreases |rest|
    {
      rest := rest - {k};
      k := k + 1;
    }
  }
}
