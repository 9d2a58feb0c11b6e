/** The match configuration and the checks made on it (src/asm.rs, `Config`). */
module Configs {

  datatype Config = Config(
    coreSize: nat, maxLength: nat, maxProcesses: nat, maxCycles: nat,
    minDistance: nat, warriors: nat, rounds: nat, firstWarrior: bool)
  {
    /** Which of the source's checks fails first, if any. */
    function Check(n: nat): CheckResult {
      if !(1 <= coreSize <= 65535) then BadCore
      else if !(1 <= maxCycles <= 0xFFFF_FFFF) then BadCycles
      else if !(1 <= maxProcesses <= 0x7FFF_FFFF) then BadProcesses
      else if !(1 <= maxLength <= 1000) then BadLength
      else if !(1 <= minDistance <= 65535) then BadDistance
      else if minDistance < maxLength then DistanceBelowLength
      else if coreSize < n * minDistance then CoreTooSmall
      else Accepted
    }

    /** The core divided by its largest divisor not above 16. */
    function PspaceSize(): (r: nat)
      ensures coreSize >= 1 ==> 1 <= r <= coreSize
    {
      PspaceSizeFrom(16)
    }

    function PspaceSizeFrom(i: nat): (r: nat)
      requires i <= 16
      ensures coreSize >= 1 ==> 1 <= r <= coreSize
    {
      if i == 0 then coreSize
      else if coreSize % i == 0 then
        (if coreSize >= 1 then QuotientPositive(coreSize, i); coreSize / i else coreSize / i)
      else PspaceSizeFrom(i - 1)
    }

    /** Accepted for a match of two warriors, on a core that can hold the
        result 2 of a tie (see `Match.FinishKeepsValidIff`). */
    predicate Playable() {
      Check(2) == Accepted && coreSize >= 3
    }
  }

  datatype CheckResult =
    | Accepted | BadCore | BadCycles | BadProcesses | BadLength | BadDistance
    | DistanceBelowLength | CoreTooSmall

  /** What a configuration for `n` warriors has to keep to, and which of the bounds
      is said to be broken first. */
  lemma CheckReads(c: Config, n: nat)
    ensures c.Check(n) == Accepted <==>
              && 1 <= c.coreSize <= 65535 && 1 <= c.maxCycles <= 4294967295 && 1 <= c.maxProcesses <= 2147483647
              && 1 <= c.maxLength <= 1000 && 1 <= c.minDistance <= 65535
              && c.maxLength <= c.minDistance && n * c.minDistance <= c.coreSize
    ensures c.Check(n) == BadCore <==> c.coreSize < 1 || c.coreSize > 65535
    ensures c.Check(n) == BadCycles ==> c.maxCycles < 1 || c.maxCycles > 4294967295
    ensures c.Check(n) == BadProcesses ==> c.maxProcesses < 1 || c.maxProcesses > 2147483647
    ensures c.Check(n) == BadLength ==> c.maxLength < 1 || c.maxLength > 1000
    ensures c.Check(n) == BadDistance ==> c.minDistance < 1 || c.minDistance > 65535
    ensures c.Check(n) == DistanceBelowLength ==> c.minDistance < c.maxLength && 1 <= c.maxLength <= 1000
    ensures c.Check(n) == CoreTooSmall ==> c.coreSize < n * c.minDistance && c.maxLength <= c.minDistance
  {
  }

  lemma QuotientPositive(n: nat, i: nat)
    requires n >= 1 && i >= 1 && n % i == 0
    ensures 1 <= n / i <= n
  {
    var q := n / i;
    assert n == q * i;
    assert q * i >= q by { assert q * i == q * (i - 1) + q; assert q * (i - 1) >= 0; }
    assert q != 0;
  }

  /** The P-space size divides the core size, by at most 16, and no larger
      divisor up to 16 exists. */
  lemma PspaceSizeDivides(c: Config)
    requires c.coreSize >= 1
    ensures exists i ::
              && 1 <= i <= 16
              && c.PspaceSize() * i == c.coreSize
              && (forall j :: i < j <= 16 ==> c.coreSize % j != 0)
  {
    var i := PspaceDivisor(c, 16);
    assert c.PspaceSize() * i == c.coreSize;
  }

  lemma {:induction false} PspaceDivisor(c: Config, n: nat) returns (i: nat)
    requires c.coreSize >= 1 && 1 <= n <= 16
    requires forall j :: n < j <= 16 ==> c.coreSize % j != 0
    ensures 1 <= i <= n && c.PspaceSizeFrom(n) * i == c.coreSize
    ensures forall j :: i < j <= 16 ==> c.coreSize % j != 0
    decreases n
  {
    if c.coreSize % n == 0 {
      i := n;
    } else {
      assert n > 1;
      i := PspaceDivisor(c, n - 1);
    }
  }
}
