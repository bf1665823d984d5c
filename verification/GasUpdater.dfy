/** The epochs of the L2 gas price updater: which blocks each completed epoch pays for. */
module GasUpdater {
  import opened Common
  import opened GasPricer

  /** What one call of UpdateGasPrice meets: the head of the chain, the gas used by each block, the target and
      the price ratio, each of which may be an error, and whether publishing the new price succeeds. */
  datatype Call = Call(latest: Option<nat>, gasUsed: nat -> Option<nat>, target: real, ratio: Option<Ratio>,
                       published: bool)

  datatype Config = Config(epochLength: nat, floor: nat, maxChange: real)

  datatype State = State(epochStart: nat, price: nat)

  /** A completed epoch: it pays for the blocks after `from` up to and including `to`. */
  datatype Completed = Completed(from: nat, to: nat, total: nat, epoch: Epoch)

  predicate ValidConfig(k: Config) {
    k.epochLength >= 1 && k.floor >= 1 && k.maxChange > 0.0
  }

  // ---- one call ----

  /** The 64-bit sum of the gas of blocks from + 1 to `end`, unless some block cannot be fetched. */
  function Fetched(gasUsed: nat -> Option<nat>, from: nat, end: nat): Option<nat>
    decreases end
  {
    if end <= from then Some(0)
    else
      var before := Fetched(gasUsed, from, end - 1);
      if before.None? || gasUsed(end).None? then None else Some(AddU64(before.value, gasUsed(end).value))
  }

  lemma {:induction false} FetchFails(gasUsed: nat -> Option<nat>, from: nat, i: nat, end: nat)
    requires i <= end && Fetched(gasUsed, from, i).None?
    ensures Fetched(gasUsed, from, end).None?
    decreases end
  {
    if i < end { FetchFails(gasUsed, from, i, end - 1); }
  }

  method TotalGas(gasUsed: nat -> Option<nat>, from: nat, end: nat) returns (total: Option<nat>)
    requires from <= end
    ensures total == Fetched(gasUsed, from, end)
  {
    var sum := 0;
    var i := from + 1;
    while i <= end
      invariant from < i <= end + 1
      invariant Fetched(gasUsed, from, i - 1) == Some(sum)
    {
      var used := gasUsed(i);
      if used.None? {
        FetchFails(gasUsed, from, i, end);
        return None;
      }
      sum := AddU64(sum, used.value);
      i := i + 1;
    }
    return Some(sum);
  }

  function EpochFor(k: Config, total: nat, c: Call): Epoch
    requires ValidConfig(k)
  {
    Epoch(total as real / k.epochLength as real, c.target, c.ratio)
  }

  /** The epoch a call completes, if it completes one. */
  function Closed(k: Config, start: nat, c: Call): Option<Completed>
    requires ValidConfig(k)
  {
    if c.latest.None? || c.latest.value <= start then None
    else
      var total := Fetched(c.gasUsed, start, c.latest.value);
      if total.None? || Fails(EpochFor(k, total.value, c)) then None
      else Some(Completed(start, c.latest.value, total.value, EpochFor(k, total.value, c)))
  }

  function After(k: Config, s: State, c: Call): State
    requires ValidConfig(k)
  {
    var done := Closed(k, s.epochStart, c);
    if done.None? then s
    else State(done.value.to, AfterEpoch(s.price, k.floor, k.maxChange, done.value.epoch))
  }

  class GasPriceUpdater {
    const gasPricer: GasPricer
    var epochStartBlockNumber: nat
    const epochLengthSeconds: nat

    predicate Valid()
      reads this, gasPricer
    {
      gasPricer.Valid() && epochLengthSeconds >= 1
    }

    function Settings(): (k: Config)
      reads this, gasPricer
      requires Valid()
      ensures ValidConfig(k)
    {
      Config(epochLengthSeconds, gasPricer.floorPrice, gasPricer.maxChangePerEpoch)
    }

    function View(): State
      reads this, gasPricer
    {
      State(epochStartBlockNumber, gasPricer.curPrice)
    }

    constructor (gasPricer: GasPricer, epochStart: nat, epochLength: nat)
      requires gasPricer.Valid() && epochLength >= 1
      ensures Valid() && this.gasPricer == gasPricer
      ensures View() == State(epochStart, gasPricer.curPrice)
    {
      this.gasPricer := gasPricer;
      epochStartBlockNumber := epochStart;
      epochLengthSeconds := epochLength;
    }

    /** A call that fails to publish has still completed its epoch. */
    method UpdateGasPrice(c: Call) returns (ok: bool)
      requires Valid()
      modifies this, gasPricer
      ensures Valid() && Settings() == old(Settings())
      ensures View() == After(old(Settings()), old(View()), c)
      ensures ok <==> c.latest == Some(old(epochStartBlockNumber))
                      || (Closed(old(Settings()), old(epochStartBlockNumber), c).Some? && c.published)
    {
      if c.latest.None? { return false; }
      var latestBlockNumber := c.latest.value;
      if latestBlockNumber < epochStartBlockNumber { return false; }
      if latestBlockNumber == epochStartBlockNumber { return true; }
      var totalGasUsed := TotalGas(c.gasUsed, epochStartBlockNumber, latestBlockNumber);
      if totalGasUsed.None? { return false; }
      var averageGasPerSecond := totalGasUsed.value as real / epochLengthSeconds as real;
      var price := gasPricer.CompleteEpoch(Epoch(averageGasPerSecond, c.target, c.ratio));
      if price.None? { return false; }
      epochStartBlockNumber := latestBlockNumber;
      return c.published;
    }
  }

  /** NewGasPriceUpdater checks its configuration first. */
  method NewGasPriceUpdater(gasPricer: GasPricer, epochStart: nat, averageBlockGasLimit: nat, epochLength: nat)
    returns (u: GasPriceUpdater?)
    requires gasPricer.Valid()
    ensures u == null <==> averageBlockGasLimit < 1 || epochLength < 1
    ensures u != null ==> fresh(u) && u.Valid() && u.View() == State(epochStart, gasPricer.curPrice)
  {
    if averageBlockGasLimit < 1 || epochLength < 1 { return null; }
    u := new GasPriceUpdater(gasPricer, epochStart, epochLength);
  }

  // ---- any number of calls ----

  function Exec(k: Config, s: State, calls: seq<Call>): State
    requires ValidConfig(k)
  {
    if calls == [] then s else After(k, Exec(k, s, calls[..|calls| - 1]), calls[|calls| - 1])
  }

  /** The epochs completed by a run, in order. */
  function Log(k: Config, s: State, calls: seq<Call>): seq<Completed>
    requires ValidConfig(k)
  {
    if calls == [] then []
    else
      var front := calls[..|calls| - 1];
      var done := Closed(k, Exec(k, s, front).epochStart, calls[|calls| - 1]);
      if done.None? then Log(k, s, front) else Log(k, s, front) + [done.value]
  }

  /** The epochs follow one another without gap or overlap from `start` to `end`. */
  predicate Tiles(log: seq<Completed>, start: nat, end: nat) {
    if log == [] then start == end
    else
      var last := log[|log| - 1];
      Tiles(log[..|log| - 1], start, last.from) && last.from < last.to == end
  }

  lemma {:induction false} EpochsTile(k: Config, s: State, calls: seq<Call>)
    requires ValidConfig(k)
    ensures Tiles(Log(k, s, calls), s.epochStart, Exec(k, s, calls).epochStart)
  {
    if calls != [] {
      var front, c := calls[..|calls| - 1], calls[|calls| - 1];
      EpochsTile(k, s, front);
      var done := Closed(k, Exec(k, s, front).epochStart, c);
      if done.Some? {
        var log := Log(k, s, front);
        assert (log + [done.value])[..|log|] == log;
      }
    }
  }

  predicate Covers(e: Completed, block: nat) {
    e.from < block <= e.to
  }

  lemma {:induction false} TilesOrdered(log: seq<Completed>, start: nat, end: nat)
    requires Tiles(log, start, end)
    ensures start <= end
    ensures forall i | 0 <= i < |log| :: start <= log[i].from < log[i].to <= end
  {
    if log != [] {
      var n := |log| - 1;
      TilesOrdered(log[..n], start, log[n].from);
      assert forall i | 0 <= i < n :: log[i] == log[..n][i];
    }
  }

  lemma {:induction false} TilesCover(log: seq<Completed>, start: nat, end: nat, block: nat) returns (i: nat)
    requires Tiles(log, start, end) && start < block <= end
    ensures i < |log| && Covers(log[i], block)
  {
    var n := |log| - 1;
    if block > log[n].from {
      i := n;
    } else {
      i := TilesCover(log[..n], start, log[n].from, block);
    }
  }

  lemma {:induction false} TilesDisjoint(log: seq<Completed>, start: nat, end: nat, block: nat, i: nat, j: nat)
    requires Tiles(log, start, end) && i < |log| && j < |log| && Covers(log[i], block) && Covers(log[j], block)
    ensures i == j
  {
    var n := |log| - 1;
    TilesOrdered(log[..n], start, log[n].from);
    assert forall x | 0 <= x < n :: log[x] == log[..n][x];
    if i < n && j < n { TilesDisjoint(log[..n], start, log[n].from, block, i, j); }
  }

  /** The blocks after `start` and up to `end` are each in exactly one epoch, and no other block is in any. */
  predicate CountedOnce(log: seq<Completed>, start: nat, end: nat, block: nat) {
    && (start < block <= end <==> exists i | 0 <= i < |log| :: Covers(log[i], block))
    && forall i, j | 0 <= i < |log| && 0 <= j < |log| && Covers(log[i], block) && Covers(log[j], block) :: i == j
  }

  lemma TilesCountOnce(log: seq<Completed>, start: nat, end: nat, block: nat)
    requires Tiles(log, start, end)
    ensures CountedOnce(log, start, end, block)
  {
    TilesOrdered(log, start, end);
    if start < block <= end {
      var i := TilesCover(log, start, end, block);
    }
    forall i, j | 0 <= i < |log| && 0 <= j < |log| && Covers(log[i], block) && Covers(log[j], block)
      ensures i == j
    {
      TilesDisjoint(log, start, end, block, i, j);
    }
  }

  /** Whatever calls fail, and wherever, every block after the first start and up to the current one is paid for
      by exactly one completed epoch, and no other block by any; the start never moves back. */
  lemma EachBlockCountedOnce(k: Config, s: State, calls: seq<Call>, block: nat)
    requires ValidConfig(k)
    ensures s.epochStart <= Exec(k, s, calls).epochStart
    ensures CountedOnce(Log(k, s, calls), s.epochStart, Exec(k, s, calls).epochStart, block)
  {
    var log, start, end := Log(k, s, calls), s.epochStart, Exec(k, s, calls).epochStart;
    EpochsTile(k, s, calls);
    TilesOrdered(log, start, end);
    TilesCountOnce(log, start, end, block);
  }

  // ---- the gas that is paid for ----

  /** The gas of blocks from + 1 to `end`. */
  function Gas(gasOf: nat -> nat, from: nat, end: nat): nat
    decreases end
  {
    if end <= from then 0 else Gas(gasOf, from, end - 1) + gasOf(end)
  }

  /** Whatever a call is told about a block's gas is what the chain says. */
  ghost predicate Truthful(gasOf: nat -> nat, c: Call) {
    forall b: nat :: c.gasUsed(b).Some? ==> c.gasUsed(b).value == gasOf(b)
  }

  lemma {:induction false} FetchedIsGas(gasOf: nat -> nat, c: Call, from: nat, end: nat)
    requires Truthful(gasOf, c) && Fetched(c.gasUsed, from, end).Some?
    ensures Fetched(c.gasUsed, from, end).value == Gas(gasOf, from, end) % U64_MODULUS
    decreases end
  {
    if from < end { FetchedIsGas(gasOf, c, from, end - 1); }
  }

  lemma {:induction false} GasSplit(gasOf: nat -> nat, from: nat, mid: nat, end: nat)
    requires from <= mid <= end
    ensures Gas(gasOf, from, end) == Gas(gasOf, from, mid) + Gas(gasOf, mid, end)
    decreases end
  {
    if mid < end { GasSplit(gasOf, from, mid, end - 1); }
  }

  /** The gas of every block of every completed epoch. */
  function PaidFor(gasOf: nat -> nat, log: seq<Completed>): nat {
    if log == [] then 0
    else PaidFor(gasOf, log[..|log| - 1]) + Gas(gasOf, log[|log| - 1].from, log[|log| - 1].to)
  }

  lemma {:induction false} TilesPay(gasOf: nat -> nat, log: seq<Completed>, start: nat, end: nat)
    requires Tiles(log, start, end)
    ensures PaidFor(gasOf, log) == Gas(gasOf, start, end)
  {
    if log != [] {
      var n := |log| - 1;
      TilesPay(gasOf, log[..n], start, log[n].from);
      TilesOrdered(log[..n], start, log[n].from);
      GasSplit(gasOf, start, log[n].from, end);
    }
  }

  lemma {:induction false} TotalsAreGas(k: Config, s: State, calls: seq<Call>, gasOf: nat -> nat)
    requires ValidConfig(k) && forall c | c in calls :: Truthful(gasOf, c)
    ensures forall e | e in Log(k, s, calls) :: e.total == Gas(gasOf, e.from, e.to) % U64_MODULUS
  {
    if calls != [] {
      var front, c := calls[..|calls| - 1], calls[|calls| - 1];
      TotalsAreGas(k, s, front, gasOf);
      var done := Closed(k, Exec(k, s, front).epochStart, c);
      if done.Some? { FetchedIsGas(gasOf, c, done.value.from, done.value.to); }
    }
  }

  /** The sum of the totals the completed epochs were priced with. */
  function Totals(log: seq<Completed>): nat {
    if log == [] then 0 else Totals(log[..|log| - 1]) + log[|log| - 1].total
  }

  lemma {:induction false} TotalsSum(gasOf: nat -> nat, log: seq<Completed>)
    requires forall e | e in log :: e.total == Gas(gasOf, e.from, e.to) % U64_MODULUS
    ensures Totals(log) <= PaidFor(gasOf, log)
    ensures Totals(log) == PaidFor(gasOf, log) <==> forall e | e in log :: Gas(gasOf, e.from, e.to) < U64_MODULUS
  {
    if log != [] {
      var front, last := log[..|log| - 1], log[|log| - 1];
      TotalsSum(gasOf, front);
      assert forall e | e in log :: e in front || e == last;
      assert forall e | e in front :: e in log;
      ModAtMost(Gas(gasOf, last.from, last.to));
    }
  }

  lemma ModAtMost(x: nat)
    ensures x % U64_MODULUS <= x && (x % U64_MODULUS == x <==> x < U64_MODULUS)
  {
  }

  /** Over any run of calls with a truthful chain, the totals the epochs were priced with add up to the gas of
      exactly the blocks after the first start and up to the current one, if and only if no single epoch's gas
      wraps around 64 bits. */
  lemma GasConserved(k: Config, s: State, calls: seq<Call>, gasOf: nat -> nat)
    requires ValidConfig(k) && forall c | c in calls :: Truthful(gasOf, c)
    ensures var end := Exec(k, s, calls).epochStart;
            Totals(Log(k, s, calls)) == Gas(gasOf, s.epochStart, end)
            <==> forall e | e in Log(k, s, calls) :: Gas(gasOf, e.from, e.to) < U64_MODULUS
  {
    var log := Log(k, s, calls);
    EpochsTile(k, s, calls);
    TilesPay(gasOf, log, s.epochStart, Exec(k, s, calls).epochStart);
    TotalsAreGas(k, s, calls, gasOf);
    TotalsSum(gasOf, log);
  }

  /** One call that closes an epoch of two blocks, each with half the range of uint64 in gas. */
  const HEAVY := Call(Some(2), (b: nat) => Some(U64_MODULUS / 2), 1.0, Some(1.0), true)

  /** The epoch is priced as if it had used nothing. */
  lemma GasCanWrap()
    ensures var k, s := Config(1, 1, 1.0), State(0, 1);
            var gasOf := (b: nat) => U64_MODULUS / 2;
            && Truthful(gasOf, HEAVY)
            && Exec(k, s, [HEAVY]).epochStart == 2
            && Totals(Log(k, s, [HEAVY])) == 0 && Gas(gasOf, 0, 2) == U64_MODULUS
  {
    var k, s := Config(1, 1, 1.0), State(0, 1);
    var gasOf := (b: nat) => U64_MODULUS / 2;
    assert Gas(gasOf, 0, 1) == U64_MODULUS / 2 && Gas(gasOf, 0, 2) == U64_MODULUS;
    assert Fetched(HEAVY.gasUsed, 0, 1) == Some(U64_MODULUS / 2);
    assert Fetched(HEAVY.gasUsed, 0, 2) == Some(0);
    assert [HEAVY][..0] == [];
    assert Closed(k, 0, HEAVY) == Some(Completed(0, 2, 0, EpochFor(k, 0, HEAVY)));
    assert Log(k, s, [HEAVY]) == [Completed(0, 2, 0, EpochFor(k, 0, HEAVY))];
    assert [Completed(0, 2, 0, EpochFor(k, 0, HEAVY))][..0] == [];
  }

  // ---- the price ----

  function Epochs(log: seq<Completed>): seq<Epoch> {
    seq(|log|, i requires 0 <= i < |log| => log[i].epoch)
  }

  /** The price after any calls is that of the pricer run over the completed epochs alone: a failed call neither
      moves the price nor shifts a later epoch. */
  lemma {:induction false} PriceIsThatOfTheEpochs(k: Config, s: State, calls: seq<Call>)
    requires ValidConfig(k)
    ensures Exec(k, s, calls).price == Run(s.price, k.floor, k.maxChange, Epochs(Log(k, s, calls)))
    ensures Successes(Epochs(Log(k, s, calls))) == |Log(k, s, calls)|
  {
    if calls != [] {
      var front, c := calls[..|calls| - 1], calls[|calls| - 1];
      PriceIsThatOfTheEpochs(k, s, front);
      var done := Closed(k, Exec(k, s, front).epochStart, c);
      if done.Some? {
        var log := Log(k, s, front);
        assert Epochs(log + [done.value]) == Epochs(log) + [done.value.epoch];
        var es := Epochs(log) + [done.value.epoch];
        assert es[..|es| - 1] == Epochs(log);
      }
    }
  }

  /** So the growth bound of the pricer is one on the updater, in the number of completed epochs. */
  lemma PriceGrowth(k: Config, s: State, calls: seq<Call>)
    requires ValidConfig(k) && k.floor <= s.price
    requires forall c | c in calls :: c.ratio.Some? ==> c.ratio.value == 1.0
    ensures Exec(k, s, calls).price >= k.floor
    ensures Exec(k, s, calls).price as real <= Ceiling(s.price as real, k.maxChange, |Log(k, s, calls)|)
  {
    var es := Epochs(Log(k, s, calls));
    PriceIsThatOfTheEpochs(k, s, calls);
    RatiosAreOne(k, s, calls);
    FloorHolds(s.price, k.floor, k.maxChange, es);
    GrowthBound(s.price, k.floor, k.maxChange, es);
  }

  lemma {:induction false} RatiosAreOne(k: Config, s: State, calls: seq<Call>)
    requires ValidConfig(k) && forall c | c in calls :: c.ratio.Some? ==> c.ratio.value == 1.0
    ensures forall e | e in Log(k, s, calls) :: RatioOne(e.epoch)
  {
    if calls != [] { RatiosAreOne(k, s, calls[..|calls| - 1]); }
  }
}
