/** The cap table of an opportunity: its total, and its rounded percentages. */
module CapTable {
  import opened Counting
  import opened Rows
  import opened Ledger
  import opened Platform
  import opened PlatformInvariants

  /** A share in hundredths of a percent, rounded half up. */
  function Share(units: nat, total: nat): nat {
    if total > 0 then (2 * 10_000 * units + total) / (2 * total) else 0
  }

  function Total(units: seq<nat>): nat {
    if units == [] then 0 else units[0] + Total(units[1..])
  }

  function Shares(units: seq<nat>, total: nat): seq<nat> {
    if units == [] then [] else [Share(units[0], total)] + Shares(units[1..], total)
  }

  // ---- arithmetic ----

  /** A share is within half a hundredth of the exact one. */
  lemma ShareRounds(units: nat, total: nat)
    requires total > 0
    ensures 20_000 * units - total <= 2 * total * Share(units, total) <= 20_000 * units + total
  {
  }

  lemma AddBounds(total: nat, a: nat, b: nat, u: nat, v: nat, n: nat)
    requires 20_000 * u - total <= 2 * total * a <= 20_000 * u + total
    requires 20_000 * v - n * total <= 2 * total * b <= 20_000 * v + n * total
    ensures 20_000 * (u + v) - (n + 1) * total <= 2 * total * (a + b) <= 20_000 * (u + v) + (n + 1) * total
  {
  }

  lemma {:induction false} SharesRound(units: seq<nat>, total: nat)
    requires total > 0
    ensures 20_000 * Total(units) - |units| * total
      <= 2 * total * Total(Shares(units, total))
      <= 20_000 * Total(units) + |units| * total
  {
    if units != [] {
      SharesRound(units[1..], total);
      ShareRounds(units[0], total);
      var rest := Shares(units[1..], total);
      assert Shares(units, total)[1..] == rest;
      AddBounds(total, Share(units[0], total), Total(rest), units[0], Total(units[1..]), |units[1..]|);
    }
  }

  lemma MulGrows(d: nat, p: int, q: int)
    requires p > q
    ensures d * p >= d * q + d
  {
    var k := p - q - 1;
    assert d * p == d * (q + 1 + k) == d * q + d + d * k;
  }

  lemma Cancel(d: nat, p: int, q: int)
    requires d > 0 && d * p <= d * q
    ensures p <= q
  {
    if p > q { MulGrows(d, p, q); }
  }

  /** The shares of n holders sum to within n/2 hundredths of a percent of one hundred percent. */
  lemma SharesSumToWhole(units: seq<nat>)
    requires Total(units) > 0
    ensures 20_000 - |units| <= 2 * Total(Shares(units, Total(units))) <= 20_000 + |units|
  {
    SharesRound(units, Total(units));
    Unscale(Total(units), Total(Shares(units, Total(units))), |units|);
  }

  lemma Unscale(total: nat, sum: nat, n: nat)
    requires total > 0
    requires 20_000 * total - n * total <= 2 * total * sum <= 20_000 * total + n * total
    ensures 20_000 - n <= 2 * sum <= 20_000 + n
  {
    assert 2 * total * sum == total * (2 * sum);
    assert total * (20_000 + n) == 20_000 * total + n * total;
    assert total * (20_000 - n) == 20_000 * total - n * total;
    Cancel(total, 2 * sum, 20_000 + n);
    Cancel(total, 20_000 - n, 2 * sum);
  }

  lemma ShareMonotone(a: nat, b: nat, total: nat)
    requires a <= b
    ensures Share(a, total) <= Share(b, total)
  {
    if total > 0 {
      var x, y, d := 20_000 * a + total, 20_000 * b + total, 2 * total;
      assert x == d * (x / d) + x % d && y == d * (y / d) + y % d;
      if x / d > y / d { MulGrows(d, x / d, y / d); }
    }
  }

  lemma {:induction false} SharesAt(units: seq<nat>, total: nat, i: nat)
    requires i < |units|
    ensures |Shares(units, total)| == |units| && Shares(units, total)[i] == Share(units[i], total)
  {
    if i > 0 {
      SharesAt(units[1..], total, i - 1);
    } else if |units| > 1 {
      SharesAt(units[1..], total, 0);
    }
  }

  // ---- the table ----

  predicate Listed(h: Holding, opp: OppId) {
    h.opp == opp && h.units > 0
  }

  function RowsOf(holdings: seq<Holding>, opp: OppId): seq<Holding> {
    if holdings == [] then []
    else (if Listed(holdings[0], opp) then [holdings[0]] else []) + RowsOf(holdings[1..], opp)
  }

  /** A listing of an opportunity: its rows with units, in order of falling units. */
  ghost predicate IsListing(rows: seq<Holding>, holdings: seq<Holding>, opp: OppId) {
    && multiset(rows) == multiset(RowsOf(holdings, opp))
    && forall i, j | 0 <= i < j < |rows| :: rows[i].units >= rows[j].units
  }

  function Units(): Holding -> int {
    (h: Holding) => h.units
  }

  lemma {:induction false} RowsHoldEverything(holdings: seq<Holding>, opp: OppId)
    requires forall h | h in holdings :: h.units >= 0
    ensures Sum(RowsOf(holdings, opp), Units()) == Outstanding(holdings, opp)
    ensures forall h | h in RowsOf(holdings, opp) :: Listed(h, opp)
  {
    if holdings != [] {
      RowsHoldEverything(holdings[1..], opp);
      var first := if Listed(holdings[0], opp) then [holdings[0]] else [];
      SumAppend(first, RowsOf(holdings[1..], opp), Units());
      assert Sum(first, Units()) == UnitsIn(opp)(holdings[0]) by {
        if first != [] { assert first[1..] == []; }
      }
    }
  }

  function Without(t: seq<Holding>, i: nat): seq<Holding>
    requires i < |t|
  {
    t[..i] + t[i + 1..]
  }

  lemma WithoutOne(t: seq<Holding>, i: nat)
    requires i < |t|
    ensures multiset(Without(t, i)) == multiset(t) - multiset{t[i]}
    ensures Sum(t, Units()) == Sum(Without(t, i), Units()) + t[i].units
  {
    assert t == t[..i] + [t[i]] + t[i + 1..];
    SumAppend(t[..i] + [t[i]], t[i + 1..], Units());
    SumSnoc(t[..i], t[i], Units());
    SumAppend(t[..i], t[i + 1..], Units());
  }

  lemma {:induction false} SumOfMultiset(s: seq<Holding>, t: seq<Holding>)
    requires multiset(s) == multiset(t)
    ensures Sum(s, Units()) == Sum(t, Units())
  {
    if s == [] {
      assert |multiset(t)| == 0;
    } else {
      assert s[0] in multiset(t);
      var i :| 0 <= i < |t| && t[i] == s[0];
      WithoutOne(s, 0);
      WithoutOne(t, i);
      SumOfMultiset(Without(s, 0), Without(t, i));
    }
  }

  function RowUnits(rows: seq<Holding>): seq<nat>
    requires forall h | h in rows :: h.units >= 0
  {
    seq(|rows|, i requires 0 <= i < |rows| => rows[i].units)
  }

  lemma {:induction false} TotalIsSum(rows: seq<Holding>)
    requires forall h | h in rows :: h.units >= 0
    ensures Total(RowUnits(rows)) == Sum(rows, Units())
  {
    if rows != [] {
      assert RowUnits(rows)[1..] == RowUnits(rows[1..]);
      TotalIsSum(rows[1..]);
    }
  }

  datatype Table = Table(totalUnits: nat, holders: nat, shares: seq<nat>)

  /** The table built from a listing: a reduce for the total, a map for the shares. */
  function CapTable(rows: seq<Holding>): Table
    requires forall h | h in rows :: h.units >= 0
  {
    var units := RowUnits(rows);
    Table(Total(units), |rows|, Shares(units, Total(units)))
  }

  lemma ListingHolds(run: seq<Command>, opp: OppId, rows: seq<Holding>)
    requires IsListing(rows, After(run).holdings, opp)
    ensures forall h | h in rows :: h.units > 0
    ensures Sum(rows, Units()) == Issued(After(run).registry, opp)
  {
    var w := After(run);
    assert UnitsOk(w) && Outstanding(w.holdings, opp) == Issued(w.registry, opp) by { InvAfter(run); }
    forall h | h in w.holdings ensures h.units >= 0 {
      var i :| 0 <= i < |w.holdings| && w.holdings[i] == h;
    }
    RowsHoldEverything(w.holdings, opp);
    SumOfMultiset(rows, RowsOf(w.holdings, opp));
    forall h | h in rows ensures h.units > 0 {
      assert h in multiset(rows);
      assert h in RowsOf(w.holdings, opp);
    }
  }

  /** In every reachable state, the table of any listing of an opportunity has what was issued
      as its total, shares that do not increase down the list, and a sum of shares within n/2
      hundredths of a percent of one hundred percent. */
  lemma CapTableSound(run: seq<Command>, opp: OppId, rows: seq<Holding>)
    requires IsListing(rows, After(run).holdings, opp)
    ensures forall h | h in rows :: h.units > 0
    ensures var t := CapTable(rows);
      && t.totalUnits == Issued(After(run).registry, opp)
      && |t.shares| == t.holders == |rows|
      && (forall i, j | 0 <= i < j < |t.shares| :: t.shares[i] >= t.shares[j])
      && (rows != [] ==> 20_000 - t.holders <= 2 * Total(t.shares) <= 20_000 + t.holders)
  {
    ListingHolds(run, opp, rows);
    TotalIsSum(rows);
    var units := RowUnits(rows);
    var total := Total(units);
    if rows != [] { SharesAt(units, total, 0); }
    forall i, j | 0 <= i < j < |Shares(units, total)| ensures Shares(units, total)[i] >= Shares(units, total)[j] {
      SharesAt(units, total, i);
      SharesAt(units, total, j);
      ShareMonotone(units[j], units[i], total);
    }
    if rows != [] {
      assert units[0] > 0 by { assert rows[0] in rows; }
      SharesSumToWhole(units);
    }
  }
}
