/** The purchase proposal (app/foreign_trade/catalog.py): lines are taken in order of urgency, each as large as the
    remaining budget and container volume allow, in whole cartons.

    Amounts are exact rationals and a carton holds a whole number of units. */
module Purchase {
  const HARD_PO_MAX_USD := 70000.0

  datatype Row = Row(recommended: nat, unitFob: real, unitCbm: real, multiple: nat)

  /** Rows without a price, a volume or a recommendation are dropped before the selection. */
  predicate Candidate(row: Row) { row.unitFob > 0.0 && row.unitCbm > 0.0 && row.multiple >= 1 && row.recommended > 0 }

  predicate Candidates(rows: seq<Row>) { forall i :: 0 <= i < |rows| ==> Candidate(rows[i]) }

  // ---------- whole cartons ----------

  function FloorMultiple(quantity: nat, multiple: nat): nat {
    if multiple <= 1 then quantity else quantity / multiple * multiple
  }

  function CeilMultiple(quantity: nat, multiple: nat): nat {
    if multiple <= 1 then quantity else (quantity + multiple - 1) / multiple * multiple
  }

  ghost predicate IsMultiple(units: nat, multiple: nat) { exists cartons: nat :: units == cartons * multiple }

  /** The largest number of whole cartons up to the quantity. */
  lemma FloorIsGreatest(quantity: nat, multiple: nat)
    requires multiple >= 1
    ensures IsMultiple(FloorMultiple(quantity, multiple), multiple)
    ensures FloorMultiple(quantity, multiple) <= quantity < FloorMultiple(quantity, multiple) + multiple
  {
    if multiple <= 1 { assert quantity == quantity * multiple; } else { assert quantity / multiple * multiple == quantity - quantity % multiple; }
  }

  /** The smallest number of whole cartons from the quantity on. */
  lemma CeilIsLeast(quantity: nat, multiple: nat)
    requires multiple >= 1
    ensures IsMultiple(CeilMultiple(quantity, multiple), multiple)
    ensures quantity <= CeilMultiple(quantity, multiple) < quantity + multiple
  {
    if multiple <= 1 { assert quantity == quantity * multiple; } else { FloorIsGreatest(quantity + multiple - 1, multiple); }
  }

  // ---------- one line ----------

  function Amount(units: nat, price: real): real { units as real * price }

  lemma AmountIsPositive(units: nat, price: real)
    requires price > 0.0
    ensures Amount(units, price) >= 0.0 && (units > 0 <==> Amount(units, price) > 0.0)
  {
  }

  lemma AmountAdds(a: nat, b: nat, price: real)
    ensures Amount(a + b, price) == Amount(a, price) + Amount(b, price)
  {
  }

  /** The whole units that an amount pays for. */
  function Affordable(amount: real, price: real): nat
    requires amount >= 0.0 && price > 0.0
  {
    QuotientIsPositive(amount, price);
    (amount / price).Floor
  }

  lemma QuotientIsPositive(amount: real, price: real)
    requires amount >= 0.0 && price > 0.0
    ensures amount / price >= 0.0
  {
  }

  lemma AffordableMeans(amount: real, price: real, units: nat)
    requires amount >= 0.0 && price > 0.0
    ensures units <= Affordable(amount, price) <==> Amount(units, price) <= amount
  {
    var q := amount / price;
    assert q * price == amount;
    if units as real <= q {
      assert (q - units as real) * price >= 0.0;
    } else {
      assert (units as real - q) * price > 0.0;
    }
  }

  function Least(a: nat, b: nat): nat { if a < b then a else b }

  function Units(row: Row, budget: real, volume: real): nat
    requires Candidate(row) && budget >= 0.0 && volume >= 0.0
  {
    FloorMultiple(Least(row.recommended, Least(Affordable(budget, row.unitFob), Affordable(volume, row.unitCbm))), row.multiple)
  }

  predicate CanAdd(row: Row, units: nat, budget: real, volume: real) {
    units <= row.recommended && Amount(units, row.unitFob) <= budget && Amount(units, row.unitCbm) <= volume
  }

  /** What a line takes is whole cartons within its recommendation, the budget and the volume; one more is not. */
  lemma UnitsAreMost(row: Row, budget: real, volume: real)
    requires Candidate(row) && budget >= 0.0 && volume >= 0.0
    ensures var units := Units(row, budget, volume);
      IsMultiple(units, row.multiple) && CanAdd(row, units, budget, volume) && !CanAdd(row, units + row.multiple, budget, volume)
  {
    hide Amount, Affordable, FloorMultiple;
    var units := Units(row, budget, volume);
    var most := Least(row.recommended, Least(Affordable(budget, row.unitFob), Affordable(volume, row.unitCbm)));
    FloorIsGreatest(most, row.multiple);
    AffordableMeans(budget, row.unitFob, units);
    AffordableMeans(volume, row.unitCbm, units);
    AffordableMeans(budget, row.unitFob, units + row.multiple);
    AffordableMeans(volume, row.unitCbm, units + row.multiple);
  }

  // ---------- the selection ----------

  /** The units taken of each row; after the budget or the volume is used up, none. */
  function Picks(rows: seq<Row>, budget: real, volume: real): seq<nat>
    requires Candidates(rows) && budget >= 0.0 && volume >= 0.0
    ensures |Picks(rows, budget, volume)| == |rows|
    decreases |rows|
  {
    if |rows| == 0 then []
    else
      var units := Units(rows[0], budget, volume);
      UnitsAreMost(rows[0], budget, volume);
      [units] + Picks(rows[1..], budget - Amount(units, rows[0].unitFob), volume - Amount(units, rows[0].unitCbm))
  }

  function Cost(rows: seq<Row>, picks: seq<nat>): real
    requires |picks| == |rows|
  {
    if |rows| == 0 then 0.0 else Amount(picks[0], rows[0].unitFob) + Cost(rows[1..], picks[1..])
  }

  function Volume(rows: seq<Row>, picks: seq<nat>): real
    requires |picks| == |rows|
  {
    if |rows| == 0 then 0.0 else Amount(picks[0], rows[0].unitCbm) + Volume(rows[1..], picks[1..])
  }

  datatype Line = Line(row: Row, units: nat)

  function Lines(rows: seq<Row>, picks: seq<nat>): seq<Line>
    requires |picks| == |rows|
  {
    if |rows| == 0 then []
    else (if picks[0] > 0 then [Line(rows[0], picks[0])] else []) + Lines(rows[1..], picks[1..])
  }

  /** With nothing left, nothing is taken. */
  lemma {:induction false} PicksNothing(rows: seq<Row>, budget: real, volume: real)
    requires Candidates(rows) && budget >= 0.0 && volume >= 0.0 && (budget == 0.0 || volume == 0.0)
    ensures Lines(rows, Picks(rows, budget, volume)) == []
    ensures Cost(rows, Picks(rows, budget, volume)) == 0.0 && Volume(rows, Picks(rows, budget, volume)) == 0.0
    decreases |rows|
  {
    hide Amount, Units;
    if |rows| > 0 {
      var row := rows[0];
      var units := Units(row, budget, volume);
      UnitsAreMost(row, budget, volume);
      AmountIsPositive(units, row.unitFob);
      AmountIsPositive(units, row.unitCbm);
      PicksNothing(rows[1..], budget, volume);
    }
  }

  method SelectLines(rows: seq<Row>, capacity: real) returns (selected: seq<Line>, remainingBudget: real, remainingCbm: real)
    requires Candidates(rows) && capacity >= 1.0
    ensures selected == Lines(rows, Picks(rows, HARD_PO_MAX_USD, capacity))
    ensures remainingBudget == HARD_PO_MAX_USD - Cost(rows, Picks(rows, HARD_PO_MAX_USD, capacity))
    ensures remainingCbm == capacity - Volume(rows, Picks(rows, HARD_PO_MAX_USD, capacity))
  {
    hide Units, Affordable, Amount, Picks, Cost, Volume, Lines;
    selected, remainingBudget, remainingCbm := [], HARD_PO_MAX_USD, capacity;
    ghost var picks := Picks(rows, HARD_PO_MAX_USD, capacity);
    assert rows[0..] == rows && picks[0..] == picks;
    for n := 0 to |rows|
      invariant remainingBudget > 0.0 && remainingCbm > 0.0
      invariant picks[n..] == Picks(rows[n..], remainingBudget, remainingCbm)
      invariant selected + Lines(rows[n..], picks[n..]) == Lines(rows, picks)
      invariant HARD_PO_MAX_USD - remainingBudget + Cost(rows[n..], picks[n..]) == Cost(rows, picks)
      invariant capacity - remainingCbm + Volume(rows[n..], picks[n..]) == Volume(rows, picks)
    {
      var row := rows[n];
      var units := Units(row, remainingBudget, remainingCbm);
      UnitsAreMost(row, remainingBudget, remainingCbm);
      NextRow(rows, picks, n, remainingBudget, remainingCbm);
      if units <= 0 {
        continue;
      }
      selected := selected + [Line(row, units)];
      remainingBudget := remainingBudget - Amount(units, row.unitFob);
      remainingCbm := remainingCbm - Amount(units, row.unitCbm);
      if remainingBudget <= 0.0 || remainingCbm <= 0.0 {
        PicksNothing(rows[n + 1..], remainingBudget, remainingCbm);
        return;
      }
    }
    NoRows(rows[|rows|..], picks[|rows|..]);
  }

  lemma NoRows(rows: seq<Row>, picks: seq<nat>)
    requires rows == [] && picks == []
    ensures Lines(rows, picks) == [] && Cost(rows, picks) == 0.0 && Volume(rows, picks) == 0.0
  {
  }

  /** The parts of the sums that row n contributes. */
  lemma NextRow(rows: seq<Row>, picks: seq<nat>, n: nat, budget: real, volume: real)
    requires Candidates(rows) && |picks| == |rows| && n < |rows| && budget >= 0.0 && volume >= 0.0
    requires picks[n..] == Picks(rows[n..], budget, volume)
    ensures var units := Units(rows[n], budget, volume);
      && CanAdd(rows[n], units, budget, volume)
      && picks[n + 1..] == Picks(rows[n + 1..], budget - Amount(units, rows[n].unitFob), volume - Amount(units, rows[n].unitCbm))
      && Lines(rows[n..], picks[n..]) == (if units > 0 then [Line(rows[n], units)] else []) + Lines(rows[n + 1..], picks[n + 1..])
      && Cost(rows[n..], picks[n..]) == Amount(units, rows[n].unitFob) + Cost(rows[n + 1..], picks[n + 1..])
      && Volume(rows[n..], picks[n..]) == Amount(units, rows[n].unitCbm) + Volume(rows[n + 1..], picks[n + 1..])
      && (units == 0 ==> Amount(units, rows[n].unitFob) == 0.0 && Amount(units, rows[n].unitCbm) == 0.0)
  {
    hide Amount, Units;
    UnitsAreMost(rows[n], budget, volume);
    var units := Units(rows[n], budget, volume);
    AmountIsPositive(units, rows[n].unitFob);
    AmountIsPositive(units, rows[n].unitCbm);
    assert rows[n..][0] == rows[n] && rows[n..][1..] == rows[n + 1..] && picks[n..][1..] == picks[n + 1..];
  }

  // ---------- what the proposal is ----------

  /** The proposal stays within the budget and the volume, in whole cartons and within each recommendation, and at
      the end no row, taken or not, can grow by one carton within what is left. */
  lemma {:induction false} PicksAreMaximal(rows: seq<Row>, budget: real, volume: real)
    requires Candidates(rows) && budget >= 0.0 && volume >= 0.0
    ensures var picks := Picks(rows, budget, volume);
      && Cost(rows, picks) <= budget && Volume(rows, picks) <= volume
      && forall i :: 0 <= i < |rows| ==>
           && IsMultiple(picks[i], rows[i].multiple) && picks[i] <= rows[i].recommended
           && !(picks[i] + rows[i].multiple <= rows[i].recommended
                && Amount(rows[i].multiple, rows[i].unitFob) <= budget - Cost(rows, picks)
                && Amount(rows[i].multiple, rows[i].unitCbm) <= volume - Volume(rows, picks))
    decreases |rows|
  {
    hide Amount, Units;
    if |rows| > 0 {
      var row := rows[0];
      var units := Units(row, budget, volume);
      UnitsAreMost(row, budget, volume);
      CanAddMeans(row, units, budget, volume);
      hide CanAdd;
      CannotGrow(row, units, budget, volume);
      var b, v := budget - Amount(units, row.unitFob), volume - Amount(units, row.unitCbm);
      PicksAreMaximal(rows[1..], b, v);
      var picks := Picks(rows, budget, volume);
      assert picks[1..] == Picks(rows[1..], b, v);
      Spent(rows[1..], b, v);
      forall i | 1 <= i < |rows| ensures picks[i] == picks[1..][i - 1] && rows[i] == rows[1..][i - 1] {}
    }
  }

  lemma CanAddMeans(row: Row, units: nat, budget: real, volume: real)
    requires CanAdd(row, units, budget, volume)
    ensures units <= row.recommended && Amount(units, row.unitFob) <= budget && Amount(units, row.unitCbm) <= volume
  {
  }

  lemma CannotGrow(row: Row, units: nat, budget: real, volume: real)
    requires !CanAdd(row, units + row.multiple, budget, volume)
    ensures !(units + row.multiple <= row.recommended && Amount(row.multiple, row.unitFob) <= budget - Amount(units, row.unitFob)
              && Amount(row.multiple, row.unitCbm) <= volume - Amount(units, row.unitCbm))
  {
    hide Amount;
    AmountAdds(units, row.multiple, row.unitFob);
    AmountAdds(units, row.multiple, row.unitCbm);
  }

  lemma {:induction false} Spent(rows: seq<Row>, budget: real, volume: real)
    requires Candidates(rows) && budget >= 0.0 && volume >= 0.0
    ensures Cost(rows, Picks(rows, budget, volume)) >= 0.0 && Volume(rows, Picks(rows, budget, volume)) >= 0.0
    decreases |rows|
  {
    hide Amount, Units;
    if |rows| > 0 {
      var units := Units(rows[0], budget, volume);
      UnitsAreMost(rows[0], budget, volume);
      AmountIsPositive(units, rows[0].unitFob);
      AmountIsPositive(units, rows[0].unitCbm);
      Spent(rows[1..], budget - Amount(units, rows[0].unitFob), volume - Amount(units, rows[0].unitCbm));
    }
  }

  /** The proposal costs at most USD 70 000 FOB, fits the container, and cannot be extended by a carton. */
  lemma ProposalIsMaximal(rows: seq<Row>, capacity: real)
    requires Candidates(rows) && capacity >= 1.0
    ensures var picks := Picks(rows, 70000.0, capacity);
      && Cost(rows, picks) <= 70000.0 && Volume(rows, picks) <= capacity
      && forall i :: 0 <= i < |rows| ==>
           IsMultiple(picks[i], rows[i].multiple) && picks[i] <= rows[i].recommended
           && !(picks[i] + rows[i].multiple <= rows[i].recommended
                && Amount(rows[i].multiple, rows[i].unitFob) <= 70000.0 - Cost(rows, picks)
                && Amount(rows[i].multiple, rows[i].unitCbm) <= capacity - Volume(rows, picks))
  {
    PicksAreMaximal(rows, 70000.0, capacity);
  }

  lemma {:induction false} SumsSplit(rows: seq<Row>, picks: seq<nat>, i: nat)
    requires |picks| == |rows| && i < |rows|
    ensures Cost(rows[..i + 1], picks[..i + 1]) == Amount(picks[0], rows[0].unitFob) + Cost(rows[1..][..i], picks[1..][..i])
    ensures Volume(rows[..i + 1], picks[..i + 1]) == Amount(picks[0], rows[0].unitCbm) + Volume(rows[1..][..i], picks[1..][..i])
  {
    assert rows[..i + 1][1..] == rows[1..][..i] && picks[..i + 1][1..] == picks[1..][..i];
  }

  /** Earlier rows are served first: each row takes as many whole cartons as its recommendation and what the rows before it
      have left allow, whatever comes after it. */
  lemma {:induction false} EarlierRowsFirst(rows: seq<Row>, budget: real, volume: real, i: nat)
    requires Candidates(rows) && budget >= 0.0 && volume >= 0.0 && i < |rows|
    ensures var picks := Picks(rows, budget, volume);
      var b, v := budget - Cost(rows[..i], picks[..i]), volume - Volume(rows[..i], picks[..i]);
      && IsMultiple(picks[i], rows[i].multiple) && picks[i] <= rows[i].recommended
      && Amount(picks[i], rows[i].unitFob) <= b && Amount(picks[i], rows[i].unitCbm) <= v
      && var more := picks[i] + rows[i].multiple;
         more > rows[i].recommended || Amount(more, rows[i].unitFob) > b || Amount(more, rows[i].unitCbm) > v
    decreases |rows|
  {
    hide Amount, Units, IsMultiple;
    var row, picks := rows[0], Picks(rows, budget, volume);
    var units := Units(row, budget, volume);
    UnitsAreMost(row, budget, volume);
    if i > 0 {
      EarlierRowsFirst(rows[1..], budget - Amount(units, row.unitFob), volume - Amount(units, row.unitCbm), i - 1);
      SumsSplit(rows, picks, i - 1);
      assert picks[1..] == Picks(rows[1..], budget - Amount(units, row.unitFob), volume - Amount(units, row.unitCbm));
    }
  }

  ghost predicate Picked(rows: seq<Row>, picks: seq<nat>, line: Line)
    requires |picks| == |rows|
  {
    exists i :: 0 <= i < |rows| && line == Line(rows[i], picks[i]) && picks[i] > 0
  }

  lemma PickedNext(rows: seq<Row>, picks: seq<nat>, line: Line)
    requires |picks| == |rows| > 0
    ensures Picked(rows, picks, line) <==> Picked(rows[1..], picks[1..], line) || (picks[0] > 0 && line == Line(rows[0], picks[0]))
  {
    if Picked(rows[1..], picks[1..], line) {
      var i :| 0 <= i < |rows[1..]| && line == Line(rows[1..][i], picks[1..][i]) && picks[1..][i] > 0;
      assert line == Line(rows[i + 1], picks[i + 1]);
    }
    if i :| 0 < i < |rows| && line == Line(rows[i], picks[i]) && picks[i] > 0 {
      assert line == Line(rows[1..][i - 1], picks[1..][i - 1]) && picks[1..][i - 1] > 0;
    }
    if picks[0] > 0 && line == Line(rows[0], picks[0]) { assert Picked(rows, picks, line); }
  }

  /** The lines of the proposal are exactly the rows of which something is taken, with the units taken, and cost what was
      picked. */
  lemma {:induction false} LinesArePicks(rows: seq<Row>, picks: seq<nat>, line: Line)
    requires |picks| == |rows|
    ensures line in Lines(rows, picks) <==> Picked(rows, picks, line)
    ensures LineCost(Lines(rows, picks)) == Cost(rows, picks)
  {
    hide Amount, Picked;
    if |rows| == 0 {
      NothingPicked(line);
    } else {
      LinesArePicks(rows[1..], picks[1..], line);
      PickedNext(rows, picks, line);
      NoAmount(rows[0].unitFob);
      var rest := Lines(rows[1..], picks[1..]);
      assert ([Line(rows[0], picks[0])] + rest)[1..] == rest && [] + rest == rest;
    }
  }

  lemma NothingPicked(line: Line)
    ensures !Picked([], [], line)
  {
  }

  lemma NoAmount(price: real)
    ensures Amount(0, price) == 0.0
  {
  }

  function LineCost(lines: seq<Line>): real {
    if |lines| == 0 then 0.0 else Amount(lines[0].units, lines[0].row.unitFob) + LineCost(lines[1..])
  }
}
