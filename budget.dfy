// The budget simulator step that runs when the form is submitted
// (app.py:96-160): totals, survival months, the goal estimate, the values
// behind the two charts and the advisory tips.

module Budget {
  import opened GoalText

  /** The six form fields (app.py:85-92). number_input with min_value=0 and
      integer defaults yields non-negative integers. */
  datatype Inputs = Inputs(
    salary: nat,
    rent: nat,
    groceries: nat,
    otherExpenses: nat,
    currentSavings: nat,
    goal: string)

  /** What the goal line of the results shows. */
  datatype GoalOutcome =
    | NoGoal              // empty goal text: nothing is shown
    | NoDigits            // goal echoed, but it holds no amount
    | Months(months: int) // "reach your goal in approx <months> months"
    | Unreachable         // "Goal not reachable at this pace"

  /** The three advisory tips, in the order the rules are evaluated. */
  datatype Tip = ReduceRent | LowSavings | NoSavings {
    function Rank(): nat {
      match this
      case ReduceRent => 0
      case LowSavings => 1
      case NoSavings => 2
    }

    function Message(): string {
      match this
      case ReduceRent => "💡 Try reducing rent or find a flatmate."
      case LowSavings => "📉 Very low monthly savings! Reduce other expenses or find side income."
      case NoSavings => "🆘 No savings at all! Start an emergency fund ASAP."
    }
  }

  datatype Report = Report(
    totalExpenses: nat,
    monthlyBalance: int,
    yearlySavings: int,
    survivalMonths: nat,
    goal: GoalOutcome,
    pieValues: seq<nat>,
    projection: seq<int>,
    tips: seq<Tip>)

  const LowSavingsThreshold: int := 2000
  const ProjectionMonths: nat := 12

  /** Python's `a // b` for a positive divisor: the quotient rounded toward
      negative infinity. */
  function FloorDiv(a: int, b: int): (q: int)
    requires b > 0
    ensures q * b <= a < q * b + b
  {
    a / b
  }

  /** The two bounds of FloorDiv determine the quotient. */
  lemma FloorDivUnique(a: int, b: int, q: int)
    requires b > 0
    requires q * b <= a < q * b + b
    ensures q == FloorDiv(a, b)
  {
    var q' := FloorDiv(a, b);
    MulMonotone(q + 1, q', b);
    MulMonotone(q' + 1, q, b);
    assert (q + 1) * b == q * b + b;
    assert (q' + 1) * b == q' * b + b;
  }

  lemma MulMonotone(x: int, y: int, b: int)
    requires b >= 0
    ensures x <= y ==> x * b <= y * b
  {
  }

  lemma RealMulMonotone(x: real, y: real, b: real)
    requires b >= 0.0
    ensures x <= y ==> x * b <= y * b
  {
  }

  /** Dafny's `/` on int rounds the real quotient down whenever the divisor
      is positive, which is how Python's `//` rounds. */
  lemma FloorDivIsRealFloor(a: int, b: int)
    requires b > 0
    ensures FloorDiv(a, b) == (a as real / b as real).Floor
  {
    var q := FloorDiv(a, b);
    var x := a as real / b as real;
    var br := b as real;
    assert x * br == a as real;
    assert (q as real) * br <= a as real;
    assert a as real < (q as real + 1.0) * br;
    RealMulMonotone(x, q as real, br);
    RealMulMonotone(q as real + 1.0, x, br);
    assert q as real <= x;
    assert x < q as real + 1.0;
  }

  /** survival_months at app.py:100: whole months the savings cover the
      expenses, 0 when there are no expenses. */
  function SurvivalMonths(savings: nat, total: nat): (m: nat)
    ensures total == 0 ==> m == 0
    ensures total > 0 ==> m * total <= savings < m * total + total
  {
    if total > 0 then FloorDiv(savings, total) else 0
  }

  /** The goal branch at app.py:108-117. */
  function GoalOutcomeOf(goal: string, savings: nat, balance: int): (g: GoalOutcome)
    ensures g == NoGoal <==> goal == []
    ensures g == NoDigits <==> goal != [] && !HasDigit(goal)
    ensures g == Unreachable <==> HasDigit(goal) && balance <= 0
    ensures g.Months? <==> HasDigit(goal) && balance > 0
    ensures g.Months? ==>
      var need := ParseNat(Digits(goal)) - savings;
      g.months * balance <= need < g.months * balance + balance
  {
    DigitsEmptyIff(goal);
    assert goal == [] ==> !HasDigit(goal);
    if goal == [] then NoGoal
    else
      var digits := Digits(goal);
      if digits == [] then NoDigits
      else if balance > 0 then Months(FloorDiv(ParseNat(digits) - savings, balance))
      else Unreachable
  }

  /** A months-to-goal estimate is negative exactly when the goal amount is
      below the current savings. */
  lemma MonthsNegativeIff(goal: string, savings: nat, balance: int)
    requires GoalOutcomeOf(goal, savings, balance).Months?
    ensures GoalOutcomeOf(goal, savings, balance).months < 0
        <==> ParseNat(Digits(goal)) < savings
  {
    var m := GoalOutcomeOf(goal, savings, balance).months;
    MulMonotone(m + 1, 0, balance);
    MulMonotone(0, m, balance);
    assert (m + 1) * balance == m * balance + balance;
  }

  /** The pie-chart values at app.py:121: the three expenses and the savings
      slice, clamped at 0. */
  function PieValues(rent: nat, groceries: nat, other: nat, balance: int): (v: seq<nat>)
    ensures |v| == 4
    ensures v[3] == 0 <==> balance <= 0
    ensures v[3] >= balance
  {
    [rent, groceries, other, if balance > 0 then balance else 0]
  }

  /** The whole pie is the salary when something is saved, and the expenses
      when the month ends in deficit. */
  lemma PieTotal(inp: Inputs)
    ensures var total := inp.rent + inp.groceries + inp.otherExpenses;
      var v := PieValues(inp.rent, inp.groceries, inp.otherExpenses, inp.salary - total);
      v[0] + v[1] + v[2] + v[3] == if inp.salary >= total then inp.salary else total
  {
  }

  /** The line-chart values at app.py:127-128: savings at the end of months
      1..12. The first entry adds one month's balance to the savings and each
      later entry adds one more. */
  function Projection(savings: nat, balance: int): (p: seq<int>)
    ensures |p| == ProjectionMonths
    ensures p[0] == savings + balance
    ensures forall i :: 0 <= i < ProjectionMonths - 1 ==> p[i + 1] == p[i] + balance
  {
    var p := seq(ProjectionMonths, i => savings + balance * (i + 1));
    assert forall i :: 0 <= i < ProjectionMonths - 1 ==> p[i + 1] == p[i] + balance by {
      forall i | 0 <= i < ProjectionMonths - 1
        ensures p[i + 1] == p[i] + balance
      {
        assert balance * (i + 2) == balance * (i + 1) + balance;
      }
    }
    p
  }

  /** Entry m (months 1..12) is savings + balance * m; the last entry is the
      savings plus one year of balance. */
  lemma ProjectionAt(savings: nat, balance: int, m: nat)
    requires 1 <= m <= ProjectionMonths
    ensures Projection(savings, balance)[m - 1] == savings + balance * m
  {
  }

  /** The projection never falls exactly when the balance is not negative. */
  lemma ProjectionMonotoneIff(savings: nat, balance: int)
    ensures (forall i, j :: 0 <= i <= j < ProjectionMonths ==>
               Projection(savings, balance)[i] <= Projection(savings, balance)[j])
        <==> balance >= 0
  {
    var p := Projection(savings, balance);
    if balance >= 0 {
      forall i, j | 0 <= i <= j < ProjectionMonths
        ensures p[i] <= p[j]
      {
        ProjectionAt(savings, balance, i + 1);
        ProjectionAt(savings, balance, j + 1);
        MulMonotone(i + 1, j + 1, balance);
        assert balance * (i + 1) == (i + 1) * balance;
        assert balance * (j + 1) == (j + 1) * balance;
      }
    } else {
      assert p[1] < p[0];
    }
  }

  /** Rent above 40% of the salary. The source compares `rent > salary * 0.4`
      in floating point; the exact rational test is modelled. */
  predicate RentTooHigh(rent: nat, salary: nat) {
    10 * rent > 4 * salary
  }

  /** The tips list of app.py:140-146. */
  function Tips(salary: nat, rent: nat, balance: int, savings: nat): (t: seq<Tip>)
    ensures ReduceRent in t <==> RentTooHigh(rent, salary)
    ensures LowSavings in t <==> balance < LowSavingsThreshold
    ensures NoSavings in t <==> savings == 0
    ensures |t| <= 3
    ensures forall i, j :: 0 <= i < j < |t| ==> t[i].Rank() < t[j].Rank()
  {
    (if RentTooHigh(rent, salary) then [ReduceRent] else [])
    + (if balance < LowSavingsThreshold then [LowSavings] else [])
    + (if savings == 0 then [NoSavings] else [])
  }

  /** The tips list grown by successive appends, as the source builds it. */
  method BuildTips(salary: nat, rent: nat, balance: int, savings: nat)
    returns (tips: seq<Tip>)
    ensures tips == Tips(salary, rent, balance, savings)
  {
    tips := [];
    if RentTooHigh(rent, salary) {
      tips := tips + [ReduceRent];
    }
    if balance < LowSavingsThreshold {
      tips := tips + [LowSavings];
    }
    if savings == 0 {
      tips := tips + [NoSavings];
    }
  }

  /** The whole submit step (app.py:96-146). */
  function Simulate(inp: Inputs): (r: Report)
    ensures r.totalExpenses == inp.rent + inp.groceries + inp.otherExpenses
    ensures r.monthlyBalance == inp.salary - r.totalExpenses
    ensures r.yearlySavings == 12 * r.monthlyBalance
    ensures r.totalExpenses > 0 ==>
      r.survivalMonths * r.totalExpenses <= inp.currentSavings
        < (r.survivalMonths + 1) * r.totalExpenses
    ensures r.totalExpenses == 0 ==> r.survivalMonths == 0
    ensures r.goal == GoalOutcomeOf(inp.goal, inp.currentSavings, r.monthlyBalance)
    ensures r.goal.Months? <==> HasDigit(inp.goal) && r.monthlyBalance > 0
    ensures r.goal == Unreachable <==> HasDigit(inp.goal) && r.monthlyBalance <= 0
    ensures |r.pieValues| == 4
    ensures r.pieValues[3] == if r.monthlyBalance > 0 then r.monthlyBalance else 0
    ensures r.pieValues[..3] == [inp.rent, inp.groceries, inp.otherExpenses]
    ensures |r.projection| == ProjectionMonths
    ensures forall m :: 1 <= m <= ProjectionMonths ==>
      r.projection[m - 1] == inp.currentSavings + r.monthlyBalance * m
    ensures r.projection[ProjectionMonths - 1] == inp.currentSavings + r.yearlySavings
    ensures r.tips == Tips(inp.salary, inp.rent, r.monthlyBalance, inp.currentSavings)
    ensures |r.tips| <= 3
  {
    var total := inp.rent + inp.groceries + inp.otherExpenses;
    var balance := inp.salary - total;
    var survival := SurvivalMonths(inp.currentSavings, total);
    assert (survival + 1) * total == survival * total + total;
    ProjectionAt(inp.currentSavings, balance, ProjectionMonths);
    Report(
      total,
      balance,
      balance * 12,
      survival,
      GoalOutcomeOf(inp.goal, inp.currentSavings, balance),
      PieValues(inp.rent, inp.groceries, inp.otherExpenses, balance),
      Projection(inp.currentSavings, balance),
      Tips(inp.salary, inp.rent, balance, inp.currentSavings))
  }

  /** The form's default figures with the hint text as the goal: the digit
      filter keeps only "2", so the goal amount is 2, and since the balance
      is positive the estimate is (2 - 50000) // 12000 == -5 months. */
  lemma DefaultFormExample()
    ensures ParseNat(Digits("Save ₹2L")) == 2
    ensures Simulate(Inputs(30000, 10000, 5000, 3000, 50000, "Save ₹2L")) ==
      Report(18000, 12000, 144000, 2, Months(-5),
             [10000, 5000, 3000, 12000],
             [62000, 74000, 86000, 98000, 110000, 122000,
              134000, 146000, 158000, 170000, 182000, 194000],
             [])
  {
    var goal := "Save ₹2L";
    assert Digits(goal) == "2" by {
      assert goal[1..] == "ave ₹2L";
      assert goal[1..][1..] == "ve ₹2L";
      assert goal[1..][1..][1..] == "e ₹2L";
      assert goal[1..][1..][1..][1..] == " ₹2L";
      assert goal[1..][1..][1..][1..][1..] == "₹2L";
      assert goal[1..][1..][1..][1..][1..][1..] == "2L";
      assert goal[1..][1..][1..][1..][1..][1..][1..] == "L";
    }
    assert ParseNat("2") == 2 by {
      assert "2"[..0] == [];
    }
    FloorDivUnique(2 - 50000, 12000, -5);
    assert GoalOutcomeOf(goal, 50000, 12000) == Months(-5);
    FloorDivUnique(50000, 18000, 2);
    assert SurvivalMonths(50000, 18000) == 2;
    assert Projection(50000, 12000) ==
      [62000, 74000, 86000, 98000, 110000, 122000,
       134000, 146000, 158000, 170000, 182000, 194000];
    assert Tips(30000, 10000, 12000, 50000) == [];
  }
}
