// The per-session state the submit step writes (app.py:153-160): the raw
// form inputs, saved under 'form_data' for the chat advisor to read back.

module Session {
  import opened Budget

  datatype Option<T> = None | Some(value: T)

  /** A value of the saved record: an amount field or the goal text. */
  datatype FormValue = Amount(n: nat) | Text(s: string)

  const FormKeys: set<string> :=
    {"salary", "rent", "groceries", "other_expenses", "current_savings", "goal"}

  /** The dictionary literal at app.py:153-160. */
  function FormRecord(inp: Inputs): (m: map<string, FormValue>)
    ensures m.Keys == FormKeys
    ensures forall k :: k in m && k != "goal" ==> m[k].Amount?
    ensures m["goal"] == Text(inp.goal)
  {
    map[
      "salary" := Amount(inp.salary),
      "rent" := Amount(inp.rent),
      "groceries" := Amount(inp.groceries),
      "other_expenses" := Amount(inp.otherExpenses),
      "current_savings" := Amount(inp.currentSavings),
      "goal" := Text(inp.goal)]
  }

  /** The lookups form_data['salary'] ... form_data['goal'] that the chat
      prompt performs (app.py:175-183); None when a key is missing or holds
      the wrong kind of value. */
  function InputsOf(m: map<string, FormValue>): (r: Option<Inputs>)
    ensures r.Some? ==> FormKeys <= m.Keys
  {
    if FormKeys <= m.Keys
       && m["salary"].Amount? && m["rent"].Amount? && m["groceries"].Amount?
       && m["other_expenses"].Amount? && m["current_savings"].Amount?
       && m["goal"].Text?
    then Some(Inputs(m["salary"].n, m["rent"].n, m["groceries"].n,
                     m["other_expenses"].n, m["current_savings"].n, m["goal"].s))
    else None
  }

  /** The saved record holds the six inputs unchanged: reading it back gives
      exactly what was submitted. */
  lemma FormRecordRoundTrip(inp: Inputs)
    ensures InputsOf(FormRecord(inp)) == Some(inp)
  {
    var m := FormRecord(inp);
    assert "salary" in m && "rent" in m && "groceries" in m;
    assert "other_expenses" in m && "current_savings" in m;
  }

  /** Two submissions save the same record only if their inputs agree. */
  lemma FormRecordInjective(a: Inputs, b: Inputs)
    requires FormRecord(a) == FormRecord(b)
    ensures a == b
  {
    FormRecordRoundTrip(a);
    FormRecordRoundTrip(b);
  }

  /** The session state of the simulator page that the submit step touches. */
  class SessionState {
    var formData: Option<map<string, FormValue>>

    constructor ()
      ensures formData == None
    {
      formData := None;
    }

    /** One press of "Simulate": compute the report, build the tips list
        step by step, and save the inputs. */
    method Submit(inp: Inputs) returns (r: Report)
      modifies this
      ensures r == Simulate(inp)
      ensures formData == Some(FormRecord(inp))
      ensures InputsOf(formData.value) == Some(inp)
    {
      var total := inp.rent + inp.groceries + inp.otherExpenses;
      var balance := inp.salary - total;
      var tips := BuildTips(inp.salary, inp.rent, balance, inp.currentSavings);
      r := Report(
        total,
        balance,
        balance * 12,
        SurvivalMonths(inp.currentSavings, total),
        GoalOutcomeOf(inp.goal, inp.currentSavings, balance),
        PieValues(inp.rent, inp.groceries, inp.otherExpenses, balance),
        Projection(inp.currentSavings, balance),
        tips);
      formData := Some(FormRecord(inp));
      FormRecordRoundTrip(inp);
    }
  }
}
