/** The daily token ledger of internal/broker/budget.go.

    `Ledger` is the mutable part of the Go struct as a value; the functions on it
    specify the methods of `BudgetTracker`, which update the fields in place.
    A UTC date is the number of its day: the Go code only ever compares the
    formatted date for equality, and formatting is injective on dates. */
module BudgetLedger {

  type Key = string

  datatype Ledger = Ledger(day: int, daily: int, last: map<Key, int>)

  /** What one cumulative sample adds: the growth since the last sample of the
      key, or all of it for an unknown key or a counter that went backwards. */
  function Delta(last: map<Key, int>, key: Key, cumulative: int): int {
    if key !in last || cumulative < last[key] then cumulative else cumulative - last[key]
  }

  function Roll(s: Ledger, today: int): Ledger {
    if today != s.day then s.(day := today, daily := 0) else s
  }

  function Recorded(s: Ledger, today: int, key: Key, cumulative: int): Ledger {
    var r := Roll(s, today);
    r.(daily := r.daily + Delta(r.last, key, cumulative), last := r.last[key := cumulative])
  }

  function Pruned(s: Ledger, active: set<Key>): Ledger {
    s.(last := map k | k in s.last && k in active :: s.last[k])
  }

  /** The ledger after a budget check; a disabled budget does not even look at the clock. */
  function Checked(budget: int, s: Ledger, today: int): Ledger {
    if budget <= 0 then s else Roll(s, today)
  }

  predicate OverBudget(budget: int, s: Ledger, today: int) {
    0 < budget <= Roll(s, today).daily
  }

  datatype BudgetSnapshot = BudgetSnapshot(dailyTokens: int, budget: int, remaining: int, exceeded: bool, day: int)

  class BudgetTracker {
    const budget: int
    var daily: int
    var last: map<Key, int>
    var day: int

    ghost function Value(): Ledger
      reads this
    {
      Ledger(day, daily, last)
    }

    constructor (budget: int, today: int)
      ensures this.budget == budget
      ensures Value() == Ledger(today, 0, map[])
    {
      this.budget := budget;
      daily, last, day := 0, map[], today;
    }

    method RollLocked(today: int)
      modifies this`day, this`daily
      ensures Value() == Roll(old(Value()), today)
    {
      if today != day {
        day := today;
        daily := 0;
      }
    }

    method Record(today: int, key: Key, cumulative: int)
      modifies this
      ensures Value() == Recorded(old(Value()), today, key, cumulative)
    {
      RollLocked(today);
      if key !in last || cumulative < last[key] {
        daily := daily + cumulative;
      } else {
        daily := daily + (cumulative - last[key]);
      }
      last := last[key := cumulative];
    }

    /** Visits the keys in an arbitrary order, as Go's map iteration does. */
    method Prune(active: set<Key>)
      modifies this`last
      ensures Value() == Pruned(old(Value()), active)
    {
      var todo := last.Keys;
      while todo != {}
        invariant todo <= last.Keys <= old(last).Keys
        invariant forall k <- old(last) :: k in last <==> k in active || k in todo
        invariant forall k <- last :: last[k] == old(last)[k]
        decreases |todo|
      {
        var k :| k in todo;
        if k !in active {
          last := last - {k};
        }
        todo := todo - {k};
      }
      assert last == Pruned(old(Value()), active).last;
    }

    method Exceeded(today: int) returns (over: bool)
      modifies this
      ensures Value() == Checked(budget, old(Value()), today)
      ensures over <==> OverBudget(budget, old(Value()), today)
    {
      if budget <= 0 {
        return false;
      }
      RollLocked(today);
      over := daily >= budget;
    }

    method Snapshot(today: int) returns (s: BudgetSnapshot)
      modifies this
      ensures Value() == Roll(old(Value()), today)
      ensures s.dailyTokens == daily && s.budget == budget && s.day == today
      ensures budget <= 0 ==> s.remaining == -1 && !s.exceeded
      ensures budget > 0 ==> (s.exceeded <==> OverBudget(budget, old(Value()), today))
      ensures budget > 0 ==> (s.exceeded <==> s.remaining == 0)
      ensures budget > 0 && !s.exceeded ==> s.dailyTokens + s.remaining == budget
    {
      RollLocked(today);
      s := BudgetSnapshot(daily, budget, 0, false, day);
      if budget <= 0 {
        return s.(remaining := -1);
      }
      s := s.(exceeded := daily >= budget);
      if budget - daily > 0 {
        s := s.(remaining := budget - daily);
      }
    }
  }

  // ----- Calls on the tracker -----

  datatype Op =
    | Record(key: Key, cumulative: int)
    | Prune(active: set<Key>)
    | Check
    | Read

  /** One call on the tracker, and the day on which it happens. */
  datatype Call = Call(today: int, op: Op)

  function Apply(budget: int, s: Ledger, c: Call): Ledger {
    match c.op
    case Record(key, cumulative) => Recorded(s, c.today, key, cumulative)
    case Prune(active) => Pruned(s, active)
    case Check => Checked(budget, s, c.today)
    case Read => Roll(s, c.today)
  }

  /** No call of the day takes the ledger back below the budget. */
  lemma CallKeepsOver(budget: int, s: Ledger, c: Call)
    requires c.op.Record? ==> 0 <= c.op.cumulative
    requires OverBudget(budget, s, c.today)
    ensures OverBudget(budget, Apply(budget, s, c), c.today)
  {
  }
}
