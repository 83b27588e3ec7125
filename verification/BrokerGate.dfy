/** The order of the gates in front of an agent: `handleChat` of internal/broker/server.go. */
module BrokerGate {
  import opened BudgetLedger

  datatype Body = Unreadable | NotJson | Parsed(sessionId: string)

  /** What the provider answers: an error, a target that is no URL, or a usable target. */
  datatype Acquired = NoAgent | BadTarget | Agent

  /** What becomes of the proxied request: the agent's whole reply is passed on, or the agent
      cannot be reached, or its reply breaks off, which makes the proxy abort the handler. */
  datatype Upstream = Answers | Unreachable | BreaksOff

  datatype Reply = BadRequest | Degraded | BadGateway | ServerError | Proxied | Aborted

  datatype Outcome = DegradedChat | AcquireError | ProxyError | OkChat

  predicate Valid(body: Body) {
    body.Parsed? && body.sessionId != ""
  }

  class Server {
    const budget: BudgetTracker?
    var acquired: seq<string>   // sessions for which Acquire was called, in order
    var recorded: seq<Outcome>  // chat metric, in order

    constructor (budget: BudgetTracker?)
      ensures this.budget == budget && acquired == [] && recorded == []
    {
      this.budget := budget;
      acquired, recorded := [], [];
    }

    ghost predicate Resting(today: int)
      reads this, budget
    {
      budget != null && OverBudget(budget.budget, budget.Value(), today)
    }

    /** `answer` and `upstream` are what the provider and the agent do on this request. */
    method HandleChat(body: Body, today: int, answer: Acquired, upstream: Upstream) returns (reply: Reply)
      modifies this, budget
      ensures budget != null && Valid(body) ==>
                budget.Value() == Checked(budget.budget, old(budget.Value()), today)
      ensures budget != null && !Valid(body) ==> budget.Value() == old(budget.Value())
      ensures budget != null ==>
                Gate(budget.Value(), acquired)
                == AfterAct(budget.budget, old(Gate(budget.Value(), acquired)), Act(today, Chat(body)))
      // Acquire is reached exactly by the valid requests that find budget left.
      ensures acquired == old(acquired) + if Valid(body) && !old(Resting(today)) then [body.sessionId] else []
      ensures reply == Degraded <==> Valid(body) && old(Resting(today))
      ensures reply == BadRequest <==> !body.Parsed? || body.sessionId == ""
      ensures reply == ServerError <==> Valid(body) && !old(Resting(today)) && answer == BadTarget
      ensures reply == Proxied <==> Valid(body) && !old(Resting(today)) && answer == Agent && upstream == Answers
      ensures reply == Aborted <==> Valid(body) && !old(Resting(today)) && answer == Agent && upstream == BreaksOff
      // Every valid request is counted once, under the outcome it had, unless the proxy aborts.
      ensures !Valid(body) || reply == Aborted ==> recorded == old(recorded)
      ensures Valid(body) && reply != Aborted ==>
                exists o :: recorded == old(recorded) + [o]
                            && (o == DegradedChat <==> reply == Degraded)
                            && (o == OkChat <==> reply == Proxied)
                            && (o == AcquireError <==> reply != Degraded && answer != Agent)
                            && (o == ProxyError <==> reply == BadGateway && answer == Agent)
    {
      if body.Unreadable? || body.NotJson? {
        return BadRequest;
      }
      if body.sessionId == "" {
        return BadRequest;
      }
      if budget != null {
        var over := budget.Exceeded(today);
        if over {
          recorded := recorded + [DegradedChat];
          return Degraded;
        }
      }
      acquired := acquired + [body.sessionId];
      if answer == NoAgent {
        recorded := recorded + [AcquireError];
        return BadGateway;
      }
      if answer == BadTarget {
        recorded := recorded + [AcquireError];
        return ServerError;
      }
      var proxied := true;
      reply := Proxied;
      match upstream {
        case Answers =>
        case Unreachable =>
          proxied := false;
          recorded := recorded + [ProxyError];
          reply := BadGateway;
        case BreaksOff =>
          return Aborted;
      }
      if proxied {
        recorded := recorded + [OkChat];
      }
    }
  }

  // ----- Runs of the broker -----

  /** The ledger, and the sessions for which Acquire was called, in order. */
  datatype Gate = Gate(ledger: Ledger, acquired: seq<string>)

  datatype What = Chat(body: Body) | Call(op: Op)

  /** A chat request, or a call that the poller or the usage route makes on the tracker. */
  datatype Act = Act(today: int, what: What)

  function AfterAct(budget: int, g: Gate, a: Act): Gate {
    match a.what
    case Call(op) => Gate(Apply(budget, g.ledger, BudgetLedger.Call(a.today, op)), g.acquired)
    case Chat(body) =>
      if !Valid(body) then g
      else Gate(Checked(budget, g.ledger, a.today),
                g.acquired + if OverBudget(budget, g.ledger, a.today) then [] else [body.sessionId])
  }

  /** The gate after the first `n` acts. */
  function AfterActs(budget: int, g: Gate, acts: seq<Act>, n: nat): Gate
    requires n <= |acts|
  {
    if n == 0 then g else AfterAct(budget, AfterActs(budget, g, acts, n - 1), acts[n - 1])
  }

  predicate NaturalCounts(acts: seq<Act>) {
    forall i :: 0 <= i < |acts| && acts[i].what.Call? && acts[i].what.op.Record? ==> 0 <= acts[i].what.op.cumulative
  }

  /** Whether act `i` is a check of the budget, by a chat or on its own, that finds it spent. */
  predicate FindsItSpent(budget: int, g: Gate, acts: seq<Act>, i: nat)
    requires i < |acts|
  {
    Checks(acts[i]) && OverBudget(budget, AfterActs(budget, g, acts, i).ledger, acts[i].today)
  }

  predicate Checks(a: Act) {
    a.what == What.Call(Check) || (a.what.Chat? && Valid(a.what.body))
  }

  predicate Ordered(acts: seq<Act>) {
    forall i, j :: 0 <= i <= j < |acts| ==> acts[i].today <= acts[j].today
  }

  lemma ActKeepsOver(budget: int, g: Gate, a: Act)
    requires a.what.Call? && a.what.op.Record? ==> 0 <= a.what.op.cumulative
    requires OverBudget(budget, g.ledger, a.today)
    ensures OverBudget(budget, AfterAct(budget, g, a).ledger, a.today)
    ensures AfterAct(budget, g, a).acquired == g.acquired
  {
    match a.what
    case Call(op) => CallKeepsOver(budget, g.ledger, BudgetLedger.Call(a.today, op));
    case Chat(_) =>
  }

  lemma {:induction false} OverForTheDay(budget: int, g: Gate, acts: seq<Act>, i: nat, j: nat)
    requires NaturalCounts(acts) && Ordered(acts) && i <= j < |acts| && acts[i].today == acts[j].today
    requires OverBudget(budget, AfterActs(budget, g, acts, i).ledger, acts[i].today)
    ensures OverBudget(budget, AfterActs(budget, g, acts, j).ledger, acts[i].today)
    ensures AfterActs(budget, g, acts, j + 1).acquired == AfterActs(budget, g, acts, i).acquired
  {
    if i < j {
      assert acts[i].today <= acts[j - 1].today <= acts[j].today;
      OverForTheDay(budget, g, acts, i, j - 1);
      ActKeepsOver(budget, AfterActs(budget, g, acts, j - 1), acts[j - 1]);
    }
    ActKeepsOver(budget, AfterActs(budget, g, acts, j), acts[j]);
  }

  /** The gate is sticky: after a check that finds the budget spent, every later check of
      the same day does, whatever is recorded, pruned, read or requested in between. */
  lemma {:induction false} GateIsSticky(budget: int, g: Gate, acts: seq<Act>, i: nat, j: nat)
    requires NaturalCounts(acts) && Ordered(acts) && i < j < |acts| && acts[i].today == acts[j].today
    requires FindsItSpent(budget, g, acts, i) && Checks(acts[j])
    ensures FindsItSpent(budget, g, acts, j)
  {
    OverForTheDay(budget, g, acts, i, j);
  }

  /** And no chat of that day gets an agent: up to and with any later act of the day,
      Acquire is not called again. */
  lemma {:induction false} DegradedForTheDay(budget: int, g: Gate, acts: seq<Act>, i: nat, j: nat)
    requires NaturalCounts(acts) && Ordered(acts) && i <= j < |acts| && acts[i].today == acts[j].today
    requires FindsItSpent(budget, g, acts, i)
    ensures AfterActs(budget, g, acts, j + 1).acquired == AfterActs(budget, g, acts, i).acquired
  {
    OverForTheDay(budget, g, acts, i, j);
  }
}
