/** What the lifecycle does not promise, shown as a run from the empty store. */
module InteractionCounterexamples {
  import opened Basics
  import opened Texts
  import opened InteractionModels
  import opened InteractionStore
  import opened InteractionDecisions
  import opened InteractionAggregates
  import opened InteractionRuns

  lemma {:induction false} RunThen(w: World, steps: seq<Step>, step: Step)
    requires Valid(w, steps) && Enabled(Run(w, steps), step)
    ensures Valid(w, steps + [step]) && Run(w, steps + [step]) == Next(Run(w, steps), step)
    decreases |steps|
  {
    hide Enabled, Next;
    if steps == [] {
      var u := Next(w, step);
      assert steps + [step] == [step] && [step][1..] == [];
      assert Valid(u, []) && Run(u, []) == u;
    } else {
      RunThen(Next(w, steps[0]), steps[1..], step);
      assert (steps + [step])[1..] == steps[1..] + [step];
    }
  }

  lemma Reaches(w: World, step: Step)
    requires Reachable(w) && Enabled(w, step)
    ensures Reachable(Next(w, step))
  {
    hide Enabled, Next, Valid, Run;
    var steps :| Valid(START, steps) && Run(START, steps) == w;
    RunThen(START, steps, step);
  }

  lemma StartIsReached()
    ensures Reachable(START)
  {
    assert Valid(START, []) && Run(START, []) == START;
  }

  const ORIGIN := Origin(Scope("t", "w", "n"), "owner", "op", "low", "policy", "r", "t", "", map[])
  const OPENED := Fresh("int", ORIGIN)
  const EXECUTION := Request(ORIGIN.scope, "owner", "int", 2, "x", ExecuteAction)

  function Previews(plan: Plan): Request {
    Request(ORIGIN.scope, "owner", "int", 1, "p", PreviewAction(plan))
  }

  /** Ids drawn and clocks read at time `t`; the other ports are not asked. */
  function At(id: Id, t: Time): Env {
    Env(id, "id1", "id2", t, t, t, None, None, None, None)
  }

  function Allowed(plan: Plan): Interaction {
    OPENED.(state := Authorized, revision := 2, previewId := Some("prv"), objectId := plan.targetObject)
  }

  function Shown(plan: Plan): Preview {
    Preview("prv", "owner", "op", "policy", "low", 1, plan, Active, 0, plan.ttl)
  }

  lemma NotBlank(key: string)
    requires |key| == 1 && !Whitespace(key[0])
    ensures !Blank(key)
  {
    assert key[0] in key;
  }

  lemma Opening(plan: Plan) returns (w: World)
    ensures Reachable(w) && w.log == [] && w.calls == map[0 := Call(Previews(plan), Begin)]
    ensures w.store.aggregates == map["int" := Opened("int", ORIGIN, "k")]
    ensures w.store.rows.Keys == {CreateKey(ORIGIN, "k")}
  {
    hide Reachable;
    NotBlank("k");
    StartIsReached();
    Reaches(START, Open(ORIGIN, "k", "int"));
    w := OpenStep(START, ORIGIN, "k", "int");
    Reaches(w, Invoke(0, Previews(plan)));
    w := InvokeStep(w, 0, Previews(plan));
  }

  /** A call whose key is unused reads its record and starts working. */
  lemma Starting(w: World, n: nat, q: Request) returns (v: World)
    requires Reachable(w) && n in w.calls && w.calls[n] == Call(q, Begin)
    requires !q.action.RecoverAction? && !Blank(q.key) && KeyOf(q) !in w.store.rows
    requires Get(w.store, q.scope, q.interactionId).Some?
    requires Guard(StageOf(q), q, q.expected, Get(w.store, q.scope, q.interactionId).value).None?
    ensures v == Moved(w, n, Working(StageOf(q), Get(w.store, q.scope, q.interactionId).value, map[])) && Reachable(v)
  {
    hide Reachable, Guard;
    Reaches(w, ReadRow(n));
    var u := Moved(w, n, Checked);
    Reaches(u, ReadRecord(n));
    v := Moved(w, n, Working(StageOf(q), Get(w.store, q.scope, q.interactionId).value, map[]));
    assert Moved(u, n, v.calls[n].pc) == v;
  }

  lemma Committing(w: World, n: nat, env: Env)
    requires Reachable(w) && n in w.calls && w.calls[n].pc.Working?
    requires Needs(w.calls[n].pc.stage, w.calls[n].request, w.calls[n].pc.cur) <= w.calls[n].pc.seen.Keys
    requires NewEverywhere(w.store, env)
    ensures Reachable(CommitStep(w, n, env))
  {
    hide Reachable, CommitStep, NewEverywhere, Needs;
    Reaches(w, Commits(n, env));
  }

  function SeenByGate(plan: Plan): Seen {
    map["prv" := Some(PreviewFact(Shown(plan)))]
  }

  /** A Preview made at time 0 that asks for neither confirmation nor approval. */
  lemma Authorizing(plan: Plan) returns (w: World)
    requires plan.ttl > 0 && !plan.requiresConfirmation && !plan.requiresApproval
    ensures Reachable(w) && w.log == [] && 1 !in w.calls && KeyOf(EXECUTION) !in w.store.rows
    ensures w.store.aggregates.Keys == {"int"}
    ensures w.store.aggregates["int"].record == Allowed(plan)
    ensures w.store.aggregates["int"].facts == map["prv" := PreviewFact(Shown(plan))]
  {
    hide Reachable;
    NotBlank("p");
    var u := Opening(plan);
    u := Starting(u, 0, Previews(plan));
    Committing(u, 0, At("prv", 0));
    w := CommitStep(u, 0, At("prv", 0));
  }

  lemma Asking(plan: Plan) returns (w: World)
    requires plan.ttl > 0 && !plan.requiresConfirmation && !plan.requiresApproval
    ensures Reachable(w) && w.log == [] && KeyOf(EXECUTION) !in w.store.rows
    ensures w.store.aggregates.Keys == {"int"}
    ensures w.store.aggregates["int"].record == Allowed(plan)
    ensures w.store.aggregates["int"].facts == map["prv" := PreviewFact(Shown(plan))]
    ensures 1 in w.calls
            && w.calls[1] == Call(EXECUTION, Working(Gate, Allowed(plan), SeenByGate(plan)))
  {
    hide Reachable, CommitStep, OpenStep;
    NotBlank("x");
    var u := Authorizing(plan);
    Reaches(u, Invoke(1, EXECUTION));
    u := Starting(InvokeStep(u, 1, EXECUTION), 1, EXECUTION);
    Reaches(u, ReadFact(1, "prv"));
    w := Moved(u, 1, Working(Gate, Allowed(plan), SeenByGate(plan)));
  }

  lemma CallingPort(w: World, n: nat)
    requires Reachable(w) && n in w.calls && w.calls[n].pc.Armed?
    ensures Reachable(PortStep(w, n)) && PortStep(w, n).store == w.store
    ensures PortStep(w, n).log == w.log + [w.calls[n].pc.port]
  {
    hide Reachable;
    Reaches(w, CallPort(n));
  }

  lemma GateMayCommit(u: World, plan: Plan, t: Time)
    requires u.store.aggregates.Keys == {"int"}
    requires u.store.aggregates["int"].facts == map["prv" := PreviewFact(Shown(plan))]
    ensures NewEverywhere(u.store, At("exe", t))
    ensures Needs(Gate, EXECUTION, Allowed(plan)) <= SeenByGate(plan).Keys
  {
  }

  lemma GateDecides(plan: Plan, t: Time) returns (c: Commit)
    requires !plan.requiresConfirmation && !plan.requiresApproval
    ensures Decide(Gate, EXECUTION, Allowed(plan), SeenByGate(plan), At("exe", t)) == Ok(c)
    ensures c.next.id == "int" && c.next.origin == ORIGIN && c.expected == 2 && c.consumption.None?
    ensures RowKey(c) == KeyOf(EXECUTION) && c.next.previewId == Some("prv") && c.facts.Keys == {"exe"}
    ensures PortCallFor(EXECUTION, Allowed(plan), SeenByGate(plan), At("exe", t))
            == PortCall("int", "exe", "op", plan.parameters, "x", t, t)
  {
    c := Decide(Gate, EXECUTION, Allowed(plan), SeenByGate(plan), At("exe", t)).value;
  }

  lemma GateOpens(u: World, plan: Plan, t: Time) returns (w: World)
    requires plan.ttl > 0 && !plan.requiresConfirmation && !plan.requiresApproval
    requires u.log == [] && KeyOf(EXECUTION) !in u.store.rows && "int" in u.store.aggregates
    requires u.store.aggregates["int"].record == Allowed(plan)
    requires u.store.aggregates["int"].facts == map["prv" := PreviewFact(Shown(plan))]
    requires 1 in u.calls
             && u.calls[1] == Call(EXECUTION, Working(Gate, Allowed(plan), SeenByGate(plan)))
    ensures w == CommitStep(u, 1, At("exe", t)) && w.log == [] && "int" in w.store.aggregates
    ensures HasPreview(w.store.aggregates["int"]) && CurrentPreview(w.store.aggregates["int"]) == Shown(plan)
    ensures 1 in w.calls && w.calls[1].pc.Armed?
    ensures w.calls[1].pc.port == PortCall("int", "exe", "op", plan.parameters, "x", t, t)
  {
    var c := GateDecides(plan, t);
    hide Decide, PortCallFor;
    w := CommitStep(u, 1, At("exe", t));
  }

  /** A Preview that asks for neither a confirmation nor an approval is executed at any time `t`, however
      long after its expiry: a run from the empty store ends with the port called. */
  lemma LateExecution(plan: Plan, t: Time) returns (w: World)
    requires plan.ttl > 0 && !plan.requiresConfirmation && !plan.requiresApproval
    ensures Reachable(w) && "int" in w.store.aggregates && HasPreview(w.store.aggregates["int"])
    ensures CurrentPreview(w.store.aggregates["int"]) == Shown(plan)
    ensures w.log == [PortCall("int", "exe", "op", plan.parameters, "x", t, t)]
  {
    hide *;
    var u := Asking(plan);
    GateMayCommit(u, plan, t);
    Committing(u, 1, At("exe", t));
    var v := GateOpens(u, plan, t);
    CallingPort(v, 1);
    w := PortStep(v, 1);
  }
}
