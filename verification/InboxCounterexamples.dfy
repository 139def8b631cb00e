/** What the saga does not promise of reminders, shown as runs from the empty world. */
module InboxCounterexamples {
  import opened Basics
  import opened InboxModels
  import opened InboxTables
  import opened InboxSaga
  import opened InboxRecovery

  const SOME_SCOPE := Scope("t", "w", "n")
  const SOME_ITEM: Id := "inbox_1"
  const SOME_REMINDER := Request(SOME_SCOPE, SOME_ITEM, Reminder, Some("inbox:inbox_1:reminder"), "call back at 9")

  // ---------- a reminder of another origin ----------

  const OTHERS_REMINDER := Target("rem_9", SOME_SCOPE, None, None, "call back at 9")

  function BeforeResolving(): seq<Step> {
    [Capture(SOME_ITEM, SOME_SCOPE, "api"),
     Elsewhere(SlotOf(SOME_SCOPE, Reminder, "inbox:inbox_1:reminder"), OTHERS_REMINDER)]
  }

  /** Somebody else makes a reminder under the item's key, and the item is resolved to it although the
      saga made no target at all. */
  lemma OthersReminderIsAdopted()
    ensures Valid(EMPTY_WORLD, BeforeResolving())
    ensures var w := Run(EMPTY_WORLD, BeforeResolving());
            && w.made == [] && Valid(w, LoneRun(w, 0, SOME_REMINDER, Clock(0, 0, 0), Served("rem_1")))
            && var u := Run(w, LoneRun(w, 0, SOME_REMINDER, Clock(0, 0, 0), Served("rem_1")));
            SOME_ITEM in u.tables.items && u.tables.items[SOME_ITEM].target == Some("rem_9")
  {
    var steps := BeforeResolving();
    var v := Next(EMPTY_WORLD, steps[0]);
    var w := Next(v, steps[1]);
    assert steps[1..] == [steps[1]] && steps[1..][1..] == [];
    assert Valid(w, []) && Run(w, []) == w;
    assert Valid(v, steps[1..]) && Run(v, steps[1..]) == Run(w, steps[1..][1..]);
    assert Run(EMPTY_WORLD, steps) == w && Reachable(w);
    ReminderAdoptedByIntent(w, 0, SOME_REMINDER, Clock(0, 0, 0), "rem_1");
  }

  // ---------- a reminder of the saga's own ----------

  const OTHER_INTENT := SOME_REMINDER.(intent := "call back at 10")
  const REMINDER_SLOT := SlotOf(SOME_SCOPE, Reminder, "inbox:inbox_1:reminder")
  const CAPTURED := Item(SOME_ITEM, SOME_SCOPE, "api", Pending, 0, 0, None, None, None, 1)

  lemma {:induction false} RunThen(w: World, steps: seq<Step>, step: Step)
    requires Valid(w, steps) && Enabled(Run(w, steps), step)
    ensures Valid(w, steps + [step]) && Run(w, steps + [step]) == Next(Run(w, steps), step)
    decreases |steps|
  {
    hide Enabled, Next;
    if steps == [] {
      var u := Next(w, step);
      assert steps + [step] == [step] && [step][1..] == [];
      assert Valid(u, []) && Run(u, []) == u;
    } else {
      RunThen(Next(w, steps[0]), steps[1..], step);
      assert (steps + [step])[1..] == steps[1..] + [step];
    }
  }

  lemma Reaches(w: World, step: Step)
    requires Reachable(w) && Enabled(w, step)
    ensures Reachable(Next(w, step))
  {
    hide Enabled, Next, Valid, Run;
    var steps: seq<Step> :| Valid(EMPTY_WORLD, steps) && Run(EMPTY_WORLD, steps) == w;
    RunThen(EMPTY_WORLD, steps, step);
  }

  /** The call gets the claim. */
  lemma Claims() returns (w: World)
    ensures Reachable(w) && w.now == 0 && w.targets == map[] && w.made == []
    ensures w.tables == Tables(map[SOME_ITEM := CAPTURED], map[SOME_ITEM := NewClaim(SOME_REMINDER, 0)])
    ensures w.calls == map[0 := Call(SOME_REMINDER, Fetching, 0)]
  {
    assert Valid(EMPTY_WORLD, []) && Run(EMPTY_WORLD, []) == EMPTY_WORLD;
    assert Reachable(EMPTY_WORLD);
    hide Reachable;
    Reaches(EMPTY_WORLD, Capture(SOME_ITEM, SOME_SCOPE, "api"));
    var u := Captured(EMPTY_WORLD, SOME_ITEM, SOME_SCOPE, "api");
    Reaches(u, Begin(0, SOME_REMINDER));
    u := WithCall(u, 0, Call(SOME_REMINDER, Claiming, 0));
    Reaches(u, Advance(0, 0, Unavailable));
    w := ClaimStep(u, 0, 0);
  }

  /** It makes the reminder, and is lost before it can record it. */
  lemma MakesAndIsLost() returns (w: World)
    ensures Reachable(w) && w.now == 0 && w.calls == map[]
    ensures w.tables == Tables(map[SOME_ITEM := CAPTURED], map[SOME_ITEM := NewClaim(SOME_REMINDER, 0)])
    ensures w.targets == map[REMINDER_SLOT := Target("rem_1", SOME_SCOPE, None, None, "call back at 9")]
    ensures w.made == [Made(SOME_ITEM, REMINDER_SLOT)]
  {
    hide Reachable, ClaimStep, RecordStep, CompleteStep;
    var u := Claims();
    Reaches(u, Advance(0, 0, Unavailable));
    u := FetchStep(u, 0);
    Reaches(u, Advance(0, 0, Unavailable));
    u := RereadStep(u, 0);
    Reaches(u, Advance(0, 0, Served("rem_1")));
    u := CreateStep(u, 0, Served("rem_1"));
    Reaches(u, Crash(0));
    w := u.(calls := map[]);
    assert w == Next(u, Crash(0));
  }

  /** After such a loss the item is resolved by a retry with the first intent, and not by one with another,
      which the item's own reminder stands in the way of. */
  lemma OwnReminderInTheWay() returns (w: World)
    ensures Reachable(w) && w.made == [Made(SOME_ITEM, REMINDER_SLOT)] && w.calls == map[]
    ensures forall q, drawn | q in {SOME_REMINDER, OTHER_INTENT} && drawn != "" ::
              && Valid(w, LoneRun(w, 1, q, Clock(0, 0, 0), Served(drawn)))
              && var u := Run(w, LoneRun(w, 1, q, Clock(0, 0, 0), Served(drawn)));
              && 1 in u.calls && SOME_ITEM in u.tables.items
              && (u.calls[1].pc == Finished(Success(u.tables.items[SOME_ITEM])) <==> q == SOME_REMINDER)
  {
    w := MakesAndIsLost();
    forall q, drawn | q in {SOME_REMINDER, OTHER_INTENT} && drawn != ""
      ensures Valid(w, LoneRun(w, 1, q, Clock(0, 0, 0), Served(drawn)))
      ensures var u := Run(w, LoneRun(w, 1, q, Clock(0, 0, 0), Served(drawn)));
              && 1 in u.calls && SOME_ITEM in u.tables.items
              && (u.calls[1].pc == Finished(Success(u.tables.items[SOME_ITEM])) <==> q == SOME_REMINDER)
    {
      assert WellFormed(q) && ReminderSlot(w, q) == REMINDER_SLOT;
      assert "call back at 9"[13] != "call back at 10"[13];
      hide LoneRun, Run, Valid, Reachable;
      ReminderAdoptedByIntent(w, 1, q, Clock(0, 0, 0), drawn);
    }
  }
}
