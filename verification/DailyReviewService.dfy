/** `get`: the day under review, the five sources asked in turn, and the review made of their answers. */
module DailyReviewService {
  import opened Basics
  import opened DailyReviewModels
  import opened DailyReviews

  /** A source as `_evaluate` meets it; `reply` is what its collector returns, absent when it raises. */
  datatype Boundary = Boundary(enabled: bool, configured: bool, reply: Option<seq<Candidate>>)

  /** The local calendar: the day an instant falls on, and the instant a day begins. */
  datatype Zone = Zone(dayOf: int -> int, midnight: int -> int)

  datatype Outcome = Unavailable | SourceFailed(source: Source) | Rejected | Reviewed(review: Review)

  predicate Asked(b: Boundary) {
    b.enabled && b.configured
  }

  predicate Fails(b: Boundary) {
    Asked(b) && b.reply.None?
  }

  function StatusOf(b: Boundary): SourceStatus {
    if !b.enabled then Disabled else if !b.configured then NotConfigured else Available
  }

  function Contributed(b: Boundary): seq<Candidate> {
    if Asked(b) && b.reply.Some? then b.reply.value else []
  }

  /** The sources in the order in which they are asked. */
  const INQUIRY := [WorkLog, WaitingFor, Reminder, Inbox, UserTask]

  /** The facts as they arrive: the sources in turn, each in its own order. */
  function Arrivals(sources: Source -> Boundary, order: seq<Source>): seq<Candidate>
    decreases |order|
  {
    if order == [] then []
    else Arrivals(sources, order[..|order| - 1]) + Contributed(sources(order[|order| - 1]))
  }

  function AboutDay(zone: Zone, day: int, instant: int, sources: Source -> Boundary): Setting {
    Setting(zone.midnight(day), zone.midnight(day + 1), instant, map s | s in SOURCES :: StatusOf(sources(s)))
  }

  /** `_evaluate`. */
  method Evaluate(source: Source, b: Boundary, before: map<Source, SourceStatus>, output: seq<Candidate>)
    returns (ok: bool, statuses: map<Source, SourceStatus>, extended: seq<Candidate>)
    ensures ok <==> !Fails(b)
    ensures ok ==> statuses == before[source := StatusOf(b)] && extended == output + Contributed(b)
  {
    if !b.enabled {
      return true, before[source := Disabled], output;
    }
    if !b.configured {
      return true, before[source := NotConfigured], output;
    }
    match b.reply
    case None => return false, before, output;
    case Some(facts) => return true, before[source := Available], output + facts;
  }

  /** Its turn in the inquiry. */
  function Turn(s: Source): (t: nat)
    ensures t < |INQUIRY| && INQUIRY[t] == s
  {
    match s
    case WorkLog => 0
    case WaitingFor => 1
    case Reminder => 2
    case Inbox => 3
    case UserTask => 4
  }

  predicate FirstToFail(sources: Source -> Boundary, s: Source) {
    Fails(sources(s)) && forall t | Turn(t) < Turn(s) :: !Fails(sources(t))
  }

  lemma Arriving(sources: Source -> Boundary, order: seq<Source>, next: Source)
    ensures Arrivals(sources, order + [next]) == Arrivals(sources, order) + Contributed(sources(next))
  {
    assert (order + [next])[..|order|] == order;
  }

  lemma FiveArrivals(sources: Source -> Boundary)
    ensures Arrivals(sources, INQUIRY) ==
            [] + Contributed(sources(WorkLog)) + Contributed(sources(WaitingFor)) + Contributed(sources(Reminder))
            + Contributed(sources(Inbox)) + Contributed(sources(UserTask))
  {
    hide Contributed;
    var after1, after2, after3, after4 :=
      [WorkLog], [WorkLog, WaitingFor], [WorkLog, WaitingFor, Reminder], [WorkLog, WaitingFor, Reminder, Inbox];
    Arriving(sources, [], WorkLog);
    Arriving(sources, after1, WaitingFor);
    Arriving(sources, after2, Reminder);
    Arriving(sources, after3, Inbox);
    Arriving(sources, after4, UserTask);
    assert [] + [WorkLog] == after1 && after1 + [WaitingFor] == after2 && after2 + [Reminder] == after3;
    assert after3 + [Inbox] == after4 && after4 + [UserTask] == INQUIRY;
  }

  /** The five calls of `_evaluate`. */
  method Gather(sources: Source -> Boundary)
    returns (failed: Option<Source>, statuses: map<Source, SourceStatus>, candidates: seq<Candidate>)
    ensures failed.Some? ==> FirstToFail(sources, failed.value)
    ensures failed.None? ==>
              && (forall s :: !Fails(sources(s)))
              && statuses == (map s | s in SOURCES :: StatusOf(sources(s)))
              && candidates == Arrivals(sources, INQUIRY)
  {
    hide Fails, Contributed, StatusOf, Arrivals;
    FiveArrivals(sources);
    var ok;
    ok, statuses, candidates := Evaluate(WorkLog, sources(WorkLog), map[], []);
    if !ok { return Some(WorkLog), statuses, candidates; }
    ok, statuses, candidates := Evaluate(WaitingFor, sources(WaitingFor), statuses, candidates);
    if !ok { return Some(WaitingFor), statuses, candidates; }
    ok, statuses, candidates := Evaluate(Reminder, sources(Reminder), statuses, candidates);
    if !ok { return Some(Reminder), statuses, candidates; }
    ok, statuses, candidates := Evaluate(Inbox, sources(Inbox), statuses, candidates);
    if !ok { return Some(Inbox), statuses, candidates; }
    ok, statuses, candidates := Evaluate(UserTask, sources(UserTask), statuses, candidates);
    if !ok { return Some(UserTask), statuses, candidates; }
    forall s
      ensures !Fails(sources(s))
    {
      match s
      case WorkLog =>
      case WaitingFor =>
      case Reminder =>
      case Inbox =>
      case UserTask =>
    }
    return None, statuses, candidates;
  }

  /** What a source gives: its facts, if it is on and there. */
  function Given(b: Boundary): seq<Candidate> {
    if b.enabled && b.configured && b.reply.Some? then b.reply.value else []
  }

  /** The review tells of every source whether it is off, missing or available, and its total is of the facts of all
      of them, taken in the order work log, waiting-for, reminder, inbox, task. */
  predicate TellsOf(r: Review, sources: Source -> Boundary) {
    && (forall s: Source ::
          && s in r.sourceStatus
          && (r.sourceStatus[s].Disabled? <==> !sources(s).enabled)
          && (r.sourceStatus[s].NotConfigured? <==> sources(s).enabled && !sources(s).configured))
    && r.page.total == |Ordered(Given(sources(WorkLog)) + Given(sources(WaitingFor)) + Given(sources(Reminder))
                                + Given(sources(Inbox)) + Given(sources(UserTask)))|
  }

  lemma GivenInTurn(sources: Source -> Boundary)
    ensures Arrivals(sources, INQUIRY) ==
            Given(sources(WorkLog)) + Given(sources(WaitingFor)) + Given(sources(Reminder))
            + Given(sources(Inbox)) + Given(sources(UserTask))
  {
    FiveArrivals(sources);
    assert forall b :: Contributed(b) == Given(b);
    hide Contributed, Given, Arrivals;
    assert [] + Contributed(sources(WorkLog)) == Given(sources(WorkLog));
  }

  lemma StatusesTold(about: Setting, sources: Source -> Boundary, limit: nat, offset: nat)
    requires about.statuses == map s | s in SOURCES :: StatusOf(sources(s))
    ensures TellsOf(ReviewOf(about, Ordered(Arrivals(sources, INQUIRY)), limit, offset), sources)
  {
    GivenInTurn(sources);
    forall s: Source
      ensures s in SOURCES
    {
      assert INQUIRY[Turn(s)] == s;
    }
    hide Arrivals, Ordered, Given, Cut, View;
  }

  /** `get`. One failing source fails the whole review, and the first to fail is named; a source that is off or
      missing is reported as such and contributes nothing. Otherwise there is a valid review of all that was
      contributed, unless the day is one that a change of the calendar has left empty. */
  method Get(enabled: bool, zone: Zone, yesterday: bool, instant: int, sources: Source -> Boundary,
             limit: nat, offset: nat) returns (outcome: Outcome)
    requires 1 <= limit <= 100
    ensures outcome.Unavailable? <==> !enabled
    ensures enabled ==>
              (outcome.SourceFailed? <==> exists s :: sources(s).enabled && sources(s).configured && sources(s).reply.None?)
    ensures outcome.SourceFailed? ==> FirstToFail(sources, outcome.source)
    ensures outcome.Reviewed? ==> TellsOf(outcome.review, sources)
    ensures var day := zone.dayOf(instant) - (if yesterday then 1 else 0);
            && (outcome.Rejected? ==> zone.midnight(day) >= zone.midnight(day + 1))
            && (outcome.Reviewed? ==>
                  && zone.midnight(day) < zone.midnight(day + 1)
                  && outcome.review == ReviewOf(AboutDay(zone, day, instant, sources),
                                                Ordered(Arrivals(sources, INQUIRY)), limit, offset)
                  && ReviewValid(outcome.review))
  {
    hide ReviewOf, ReviewValid, Arrivals, Ordered, TellsOf;
    if !enabled {
      return Unavailable;
    }
    var day := zone.dayOf(instant);
    if yesterday {
      day := day - 1;
    }
    var failed, statuses, candidates := Gather(sources);
    if failed.Some? {
      assert Fails(sources(failed.value));
      return SourceFailed(failed.value);
    }
    var about := Setting(zone.midnight(day), zone.midnight(day + 1), instant, statuses);
    assert about == AboutDay(zone, day, instant, sources);
    StatusesTold(about, sources, limit, offset);
    var review := Finalize(about, candidates, limit, offset);
    return if review.Some? then Reviewed(review.value) else Rejected;
  }

  // ---------- a day that is left out ----------

  /** A zone in hours: on day 30 it moves from ten hours behind to fourteen ahead, and skips that day. */
  const SKIPPING :=
    Zone(t => if t < 730 then (t - 10) / 24 else (t + 14) / 24,
         d => if d <= 30 then 24 * d + 10 else 24 * d - 14)

  /** It is a calendar: every instant is in the day it is said to be in. */
  lemma SkippingIsACalendar(t: int)
    ensures SKIPPING.midnight(SKIPPING.dayOf(t)) <= t < SKIPPING.midnight(SKIPPING.dayOf(t) + 1)
  {
  }

  /** On day 31 the review of today can be had, and the review of yesterday is rejected whatever the sources
      give. */
  lemma YesterdayWasSkipped(sources: Source -> Boundary, ordered: seq<Candidate>, limit: nat, offset: nat)
    requires 1 <= limit <= 100
    ensures SKIPPING.dayOf(740) == 31
    ensures ReviewValid(ReviewOf(AboutDay(SKIPPING, 31, 740, sources), ordered, limit, offset))
    ensures !ReviewValid(ReviewOf(AboutDay(SKIPPING, 30, 740, sources), ordered, limit, offset))
  {
    hide ReviewOf, ReviewValid;
    ReviewIsValid(AboutDay(SKIPPING, 31, 740, sources), ordered, limit, offset);
    ReviewIsValid(AboutDay(SKIPPING, 30, 740, sources), ordered, limit, offset);
  }
}
