/**
 The lifecycle observer of the status cache: one sticky value per agent for its status and one
 for its rate-limit window. Both follow one rule, so the theorem is stated once: over any history
 of polls, arming, operations and forgets, what is reported for an agent is what comparing
 neighbours in its own qualifying observations gives.
 */
module Lifecycle {
  import opened Options

  datatype Status =
    | Alive | SettingUp | Starting | NotAuthenticated | Unprovisioned
    | Restarting | Rebuilding | Stopped | Dead | NotFound
  {
    predicate IsStable() {
      !Starting? && !Restarting? && !Rebuilding?
    }
  }

  datatype Window = Window(window: Option<string>, resetsAt: Option<int>)

  datatype Agent = Agent(name: string, status: Status, rateLimited: Option<Window>)

  /** One pass over the roster. `operated` holds normalized names. */
  datatype Poll = Poll(agents: seq<Agent>, operated: set<string>, gatewayBusy: bool)

  predicate Qualifies(agent: Agent, poll: Poll, normalize: string -> string) {
    !poll.gatewayBusy && normalize(agent.name) !in poll.operated && agent.status.IsStable()
  }

  // ---------------------------------------------------------------- the sticky rule

  /** What is remembered per agent. No entry means never observed since it was last forgotten. */
  type Sticky<V(==)> = map<string, Option<V>>

  type Reports<V> = seq<(string, V)>

  /** First sight is remembered silently; an empty one later changes nothing; a new value is news. */
  function Observe<V(==)>(sticky: Sticky<V>, name: string, value: Option<V>): (Sticky<V>, Reports<V>) {
    if name !in sticky then (sticky[name := value], [])
    else if value.Some? && sticky[name] != value then (sticky[name := value], [(name, value.value)])
    else (sticky, [])
  }

  function ObserveAll<V(==)>(sticky: Sticky<V>, agents: seq<Agent>, poll: Poll, value: Agent -> Option<V>, normalize: string -> string)
    : (Sticky<V>, Reports<V>)
  {
    if agents == [] then (sticky, [])
    else
      var (before, reports) := ObserveAll(sticky, agents[..|agents| - 1], poll, value, normalize);
      var agent := agents[|agents| - 1];
      if !Qualifies(agent, poll, normalize) then (before, reports)
      else
        var (after, news) := Observe(before, agent.name, value(agent));
        (after, reports + news)
  }

  function StatusOf(agent: Agent): Option<Status> {
    Some(agent.status)
  }

  function WindowOf(agent: Agent): Option<Window> {
    agent.rateLimited
  }

  function AsSticky(statuses: map<string, Status>): Sticky<Status> {
    map n | n in statuses :: Some(statuses[n])
  }

  /** Writing every status is the shared rule: an unchanged one is no change. */
  lemma StatusStep(statuses: map<string, Status>, agent: Agent)
    ensures Observe(AsSticky(statuses), agent.name, StatusOf(agent)) ==
      (AsSticky(statuses[agent.name := agent.status]),
       if agent.name in statuses && statuses[agent.name] != agent.status then [(agent.name, agent.status)] else [])
  {
    var written := AsSticky(statuses[agent.name := agent.status]);
    assert written == AsSticky(statuses)[agent.name := Some(agent.status)];
    if agent.name in statuses && statuses[agent.name] == agent.status {
      assert written == AsSticky(statuses);
    }
  }

  class AgentStatusCache {
    const normalize: string -> string
    var stableStatuses: map<string, Status>
    var rateLimitsNotified: map<string, Option<Window>>
    var observing: bool

    constructor (normalize: string -> string)
      ensures this.normalize == normalize && stableStatuses == map[] && rateLimitsNotified == map[] && !observing
    {
      this.normalize := normalize;
      stableStatuses, rateLimitsNotified, observing := map[], map[], false;
    }

    /** The status map in the shape of the shared rule. */
    ghost function Statuses(): Sticky<Status>
      reads this
    {
      AsSticky(stableStatuses)
    }

    method ForgetAgent(name: string)
      modifies this
      ensures Statuses() == old(Statuses()) - {name} && rateLimitsNotified == old(rateLimitsNotified) - {name}
      ensures observing == old(observing)
    {
      stableStatuses := stableStatuses - {name};
      rateLimitsNotified := rateLimitsNotified - {name};
    }

    method BeginObserving()
      modifies this`observing
      ensures observing
    {
      observing := true;
    }

    method StopObserving()
      modifies this`observing
      ensures !observing
    {
      observing := false;
    }

    method ObserveTransitions(poll: Poll) returns (transitions: Reports<Status>)
      modifies this`stableStatuses
      ensures !observing ==> transitions == [] && Statuses() == old(Statuses())
      ensures observing ==>
        (Statuses(), transitions) == ObserveAll(old(Statuses()), poll.agents, poll, StatusOf, normalize)
    {
      hide AsSticky;
      transitions := [];
      if !observing {
        return;
      }
      var agents := poll.agents;
      for i := 0 to |agents|
        invariant (Statuses(), transitions) == ObserveAll(old(Statuses()), agents[..i], poll, StatusOf, normalize)
      {
        assert agents[..i + 1][..i] == agents[..i];
        var agent := agents[i];
        if poll.gatewayBusy || normalize(agent.name) in poll.operated {
          continue;
        }
        if !agent.status.IsStable() {
          continue;
        }
        StatusStep(stableStatuses, agent);
        assert transitions + [] == transitions;
        if agent.name in stableStatuses && stableStatuses[agent.name] != agent.status {
          transitions := transitions + [(agent.name, agent.status)];
        }
        stableStatuses := stableStatuses[agent.name := agent.status];
      }
      assert agents[..|agents|] == agents;
    }

    method ObserveRateLimits(poll: Poll) returns (binding: Reports<Window>)
      modifies this`rateLimitsNotified
      ensures !observing ==> binding == [] && rateLimitsNotified == old(rateLimitsNotified)
      ensures observing ==>
        (rateLimitsNotified, binding) == ObserveAll(old(rateLimitsNotified), poll.agents, poll, WindowOf, normalize)
    {
      binding := [];
      if !observing {
        return;
      }
      var agents := poll.agents;
      for i := 0 to |agents|
        invariant (rateLimitsNotified, binding) == ObserveAll(old(rateLimitsNotified), agents[..i], poll, WindowOf, normalize)
      {
        assert agents[..i + 1][..i] == agents[..i];
        var agent := agents[i];
        if poll.gatewayBusy || normalize(agent.name) in poll.operated {
          continue;
        }
        if !agent.status.IsStable() {
          continue;
        }
        assert binding + [] == binding;
        if agent.name !in rateLimitsNotified {
          rateLimitsNotified := rateLimitsNotified[agent.name := agent.rateLimited];
        } else if agent.rateLimited.Some? {
          if rateLimitsNotified[agent.name] != agent.rateLimited {
            rateLimitsNotified := rateLimitsNotified[agent.name := agent.rateLimited];
            binding := binding + [(agent.name, agent.rateLimited.value)];
          }
        }
      }
      assert agents[..|agents|] == agents;
    }
  }

  // ---------------------------------------------------------------- histories

  datatype Event = Begin | Stop | Forget(name: string) | Polled(poll: Poll)

  /** A history from a fresh cache, newest event last. */
  datatype Run = Start | After(past: Run, event: Event)

  predicate Armed(run: Run) {
    match run
    case Start => false
    case After(_, Begin) => true
    case After(_, Stop) => false
    case After(past, _) => Armed(past)
  }

  /** The cache's map and everything it reported, for either kind of value. */
  function Outcome<V(==)>(run: Run, value: Agent -> Option<V>, normalize: string -> string): (Sticky<V>, Reports<V>) {
    match run
    case Start => (map[], [])
    case After(past, Forget(name)) =>
      var (sticky, reports) := Outcome(past, value, normalize);
      (sticky - {name}, reports)
    case After(past, Polled(poll)) =>
      var (sticky, reports) := Outcome(past, value, normalize);
      if Armed(past) then
        var (after, news) := ObserveAll(sticky, poll.agents, poll, value, normalize);
        (after, reports + news)
      else (sticky, reports)
    case After(past, _) => Outcome(past, value, normalize)
  }

  // ---------------------------------------------------------------- reading the history

  /** One agent's own history: its qualifying observations, cut where it was forgotten. */
  datatype Mark<V> = Seen(value: Option<V>) | Forgotten

  function PollMarks<V>(agents: seq<Agent>, poll: Poll, name: string, value: Agent -> Option<V>, normalize: string -> string): seq<Mark<V>> {
    if agents == [] then []
    else
      var before := PollMarks(agents[..|agents| - 1], poll, name, value, normalize);
      var agent := agents[|agents| - 1];
      if agent.name == name && Qualifies(agent, poll, normalize) then before + [Seen(value(agent))] else before
  }

  function Marks<V>(run: Run, name: string, value: Agent -> Option<V>, normalize: string -> string): seq<Mark<V>> {
    match run
    case Start => []
    case After(past, Forget(n)) =>
      if n == name then Marks(past, name, value, normalize) + [Forgotten] else Marks(past, name, value, normalize)
    case After(past, Polled(poll)) =>
      if Armed(past) then Marks(past, name, value, normalize) + PollMarks(poll.agents, poll, name, value, normalize)
      else Marks(past, name, value, normalize)
    case After(past, _) => Marks(past, name, value, normalize)
  }

  /** An empty observation only matters as the first one. */
  predicate Telling<V(==)>(marks: seq<Mark<V>>, i: nat)
    requires i < |marks|
  {
    marks[i] != Seen(None) || i == 0 || marks[i - 1] == Forgotten
  }

  function Dense<V(==)>(marks: seq<Mark<V>>): seq<Mark<V>> {
    if marks == [] then []
    else
      var n := |marks| - 1;
      if Telling(marks, n) then Dense(marks[..n]) + [marks[n]] else Dense(marks[..n])
  }

  /** The values that differ from the observation right before them. */
  function Changes<V(==)>(marks: seq<Mark<V>>): seq<V> {
    if |marks| < 2 then []
    else
      var n := |marks| - 1;
      match (marks[n - 1], marks[n])
      case (Seen(before), Seen(Some(v))) =>
        if before != Some(v) then Changes(marks[..n]) + [v] else Changes(marks[..n])
      case _ => Changes(marks[..n])
  }

  /** What was reported about one agent. */
  function About<V>(reports: Reports<V>, name: string): seq<V> {
    if reports == [] then []
    else
      var (n, v) := reports[|reports| - 1];
      var before := About(reports[..|reports| - 1], name);
      if n == name then before + [v] else before
  }

  // ---------------------------------------------------------------- the theorem

  /** The sticky map holds an agent's last telling observation, and the reports are its changes. */
  predicate AgreesOn<V(==)>(sticky: Sticky<V>, reports: Reports<V>, name: string, marks: seq<Mark<V>>) {
    var dense := Dense(marks);
    && About(reports, name) == Changes(dense)
    && (name in sticky <==> dense != [] && dense[|dense| - 1].Seen?)
    && (name in sticky ==> dense[|dense| - 1] == Seen(sticky[name]))
    && (dense == [] <==> marks == [])
    && (marks != [] ==> (marks[|marks| - 1].Forgotten? <==> dense[|dense| - 1].Forgotten?))
  }

  lemma DenseSnoc<V>(marks: seq<Mark<V>>, mark: Mark<V>)
    ensures Dense(marks + [mark]) ==
      if mark != Seen(None) || marks == [] || marks[|marks| - 1] == Forgotten then Dense(marks) + [mark] else Dense(marks)
  {
    assert (marks + [mark])[..|marks|] == marks;
  }

  lemma ChangesSnoc<V>(marks: seq<Mark<V>>, mark: Mark<V>)
    ensures Changes(marks + [mark]) ==
      if marks != [] && marks[|marks| - 1].Seen? && mark.Seen? && mark.value.Some? && marks[|marks| - 1] != mark
      then Changes(marks) + [mark.value.value] else Changes(marks)
  {
    assert (marks + [mark])[..|marks|] == marks;
  }

  lemma AboutSnoc<V>(reports: Reports<V>, name: string, other: string, v: V)
    ensures About(reports + [(other, v)], name) == if other == name then About(reports, name) + [v] else About(reports, name)
  {
    assert (reports + [(other, v)])[..|reports|] == reports;
  }

  lemma OneSightOfIt<V>(sticky: Sticky<V>, reports: Reports<V>, name: string, marks: seq<Mark<V>>, value: Option<V>)
    requires AgreesOn(sticky, reports, name, marks)
    ensures var (after, news) := Observe(sticky, name, value);
      AgreesOn(after, reports + news, name, marks + [Seen(value)])
  {
    DenseSnoc(marks, Seen(value));
    ChangesSnoc(Dense(marks), Seen(value));
    var dense := Dense(marks);
    hide Dense, Changes, About;
    if name !in sticky {
      assert Dense(marks + [Seen(value)]) == dense + [Seen(value)];
      assert reports + [] == reports;
    } else if value.Some? && sticky[name] != value {
      AboutSnoc(reports, name, name, value.value);
    } else {
      assert reports + [] == reports;
    }
  }

  lemma OneSight<V>(sticky: Sticky<V>, reports: Reports<V>, name: string, marks: seq<Mark<V>>, other: string, value: Option<V>)
    requires AgreesOn(sticky, reports, name, marks)
    ensures var (after, news) := Observe(sticky, other, value);
      AgreesOn(after, reports + news, name, if other == name then marks + [Seen(value)] else marks)
  {
    if other == name {
      OneSightOfIt(sticky, reports, name, marks, value);
    } else {
      if value.Some? { AboutSnoc(reports, name, other, value.value); }
      assert reports + [] == reports;
      hide Dense, Changes, About;
    }
  }

  lemma OneForget<V>(sticky: Sticky<V>, reports: Reports<V>, name: string, marks: seq<Mark<V>>)
    requires AgreesOn(sticky, reports, name, marks)
    ensures AgreesOn(sticky - {name}, reports, name, marks + [Forgotten])
  {
    DenseSnoc(marks, Forgotten);
    ChangesSnoc(Dense(marks), Forgotten);
  }

  lemma {:induction false} OnePoll<V>(sticky: Sticky<V>, reports: Reports<V>, name: string, marks: seq<Mark<V>>,
                                      agents: seq<Agent>, poll: Poll, value: Agent -> Option<V>, normalize: string -> string)
    requires AgreesOn(sticky, reports, name, marks)
    ensures var (after, news) := ObserveAll(sticky, agents, poll, value, normalize);
      AgreesOn(after, reports + news, name, marks + PollMarks(agents, poll, name, value, normalize))
  {
    hide AgreesOn;
    if agents == [] {
      assert reports + [] == reports && marks + [] == marks;
    } else {
      var front, agent := agents[..|agents| - 1], agents[|agents| - 1];
      OnePoll(sticky, reports, name, marks, front, poll, value, normalize);
      if Qualifies(agent, poll, normalize) {
        var (before, news) := ObserveAll(sticky, front, poll, value, normalize);
        var marked := PollMarks(front, poll, name, value, normalize);
        OneSight(before, reports + news, name, marks + marked, agent.name, value(agent));
        var more := Observe(before, agent.name, value(agent)).1;
        assert reports + news + more == reports + (news + more);
        assert marks + marked + [Seen(value(agent))] == marks + (marked + [Seen(value(agent))]);
      }
    }
  }

  /** Over every history, an agent is reported exactly when its own telling observations change. */
  lemma {:induction false} ReportsAreChanges<V>(run: Run, name: string, value: Agent -> Option<V>, normalize: string -> string)
    ensures var (sticky, reports) := Outcome(run, value, normalize);
      AgreesOn(sticky, reports, name, Marks(run, name, value, normalize))
  {
    match run
    case Start =>
    case After(past, event) =>
      ReportsAreChanges(past, name, value, normalize);
      var (sticky, reports) := Outcome(past, value, normalize);
      var marks := Marks(past, name, value, normalize);
      match event
      case Begin =>
      case Stop =>
      case Forget(n) => if n == name { OneForget(sticky, reports, name, marks); }
      case Polled(poll) =>
        if Armed(past) {
          OnePoll(sticky, reports, name, marks, poll.agents, poll, value, normalize);
        }
  }

  /** The agent is in none of the passing statuses, and nothing operates on it or on the gateway. */
  predicate Settled(agent: Agent, poll: Poll, normalize: string -> string) {
    && agent.status != Starting && agent.status != Restarting && agent.status != Rebuilding
    && normalize(agent.name) !in poll.operated && !poll.gatewayBusy
  }

  ghost predicate SettledNamed(agents: seq<Agent>, poll: Poll, normalize: string -> string, name: string) {
    exists i :: 0 <= i < |agents| && agents[i].name == name && Settled(agents[i], poll, normalize)
  }

  ghost predicate SettledAt<V>(
    agents: seq<Agent>, poll: Poll, value: Agent -> Option<V>, normalize: string -> string, name: string, v: Option<V>)
  {
    exists i :: 0 <= i < |agents| && agents[i].name == name && Settled(agents[i], poll, normalize) && value(agents[i]) == v
  }

  /** A poll reports only what a settled agent shows, remembers every settled agent, and leaves the memory of others alone. */
  lemma {:induction false} PollsSeeSettledAgentsOnly<V>(
    sticky: Sticky<V>, agents: seq<Agent>, poll: Poll, value: Agent -> Option<V>, normalize: string -> string, name: string)
    ensures
      var (after, news) := ObserveAll(sticky, agents, poll, value, normalize);
      && (forall v | (name, v) in news :: SettledAt(agents, poll, value, normalize, name, Some(v)))
      && (SettledNamed(agents, poll, normalize, name) ==> name in after)
      && (!SettledNamed(agents, poll, normalize, name) ==>
            (name in after <==> name in sticky) && (name in after ==> after[name] == sticky[name]))
  {
    if agents != [] {
      var front, agent := agents[..|agents| - 1], agents[|agents| - 1];
      PollsSeeSettledAgentsOnly(sticky, front, poll, value, normalize, name);
      var (before, reports) := ObserveAll(sticky, front, poll, value, normalize);
      SettledOneMore(front, agent, poll, value, normalize, name);
      assert agents == front + [agent];
      assert Qualifies(agent, poll, normalize) <==> Settled(agent, poll, normalize);
      hide ObserveAll, SettledAt, SettledNamed, Settled, Qualifies;
    }
  }

  lemma SettledOneMore<V>(
    front: seq<Agent>, agent: Agent, poll: Poll, value: Agent -> Option<V>, normalize: string -> string, name: string)
    ensures SettledNamed(front + [agent], poll, normalize, name) <==>
      SettledNamed(front, poll, normalize, name) || (agent.name == name && Settled(agent, poll, normalize))
    ensures forall v :: SettledAt(front + [agent], poll, value, normalize, name, v) <==>
      SettledAt(front, poll, value, normalize, name, v) || (agent.name == name && Settled(agent, poll, normalize) && value(agent) == v)
  {
    var all := front + [agent];
    hide Settled;
    assert all[|front|] == agent && forall i | 0 <= i < |front| :: all[i] == front[i];
    forall v ensures SettledAt(all, poll, value, normalize, name, v) <==>
      SettledAt(front, poll, value, normalize, name, v) || (agent.name == name && Settled(agent, poll, normalize) && value(agent) == v)
    {
      if i :| 0 <= i < |front| && front[i].name == name && Settled(front[i], poll, normalize) && value(front[i]) == v {
        assert all[i] == front[i];
      }
    }
    if i :| 0 <= i < |front| && front[i].name == name && Settled(front[i], poll, normalize) {
      assert all[i] == front[i];
    }
  }

  /** No status observation is empty, so for transitions nothing is dropped. */
  lemma {:induction false} StatusesAreDense(marks: seq<Mark<Status>>)
    requires forall i | 0 <= i < |marks| :: marks[i] != Seen(None)
    ensures Dense(marks) == marks
  {
    if marks != [] {
      StatusesAreDense(marks[..|marks| - 1]);
    }
  }

  lemma {:induction false} StatusMarksAreFull(run: Run, name: string, normalize: string -> string)
    ensures forall i | 0 <= i < |Marks(run, name, StatusOf, normalize)| :: Marks(run, name, StatusOf, normalize)[i] != Seen(None)
  {
    match run
    case Start =>
    case After(past, event) =>
      StatusMarksAreFull(past, name, normalize);
      if event.Polled? { StatusPollMarksAreFull(event.poll.agents, event.poll, name, normalize); }
  }

  lemma {:induction false} StatusPollMarksAreFull(agents: seq<Agent>, poll: Poll, name: string, normalize: string -> string)
    ensures forall i | 0 <= i < |PollMarks(agents, poll, name, StatusOf, normalize)| ::
      PollMarks(agents, poll, name, StatusOf, normalize)[i] != Seen(None)
  {
    if agents != [] {
      StatusPollMarksAreFull(agents[..|agents| - 1], poll, name, normalize);
    }
  }

  /** The transitions reported for an agent: the adjacent changes of its qualifying statuses. */
  lemma TransitionsAreAdjacentChanges(run: Run, name: string, normalize: string -> string)
    ensures About(Outcome(run, StatusOf, normalize).1, name) == Changes(Marks(run, name, StatusOf, normalize))
  {
    ReportsAreChanges(run, name, StatusOf, normalize);
    StatusMarksAreFull(run, name, normalize);
    StatusesAreDense(Marks(run, name, StatusOf, normalize));
  }

  /** The windows reported for an agent: the same, over its telling observations. */
  lemma RateLimitsAreAdjacentChanges(run: Run, name: string, normalize: string -> string)
    ensures About(Outcome(run, WindowOf, normalize).1, name) == Changes(Dense(Marks(run, name, WindowOf, normalize)))
  {
    ReportsAreChanges(run, name, WindowOf, normalize);
  }
}
