/**
 The device registry: records, live connection counts, the published roster and the flush permit.

 The methods of `DeviceRegistry` change the four fields in place; `Step` says what each does to
 their values, and the theorems hold over every run of steps.
 */
module DeviceRegistry {
  import opened Options
  import opened Ordering

  datatype ClientKind = Web | Mobile | Desktop | Unknown
  {
    function DisplayName(): string {
      match this
      case Web => "Vesta Web App"
      case Mobile => "Vesta Mobile App"
      case Desktop => "Vesta Desktop App"
      case Unknown => "Vesta App"
    }
  }

  /** A push subscription; `details` stands for platform, gateway, event types and previews. */
  datatype Push = Push(token: string, registeredAt: nat, details: nat)

  /** A position, by the number of the fix that reported it. */
  type Position = nat

  datatype PositionReport = At(position: Position) | Retract
  {
    function Reported(): Option<Position> {
      if At? then Some(position) else None
    }
  }

  datatype Record = Record(
    kind: ClientKind, descriptor: Option<string>, lastSeen: nat, push: Option<Push>,
    timezone: Option<string>, position: Option<Position>, positionAt: Option<nat>)
  {
    predicate IsEmpty() {
      descriptor.None? && push.None? && timezone.None? && position.None?
    }

    predicate Holds(tokens: set<string>) {
      push.Some? && push.value.token in tokens
    }

    function Label(): string {
      if descriptor.Some? then descriptor.value else kind.DisplayName()
    }
  }

  const BLANK := Record(Unknown, None, 0, None, None, None, None)

  type Devices = map<string, Record>

  type Counts = map<string, nat>

  /** What `/sync` clients are sent about one device. It carries no push token. */
  datatype DeviceInfo = DeviceInfo(
    id: string, kind: ClientKind, descriptor: Option<string>, present: bool, lastSeen: string,
    pushEnabled: bool, timezone: Option<string>, position: Option<Position>, positionAt: Option<string>)

  /** Rendering an epoch second; nothing when it is out of range. */
  type Clock = nat -> Option<string>

  // ---------------------------------------------------------------- the roster

  function Info(id: string, record: Record, present: bool, clock: Clock): DeviceInfo {
    DeviceInfo(id, record.kind, record.descriptor, present,
      if clock(record.lastSeen).Some? then clock(record.lastSeen).value else "",
      record.push.Some?, record.timezone, record.position,
      if record.positionAt.Some? then clock(record.positionAt.value) else None)
  }

  predicate Live(live: Counts, id: string) {
    id in live && live[id] > 0
  }

  function Ids(roster: seq<DeviceInfo>): seq<string> {
    seq(|roster|, i requires 0 <= i < |roster| => roster[i].id)
  }

  /** One entry a record, in id order, no id twice. */
  function Project(devices: Devices, live: Counts, clock: Clock): (roster: seq<DeviceInfo>)
    ensures StrictlySorted(Ids(roster))
    ensures forall id :: id in Ids(roster) <==> id in devices
    ensures forall info | info in roster ::
      info.id in devices && info == Info(info.id, devices[info.id], Live(live, info.id), clock)
  {
    var ids := Sorted(devices.Keys);
    assert forall i | 0 <= i < |ids| :: ids[i] in ids;
    Listing(ids, devices, live, clock)
  }

  /** The entries of `ids`, in that order. */
  function Listing(ids: seq<string>, devices: Devices, live: Counts, clock: Clock): (roster: seq<DeviceInfo>)
    requires forall i | 0 <= i < |ids| :: ids[i] in devices
    ensures Ids(roster) == ids
    ensures forall info | info in roster ::
      info.id in devices && info == Info(info.id, devices[info.id], Live(live, info.id), clock)
  {
    var roster := seq(|ids|, i requires 0 <= i < |ids| => Info(ids[i], devices[ids[i]], Live(live, ids[i]), clock));
    assert Ids(roster) == ids;
    roster
  }

  // ---------------------------------------------------------------- steps

  datatype State = State(devices: Devices, live: Counts, published: seq<DeviceInfo>, permit: bool)

  datatype Event =
    | Connected(id: string, kind: ClientKind, descriptor: Option<string>, now: nat)
    | Reported(id: string, timezone: Option<string>, position: Option<PositionReport>, now: nat)
    | Disconnected(id: string, now: nat)
    | PushRegistered(id: string, push: Push)
    | PushCleared(token: string, owner: Option<string>)  // the owner the map iteration met first
    | PushesPruned(tokens: set<string>)
    | Woken  // the flusher takes the permit
    | Restarted(saved: Devices)  // a new process reads what the file holds, perhaps an older state or nothing

  function Known(devices: Devices, id: string): Record {
    if id in devices then devices[id] else BLANK
  }

  /** The record after a connection reports its identity. */
  function Identified(record: Record, kind: ClientKind, descriptor: Option<string>, now: nat): Record {
    record.(kind := kind, descriptor := if descriptor.Some? then descriptor else record.descriptor, lastSeen := now)
  }

  /** The record after a report: absent fields keep, a position is stamped when it changes. */
  function Situated(record: Record, timezone: Option<string>, position: Option<PositionReport>, now: nat): Record {
    var zoned := if timezone.Some? then record.(timezone := timezone) else record;
    if position.Some? && record.position != position.value.Reported() then
      zoned.(position := position.value.Reported(), positionAt := if position.value.At? then Some(now) else None)
    else zoned
  }

  function Subscribed(record: Record, push: Push): Record {
    record.(
      kind := if record.descriptor.None? && record.push.None? then Mobile else record.kind,
      lastSeen := if record.lastSeen == 0 then push.registeredAt else record.lastSeen,
      push := Some(push))
  }

  function CountUp(live: Counts, id: string): Counts {
    live[id := if id in live then live[id] + 1 else 1]
  }

  /** A saturating decrement; a count that reaches zero is dropped. */
  function CountDown(live: Counts, id: string): Counts {
    if id in live && live[id] > 1 then live[id := live[id] - 1] else live - {id}
  }

  /** Whether a record that loses its push facet is worth keeping. */
  predicate Survives(record: Record, id: string, live: Counts) {
    !record.(push := None).IsEmpty() || id in live
  }

  /** Dropping the push facet of `owners`. */
  function WithoutPush(devices: Devices, live: Counts, owners: set<string>): Devices {
    map id | id in devices && (id in owners ==> Survives(devices[id], id, live)) ::
      if id in owners then devices[id].(push := None) else devices[id]
  }

  function Holders(devices: Devices, tokens: set<string>): set<string> {
    set id | id in devices && devices[id].Holds(tokens)
  }

  function Publish(devices: Devices, live: Counts, clock: Clock): State {
    State(devices, live, Project(devices, live, clock), true)
  }

  function Step(s: State, e: Event, clock: Clock): State {
    match e
    case Connected(id, kind, descriptor, now) =>
      Publish(s.devices[id := Identified(Known(s.devices, id), kind, descriptor, now)], CountUp(s.live, id), clock)
    case Reported(id, timezone, position, now) =>
      if id !in s.devices || Situated(s.devices[id], timezone, position, now) == s.devices[id] then s
      else Publish(s.devices[id := Situated(s.devices[id], timezone, position, now)], s.live, clock)
    case Disconnected(id, now) =>
      var live := CountDown(s.live, id);
      if id in live || id !in s.devices then Publish(s.devices, live, clock)
      else Publish(s.devices[id := s.devices[id].(lastSeen := now)], live, clock)
    case PushRegistered(id, push) =>
      Publish(s.devices[id := Subscribed(Known(s.devices, id), push)], s.live, clock)
    case PushCleared(_, owner) =>
      Publish(WithoutPush(s.devices, s.live, if owner.Some? then {owner.value} else {}), s.live, clock)
    case PushesPruned(tokens) =>
      Publish(WithoutPush(s.devices, s.live, Holders(s.devices, tokens)), s.live, clock)
    case Woken => s.(permit := false)
    case Restarted(saved) => Loaded(saved, clock)
  }

  /** The opening state: no connection is live, and the roster is published. */
  function Loaded(devices: Devices, clock: Clock): State {
    State(devices, map[], Project(devices, map[], clock), false)
  }

  /** Whether a connection is reported as the first sighting of its device. */
  predicate FirstSighting(s: State, e: Event) {
    e.Connected? && e.id !in s.devices
  }

  /** The map iteration finds a holder when there is one. */
  predicate MeetsAHolder(devices: Devices, token: string, owner: Option<string>) {
    if owner.Some? then owner.value in Holders(devices, {token}) else Holders(devices, {token}) == {}
  }

  // ---------------------------------------------------------------- the registry as an object

  class DeviceRegistry {
    const clock: Clock
    var devices: Devices
    var liveCounts: Counts
    var published: seq<DeviceInfo>
    var permit: bool

    constructor Load(devices: Devices, clock: Clock)
      ensures Value() == Loaded(devices, clock) && this.clock == clock
    {
      this.devices, this.clock := devices, clock;
      liveCounts, permit := map[], false;
      published := Project(devices, map[], clock);
    }

    ghost function Value(): State
      reads this
    {
      State(devices, liveCounts, published, permit)
    }

    method Republish()
      modifies this`published, this`permit
      ensures Value() == Publish(devices, liveCounts, clock)
    {
      published := Project(devices, liveCounts, clock);
      permit := true;
    }

    method MarkConnected(id: string, kind: ClientKind, descriptor: Option<string>, now: nat) returns (firstSighting: bool)
      modifies this
      ensures Value() == Step(old(Value()), Connected(id, kind, descriptor, now), clock)
      ensures firstSighting <==> FirstSighting(old(Value()), Connected(id, kind, descriptor, now))
    {
      hide Project;
      if id !in liveCounts {
        liveCounts := liveCounts[id := 0];
      }
      liveCounts := liveCounts[id := liveCounts[id] + 1];
      assert liveCounts == CountUp(old(liveCounts), id);
      firstSighting := id !in devices;
      var record := if id in devices then devices[id] else BLANK;
      record := record.(kind := kind);
      if descriptor.Some? {
        record := record.(descriptor := descriptor);
      }
      record := record.(lastSeen := now);
      devices := devices[id := record];
      Republish();
    }

    method ReportContext(id: string, timezone: Option<string>, position: Option<PositionReport>, now: nat)
      returns (name: Option<string>)
      modifies this
      ensures Value() == Step(old(Value()), Reported(id, timezone, position, now), clock)
      ensures name.Some? <==> id in old(devices)
      ensures name.Some? ==>
        var record := old(devices)[id];
        name.value == if record.descriptor.Some? then record.descriptor.value
                      else match record.kind
                        case Web => "Vesta Web App" case Mobile => "Vesta Mobile App"
                        case Desktop => "Vesta Desktop App" case Unknown => "Vesta App"
    {
      hide Project;
      if id !in devices {
        return None;
      }
      var record := devices[id];
      name := Some(record.Label());
      var changed := false;
      if timezone.Some? && record.timezone != timezone {
        record := record.(timezone := timezone);
        changed := true;
      }
      if position.Some? {
        var reported := position.value.Reported();
        if record.position != reported {
          record := record.(positionAt := if reported.Some? then Some(now) else None, position := reported);
          changed := true;
        }
      }
      assert record == Situated(devices[id], timezone, position, now);
      if changed {
        devices := devices[id := record];
        Republish();
      }
    }

    method MarkDisconnected(id: string, now: nat)
      modifies this
      ensures Value() == Step(old(Value()), Disconnected(id, now), clock)
    {
      hide Project;
      var remaining := 0;
      if id in liveCounts {
        remaining := if liveCounts[id] == 0 then 0 else liveCounts[id] - 1;
        liveCounts := liveCounts[id := remaining];
      }
      if remaining == 0 {
        liveCounts := liveCounts - {id};
        if id in devices {
          devices := devices[id := devices[id].(lastSeen := now)];
        }
      }
      assert liveCounts == CountDown(old(liveCounts), id);
      Republish();
    }

    method UpsertPush(id: string, push: Push)
      modifies this
      ensures Value() == Step(old(Value()), PushRegistered(id, push), clock)
    {
      hide Project;
      var record := if id in devices then devices[id] else BLANK;
      if record.descriptor.None? && record.push.None? {
        record := record.(kind := Mobile);
      }
      if record.lastSeen == 0 {
        record := record.(lastSeen := push.registeredAt);
      }
      devices := devices[id := record.(push := Some(push))];
      Republish();
    }

    method DropPush(id: string)
      modifies this`devices
      ensures devices == WithoutPush(old(devices), liveCounts, {id})
    {
      if id in devices {
        var record := devices[id].(push := None);
        devices := devices[id := record];
        if record.IsEmpty() && id !in liveCounts {
          devices := devices - {id};
        }
      }
    }

    method ClearPushByToken(token: string) returns (ghost owner: Option<string>)
      modifies this
      ensures MeetsAHolder(old(devices), token, owner)
      ensures Value() == Step(old(Value()), PushCleared(token, owner), clock)
    {
      hide Project;
      var holders := Holders(devices, {token});
      if holders != {} {
        var id :| id in holders;
        DropPush(id);
        owner := Some(id);
      } else {
        owner := None;
        WithoutPushOfNone(devices, liveCounts);
      }
      Republish();
    }

    /** Dropping the push facet of each owner, in whatever order the map gave them. */
    method DropOwners(owners: set<string>)
      modifies this`devices
      ensures devices == WithoutPush(old(devices), liveCounts, owners)
    {
      hide WithoutPush;
      var rest := owners;
      WithoutPushOfNone(devices, liveCounts);
      assert owners - rest == {};
      while rest != {}
        invariant rest <= owners && devices == WithoutPush(old(devices), liveCounts, owners - rest)
        decreases |rest|
      {
        var id :| id in rest;
        DropPush(id);
        WithoutPushOneMore(old(devices), liveCounts, owners - rest, id);
        assert owners - (rest - {id}) == (owners - rest) + {id};
        rest := rest - {id};
      }
      assert owners - {} == owners;
    }

    method PrunePushTokens(tokens: set<string>)
      modifies this
      ensures Value() == Step(old(Value()), PushesPruned(tokens), clock)
    {
      hide Project, WithoutPush, Holders;
      DropOwners(Holders(devices, tokens));
      Republish();
    }
  }

  lemma WithoutPushOfNone(devices: Devices, live: Counts)
    ensures WithoutPush(devices, live, {}) == devices
  {
  }

  lemma WithoutPushOneMore(devices: Devices, live: Counts, done: set<string>, id: string)
    requires id !in done
    ensures WithoutPush(WithoutPush(devices, live, done), live, {id}) == WithoutPush(devices, live, done + {id})
  {
  }

  // ---------------------------------------------------------------- every run

  datatype Run = Start(devices: Devices) | After(past: Run, event: Event)

  function Reached(run: Run, clock: Clock): State {
    match run
    case Start(devices) => Loaded(devices, clock)
    case After(past, event) => Step(Reached(past, clock), event, clock)
  }

  ghost predicate Current(s: State, clock: Clock) {
    s.published == Project(s.devices, s.live, clock)
  }

  lemma StepKeepsCurrent(s: State, e: Event, clock: Clock)
    requires Current(s, clock)
    ensures Current(Step(s, e, clock), clock)
  {
    hide Project, Situated, WithoutPush, Identified, Subscribed;
  }

  /** The last published roster is the projection of the current state. */
  lemma {:induction false} RosterIsCurrent(run: Run, clock: Clock)
    ensures Current(Reached(run, clock), clock)
  {
    hide Project, Step;
    match run
    case Start(_) =>
    case After(past, event) =>
      RosterIsCurrent(past, clock);
      StepKeepsCurrent(Reached(past, clock), event, clock);
  }

  ghost predicate LiveAreKnown(s: State) {
    forall id | id in s.live :: id in s.devices && s.live[id] > 0
  }

  lemma StepKeepsLiveKnown(s: State, e: Event, clock: Clock)
    requires LiveAreKnown(s)
    ensures LiveAreKnown(Step(s, e, clock))
  {
    hide Project, Situated, Identified, Subscribed;
  }

  /** Every live id has a record, and no count rests at zero. */
  lemma {:induction false} LiveHasRecord(run: Run, clock: Clock)
    ensures LiveAreKnown(Reached(run, clock))
  {
    hide Project, Step, LiveAreKnown;
    match run
    case Start(_) => assert LiveAreKnown(Reached(run, clock)) by { LiveAreKnownAtStart(run.devices, clock); }
    case After(past, event) =>
      LiveHasRecord(past, clock);
      StepKeepsLiveKnown(Reached(past, clock), event, clock);
  }

  lemma LiveAreKnownAtStart(devices: Devices, clock: Clock)
    ensures LiveAreKnown(Loaded(devices, clock))
  {
  }

  function Count(live: Counts, id: string): nat {
    if id in live then live[id] else 0
  }

  lemma StepCount(s: State, e: Event, clock: Clock, id: string)
    requires LiveAreKnown(s)
    ensures Count(Step(s, e, clock).live, id) ==
      if e.Connected? && e.id == id then Count(s.live, id) + 1
      else if e.Disconnected? && e.id == id then (if Count(s.live, id) == 0 then 0 else Count(s.live, id) - 1)
      else if e.Restarted? then 0
      else Count(s.live, id)
  {
    hide Project, Situated, WithoutPush, Identified, Subscribed;
  }

  // ---------------------------------------------------------------- presence

  /** How many events there were since the process started. */
  function Length(run: Run): nat {
    match run
    case Start(_) => 0
    case After(_, Restarted(_)) => 0
    case After(past, _) => Length(past) + 1
  }

  /** Connects minus disconnects of `id` in the last `k` events of the process. */
  function Surplus(run: Run, id: string, k: nat): int
    requires k <= Length(run)
  {
    if k == 0 then 0
    else
      Surplus(run.past, id, k - 1) +
      (if run.event.Connected? && run.event.id == id then 1
       else if run.event.Disconnected? && run.event.id == id then -1
       else 0)
  }

  /** The live count is the largest surplus over all recent stretches of the run. */
  lemma {:induction false} CountIsLargestSurplus(run: Run, id: string, clock: Clock) returns (k: nat)
    ensures k <= Length(run) && Surplus(run, id, k) == Count(Reached(run, clock).live, id)
    ensures forall j: nat | j <= Length(run) :: Surplus(run, id, j) <= Count(Reached(run, clock).live, id)
  {
    hide Project, Step, LiveAreKnown;
    match run
    case Start(_) => k := 0;
    case After(past, Restarted(saved)) =>
      LiveHasRecord(past, clock);
      StepCount(Reached(past, clock), run.event, clock, id);
      k := 0;
    case After(past, event) =>
      var k' := CountIsLargestSurplus(past, id, clock);
      LiveHasRecord(past, clock);
      StepCount(Reached(past, clock), event, clock, id);
      forall j: nat | j <= Length(run)
        ensures Surplus(run, id, j) <= Count(Reached(run, clock).live, id)
      {
        if j > 0 { assert Surplus(past, id, j - 1) <= Count(Reached(past, clock).live, id); }
      }
      k := if Surplus(run, id, k' + 1) == Count(Reached(run, clock).live, id) then k' + 1 else 0;
  }

  ghost predicate Ahead(run: Run, id: string, k: nat) {
    k <= Length(run) && Surplus(run, id, k) > 0
  }

  /** A device is shown present exactly while, over some recent stretch, its connects outnumber its disconnects. */
  lemma PresentWhileConnected(run: Run, clock: Clock, info: DeviceInfo)
    requires info in Reached(run, clock).published
    ensures info.present <==> exists k: nat :: Ahead(run, info.id, k)
  {
    hide Step, Surplus;
    RosterIsCurrent(run, clock);
    var k := CountIsLargestSurplus(run, info.id, clock);
    if info.present { assert Ahead(run, info.id, k); }
  }

  /** No disconnect without a connect before it. */
  ghost predicate Paired(run: Run, id: string) {
    Surplus(run, id, Length(run)) >= 0 && (run.After? && !run.event.Restarted? ==> Paired(run.past, id))
  }

  /** When disconnects pair up, the count is the whole run's surplus. */
  lemma {:induction false} PairedCount(run: Run, id: string, clock: Clock)
    requires Paired(run, id)
    ensures Count(Reached(run, clock).live, id) == Surplus(run, id, Length(run))
  {
    hide Project, Step, LiveAreKnown;
    match run
    case Start(_) =>
    case After(past, Restarted(saved)) =>
      LiveHasRecord(past, clock);
      StepCount(Reached(past, clock), run.event, clock, id);
    case After(past, event) =>
      PairedCount(past, id, clock);
      LiveHasRecord(past, clock);
      StepCount(Reached(past, clock), event, clock, id);
  }

  // ---------------------------------------------------------------- connections

  /** Which device each open `/sync` connection is attached to. */
  type Guards = map<nat, string>

  datatype Session =
    | Opening(devices: Devices)
    | Attached(past: Session, conn: nat, id: string, kind: ClientKind, descriptor: Option<string>, now: nat)
    | Detached(past: Session, conn: nat, now: nat)
    | Other(past: Session, event: Event)
    | Reopened(past: Session, saved: Devices)

  /** A guard attaches only when it holds nothing, and detaching takes what it held. */
  function GuardsOf(session: Session): Guards {
    match session
    case Opening(_) => map[]
    case Attached(past, conn, id, _, _, _) => GuardsOf(past)[conn := id]
    case Detached(past, conn, _) => GuardsOf(past) - {conn}
    case Other(past, _) => GuardsOf(past)
    case Reopened(_, _) => map[]
  }

  function RunOf(session: Session): Run {
    match session
    case Opening(devices) => Start(devices)
    case Attached(past, conn, id, kind, descriptor, now) => After(RunOf(past), Connected(id, kind, descriptor, now))
    case Detached(past, conn, now) =>
      if conn in GuardsOf(past) then After(RunOf(past), Disconnected(GuardsOf(past)[conn], now)) else RunOf(past)
    case Other(past, event) => After(RunOf(past), event)
    case Reopened(past, saved) => After(RunOf(past), Restarted(saved))
  }

  ghost predicate ThroughGuards(session: Session) {
    match session
    case Opening(_) => true
    case Attached(past, conn, _, _, _, _) => ThroughGuards(past) && conn !in GuardsOf(past)
    case Detached(past, _, _) => ThroughGuards(past)
    case Other(past, event) => ThroughGuards(past) && !event.Connected? && !event.Disconnected? && !event.Restarted?
    case Reopened(past, _) => ThroughGuards(past)
  }

  function Holding(guards: Guards, id: string): set<nat> {
    set conn | conn in guards && guards[conn] == id
  }

  /** The live count of a device is the number of open connections attached to it. */
  lemma {:induction false} CountIsOpenConnections(session: Session, id: string, clock: Clock)
    requires ThroughGuards(session)
    ensures Count(Reached(RunOf(session), clock).live, id) == |Holding(GuardsOf(session), id)|
  {
    hide Project, Step, LiveAreKnown;
    match session
    case Opening(_) => assert Holding(map[], id) == {};
    case Attached(past, conn, to, kind, descriptor, now) =>
      CountIsOpenConnections(past, id, clock);
      LiveHasRecord(RunOf(past), clock);
      StepCount(Reached(RunOf(past), clock), Connected(to, kind, descriptor, now), clock, id);
      HoldingAfterAttach(GuardsOf(past), conn, to, id);
    case Detached(past, conn, now) =>
      CountIsOpenConnections(past, id, clock);
      HoldingAfterDetach(GuardsOf(past), conn, id);
      if conn in GuardsOf(past) {
        LiveHasRecord(RunOf(past), clock);
        StepCount(Reached(RunOf(past), clock), Disconnected(GuardsOf(past)[conn], now), clock, id);
      }
    case Other(past, event) =>
      CountIsOpenConnections(past, id, clock);
      LiveHasRecord(RunOf(past), clock);
      StepCount(Reached(RunOf(past), clock), event, clock, id);
    case Reopened(past, saved) =>
      LiveHasRecord(RunOf(past), clock);
      StepCount(Reached(RunOf(past), clock), Restarted(saved), clock, id);
      assert Holding(map[], id) == {};
  }

  lemma HoldingAfterAttach(guards: Guards, conn: nat, to: string, id: string)
    requires conn !in guards
    ensures |Holding(guards[conn := to], id)| == |Holding(guards, id)| + if to == id then 1 else 0
  {
    assert Holding(guards[conn := to], id) == if to == id then Holding(guards, id) + {conn} else Holding(guards, id);
  }

  lemma HoldingAfterDetach(guards: Guards, conn: nat, id: string)
    ensures |Holding(guards - {conn}, id)| ==
      |Holding(guards, id)| - if conn in guards && guards[conn] == id then 1 else 0
  {
    assert Holding(guards - {conn}, id) == Holding(guards, id) - {conn};
  }

  /** The roster shows a device present exactly while some open connection is attached to it. */
  lemma PresentWhileAttached(session: Session, clock: Clock, info: DeviceInfo)
    requires ThroughGuards(session) && info in Reached(RunOf(session), clock).published
    ensures info.present <==> Holding(GuardsOf(session), info.id) != {}
  {
    hide Step, RunOf, GuardsOf, Reached, Holding, ThroughGuards;
    RosterIsCurrent(RunOf(session), clock);
    CountIsOpenConnections(session, info.id, clock);
  }

  // ---------------------------------------------------------------- positions

  /** The device's last accepted report of a position. */
  function LastPosition(run: Run, id: string, clock: Clock): Option<Position> {
    match run
    case Start(devices) => Known(devices, id).position
    case After(past, event) =>
      if event.Restarted? then Known(event.saved, id).position
      else if ReportsPosition(event, id) && id in Reached(past, clock).devices then event.position.value.Reported()
      else LastPosition(past, id, clock)
  }

  /** When the standing position was first reported; none while none stands. */
  function StandingSince(run: Run, id: string, clock: Clock): Option<nat> {
    match run
    case Start(devices) => Known(devices, id).positionAt
    case After(past, event) =>
      if event.Restarted? then Known(event.saved, id).positionAt
      else if Drops(Reached(past, clock), event, id) then None
      else if LastPosition(run, id, clock) == LastPosition(past, id, clock) then StandingSince(past, id, clock)
      else if LastPosition(run, id, clock).Some? && event.Reported? then Some(event.now)
      else None
  }

  /** A record read from the file stamps its position, if it has one. */
  ghost predicate Stamped(run: Run) {
    match run
    case Start(devices) => forall id | id in devices :: StampedRecord(devices[id])
    case After(past, event) =>
      Stamped(past) && (event.Restarted? ==> forall id | id in event.saved :: StampedRecord(event.saved[id]))
  }

  ghost predicate StampedRecord(record: Record) {
    record.positionAt.Some? <==> record.position.Some?
  }

  predicate ReportsPosition(e: Event, id: string) {
    e.Reported? && e.id == id && e.position.Some?
  }

  /** Only a report of a known device moves its position. */
  lemma StepPosition(s: State, e: Event, clock: Clock, id: string)
    requires !e.Restarted?
    ensures
      var before, after := Known(s.devices, id), Known(Step(s, e, clock).devices, id);
      && (StampedRecord(before) ==> StampedRecord(after))
      && after.position ==
        (if ReportsPosition(e, id) && id in s.devices then e.position.value.Reported() else before.position)
      && after.positionAt ==
        (if Drops(s, e, id) then None
         else if after.position == before.position then before.positionAt
         else if after.position.Some? && e.Reported? then Some(e.now)
         else None)
  {
    hide Project;
  }

  /** Only a connection describes a device, and a described record is never dropped. */
  lemma StepDescriptor(s: State, e: Event, clock: Clock, id: string)
    requires !e.Restarted?
    ensures Known(Step(s, e, clock).devices, id).descriptor ==
      if e.Connected? && e.id == id && e.descriptor.Some? then e.descriptor else Known(s.devices, id).descriptor
  {
    hide Project;
  }

  lemma RestartReads(s: State, saved: Devices, clock: Clock)
    ensures Step(s, Restarted(saved), clock).devices == saved
  {
  }

  /** A device's position is the last one it reported, stamped when it last changed, whatever else happens to its record. */
  lemma {:induction false} PositionIsLastReported(run: Run, id: string, clock: Clock)
    ensures var record := Known(Reached(run, clock).devices, id);
      && record.position == LastPosition(run, id, clock)
      && record.positionAt == StandingSince(run, id, clock)
      && (Stamped(run) ==> StampedRecord(record))
  {
    hide Project, Step, Drops;
    match run
    case Start(_) =>
    case After(past, Restarted(saved)) => RestartReads(Reached(past, clock), saved, clock);
    case After(past, event) =>
      PositionIsLastReported(past, id, clock);
      StepPosition(Reached(past, clock), event, clock, id);
  }

  // ---------------------------------------------------------------- first sightings

  /** Some connection of `id` gave it a descriptor, in this process or in what it read from the file. */
  ghost predicate Described(run: Run, id: string) {
    match run
    case Start(devices) => id in devices && devices[id].descriptor.Some?
    case After(past, event) =>
      if event.Restarted? then id in event.saved && event.saved[id].descriptor.Some?
      else Described(past, id) || (event.Connected? && event.id == id && event.descriptor.Some?)
  }

  /** Until a restart, a device that ever described itself is never forgotten, so no later connection counts as its first. */
  lemma {:induction false} DescribedIsNeverForgotten(run: Run, id: string, clock: Clock)
    ensures Described(run, id) <==> Known(Reached(run, clock).devices, id).descriptor.Some?
  {
    hide Project, Step;
    match run
    case Start(_) =>
    case After(past, Restarted(saved)) => RestartReads(Reached(past, clock), saved, clock);
    case After(past, event) =>
      DescribedIsNeverForgotten(past, id, clock);
      StepDescriptor(Reached(past, clock), event, clock, id);
  }

  /** An event that makes a device known. */
  predicate Sights(e: Event, id: string) {
    ((e.Connected? || e.PushRegistered?) && e.id == id) || (e.Restarted? && id in e.saved)
  }

  /** A clear or a prune takes the push facet of `id`. */
  predicate TakesPush(s: State, e: Event, id: string) {
    (e.PushCleared? && e.owner == Some(id)) || (e.PushesPruned? && id in Holders(s.devices, e.tokens))
  }

  /** It does so while the record holds nothing else and the device is offline. */
  predicate DropsBare(s: State, e: Event, id: string) {
    TakesPush(s, e, id) && id in s.devices && !Survives(s.devices[id], id, s.live)
  }

  /** That, or a restart from a file that does not hold the device. */
  predicate Drops(s: State, e: Event, id: string) {
    id in s.devices && (DropsBare(s, e, id) || (e.Restarted? && id !in e.saved))
  }

  /** Read from the file, connected or registered at some time. */
  ghost predicate EverSighted(run: Run, id: string) {
    match run
    case Start(devices) => id in devices
    case After(past, event) => EverSighted(past, id) || Sights(event, id)
  }

  /** Dropped, and not sighted since. */
  ghost predicate DroppedSince(run: Run, id: string, clock: Clock) {
    match run
    case Start(_) => false
    case After(past, event) =>
      !Sights(event, id) && (DroppedSince(past, id, clock) || Drops(Reached(past, clock), event, id))
  }

  lemma StepKnows(s: State, e: Event, clock: Clock, id: string)
    ensures id in Step(s, e, clock).devices <==> Sights(e, id) || (id in s.devices && !Drops(s, e, id))
  {
    hide Project, Situated, Identified, Subscribed;
  }

  /**
   Over every run, a device is known if and only if it was sighted and not dropped since: a
   connection is a true first sighting exactly when its device was never sighted, and a repeated
   one exactly when a clear or prune dropped its bare record while it was offline, or a restart
   read a file without it.
   */
  lemma {:induction false} KnownUnlessDropped(run: Run, id: string, clock: Clock)
    ensures id in Reached(run, clock).devices <==> EverSighted(run, id) && !DroppedSince(run, id, clock)
    ensures DroppedSince(run, id, clock) ==> EverSighted(run, id)
  {
    hide Project, Step, Drops;
    match run
    case Start(_) =>
    case After(past, event) =>
      KnownUnlessDropped(past, id, clock);
      StepKnows(Reached(past, clock), event, clock, id);
      assert Drops(Reached(past, clock), event, id) ==> id in Reached(past, clock).devices by { DroppedWasKnown(Reached(past, clock), event, id); }
  }

  lemma DroppedWasKnown(s: State, e: Event, id: string)
    ensures Drops(s, e, id) ==> id in s.devices
  {
  }

  /** A connection is reported as the first sighting exactly when its device was never sighted, or was dropped since. */
  lemma FirstSightingsAreOfTheUnknown(run: Run, e: Event, clock: Clock)
    requires e.Connected?
    ensures FirstSighting(Reached(run, clock), e) <==> !EverSighted(run, e.id) || DroppedSince(run, e.id, clock)
  {
    KnownUnlessDropped(run, e.id, clock);
  }

  const ONCE := After(Start(map[]), Connected("a", Mobile, None, 1))
  const PUSHED := After(After(ONCE, Disconnected("a", 2)), PushRegistered("a", Push("t", 3, 0)))
  const PRUNED := After(PUSHED, PushesPruned({"t"}))

  /** A device that never described itself is sighted for the first time twice. */
  lemma SightedFirstTwice(clock: Clock)
    ensures FirstSighting(Reached(Start(map[]), clock), ONCE.event)
    ensures FirstSighting(Reached(PRUNED, clock), Connected("a", Mobile, None, 4))
    ensures EverSighted(PRUNED, "a") && "a" in Reached(After(PRUNED, Connected("a", Mobile, None, 4)), clock).devices
  {
    hide Project;
    var left := PUSHED.past;
    assert "a" !in Reached(left, clock).live;
    assert Reached(PUSHED, clock).devices["a"] == Record(Mobile, None, 2, Some(Push("t", 3, 0)), None, None, None);
    assert "a" in Holders(Reached(PUSHED, clock).devices, {"t"});
    assert "a" !in Reached(PRUNED, clock).devices;
  }

  const MET := After(Start(map[]), Connected("a", Web, Some("Chrome"), 1))
  const RESTARTED := After(MET, Restarted(map[]))

  /** So is a device that did, when a restart comes before the flush. */
  lemma SightedFirstAgainAfterRestart(clock: Clock)
    ensures FirstSighting(Reached(Start(map[]), clock), MET.event)
    ensures FirstSighting(Reached(RESTARTED, clock), Connected("a", Web, Some("Chrome"), 2))
    ensures Described(MET, "a") && DroppedSince(RESTARTED, "a", clock)
  {
    hide Project;
    assert "a" in Reached(MET, clock).devices;
  }

  // ---------------------------------------------------------------- a record is its history

  /** The last subscription registered, unless a clear or a prune took it since. */
  function LastPush(run: Run, id: string): Option<Push> {
    match run
    case Start(devices) => Known(devices, id).push
    case After(past, event) =>
      if event.Restarted? then Known(event.saved, id).push
      else if event.PushRegistered? && event.id == id then Some(event.push)
      else if event.PushCleared? && event.owner == Some(id) then None
      else if event.PushesPruned? && LastPush(past, id).Some? && LastPush(past, id).value.token in event.tokens then None
      else LastPush(past, id)
  }

  function LastDescriptor(run: Run, id: string): Option<string> {
    match run
    case Start(devices) => Known(devices, id).descriptor
    case After(past, event) =>
      if event.Restarted? then Known(event.saved, id).descriptor
      else if event.Connected? && event.id == id && event.descriptor.Some? then event.descriptor
      else LastDescriptor(past, id)
  }

  function LastTimezone(run: Run, id: string, clock: Clock): Option<string> {
    match run
    case Start(devices) => Known(devices, id).timezone
    case After(past, event) =>
      if event.Restarted? then Known(event.saved, id).timezone
      else if event.Reported? && event.id == id && event.timezone.Some? && id in Reached(past, clock).devices then event.timezone
      else LastTimezone(past, id, clock)
  }

  /** The kind last connected as; a push registration of a device that told nothing yet makes it mobile. */
  function LastKind(run: Run, id: string, clock: Clock): ClientKind {
    match run
    case Start(devices) => Known(devices, id).kind
    case After(past, event) =>
      if event.Restarted? then Known(event.saved, id).kind
      else if Drops(Reached(past, clock), event, id) then Unknown
      else if event.Connected? && event.id == id then event.kind
      else if event.PushRegistered? && event.id == id && LastDescriptor(past, id).None? && LastPush(past, id).None? then Mobile
      else LastKind(past, id, clock)
  }

  /** The last connecting, or the last connection's closing, or the first registration of a device not seen otherwise. */
  function LastSeen(run: Run, id: string, clock: Clock): nat {
    match run
    case Start(devices) => Known(devices, id).lastSeen
    case After(past, event) =>
      var s := Reached(past, clock);
      if event.Restarted? then Known(event.saved, id).lastSeen
      else if Drops(s, event, id) then 0
      else if event.Connected? && event.id == id then event.now
      else if event.Disconnected? && event.id == id && id in s.devices && Count(s.live, id) <= 1 then event.now
      else if event.PushRegistered? && event.id == id && LastSeen(past, id, clock) == 0 then event.push.registeredAt
      else LastSeen(past, id, clock)
  }

  lemma StepPush(s: State, e: Event, clock: Clock, id: string)
    requires !e.Restarted?
    ensures
      var before, after := Known(s.devices, id).push, Known(Step(s, e, clock).devices, id).push;
      after ==
        if e.PushRegistered? && e.id == id then Some(e.push)
        else if e.PushCleared? && e.owner == Some(id) then None
        else if e.PushesPruned? && before.Some? && before.value.token in e.tokens then None
        else before
  {
    hide Project;
  }

  lemma StepTimezone(s: State, e: Event, clock: Clock, id: string)
    requires !e.Restarted?
    ensures Known(Step(s, e, clock).devices, id).timezone ==
      if e.Reported? && e.id == id && e.timezone.Some? && id in s.devices then e.timezone else Known(s.devices, id).timezone
  {
    hide Project;
  }

  lemma StepKind(s: State, e: Event, clock: Clock, id: string)
    requires !e.Restarted?
    ensures
      var before, after := Known(s.devices, id), Known(Step(s, e, clock).devices, id);
      after.kind ==
        if Drops(s, e, id) then Unknown
        else if e.Connected? && e.id == id then e.kind
        else if e.PushRegistered? && e.id == id && before.descriptor.None? && before.push.None? then Mobile
        else before.kind
  {
    hide Project;
  }

  lemma StepSeen(s: State, e: Event, clock: Clock, id: string)
    requires !e.Restarted? && LiveAreKnown(s)
    ensures
      var before, after := Known(s.devices, id), Known(Step(s, e, clock).devices, id);
      after.lastSeen ==
        if Drops(s, e, id) then 0
        else if e.Connected? && e.id == id then e.now
        else if e.Disconnected? && e.id == id && id in s.devices && Count(s.live, id) <= 1 then e.now
        else if e.PushRegistered? && e.id == id && before.lastSeen == 0 then e.push.registeredAt
        else before.lastSeen
  {
    hide Project;
  }

  /** What the history says of a device. */
  function Told(run: Run, id: string, clock: Clock): Record {
    Record(LastKind(run, id, clock), LastDescriptor(run, id), LastSeen(run, id, clock), LastPush(run, id),
      LastTimezone(run, id, clock), LastPosition(run, id, clock), StandingSince(run, id, clock))
  }

  /**
   Over every run, restarts included, a device's record is what its history says: each facet is what
   was last told of it. In particular its push subscription is the last one registered, and none
   after a clear or prune took it.
   */
  lemma {:induction false} RecordIsItsHistory(run: Run, id: string, clock: Clock)
    ensures Known(Reached(run, clock).devices, id) == Told(run, id, clock)
  {
    hide Project, Step, Drops, LiveAreKnown;
    PositionIsLastReported(run, id, clock);
    match run
    case Start(_) =>
    case After(past, Restarted(saved)) => RestartReads(Reached(past, clock), saved, clock);
    case After(past, event) =>
      RecordIsItsHistory(past, id, clock);
      LiveHasRecord(past, clock);
      var s := Reached(past, clock);
      StepPush(s, event, clock, id);
      StepDescriptor(s, event, clock, id);
      StepTimezone(s, event, clock, id);
      StepKind(s, event, clock, id);
      StepSeen(s, event, clock, id);
  }

  /** So the roster last published lists the known devices and shows of each what its history says. */
  lemma RosterShowsTheHistory(run: Run, clock: Clock, info: DeviceInfo)
    requires info in Reached(run, clock).published
    ensures
      var told := Told(run, info.id, clock);
      && EverSighted(run, info.id) && !DroppedSince(run, info.id, clock)
      && info.kind == told.kind && info.descriptor == told.descriptor
      && (info.pushEnabled <==> told.push.Some?)
      && info.timezone == told.timezone && info.position == told.position
      && info.lastSeen == (if clock(told.lastSeen).Some? then clock(told.lastSeen).value else "")
      && info.positionAt == (if told.positionAt.Some? then clock(told.positionAt.value) else None)
      && (info.present <==> exists k: nat :: Ahead(run, info.id, k))
  {
    hide Step, Told, Reached, Ahead;
    RosterIsCurrent(run, clock);
    RecordIsItsHistory(run, info.id, clock);
    KnownUnlessDropped(run, info.id, clock);
    PresentWhileConnected(run, clock, info);
  }

  // ---------------------------------------------------------------- push tokens

  /** Pruning leaves no holder, forgets only what is neither known otherwise nor live, and touches nothing else. */
  lemma PruneFreesTheTokens(s: State, tokens: set<string>, clock: Clock)
    ensures var after := Step(s, PushesPruned(tokens), clock).devices;
      && Holders(after, tokens) == {}
      && (forall id | id in s.devices ::
            id !in after <==> s.devices[id].Holds(tokens) && s.devices[id].(push := None).IsEmpty() && id !in s.live)
      && (forall id | id in after :: id in s.devices && after[id].(push := s.devices[id].push) == s.devices[id])
      && (forall id | id in after && !s.devices[id].Holds(tokens) :: after[id] == s.devices[id])
  {
    hide Project;
  }

  /** Clearing one token stops at the first holder: it frees the token exactly when no two devices held it. */
  lemma ClearFreesTheToken(s: State, token: string, owner: Option<string>, clock: Clock)
    requires MeetsAHolder(s.devices, token, owner)
    ensures Holders(Step(s, PushCleared(token, owner), clock).devices, {token}) ==
      Holders(s.devices, {token}) - (if owner.Some? then {owner.value} else {})
    ensures Holders(Step(s, PushCleared(token, owner), clock).devices, {token}) == {} <==>
      |Holders(s.devices, {token})| <= 1
  {
    hide Project;
    var before := Holders(s.devices, {token});
    var after := Holders(Step(s, PushCleared(token, owner), clock).devices, {token});
    assert after == before - (if owner.Some? then {owner.value} else {});
    if owner.Some? { assert |before| == |after| + 1; }
  }

  /** Two devices registered with one token: clearing it leaves the second. */
  lemma SecondHolderKeepsTheToken(clock: Clock)
    ensures
      var push := Push("t", 3, 0);
      var run := After(After(After(Start(map[]), PushRegistered("a", push)), PushRegistered("b", push)), PushCleared("t", Some("a")));
      && MeetsAHolder(Reached(run.past, clock).devices, "t", Some("a"))
      && Holders(Reached(run, clock).devices, {"t"}) == {"b"}
  {
    hide Project;
    var push := Push("t", 3, 0);
    var both := After(After(Start(map[]), PushRegistered("a", push)), PushRegistered("b", push));
    assert Reached(both, clock).devices["a"].push == Some(push) && Reached(both, clock).devices["b"].push == Some(push);
    assert Holders(Reached(both, clock).devices, {"t"}) == {"a", "b"};
    ClearFreesTheToken(Reached(both, clock), "t", Some("a"), clock);
  }

  // ---------------------------------------------------------------- the flush permit

  /** The records when the flusher last woke. */
  function AtLastWake(run: Run, clock: Clock): Devices {
    match run
    case Start(devices) => devices
    case After(past, event) =>
      if event.Restarted? then event.saved
      else if event.Woken? then Reached(past, clock).devices else AtLastWake(past, clock)
  }

  /** Any change of the records since the flusher last woke has a permit waiting for it. */
  lemma {:induction false} ChangesLeaveAPermit(run: Run, clock: Clock)
    ensures var s := Reached(run, clock); s.devices != AtLastWake(run, clock) ==> s.permit
  {
    hide Project;
    match run
    case Start(_) =>
    case After(past, _) => ChangesLeaveAPermit(past, clock);
  }

  /** A report tells something new of a device that is known. */
  predicate TellsNews(run: Run, e: Event, clock: Clock) {
    && e.Reported? && e.id in Reached(run, clock).devices
    && ((e.timezone.Some? && e.timezone != LastTimezone(run, e.id, clock))
        || (e.position.Some? && e.position.value.Reported() != LastPosition(run, e.id, clock)))
  }

  /** The permit is there exactly when, since the flusher woke, something came other than a report without news. */
  function Notified(run: Run, clock: Clock): bool {
    match run
    case Start(_) => false
    case After(past, event) =>
      if event.Restarted? || event.Woken? then false
      else if event.Reported? then Notified(past, clock) || TellsNews(past, event, clock)
      else true
  }

  lemma {:induction false} PermitIsANotice(run: Run, clock: Clock)
    ensures Reached(run, clock).permit <==> Notified(run, clock)
  {
    hide Project, Identified, Subscribed, WithoutPush, LastTimezone, LastPosition, Told;
    match run
    case Start(_) =>
    case After(past, event) =>
      PermitIsANotice(past, clock);
      if event.Reported? {
        RecordIsItsHistory(past, event.id, clock);
        ToldReports(past, event.id, clock);
      }
  }

  lemma ToldReports(run: Run, id: string, clock: Clock)
    ensures Told(run, id, clock).timezone == LastTimezone(run, id, clock)
    ensures Told(run, id, clock).position == LastPosition(run, id, clock)
  {
  }
}
