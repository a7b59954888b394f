/** Several coordinators racing to initialise one S3 prefix: the local marker, then a create-only remote marker. */
module S3Identity {
  import opened Wrappers

  /** A coordinator is its canonical local directory. */
  type Coordinator = string

  /** What both markers record. */
  datatype Identity = Identity(storage: string, coordinator: Coordinator)

  /** The local marker file; a crash while writing it leaves it unreadable. */
  datatype Local = Absent | Garbled | Marker(identity: Identity)

  /** Where the one process that holds a directory's exclusive lease has got to. */
  datatype Process = Resting | Listing | Empty | Written(identity: Identity) | Sent(identity: Identity) | Checking

  datatype Site = Site(local: Local, process: Process)

  /** remote is the prefix's identity object; sent holds every create request that may still arrive. */
  datatype State = State(
    sites: map<Coordinator, Site>,
    remote: Option<Identity>,
    occupied: bool,           // any other object under the prefix
    sent: set<Identity>,
    landed: set<Identity>,    // requests that created the remote marker
    opens: set<Identity>)     // storage_id and coordinator_id of every constructor that returned

  datatype Step =
    | Enter(c: Coordinator)
    | List(c: Coordinator)
    | Write(c: Coordinator, storage: string, complete: bool)
    | Send(c: Coordinator)
    | Land(identity: Identity)
    | Acknowledge(c: Coordinator)
    | Check(c: Coordinator)
    | Stop(c: Coordinator)                             // an error, a crash, or a lost response
    | Occupy                                           // somebody else puts an object under the prefix
    | CopyMarker(from: Coordinator, to: Coordinator)   // the marker file alone is copied to a new directory

  function SiteOf(s: State, c: Coordinator): Site {
    if c in s.sites then s.sites[c] else Site(Absent, Resting)
  }

  function With(s: State, c: Coordinator, site: Site): State {
    s.(sites := s.sites[c := site])
  }

  predicate Enabled(s: State, step: Step) {
    match step
    case Enter(c) => SiteOf(s, c).process.Resting?
    case List(c) => SiteOf(s, c).process.Listing?
    case Write(c, _, _) => SiteOf(s, c).process.Empty?
    case Send(c) => SiteOf(s, c).process.Written?
    case Land(i) => i in s.sent && s.remote.None?
    case Acknowledge(c) => SiteOf(s, c).process.Sent? && SiteOf(s, c).process.identity in s.landed
    case Check(c) => SiteOf(s, c).process.Checking?
    case Stop(c) => true
    case Occupy => true
    case CopyMarker(from, to) => SiteOf(s, to) == Site(Absent, Resting) && SiteOf(s, from).local.Marker?
  }

  function Next(s: State, step: Step): State
    requires Enabled(s, step)
  {
    match step
    case Enter(c) =>
      With(s, c, SiteOf(s, c).(process := if SiteOf(s, c).local.Absent? then Listing else Checking))
    case List(c) =>
      With(s, c, SiteOf(s, c).(process := if s.remote.None? && !s.occupied then Empty else Resting))
    case Write(c, storage, complete) =>
      var i := Identity(storage, c);
      With(s, c, if complete then Site(Marker(i), Written(i)) else Site(Garbled, Resting))
    case Send(c) =>
      var i := SiteOf(s, c).process.identity;
      With(s, c, SiteOf(s, c).(process := Sent(i))).(sent := s.sent + {i})
    case Land(i) => s.(remote := Some(i), landed := s.landed + {i})
    case Acknowledge(c) =>
      var i := SiteOf(s, c).process.identity;
      With(s, c, SiteOf(s, c).(process := Resting)).(opens := s.opens + {i})
    case Check(c) =>
      var site := SiteOf(s, c);
      With(s, c, site.(process := Resting)).(opens := if Opens(s, c) then s.opens + {site.local.identity} else s.opens)
    case Stop(c) => With(s, c, SiteOf(s, c).(process := Resting))
    case Occupy => s.(occupied := true)
    case CopyMarker(from, to) => With(s, to, Site(SiteOf(s, from).local, Resting))
  }

  /** Reopening: the local marker is this directory's own and the remote one agrees with it. */
  predicate Opens(s: State, c: Coordinator) {
    var local := SiteOf(s, c).local;
    local.Marker? && local.identity.coordinator == c && s.remote == Some(local.identity)
  }

  const INITIAL := State(map[], None, false, {}, {}, {})

  ghost predicate SiteOk(s: State, c: Coordinator) {
    var site := SiteOf(s, c);
    && (site.process.Listing? || site.process.Empty? ==> site.local.Absent?)
    && (site.process.Written? || site.process.Sent? ==>
          site.process.identity.coordinator == c && site.local == Marker(site.process.identity))
  }

  /** A request was sent only after its coordinator's own marker was complete, and that marker stays. */
  ghost predicate SentOk(s: State, i: Identity) {
    SiteOf(s, i.coordinator).local == Marker(i)
  }

  ghost predicate Safe(s: State) {
    && (forall c {:trigger SiteOk(s, c)} :: SiteOk(s, c))
    && (forall i {:trigger SentOk(s, i)} | i in s.sent :: SentOk(s, i))
    && s.landed <= s.sent
    && (forall i | i in s.landed :: s.remote == Some(i))
    && (s.remote.Some? ==> s.remote.value in s.landed)
    && (forall i | i in s.opens :: s.remote == Some(i))
  }

  lemma StepSafe(s: State, step: Step)
    requires Safe(s) && Enabled(s, step)
    ensures Safe(Next(s, step))
    ensures s.opens <= Next(s, step).opens && (s.remote.Some? ==> Next(s, step).remote == s.remote)
  {
    var t := Next(s, step);
    forall c ensures SiteOk(t, c) { assert SiteOk(s, c); }
    forall i | i in t.sent ensures SentOk(t, i) {
      assert i in s.sent ==> SentOk(s, i);
      assert SiteOk(s, i.coordinator);
      if step.Send? { assert SiteOk(s, step.c); }
    }
    if step.Acknowledge? { assert SiteOk(s, step.c); }
  }

  function Run(s: State, steps: seq<Step>): State
    decreases |steps|
  {
    if steps == [] then s else Run(if Enabled(s, steps[0]) then Next(s, steps[0]) else s, steps[1..])
  }

  lemma {:induction false} RunSafe(s: State, steps: seq<Step>)
    requires Safe(s)
    ensures Safe(Run(s, steps))
    ensures s.opens <= Run(s, steps).opens
    decreases |steps|
  {
    if steps != [] {
      if Enabled(s, steps[0]) { StepSafe(s, steps[0]); }
      RunSafe(if Enabled(s, steps[0]) then Next(s, steps[0]) else s, steps[1..]);
    }
  }

  /** However many coordinators race, stop, retry or copy markers: all successful opens name one coordinator and one id. */
  lemma OneIdentity(steps: seq<Step>, more: seq<Step>, a: Identity, b: Identity)
    requires a in Run(INITIAL, steps).opens && b in Run(Run(INITIAL, steps), more).opens
    ensures a == b
  {
    RunSafe(INITIAL, steps);
    RunSafe(Run(INITIAL, steps), more);
  }

  /** A coordinator that once opened the prefix, or whose request landed unacknowledged, can always open it again. */
  lemma WinnerReopens(steps: seq<Step>, i: Identity)
    requires i in Run(INITIAL, steps).opens || Run(INITIAL, steps).remote == Some(i)
    ensures Opens(Run(INITIAL, steps), i.coordinator)
    ensures forall c :: Opens(Run(INITIAL, steps), c) ==> c == i.coordinator
  {
    RunSafe(INITIAL, steps);
    assert SentOk(Run(INITIAL, steps), i);
  }

  /** A constructor at rest whose local marker is its own and agrees with the remote one opens the prefix when it is run. */
  lemma WinnerCanReopen(steps: seq<Step>, i: Identity)
    requires Run(INITIAL, steps).remote == Some(i) && SiteOf(Run(INITIAL, steps), i.coordinator).process.Resting?
    ensures var s := Run(INITIAL, steps);
      i in Run(s, [Enter(i.coordinator), Check(i.coordinator)]).opens
  {
    WinnerReopens(steps, i);
    var s, c := Run(INITIAL, steps), i.coordinator;
    RunSafe(INITIAL, steps);
    assert SentOk(s, i);
    assert [Enter(c), Check(c)][1..] == [Check(c)] && [Check(c)][1..] == [];
    var t := Next(s, Enter(c));
    assert Run(t, [Check(c)]) == Next(t, Check(c));
  }

  /** The empty prefix with one coordinator at work. */
  function Working(c: Coordinator, site: Site, remote: Option<Identity>, sent: set<Identity>, opens: set<Identity>): State {
    State(map[c := site], remote, false, sent, if remote.Some? then sent else {}, opens)
  }

  lemma MarkerIsWritten(c: Coordinator, storage: string)
    ensures var i := Identity(storage, c);
      Run(INITIAL, [Enter(c)] + ([List(c)] + ([Write(c, storage, true)] + []))) == Working(c, Site(Marker(i), Written(i)), None, {}, {})
  {
    var a, b := Working(c, Site(Absent, Listing), None, {}, {}), Working(c, Site(Absent, Empty), None, {}, {});
    assert Next(INITIAL, Enter(c)) == a && Next(a, List(c)) == b;
    RunOne(b, Write(c, storage, true), []);
    RunOne(a, List(c), [Write(c, storage, true)] + []);
    RunOne(INITIAL, Enter(c), [List(c)] + ([Write(c, storage, true)] + []));
  }

  lemma RequestLands(c: Coordinator, i: Identity)
    requires i.coordinator == c
    ensures Run(Working(c, Site(Marker(i), Written(i)), None, {}, {}), [Send(c)] + ([Land(i)] + ([Acknowledge(c)] + []))).opens == {i}
  {
    var a := Working(c, Site(Marker(i), Written(i)), None, {}, {});
    var b, d := Working(c, Site(Marker(i), Sent(i)), None, {i}, {}), Working(c, Site(Marker(i), Sent(i)), Some(i), {i}, {});
    assert Next(a, Send(c)) == b && Next(b, Land(i)) == d;
    RunOne(d, Acknowledge(c), []);
    RunOne(b, Land(i), [Acknowledge(c)] + []);
    RunOne(a, Send(c), [Land(i)] + ([Acknowledge(c)] + []));
  }

  lemma {:induction false} RunsJoin(s: State, a: seq<Step>, b: seq<Step>)
    ensures Run(s, a + b) == Run(Run(s, a), b)
    decreases |a|
  {
    if a == [] {
      assert a + b == b;
    } else {
      assert (a + b)[1..] == a[1..] + b;
      RunsJoin(if Enabled(s, a[0]) then Next(s, a[0]) else s, a[1..], b);
    }
  }

  /** An undisturbed coordinator of an empty prefix opens it under the id it generated. */
  lemma LoneCoordinatorOpens(c: Coordinator, storage: string)
    ensures var i := Identity(storage, c);
      Run(INITIAL, [Enter(c), List(c), Write(c, storage, true), Send(c), Land(i), Acknowledge(c)]).opens == {i}
  {
    var i := Identity(storage, c);
    var a, b := [Enter(c)] + ([List(c)] + ([Write(c, storage, true)] + [])), [Send(c)] + ([Land(i)] + ([Acknowledge(c)] + []));
    MarkerIsWritten(c, storage);
    RequestLands(c, i);
    RunsJoin(INITIAL, a, b);
    assert a + b == [Enter(c), List(c), Write(c, storage, true), Send(c), Land(i), Acknowledge(c)];
  }

  lemma RunOne(s: State, step: Step, rest: seq<Step>)
    requires Enabled(s, step)
    ensures Run(s, [step] + rest) == Run(Next(s, step), rest)
  {
    assert ([step] + rest)[1..] == rest;
  }

  /** No coordinator has a marker or is past its listing. */
  ghost predicate Untouched(s: State) {
    && s.occupied && s.remote.None? && s.sent == {} && s.landed == {} && s.opens == {}
    && forall c :: SiteOf(s, c).local.Absent? && (SiteOf(s, c).process.Resting? || SiteOf(s, c).process.Listing?)
  }

  /** A prefix that already holds other objects is never adopted: whatever is tried, nothing is written and nothing opens. */
  lemma {:induction false} OccupiedIsNeverAdopted(s: State, steps: seq<Step>)
    requires Untouched(s)
    ensures Untouched(Run(s, steps))
    decreases |steps|
  {
    if steps != [] {
      var t := if Enabled(s, steps[0]) then Next(s, steps[0]) else s;
      assert Untouched(t) by {
        forall c ensures SiteOf(t, c).local.Absent? && (SiteOf(t, c).process.Resting? || SiteOf(t, c).process.Listing?) {
          assert SiteOf(s, c).local.Absent?;
        }
      }
      OccupiedIsNeverAdopted(t, steps[1..]);
    }
  }
}
