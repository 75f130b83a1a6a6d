/** The durable state one run can see, the broker's stream, and every single step that changes them.
    Each step consumes one answer of the environment, its fate; a step whose answer is missing, or is
    not an answer it can get, is where the process died. The state a dead call leaves behind is
    therefore the state between two of its durable steps. */
module Journal {
  import opened Options
  import opened Events
  import Text

  /** What one durable step did: all of it, nothing with an error, or all of it and yet an error. */
  datatype Effect = Done | Refused | Took

  datatype Fate =
    | Mint(id: Option<string>)                            // protocol.NewEventID
    | Look(provenance: Option<string>, files: set<string>) // runs.FindRun, and the files refs are checked against
    | Rewrite(effect: Effect)                             // Dir.WritePending, Dir.ClearPending
    | Torn(kept: nat, garbled: bool)                      // a rewrite cut short after the file was truncated
    | Queue(effect: Effect)                               // Dir.AppendPending
    | HalfLine                                            // the same, cut short within its line
    | Admit(effect: Effect)                               // trailconfig.EnsureForRoot
    | Origin(effect: Effect)                              // runs.EnsureTrailOrigin
    | Record(effect: Effect)                              // Trail.AppendEvent
    | Broker(effect: Effect)                              // JetStream PublishMsg
    | Audit(effect: Effect)                               // Dir.AppendEvent
    | Save(effect: Effect)                                // runs.WriteCueInvocation

  datatype TrailOrigin = TrailOrigin(kind: string, source: string, actor: string, invocation: string, cue: string)

  /** One cue invocation: the observation and the normal events it owns, each with its published flag.
      `announced` is what the observation's payload says the event identities are. */
  datatype CueEvent = CueEvent(event: Event, published: bool)
  datatype CueInvocation = CueInvocation(id: string, trace: string, agent: string, cue: string, source: string,
                                         tasks: seq<string>, announced: seq<string>, ingress: Event,
                                         ingressPublished: bool, events: seq<CueEvent>)

  /** `trace` and `agent` name the run. `garbled` says the pending file ends in half a line. `trail` is
      the trace's record, `audit` the run's log, `bus` the whole stream, `invocations` the trace's cue records. */
  datatype State = State(trace: string, agent: string, runDir: bool, newTrail: bool, origin: Option<TrailOrigin>,
                         pending: seq<Event>, garbled: bool, trail: seq<Event>, audit: seq<Event>, bus: seq<Event>,
                         invocations: map<string, CueInvocation>, fates: seq<Fate>)

  datatype Answer = Ok | Err | Died

  datatype Publisher =
    | Missing
    | Client(records: bool, connected: bool) // `records`: a colony root is configured
    | LocalOnly(records: bool)               // bus.LocalPublisher
    | Nop                                    // bus.NopPublisher

  predicate OwnRun(s: State, ev: Event) { ev.trace == s.trace && ev.agent == s.agent }

  function Next(s: State): State
    requires s.fates != []
  {
    s.(fates := s.fates[1..])
  }

  function Reported(e: Effect): Answer { if e.Done? then Ok else Err }

  /** Every id any durable place holds. */
  function KnownIds(s: State): set<string> { Ids(s.pending) + Ids(s.trail) + Ids(s.audit) + Ids(s.bus) }

  /** A fresh id, or None when the random source failed. */
  function MintId(s: State): (State, Answer, string) {
    if s.fates == [] || !s.fates[0].Mint? then (s, Died, "")
    else match s.fates[0].id
      case None => (Next(s), Err, "")
      // Minted ids are fresh: an answer that is not describes no run.
      case Some(id) => if id == "" || id in KnownIds(s) then (s, Died, "") else (Next(s), Ok, id)
  }

  function Min(a: nat, b: nat): nat { if a < b then a else b }

  /** Replaces the pending file; an empty queue removes it, which cannot be cut short. */
  function WritePending(s: State, queue: seq<Event>): (State, Answer) {
    if s.fates == [] then (s, Died)
    else match s.fates[0]
      case Rewrite(e) =>
        (if e.Refused? then Next(s) else Next(s).(pending := queue, garbled := false), Reported(e))
      case Torn(kept, garbled) =>
        if kept >= |queue| then (s, Died) else (Next(s).(pending := queue[..kept], garbled := garbled), Err)
      case _ => (s, Died)
  }

  /** Appends to the pending file; a line glued to half a line is not a line, and half a line spoils the file. */
  function AppendPending(s: State, ev: Event): (State, Answer) {
    if !s.runDir then (s, Err)
    else if s.fates == [] then (s, Died)
    else match s.fates[0]
      case Queue(e) =>
        (if e.Refused? || s.garbled then Next(s) else Next(s).(pending := s.pending + [ev]), Reported(e))
      case HalfLine => (Next(s).(garbled := true), Err)
      case _ => (s, Died)
  }

  /** recordTrailEvent. */
  function RecordTrailEvent(s: State, records: bool, ev: Event): (State, Answer) {
    if !records || Text.Blank(ev.trace) || !IsDomain(ev) then (s, Ok)
    else if s.fates == [] || !s.fates[0].Record? then (s, Died)
    else
      var e := s.fates[0].effect;
      var here := !e.Refused? && Text.TrimSpace(ev.trace) == s.trace;
      (if here then Next(s).(trail := s.trail + [ev]) else Next(s), Reported(e))
  }

  /** First write wins. */
  function EnsureTrailOrigin(s: State, origin: TrailOrigin): (State, Answer) {
    if s.fates == [] || !s.fates[0].Origin? then (s, Died)
    else
      var e := s.fates[0].effect;
      if e.Refused? then (Next(s), Err)
      else (Next(s).(origin := if s.origin.Some? then s.origin else Some(origin), newTrail := false), Reported(e))
  }

  /** How binding a trail ended: which of its two durable steps failed, or that the process died. */
  datatype Admission = Admitted | ConfigFailed | OriginFailed | Lost

  /** Binds a trail that has not started yet to its configuration, then to its origin. Whether another trail
      than the run's has started is for the environment to say: it has, unless it answers with a binding. */
  function AdmitTrail(s: State, trace: string, source: string, actor: string): (State, Admission) {
    var own := trace == s.trace;
    var asked := s.fates != [] && s.fates[0].Admit?;
    if Text.Blank(trace) || (own && !s.newTrail) || (!own && !asked) then (s, Admitted)
    else if !asked then (s, Lost)
    else if !s.fates[0].effect.Done? then (Next(s), ConfigFailed)
    else
      var s1 := Next(s);
      if s1.fates == [] || !s1.fates[0].Origin? then (s1, Lost)
      else
        var bound := if own then EnsureTrailOrigin(s1, TrailOrigin("other", source, actor, "", "")).0 else Next(s1);
        (bound, if s1.fates[0].effect.Done? then Admitted else OriginFailed)
  }

  function SendToBroker(s: State, ev: Event): (State, Answer) {
    if s.fates == [] || !s.fates[0].Broker? then (s, Died)
    else
      var e := s.fates[0].effect;
      (if e.Refused? then Next(s) else Next(s).(bus := s.bus + [ev]), Reported(e))
  }

  /** Client.PublishEvent: the record first and best effort, then the broker. */
  function ClientPublish(s: State, records: bool, connected: bool, ev: Event): (State, Answer) {
    if !IsDomain(ev) then (s, Ok)
    else
      var admitted := if records then AdmitTrail(s, ev.trace, "event", ev.agent) else (s, Admitted);
      if !admitted.1.Admitted? then (admitted.0, if admitted.1.Lost? then Died else Err)
      else
        var recorded := RecordTrailEvent(admitted.0, records, ev);
        if recorded.1.Died? then recorded
        else if !connected then (recorded.0, Err)
        else SendToBroker(recorded.0, ev)
  }

  /** Publisher.PublishEvent. */
  function Publish(s: State, pub: Publisher, ev: Event): (State, Answer) {
    match pub
    case Client(records, connected) => ClientPublish(s, records, connected, ev)
    case LocalOnly(records) => RecordTrailEvent(s, records, ev)
    case Nop => (s, Ok)
    case Missing => (s, Err)
  }

  /** appendRunAuditLog: the log of the run the event names, which must exist. */
  function AppendAudit(s: State, ev: Event): (State, Answer) {
    if ev.trace == "" || ev.agent == "" || (OwnRun(s, ev) && !s.runDir) then (s, Err)
    else if s.fates == [] || !s.fates[0].Audit? then (s, Died)
    else
      var e := s.fates[0].effect;
      (if e.Refused? || !OwnRun(s, ev) then Next(s) else Next(s).(audit := s.audit + [ev]), Reported(e))
  }

  /** WriteCueInvocation: written to a temporary file and renamed, so all or nothing. */
  function WriteInvocation(s: State, inv: CueInvocation): (State, Answer) {
    if s.fates == [] || !s.fates[0].Save? then (s, Died)
    else
      var e := s.fates[0].effect;
      (if e.Refused? then Next(s) else Next(s).(invocations := s.invocations[inv.id := inv]), Reported(e))
  }

  /** stampRunProvenance: the recorded ownership of the run, when there is one. */
  function Stamp(ev: Event, provenance: Option<string>): (r: Event)
    ensures IsCopy(ev, r)
  {
    if ev.agent == "" || ev.trace == "" || provenance.None? then ev else ev.(provenance := provenance.value)
  }

  function RefExists(ref: string, files: set<string>): bool { !Text.Blank(ref) && Text.TrimSpace(ref) in files }

  /** validateEventFileRefs. */
  predicate RefsPresent(ev: Event, files: set<string>) {
    if ev.kind == "spec.ready" then
      ev.refs.Named? && ev.refs.refs != [] && RefExists(ev.refs.refs[0], files)
    else if ev.kind == "artifact.written" then
      ev.refs.Named? && ev.refs.refs != [] && forall ref <- ev.refs.refs :: RefExists(ref, files)
    else true
  }

  /** How many of these answers cut a rewrite short. */
  function Tears(fates: seq<Fate>): nat {
    if fates == [] then 0 else (if fates[0].Torn? then 1 else 0) + Tears(fates[1..])
  }

  /** From s to s' no rewrite of the pending file was cut short. */
  ghost predicate Uncut(s: State, s': State) { Tears(s'.fates) == Tears(s.fates) }

  /** Whatever answers are left were there before. */
  ghost predicate Fewer(s: State, s': State) { forall fate :: fate in s'.fates ==> fate in s.fates }

  lemma RecordEffect(s: State, records: bool, ev: Event)
    ensures var (s', a) := RecordTrailEvent(s, records, ev);
      && s' == s.(trail := s'.trail, fates := s'.fates) && Fewer(s, s') && Uncut(s, s')
      && (s'.trail == s.trail || (s'.trail == s.trail + [ev] && IsDomain(ev)))
  {
  }

  lemma AdmitEffect(s: State, trace: string, source: string, actor: string)
    ensures var (s', a) := AdmitTrail(s, trace, source, actor);
      && s' == s.(origin := s'.origin, newTrail := s'.newTrail, fates := s'.fates) && Fewer(s, s') && Uncut(s, s')
      && (s.origin.Some? ==> s'.origin == s.origin)
  {
  }

  lemma BrokerEffect(s: State, ev: Event)
    ensures var (s', a) := SendToBroker(s, ev);
      && s' == s.(bus := s'.bus, fates := s'.fates) && Fewer(s, s') && Uncut(s, s')
      && (s'.bus == s.bus || s'.bus == s.bus + [ev])
      && (a.Ok? ==> s'.bus == s.bus + [ev])
  {
  }

  /** Publishing touches the trail record, the stream, the origin and its marker, and nothing else. */
  ghost predicate PublishFrame(s: State, s': State) {
    && s'.trace == s.trace && s'.agent == s.agent && s'.runDir == s.runDir
    && s'.pending == s.pending && s'.garbled == s.garbled && s'.audit == s.audit && s'.invocations == s.invocations
    && (s.origin.Some? ==> s'.origin == s.origin) && Fewer(s, s') && Uncut(s, s')
  }

  lemma ClientPublishEffect(s: State, records: bool, connected: bool, ev: Event)
    requires IsDomain(ev)
    ensures var (s', a) := ClientPublish(s, records, connected, ev);
      && PublishFrame(s, s')
      && (s'.bus == s.bus || s'.bus == s.bus + [ev])
      && (s'.trail == s.trail || s'.trail == s.trail + [ev])
      && (a.Ok? ==> s'.bus == s.bus + [ev])
  {
    AdmitEffect(s, ev.trace, "event", ev.agent);
    var (s1, admitted) := if records then AdmitTrail(s, ev.trace, "event", ev.agent) else (s, Admitted);
    assert PublishFrame(s, s1) && s1.bus == s.bus && s1.trail == s.trail;
    if admitted.Admitted? {
      RecordEffect(s1, records, ev);
      var (s2, recorded) := RecordTrailEvent(s1, records, ev);
      assert PublishFrame(s, s2) && s2.bus == s.bus;
      if !recorded.Died? && connected {
        BrokerEffect(s2, ev);
      }
    }
  }

  /** What a publish attempt may touch, and what a nil return means. */
  lemma {:induction false} PublishEffect(s: State, pub: Publisher, ev: Event)
    ensures var (s', a) := Publish(s, pub, ev);
      && PublishFrame(s, s')
      && (s'.bus == s.bus || (s'.bus == s.bus + [ev] && pub.Client? && IsDomain(ev)))
      && (s'.trail == s.trail || (s'.trail == s.trail + [ev] && IsDomain(ev)))
      && (a.Ok? && pub.Client? && IsDomain(ev) ==> s'.bus == s.bus + [ev])
  {
    match pub
    case Missing =>
    case Nop =>
    case LocalOnly(records) => RecordEffect(s, records, ev);
    case Client(records, connected) => if IsDomain(ev) { ClientPublishEffect(s, records, connected, ev); }
  }

  /** The event belongs to the trace whose record is kept. */
  predicate Here(s: State, ev: Event) { !Text.Blank(ev.trace) && Text.TrimSpace(ev.trace) == s.trace }

  /** No append to the trail's record is refused. */
  ghost predicate Recording(fates: seq<Fate>) { forall fate :: fate in fates && fate.Record? ==> !fate.effect.Refused? }

  /** A file-only publisher reports the record's errors, so its success means a record; a client does not. */
  predicate KeepsRecord(pub: Publisher) { (pub.Client? || pub.LocalOnly?) && pub.records }

  lemma {:induction false} PublishRecords(s: State, pub: Publisher, ev: Event)
    requires IsDomain(ev) && Here(s, ev) && KeepsRecord(pub) && (pub.Client? ==> Recording(s.fates))
    ensures var (s', a) := Publish(s, pub, ev);
      a.Ok? ==> s'.trail == s.trail + [ev]
  {
    if pub.Client? {
      AdmitEffect(s, ev.trace, "event", ev.agent);
      var (s1, admitted) := AdmitTrail(s, ev.trace, "event", ev.agent);
      assert s1.fates != [] ==> s1.fates[0] in s1.fates;
    }
  }

  lemma AuditEffect(s: State, ev: Event)
    ensures var (s', a) := AppendAudit(s, ev);
      && s' == s.(audit := s'.audit, fates := s'.fates) && Fewer(s, s') && Uncut(s, s')
      && (s'.audit == s.audit || (s'.audit == s.audit + [ev] && OwnRun(s, ev)))
      && (a.Ok? && OwnRun(s, ev) ==> s'.audit == s.audit + [ev])
  {
  }

  /** A rewrite leaves the old queue or, exactly when it is not cut short, all of the new one; cut short it
      leaves a proper prefix. */
  lemma RewriteEffect(s: State, queue: seq<Event>)
    ensures var (s', a) := WritePending(s, queue);
      && s' == s.(pending := s'.pending, garbled := s'.garbled, fates := s'.fates) && Fewer(s, s')
      && (Uncut(s, s') ==> s'.pending == s.pending || s'.pending == queue)
      && (!Uncut(s, s') ==> Tears(s'.fates) < Tears(s.fates) && s'.pending <= queue && |s'.pending| < |queue|)
      && (a.Ok? ==> s'.pending == queue && !s'.garbled && Uncut(s, s'))
  {
  }
}
