/** internal/bus/event_emit.go: one event from the command line, deferred, checked or sent live. */
module Emit {
  import opened Options
  import opened Events
  import opened Journal
  import opened Stations
  import opened Deferred

  /** What parsing, validating and building the envelope made of the input. */
  datatype Input = Rejected(error: string) | Broken | Parsed(ev: Event)

  datatype Mode = Defer | DryRun | Live

  datatype EmitOutcome = Answered(ok: bool, deferred: bool, error: string) | Broke | Cut

  function Failure(error: string): EmitOutcome { Answered(false, false, error) }

  function Verdict(a: Answer, error: string, good: EmitOutcome): EmitOutcome {
    match a case Ok => good case Err => Failure(error) case Died => Cut
  }

  /** The provenance of the run that emits, when there is a colony to look it up in. */
  function StampEmit(s: State, rooted: bool, ev: Event): (State, Answer, Event) {
    if !rooted || ev.agent == "" || ev.trace == "" then (s, Ok, ev)
    else if s.fates == [] || !s.fates[0].Look? then (s, Died, ev)
    else (Next(s), Ok, Stamp(ev, s.fates[0].provenance))
  }

  /** deferEvent: the queue of the run the event names, which must exist. */
  function DeferEvent(s: State, ev: Event): (State, Answer) {
    if OwnRun(s, ev) then AppendPending(s, ev)
    else if s.fates == [] || !s.fates[0].Queue? then (s, Died)
    else (Next(s), Reported(s.fates[0].effect))
  }

  function NotAdmitted(a: Admission): EmitOutcome {
    if a.ConfigFailed? then Failure("config_capture_failed")
    else if a.OriginFailed? then Failure("origin_capture_failed")
    else Cut
  }

  /** Bind the trail, write the run's audit log, and only then publish. */
  function SendLive(s: State, pub: Publisher, rooted: bool, ev: Event): (State, EmitOutcome) {
    if pub.Missing? then (s, Failure("nats_not_configured"))
    else
      var (s1, admitted) := if rooted then AdmitTrail(s, ev.trace, "event.emit", ev.agent) else (s, Admitted);
      if !admitted.Admitted? then (s1, NotAdmitted(admitted))
      else
        var (s2, audited) := if rooted then AppendAudit(s1, ev) else (s1, Err);
        if !audited.Ok? then (s2, Verdict(audited, "audit_log_failed", Cut))
        else
          var (s3, sent) := Publish(s2, pub, ev);
          (s3, Verdict(sent, "publish_failed", Answered(true, false, "")))
  }

  function ProcessEventInput(s: State, input: Input, mode: Mode, pub: Publisher, rooted: bool): (State, EmitOutcome) {
    match input
    case Rejected(error) => (s, Failure(error))
    case Broken => (s, Broke)
    case Parsed(raw) =>
      var (s1, stamped, ev) := StampEmit(s, rooted, raw);
      if stamped.Died? then (s1, Cut)
      else
        match mode
        case Defer =>
          if IsDeferDenied(ev.kind) then (s1, Failure("defer_denied"))
          else if !rooted then (s1, Failure("run_required"))
          else
            var (s2, queued) := DeferEvent(s1, ev);
            (s2, Verdict(queued, "defer_failed", Answered(true, true, "")))
        case DryRun => (s1, Answered(true, false, ""))
        case Live => SendLive(s1, pub, rooted, ev)
  }

  /** ProcessEventInput, step by step. */
  method Process(st: Station, input: Input, mode: Mode, pub: Publisher, rooted: bool) returns (out: EmitOutcome)
    modifies st
    ensures (st.Now(), out) == ProcessEventInput(old(st.Now()), input, mode, pub, rooted)
  {
    match input {
      case Rejected(error) => return Failure(error);
      case Broken => return Broke;
      case Parsed(raw) =>
        var ev := raw;
        if rooted && ev.agent != "" && ev.trace != "" {
          if st.fates == [] || !st.fates[0].Look? { return Cut; }
          ev := Stamp(ev, st.fates[0].provenance);
          st.fates := st.fates[1..];
        }
        match mode {
          case Defer =>
            if IsDeferDenied(ev.kind) { return Failure("defer_denied"); }
            if !rooted { return Failure("run_required"); }
            out := QueueEvent(st, ev);
          case DryRun => return Answered(true, false, "");
          case Live => out := SendNow(st, pub, rooted, ev);
        }
    }
  }

  method QueueEvent(st: Station, ev: Event) returns (out: EmitOutcome)
    modifies st
    ensures var (s', queued) := DeferEvent(old(st.Now()), ev);
      st.Now() == s' && out == Verdict(queued, "defer_failed", Answered(true, true, ""))
  {
    if ev.trace == st.trace && ev.agent == st.agent {
      var queued := st.QueuePending(ev);
      return Verdict(queued, "defer_failed", Answered(true, true, ""));
    }
    if st.fates == [] || !st.fates[0].Queue? { return Cut; }
    var e := st.fates[0].effect;
    st.fates := st.fates[1..];
    return Verdict(Reported(e), "defer_failed", Answered(true, true, ""));
  }

  method SendNow(st: Station, pub: Publisher, rooted: bool, ev: Event) returns (out: EmitOutcome)
    modifies st
    ensures (st.Now(), out) == SendLive(old(st.Now()), pub, rooted, ev)
  {
    if pub.Missing? { return Failure("nats_not_configured"); }
    if rooted {
      var admitted := st.Admit(ev.trace, "event.emit", ev.agent);
      if !admitted.Admitted? { return NotAdmitted(admitted); }
    }
    if !rooted { return Failure("audit_log_failed"); }
    var audited := st.AppendRunAudit(ev);
    if !audited.Ok? { return Verdict(audited, "audit_log_failed", Cut); }
    var sent := st.PublishEvent(pub, ev);
    return Verdict(sent, "publish_failed", Answered(true, false, ""));
  }

  /** Everything that happens to one run: emits in any mode, flushes and discards, each with its fates. */
  datatype Command =
    | EmitOne(input: Input, mode: Mode, pub: Publisher, rooted: bool, fates: seq<Fate>)
    | FlushAll(pub: Publisher, discard: bool, fates: seq<Fate>)

  function Exec(s: State, c: Command): State {
    match c
    case EmitOne(input, mode, pub, rooted, fates) => ProcessEventInput(s.(fates := fates), input, mode, pub, rooted).0
    case FlushAll(pub, discard, fates) => FlushPending(s.(fates := fates), pub, discard).0
  }

  function Run(s: State, commands: seq<Command>): State {
    if commands == [] then s else Exec(Run(s, commands[..|commands| - 1]), commands[|commands| - 1])
  }

  /** What one command put on the stream. */
  function Added(s: State, s': State): seq<Event>
    requires s.bus <= s'.bus
  {
    s'.bus[|s.bus|..]
  }

  ghost predicate NoneDenied(evs: seq<Event>) { forall i :: 0 <= i < |evs| ==> !IsDeferDenied(evs[i].kind) }

  lemma SendHeadKind(s: State, pub: Publisher)
    requires s.pending != []
    ensures var s' := SendHead(s, pub).0;
      && (s'.bus == s.bus || exists ev :: s'.bus == s.bus + [ev] && ev.kind == s.pending[0].kind)
      && (s'.pending == s.pending || s'.pending <= s.pending[1..])
  {
    SendHeadPops(s, pub);
    if s.fates != [] && s.fates[0].Look? {
      var ev := Stamp(s.pending[0], s.fates[0].provenance);
      PublishEffect(Next(s), pub, ev);
      var s1 := Publish(Next(s), pub, ev).0;
      AuditEffect(s1, ev);
      RewriteEffect(AppendAudit(s1, ev).0, s.pending[1..]);
    }
  }

  lemma NamedKinds(s: State, id: string, pending: seq<Event>)
    requires s.pending != [] && NoneDenied(s.pending) && pending <= NamedQueue(s, id)
    ensures NoneDenied(pending)
  {
    forall i | 0 <= i < |pending| ensures !IsDeferDenied(pending[i].kind) {
      assert pending[i].kind == NamedQueue(s, id)[i].kind == s.pending[i].kind;
    }
  }

  lemma IdentifyKind(s: State)
    requires s.pending != [] && NoneDenied(s.pending)
    ensures var s' := IdentifyHead(s).0; NoneDenied(s'.pending) && s'.bus == s.bus
  {
    IdentifyEffect(s);
    IdentifyMints(s);
    var s' := IdentifyHead(s).0;
    if s'.pending != s.pending {
      var id :| Minted(s, s', id);
      NamedKinds(s, id, s'.pending);
    }
  }

  lemma {:induction false} FlushLoopKinds(s: State, pub: Publisher, published: nat)
    requires NoneDenied(s.pending)
    ensures var s' := FlushLoop(s, pub, published).0;
      NoneDenied(s'.pending) && s.bus <= s'.bus && NoneDenied(Added(s, s'))
    decreases |s.pending|
  {
    if s.pending == [] {
    } else {
      IdentifyEffect(s);
      IdentifyKind(s);
      var (s1, named) := IdentifyHead(s);
      if named.Went? {
        SendHeadKind(s1, pub);
        SendHeadPops(s1, pub);
        var (s2, sent) := SendHead(s1, pub);
        if sent.Went? { FlushLoopKinds(s2, pub, published + 1); }
      }
    }
  }

  /** What an emit does to the queue, and that its event was audited before the stream could hold it. */
  lemma EmitEffect(s: State, input: Input, mode: Mode, pub: Publisher, rooted: bool)
    ensures var s' := ProcessEventInput(s, input, mode, pub, rooted).0;
      && s.bus <= s'.bus && s.audit <= s'.audit && s'.trace == s.trace && s'.agent == s.agent
      && (s'.pending == s.pending
          || exists ev :: s'.pending == s.pending + [ev] && !IsDeferDenied(ev.kind) && mode.Defer? && OwnRun(s, ev))
      && (forall ev :: ev in Added(s, s') && OwnRun(s, ev) ==> ev in s'.audit)
      && (s'.bus != s.bus ==> mode.Live?)
  {
    if input.Parsed? {
      var (s1, stamped, ev) := StampEmit(s, rooted, input.ev);
      assert s1 == s.(fates := s1.fates);
      if !stamped.Died? && mode.Live? { LiveEffect(s1, pub, rooted, ev); }
      if !stamped.Died? && mode.Defer? { DeferEffect(s1, ev); }
    }
  }

  lemma DeferEffect(s: State, ev: Event)
    ensures var s' := DeferEvent(s, ev).0;
      && s' == s.(pending := s'.pending, garbled := s'.garbled, fates := s'.fates)
      && (s'.pending == s.pending || (s'.pending == s.pending + [ev] && OwnRun(s, ev)))
  {
  }

  lemma {:induction false} LiveEffect(s: State, pub: Publisher, rooted: bool, ev: Event)
    ensures var s' := SendLive(s, pub, rooted, ev).0;
      && s'.pending == s.pending && s'.trace == s.trace && s'.agent == s.agent
      && s.audit <= s'.audit
      && (s'.bus == s.bus || (s'.bus == s.bus + [ev] && (OwnRun(s, ev) ==> ev in s'.audit)))
  {
    AdmitEffect(s, ev.trace, "event.emit", ev.agent);
    if !pub.Missing? && rooted {
      var (s1, admitted) := AdmitTrail(s, ev.trace, "event.emit", ev.agent);
      if admitted.Admitted? {
        AuditEffect(s1, ev);
        var s2 := AppendAudit(s1, ev).0;
        PublishEffect(s2, pub, ev);
      }
    }
  }

  /** What a command may do to the queue and the stream. */
  ghost predicate KeepsKinds(s: State, c: Command, s': State) {
    && NoneDenied(s'.pending) && s.bus <= s'.bus
    && (c.FlushAll? ==> NoneDenied(Added(s, s')))
    && (c.EmitOne? ==> forall ev :: ev in Added(s, s') && OwnRun(s, ev) ==> ev in s'.audit)
  }

  lemma ExecKinds(s: State, c: Command)
    requires NoneDenied(s.pending)
    ensures KeepsKinds(s, c, Exec(s, c))
  {
    match c
    case EmitOne(input, mode, pub, rooted, fates) => EmitEffect(s.(fates := fates), input, mode, pub, rooted);
    case FlushAll(pub, discard, fates) =>
      var s1 := s.(fates := fates);
      FlushLoopKinds(s1, pub, 0);
      RewriteEffect(s1, []);
  }

  /** However emits, flushes and discards follow each other, and wherever each is cut off: no deny-listed
      kind is ever queued, and none reaches the stream by a flush; and an event of this run that a live emit
      put on the stream is in the run's audit log at that very moment. */
  lemma {:induction false} LiveOnlyKindsStayLive(s0: State, commands: seq<Command>)
    requires NoneDenied(s0.pending)
    ensures NoneDenied(Run(s0, commands).pending)
    ensures forall n :: 0 <= n < |commands| ==>
      KeepsKinds(Run(s0, commands[..n]), commands[n], Run(s0, commands[..n + 1]))
  {
    if commands == [] {
    } else {
      var m := |commands| - 1;
      LiveOnlyKindsStayLive(s0, commands[..m]);
      ExecKinds(Run(s0, commands[..m]), commands[m]);
      forall n | 0 <= n < |commands|
        ensures KeepsKinds(Run(s0, commands[..n]), commands[n], Run(s0, commands[..n + 1]))
      {
        if n == m {
          assert commands[..n + 1] == commands;
        } else {
          assert commands[..m][..n] == commands[..n] && commands[..m][..n + 1] == commands[..n + 1];
          assert commands[..m][n] == commands[n];
        }
      }
    }
  }
}
