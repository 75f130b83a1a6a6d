/** What an emit's answer is worth: what an OK promises of the queue and the logs, and which refusal says what. */
module EmitAnswers {
  import opened Options
  import opened Events
  import opened Journal
  import opened Deferred
  import opened Emit
  import opened FlushAnswers
  import Text

  /** The event with the provenance recorded of its run, when a colony has one. */
  ghost function Carried(s: State, rooted: bool, ev: Event): Event {
    if rooted && ev.agent != "" && ev.trace != "" && s.fates != [] && s.fates[0].Look? && s.fates[0].provenance.Some?
    then ev.(provenance := s.fates[0].provenance.value)
    else ev
  }

  /** What an OK deferral did: the event is the last of its run's queue, unless half a line spoilt the file before. */
  ghost predicate Filed(s: State, s': State, ev: Event) {
    && s' == s.(pending := s'.pending, fates := s'.fates)
    && if OwnRun(s, ev) then s.runDir && s'.pending == s.pending + (if s.garbled then [] else [ev])
       else s'.pending == s.pending
  }

  /** What an OK live emit did: through a client exactly this event is on the stream, and the run's own is audited. */
  ghost predicate Sent(s: State, s': State, pub: Publisher, ev: Event) {
    && !pub.Missing? && s'.pending == s.pending && s'.garbled == s.garbled && s'.invocations == s.invocations
    && s'.bus == s.bus + (if pub.Client? && IsDomain(ev) then [ev] else [])
    && s'.audit == s.audit + (if OwnRun(s, ev) then [ev] else [])
    && (OwnRun(s, ev) ==> s.runDir)
    && (IsDomain(ev) && Here(s, ev) && KeepsRecord(pub) && (pub.Client? ==> Recording(s.fates)) ==>
          s'.trail == s.trail + [ev])
  }

  lemma StampCarries(s: State, rooted: bool, ev: Event)
    ensures var (s1, a, stamped) := StampEmit(s, rooted, ev);
      s1 == s.(fates := s1.fates) && Fewer(s, s1) && (!a.Died? ==> stamped == Carried(s, rooted, ev))
  {
  }

  lemma OkDeferralFiles(s: State, ev: Event)
    ensures var (s', a) := DeferEvent(s, ev); a.Ok? ==> Filed(s, s', ev)
  {
    assert s.pending + [] == s.pending;
  }

  lemma OkPublishSends(s: State, pub: Publisher, ev: Event)
    ensures var (s', a) := Publish(s, pub, ev);
      a.Ok? ==>
        && !pub.Missing? && PublishFrame(s, s')
        && s'.bus == s.bus + (if pub.Client? && IsDomain(ev) then [ev] else [])
        && (IsDomain(ev) && Here(s, ev) && KeepsRecord(pub) && (pub.Client? ==> Recording(s.fates)) ==>
              s'.trail == s.trail + [ev])
  {
    PublishEffect(s, pub, ev);
    if IsDomain(ev) && Here(s, ev) && KeepsRecord(pub) && (pub.Client? ==> Recording(s.fates)) {
      PublishRecords(s, pub, ev);
    }
    assert s.bus + [] == s.bus;
  }

  lemma OkAuditWrites(s: State, ev: Event)
    ensures var (s', a) := AppendAudit(s, ev);
      a.Ok? ==> s'.audit == s.audit + (if OwnRun(s, ev) then [ev] else []) && (OwnRun(s, ev) ==> s.runDir)
  {
    assert s.audit + [] == s.audit;
  }

  lemma OkLiveSends(s: State, pub: Publisher, rooted: bool, ev: Event)
    ensures var (s', out) := SendLive(s, pub, rooted, ev);
      out.Answered? && out.ok ==> out == Answered(true, false, "") && Sent(s, s', pub, ev)
  {
    if !pub.Missing? && rooted {
      AdmitEffect(s, ev.trace, "event.emit", ev.agent);
      var (s1, admitted) := AdmitTrail(s, ev.trace, "event.emit", ev.agent);
      if admitted.Admitted? {
        AuditEffect(s1, ev);
        OkAuditWrites(s1, ev);
        OkPublishSends(AppendAudit(s1, ev).0, pub, ev);
      }
    }
  }

  /** An emit that answers OK did what its mode promises, and nothing else: a dry run changed nothing, a deferral
      filed the stamped event, a live emit audited and published it. No deny-listed kind is ever deferred with an OK. */
  lemma OkMeansDone(s: State, input: Input, mode: Mode, pub: Publisher, rooted: bool)
    ensures var (s', out) := ProcessEventInput(s, input, mode, pub, rooted);
      out.Answered? && out.ok ==>
        && input.Parsed? && out == Answered(true, mode.Defer?, "")
        && (mode.DryRun? ==> s' == s.(fates := s'.fates))
        && (mode.Defer? ==> !IsDeferDenied(input.ev.kind) && Filed(s, s', Carried(s, rooted, input.ev)))
        && (mode.Live? ==> Sent(s, s', pub, Carried(s, rooted, input.ev)))
  {
    if input.Parsed? {
      StampCarries(s, rooted, input.ev);
      var (s1, stamped, ev) := StampEmit(s, rooted, input.ev);
      if !stamped.Died? {
        OkDeferralFiles(s1, ev);
        OkLiveSends(s1, pub, rooted, ev);
      }
    }
  }

  /* Refusals. */

  function LiveVerdict(audit: Effect, broker: Effect): EmitOutcome {
    if !audit.Done? then Failure("audit_log_failed")
    else if !broker.Done? then Failure("publish_failed")
    else Answered(true, false, "")
  }

  /** On a bound trail, whatever audit log, record and broker answer: the audit log is the emit's authority, so its
      failure keeps the event from record and stream; the record's is silent; the broker's has a name of its own. */
  lemma LiveRefusalsHaveNames(s: State, ev: Event, provenance: Option<string>, files: set<string>, audit: Effect,
                              record: Effect, broker: Effect)
    requires OwnTrace(s) && OwnRun(s, ev) && IsDomain(ev) && !s.newTrail
    requires s.fates == [Look(provenance, files), Audit(audit), Record(record), Broker(broker)]
    ensures var (s', out) := ProcessEventInput(s, Parsed(ev), Live, Client(true, true), true);
      var sent := Carried(s, true, ev);
      && out == LiveVerdict(audit, broker)
      && s'.audit == s.audit + (if audit.Refused? then [] else [sent])
      && s'.trail == s.trail + (if audit.Done? && !record.Refused? then [sent] else [])
      && s'.bus == s.bus + (if audit.Done? && !broker.Refused? then [sent] else [])
      && s'.pending == s.pending
  {
    var sent := Carried(s, true, ev);
    var s1 := s.(fates := [Audit(audit), Record(record), Broker(broker)]);
    assert StampEmit(s, true, ev) == (s1, Ok, sent);
    AuditMeets(s1, sent, audit, [Record(record), Broker(broker)]);
    var s2 := AppendAudit(s1, sent).0;
    if audit.Done? {
      assert s2.fates == [Record(record), Broker(broker)] + [];
      PublishMeets(s2, sent, record, broker, []);
    }
    assert s.trail + [] == s.trail && s.bus + [] == s.bus;
  }

  lemma AuditMeets(s: State, ev: Event, audit: Effect, rest: seq<Fate>)
    requires OwnTrace(s) && OwnRun(s, ev) && s.fates == [Audit(audit)] + rest
    ensures AppendAudit(s, ev)
         == (s.(audit := s.audit + (if audit.Refused? then [] else [ev]), fates := rest), Reported(audit))
  {
    assert s.fates[1..] == rest;
    assert s.audit + [] == s.audit;
  }

  /** A trail that is new is bound first, configuration and then origin; either failure has its name, and then neither
      audit log nor record nor stream sees the event. Bound, the emit goes on as on any bound trail. */
  lemma NewTrailIsBoundFirst(s: State, pub: Publisher, ev: Event, config: Effect, origin: Effect, rest: seq<Fate>)
    requires OwnTrace(s) && OwnRun(s, ev) && s.newTrail && !pub.Missing?
    requires s.fates == [Admit(config), Origin(origin)] + rest
    ensures var (s', out) := SendLive(s, pub, true, ev);
      var bound := s.(newTrail := false, fates := rest,
                      origin := if s.origin.Some? then s.origin
                                else Some(TrailOrigin("other", "event.emit", ev.agent, "", "")));
      && (config.Done? && origin.Done? ==> (s', out) == SendLive(bound, pub, true, ev))
      && (!config.Done? || !origin.Done? ==>
            && out == Failure(if !config.Done? then "config_capture_failed" else "origin_capture_failed")
            && s' == s.(newTrail := s'.newTrail, origin := s'.origin, fates := s'.fates)
            && (s'.newTrail <==> !config.Done? || origin.Refused?)
            && s'.origin == (if s'.newTrail then s else bound).origin)
  {
    assert s.fates[1..] == [Origin(origin)] + rest;
    assert s.fates[1..][1..] == rest;
  }

  /** A deferral is refused for a deny-listed kind, whatever else holds; and otherwise for a missing colony, a missing
      run, or a queue that cannot be appended to. */
  lemma DeferRefusalsHaveNames(s: State, ev: Event, pub: Publisher, rooted: bool, look: Fate, queue: Effect)
    requires ev.trace != "" && ev.agent != "" && OwnRun(s, ev) && !s.garbled && look.Look?
    requires s.fates == (if rooted then [look] else []) + [Queue(queue)]
    ensures var (s', out) := ProcessEventInput(s, Parsed(ev), Defer, pub, rooted);
      var filed := rooted && !IsDeferDenied(ev.kind) && s.runDir;
      && out == (if IsDeferDenied(ev.kind) then Failure("defer_denied")
                 else if !rooted then Failure("run_required")
                 else if s.runDir && queue.Done? then Answered(true, true, "") else Failure("defer_failed"))
      && s'.pending == s.pending + (if filed && !queue.Refused? then [Carried(s, rooted, ev)] else [])
      && s' == s.(pending := s'.pending, fates := s'.fates)
  {
    StampCarries(s, rooted, ev);
    assert rooted ==> s.fates[1..] == [Queue(queue)];
    assert s.pending + [] == s.pending;
  }

  /** Whoever asks: what steers the hive rather than a trail's work is never deferred, and everything else may be. */
  lemma SteeringIsNeverDeferred(s: State, ev: Event, pub: Publisher)
    ensures ProcessEventInput(s, Parsed(ev), Defer, pub, false).1
         == Failure(if Text.TrimSpace(ev.kind) in {
                         "system.kill", "energy.add", "energy.consume", "energy.stipend", "energy.seeded",
                         "energy.paused", "energy.resumed", "session.invite", "beekeeper.ready", "task.status",
                         "cue.ingress"
                       }
                    then "defer_denied" else "run_required")
  {
  }

  /** Without a publisher a live emit, and with a rejected input any emit, changes nothing but says why. */
  lemma NothingToEmit(s: State, input: Input, mode: Mode, pub: Publisher, rooted: bool)
    requires !input.Parsed? || (mode.Live? && pub.Missing?)
    ensures var (s', out) := ProcessEventInput(s, input, mode, pub, rooted);
      && s' == s.(fates := s'.fates) && !(out.Answered? && out.ok)
      && (input.Rejected? ==> out == Failure(input.error))
      && (input.Parsed? && out.Answered? ==> out == Failure("nats_not_configured"))
  {
  }

  /* A spoilt queue. */

  /** Half a line at the end of the pending file stops the run's queue for good: no emit, flush or discard changes it
      any more, and no flush puts anything on the stream. */
  lemma {:induction false} SpoiltQueueStays(s0: State, commands: seq<Command>)
    requires s0.garbled
    ensures var s := Run(s0, commands); s.garbled && s.pending == s0.pending
    ensures forall n :: 0 <= n < |commands| && commands[n].FlushAll? ==>
      Run(s0, commands[..n + 1]) == Run(s0, commands[..n]).(fates := commands[n].fates)
  {
    if commands == [] {
    } else {
      var m := |commands| - 1;
      SpoiltQueueStays(s0, commands[..m]);
      SpoiltStays(Run(s0, commands[..m]), commands[m]);
      forall n | 0 <= n < |commands| && commands[n].FlushAll?
        ensures Run(s0, commands[..n + 1]) == Run(s0, commands[..n]).(fates := commands[n].fates)
      {
        if n == m {
          assert commands[..n + 1] == commands;
        } else {
          assert commands[..m][..n] == commands[..n] && commands[..m][..n + 1] == commands[..n + 1];
          assert commands[..m][n] == commands[n];
        }
      }
    }
  }

  /** A deferral that dies within its line spoils the queue: whatever comes after, what was queued stays where it is. */
  lemma HalfLineIsForGood(s: State, ev: Event, look: Fate, pub: Publisher, commands: seq<Command>)
    requires ev.trace != "" && ev.agent != "" && OwnRun(s, ev) && s.runDir && look.Look? && !IsDeferDenied(ev.kind)
    ensures var cut := EmitOne(Parsed(ev), Defer, pub, true, [look, HalfLine]);
      var after := Exec(s, cut);
      && ProcessEventInput(s.(fates := cut.fates), Parsed(ev), Defer, pub, true).1 == Failure("defer_failed")
      && after.garbled && Run(after, commands).pending == s.pending
  {
    var cut := EmitOne(Parsed(ev), Defer, pub, true, [look, HalfLine]);
    assert [look, HalfLine][1..] == [HalfLine];
    SpoiltQueueStays(Exec(s, cut), commands);
  }

  lemma SpoiltStays(s: State, c: Command)
    requires s.garbled
    ensures Exec(s, c).garbled && Exec(s, c).pending == s.pending
    ensures c.FlushAll? ==> Exec(s, c) == s.(fates := c.fates)
  {
    if c.EmitOne? && c.input.Parsed? {
      var (s1, stamped, ev) := StampEmit(s.(fates := c.fates), c.rooted, c.input.ev);
      StampCarries(s.(fates := c.fates), c.rooted, c.input.ev);
      SpoiltLive(s1, c.pub, c.rooted, ev);
    }
  }

  lemma SpoiltLive(s: State, pub: Publisher, rooted: bool, ev: Event)
    ensures var s' := SendLive(s, pub, rooted, ev).0; s'.garbled == s.garbled && s'.pending == s.pending
  {
    AdmitEffect(s, ev.trace, "event.emit", ev.agent);
    var s1 := AdmitTrail(s, ev.trace, "event.emit", ev.agent).0;
    AuditEffect(if rooted then s1 else s, ev);
    PublishEffect(AppendAudit(s1, ev).0, pub, ev);
  }
}
