/** The same steps in the form the source gives them: files and a stream changed in place. */
module Stations {
  import opened Options
  import opened Events
  import opened Journal
  import Text

  class Station {
    const trace: string
    const agent: string
    var runDir: bool
    var newTrail: bool
    var origin: Option<TrailOrigin>
    var pending: seq<Event>
    var garbled: bool
    var trail: seq<Event>
    var audit: seq<Event>
    var bus: seq<Event>
    var invocations: map<string, CueInvocation>
    var fates: seq<Fate>

    ghost function Now(): State
      reads this
    {
      State(trace, agent, runDir, newTrail, origin, pending, garbled, trail, audit, bus, invocations, fates)
    }

    constructor (trace: string, agent: string, runDir: bool, fates: seq<Fate>)
      ensures Now() == State(trace, agent, runDir, !runDir, None, [], false, [], [], [], map[], fates)
    {
      this.trace, this.agent, this.runDir, this.newTrail, this.fates := trace, agent, runDir, !runDir, fates;
      origin, pending, garbled, trail, audit, bus, invocations := None, [], false, [], [], [], map[];
    }

    method MintEventId() returns (a: Answer, id: string)
      modifies this`fates
      ensures (Now(), a, id) == MintId(old(Now()))
    {
      if fates == [] || !fates[0].Mint? { return Died, ""; }
      match fates[0].id {
        case None =>
          fates := fates[1..];
          return Err, "";
        case Some(minted) =>
          if minted == "" || minted in Ids(pending) + Ids(trail) + Ids(audit) + Ids(bus) { return Died, ""; }
          fates := fates[1..];
          return Ok, minted;
      }
    }

    method RewritePending(queue: seq<Event>) returns (a: Answer)
      modifies this`pending, this`garbled, this`fates
      ensures (Now(), a) == WritePending(old(Now()), queue)
    {
      if fates == [] { return Died; }
      var fate := fates[0];
      match fate {
        case Rewrite(e) =>
          fates := fates[1..];
          if !e.Refused? { pending, garbled := queue, false; }
          return Reported(e);
        case Torn(kept, half) =>
          if kept >= |queue| { return Died; }
          fates := fates[1..];
          pending, garbled := queue[..kept], half;
          return Err;
        case _ => return Died;
      }
    }

    method QueuePending(ev: Event) returns (a: Answer)
      modifies this`pending, this`garbled, this`fates
      ensures (Now(), a) == AppendPending(old(Now()), ev)
    {
      if !runDir { return Err; }
      if fates == [] { return Died; }
      var fate := fates[0];
      match fate {
        case Queue(e) =>
          fates := fates[1..];
          if !e.Refused? && !garbled { pending := pending + [ev]; }
          return Reported(e);
        case HalfLine =>
          fates := fates[1..];
          garbled := true;
          return Err;
        case _ => return Died;
      }
    }

    method Record(records: bool, ev: Event) returns (a: Answer)
      modifies this`trail, this`fates
      ensures (Now(), a) == RecordTrailEvent(old(Now()), records, ev)
    {
      if !records || Text.Blank(ev.trace) || !IsDomain(ev) { return Ok; }
      if fates == [] || !fates[0].Record? { return Died; }
      var e := fates[0].effect;
      fates := fates[1..];
      if !e.Refused? && Text.TrimSpace(ev.trace) == trace { trail := trail + [ev]; }
      return Reported(e);
    }

    method EnsureOrigin(proposed: TrailOrigin) returns (a: Answer)
      modifies this`origin, this`newTrail, this`fates
      ensures (Now(), a) == EnsureTrailOrigin(old(Now()), proposed)
    {
      if fates == [] || !fates[0].Origin? { return Died; }
      var e := fates[0].effect;
      fates := fates[1..];
      if e.Refused? { return Err; }
      if origin.None? { origin := Some(proposed); }
      newTrail := false;
      return Reported(e);
    }

    /** The binding that guards every first event: for the run's own trail, and for any other one. */
    method Admit(trail: string, source: string, actor: string) returns (a: Admission)
      modifies this`origin, this`newTrail, this`fates
      ensures (Now(), a) == AdmitTrail(old(Now()), trail, source, actor)
    {
      if Text.Blank(trail) { return Admitted; }
      var own := trail == trace;
      if own && !newTrail { return Admitted; }
      if fates == [] || !fates[0].Admit? { return if own then Lost else Admitted; }
      var bound := fates[0].effect;
      fates := fates[1..];
      if !bound.Done? { return ConfigFailed; }
      if fates == [] || !fates[0].Origin? { return Lost; }
      var proved := fates[0].effect;
      if own {
        var _ := EnsureOrigin(TrailOrigin("other", source, actor, "", ""));
      } else {
        fates := fates[1..];
      }
      return if proved.Done? then Admitted else OriginFailed;
    }

    /** Publisher.PublishEvent, for the connected client and for the file-only publishers. */
    method PublishEvent(pub: Publisher, ev: Event) returns (a: Answer)
      modifies this`origin, this`newTrail, this`trail, this`bus, this`fates
      ensures (Now(), a) == Publish(old(Now()), pub, ev)
    {
      match pub {
        case Missing => return Err;
        case Nop => return Ok;
        case LocalOnly(records) => a := Record(records, ev);
        case Client(records, connected) =>
          if !IsDomain(ev) { return Ok; }
          if records {
            var admitted := Admit(ev.trace, "event", ev.agent);
            if !admitted.Admitted? { return if admitted.Lost? then Died else Err; }
          }
          a := Record(records, ev);
          if a.Died? { return; }
          if !connected { return Err; }
          if fates == [] || !fates[0].Broker? { return Died; }
          var e := fates[0].effect;
          fates := fates[1..];
          if !e.Refused? { bus := bus + [ev]; }
          return Reported(e);
      }
    }

    method AppendRunAudit(ev: Event) returns (a: Answer)
      modifies this`audit, this`fates
      ensures (Now(), a) == AppendAudit(old(Now()), ev)
    {
      if ev.trace == "" || ev.agent == "" { return Err; }
      var own := ev.trace == trace && ev.agent == agent;
      if own && !runDir { return Err; }
      if fates == [] || !fates[0].Audit? { return Died; }
      var e := fates[0].effect;
      fates := fates[1..];
      if !e.Refused? && own { audit := audit + [ev]; }
      return Reported(e);
    }

    method SaveInvocation(inv: CueInvocation) returns (a: Answer)
      modifies this`invocations, this`fates
      ensures (Now(), a) == WriteInvocation(old(Now()), inv)
    {
      if fates == [] || !fates[0].Save? { return Died; }
      var e := fates[0].effect;
      fates := fates[1..];
      if !e.Refused? { invocations := invocations[inv.id := inv]; }
      return Reported(e);
    }
  }
}
