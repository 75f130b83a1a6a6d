/** internal/cues/ingress.go: the write-ahead record of a cue invocation and its replay. */
module CueIngress {
  import opened Options
  import opened Events
  import opened Journal
  import opened Stations
  import Text

  function NonEmptyIds(events: seq<Event>): seq<string> {
    if events == [] then []
    else NonEmptyIds(events[..|events| - 1]) + if events[|events| - 1].id != "" then [events[|events| - 1].id] else []
  }

  /** buildInvocation, once the observation's identity is minted. */
  function BuildInvocation(id: string, ingressId: string, cue: string, trace: string, source: string, agent: string,
                           invokedAt: nat, tasks: seq<string>, events: seq<Event>): CueInvocation {
    var ingress := Event(ingressId, trace, agent, Signal, invokedAt, "cue.ingress", Refs.Named([]), "", "");
    CueInvocation(id, trace, agent, cue, source, tasks, NonEmptyIds(events), ingress, false,
                  seq(|events|, i requires 0 <= i < |events| => CueEvent(events[i], false)))
  }

  datatype RunResult = RunResult(trace: string, invocation: string, task: string, typ: Option<EventType>, kind: string)

  /** resultForInvocation. */
  function ResultFor(inv: CueInvocation): RunResult {
    RunResult(inv.trace, inv.id, if inv.tasks == [] then "" else inv.tasks[0],
              if inv.events == [] then None else Some(inv.events[0].event.typ),
              if inv.events == [] then "" else inv.events[0].event.kind)
  }

  function CueOrigin(inv: CueInvocation): TrailOrigin { TrailOrigin("cue", inv.source, inv.agent, inv.id, inv.cue) }

  /** One publish and the record of it. */
  function PublishAndSave(s: State, pub: Publisher, ev: Event, after: CueInvocation): (State, Answer) {
    var (s1, sent) := Publish(s, pub, ev);
    if sent.Ok? then WriteInvocation(s1, after) else (s1, sent)
  }

  function MarkEvent(inv: CueInvocation, i: nat): CueInvocation
    requires i < |inv.events|
  {
    inv.(events := inv.events[i := inv.events[i].(published := true)])
  }

  function PublishEvents(s: State, pub: Publisher, inv: CueInvocation, i: nat): (State, Answer)
    decreases |inv.events| - i
  {
    if i >= |inv.events| then (s, Ok)
    else if inv.events[i].published then PublishEvents(s, pub, inv, i + 1)
    else
      var (s1, saved) := PublishAndSave(s, pub, inv.events[i].event, MarkEvent(inv, i));
      if !saved.Ok? then (s1, saved) else PublishEvents(s1, pub, MarkEvent(inv, i), i + 1)
  }

  /** The publications the record does not confirm yet, the observation first. */
  function PublishHeld(s: State, pub: Publisher, inv: CueInvocation): (State, Answer) {
    if inv.ingressPublished then PublishEvents(s, pub, inv, 0)
    else
      var marked := inv.(ingressPublished := true);
      var (s1, saved) := PublishAndSave(s, pub, inv.ingress, marked);
      if !saved.Ok? then (s1, saved) else PublishEvents(s1, pub, marked, 0)
  }

  /** publishInvocation: origin, record, observation, events. Without a colony root there is no record. */
  function PublishInvocation(s: State, pub: Publisher, rooted: bool, inv: CueInvocation): (State, Answer) {
    if !rooted then (s, Err)
    else
      var (s1, proved) := EnsureTrailOrigin(s, CueOrigin(inv));
      if !proved.Ok? then (s1, proved)
      else
        var (s2, recorded) := WriteInvocation(s1, inv);
        if !recorded.Ok? then (s2, recorded) else PublishHeld(s2, pub, inv)
  }

  /** RepublishInvocation, for a record of this trace. */
  function RepublishInvocation(s: State, pub: Publisher, rooted: bool, id: string): (State, Answer, Option<RunResult>) {
    var key := Text.TrimSpace(id);
    if pub.Missing? || !rooted || key !in s.invocations then (s, Err, None)
    else
      var (s', a) := PublishInvocation(s, pub, rooted, s.invocations[key]);
      (s', a, if a.Ok? then Some(ResultFor(s.invocations[key])) else None)
  }

  method PublishRecorded(st: Station, pub: Publisher, rooted: bool, invocation: CueInvocation) returns (a: Answer)
    modifies st
    ensures (st.Now(), a) == PublishInvocation(old(st.Now()), pub, rooted, invocation)
  {
    if !rooted { return Err; }
    var inv := invocation;
    a := st.EnsureOrigin(CueOrigin(inv));
    if !a.Ok? { return; }
    a := st.SaveInvocation(inv);
    if !a.Ok? { return; }
    if !inv.ingressPublished {
      a := st.PublishEvent(pub, inv.ingress);
      if !a.Ok? { return; }
      inv := inv.(ingressPublished := true);
      a := st.SaveInvocation(inv);
      if !a.Ok? { return; }
    }
    a := PublishRest(st, pub, inv);
  }

  /** The loop over the invocation's events. */
  method PublishRest(st: Station, pub: Publisher, invocation: CueInvocation) returns (a: Answer)
    modifies st
    ensures (st.Now(), a) == PublishEvents(old(st.Now()), pub, invocation, 0)
  {
    var inv := invocation;
    var i := 0;
    while i < |inv.events|
      invariant PublishEvents(st.Now(), pub, inv, i) == PublishEvents(old(st.Now()), pub, invocation, 0)
      decreases |inv.events| - i
    {
      if !inv.events[i].published {
        a := st.PublishEvent(pub, inv.events[i].event);
        if !a.Ok? { return; }
        inv := inv.(events := inv.events[i := inv.events[i].(published := true)]);
        a := st.SaveInvocation(inv);
        if !a.Ok? { return; }
      }
      i := i + 1;
    }
    return Ok;
  }

  method Republish(st: Station, pub: Publisher, rooted: bool, id: string) returns (a: Answer, result: Option<RunResult>)
    modifies st
    ensures (st.Now(), a, result) == RepublishInvocation(old(st.Now()), pub, rooted, id)
  {
    var key := Text.TrimSpace(id);
    if pub.Missing? || !rooted || key !in st.invocations { return Err, None; }
    var inv := st.invocations[key];
    a := PublishRecorded(st, pub, rooted, inv);
    result := if a.Ok? then Some(ResultFor(inv)) else None;
  }

  /** The invocation's events in publish order, the observation first. */
  function Script(inv: CueInvocation): seq<Event> {
    [inv.ingress] + seq(|inv.events|, i requires 0 <= i < |inv.events| => inv.events[i].event)
  }

  /** The invocation with exactly its first n publications flagged. */
  function Marked(inv: CueInvocation, n: nat): CueInvocation {
    inv.(ingressPublished := n > 0,
         events := seq(|inv.events|, i requires 0 <= i < |inv.events| => CueEvent(inv.events[i].event, i + 1 < n)))
  }

  /** A retry: the same invocation published once more from the start, or the recorded one replayed. */
  datatype Attempt =
    | First(pub: Publisher, rooted: bool, fates: seq<Fate>)
    | Again(pub: Publisher, rooted: bool, fates: seq<Fate>)

  function Try(s: State, inv: CueInvocation, a: Attempt): State {
    var s1 := s.(fates := a.fates);
    match a
    case First(pub, rooted, _) => PublishInvocation(s1, pub, rooted, inv).0
    case Again(pub, rooted, _) => RepublishInvocation(s1, pub, rooted, inv.id).0
  }

  function Retry(s: State, inv: CueInvocation, attempts: seq<Attempt>): State {
    if attempts == [] then s else Try(Retry(s, inv, attempts[..|attempts| - 1]), inv, attempts[|attempts| - 1])
  }

  /** A publisher that answers for events no broker has seen. */
  predicate Silent(pub: Publisher) { pub.LocalOnly? || pub.Nop? }

  /** The stream replays the script at the positions pos; honestly, with first occurrences in script order. */
  ghost predicate Streamed(base: seq<Event>, bus: seq<Event>, inv: CueInvocation, pos: seq<nat>, honest: bool) {
    && base <= bus && Replays(bus[|base|..], Script(inv), pos) && OnlyDomain(Script(inv), pos)
    && (honest ==> InOrder(Script(inv), pos))
  }

  /** The first n publications that the broker can hold are on the stream. */
  ghost predicate Sent(inv: CueInvocation, pos: seq<nat>, n: nat) {
    forall q :: 0 <= q < n && q < |Script(inv)| && IsDomain(Script(inv)[q]) ==> q in pos
  }

  /** The flags on disk are those of exactly the first n publications; honestly, of publications that were sent. */
  ghost predicate Flagged(s: State, inv: CueInvocation, pos: seq<nat>, n: nat, honest: bool) {
    && inv.id in s.invocations && n <= 1 + |inv.events| && s.invocations[inv.id] == Marked(inv, n)
    && (honest ==> Sent(inv, pos, n))
  }

  /** Nothing is on the stream before the record is on disk, nor the record before the origin; its flags are a prefix
      with the observation's first. */
  ghost predicate RecordTrue(s: State, inv: CueInvocation, pos: seq<nat>, honest: bool) {
    && (pos != [] ==> inv.id in s.invocations)
    && (inv.id in s.invocations ==> s.origin.Some?)
    && (inv.id in s.invocations ==> exists n: nat :: Flagged(s, inv, pos, n, honest))
  }

  ghost predicate Untouched(s0: State, s: State, inv: CueInvocation) {
    && (forall id :: id != inv.id ==> (id in s.invocations <==> id in s0.invocations))
    && (forall id :: id != inv.id && id in s.invocations ==> s.invocations[id] == s0.invocations[id])
    && (s0.origin.Some? ==> s.origin == s0.origin)
  }

  /** What holds after any history, and honestly: after one without a silent publisher. */
  ghost predicate Replayed(s0: State, s: State, inv: CueInvocation, pos: seq<nat>, honest: bool) {
    Streamed(s0.bus, s.bus, inv, pos, honest) && RecordTrue(s, inv, pos, honest) && Untouched(s0, s, inv)
  }

  /** An invocation none of whose publications is flagged, as buildInvocation leaves it. */
  ghost predicate Unflagged(inv: CueInvocation) { inv == Marked(inv, 0) && Text.TrimSpace(inv.id) == inv.id }

  /** An invocation that is new to the colony. */
  ghost predicate NewTo(s0: State, inv: CueInvocation) { Unflagged(inv) && inv.id !in s0.invocations }

  lemma MarkedSteps(inv: CueInvocation, n: nat)
    requires inv == Marked(inv, 0)
    ensures Script(Marked(inv, n)) == Script(inv) && Marked(inv, n).id == inv.id
    ensures CueOrigin(Marked(inv, n)) == CueOrigin(inv)
    ensures 1 <= n <= |inv.events| ==> MarkEvent(Marked(inv, n), n - 1) == Marked(inv, n + 1)
    ensures Marked(inv, 0).(ingressPublished := true) == Marked(inv, 1)
    ensures n > |inv.events| ==> Marked(inv, n) == Marked(inv, |inv.events| + 1)
  {
  }

  lemma SendOne(s0: State, s: State, pub: Publisher, inv: CueInvocation, pos: seq<nat>, n: nat, honest: bool)
    returns (pos': seq<nat>)
    requires Replayed(s0, s, inv, pos, honest) && inv.id in s.invocations && n < |Script(inv)|
    requires honest ==> !Silent(pub) && Sent(inv, pos, n)
    ensures var (s', a) := Publish(s, pub, Script(inv)[n]);
      && Replayed(s0, s', inv, pos', honest) && inv.id in s'.invocations
      && (a.Ok? && honest ==> Sent(inv, pos', n + 1))
  {
    var ev := Script(inv)[n];
    PublishEffect(s, pub, ev);
    var s' := Publish(s, pub, ev).0;
    pos' := pos;
    if s'.bus != s.bus {
      pos' := pos + [n];
      StreamGrows(s0.bus, s.bus, inv, pos, n, honest);
    }
    RecordCarries(s, s', inv, pos, pos', honest);
  }

  lemma RecordCarries(s: State, s': State, inv: CueInvocation, pos: seq<nat>, pos': seq<nat>, honest: bool)
    requires RecordTrue(s, inv, pos, honest) && s'.invocations == s.invocations && inv.id in s.invocations
    requires s.origin.Some? ==> s'.origin == s.origin
    requires forall q :: q in pos ==> q in pos'
    ensures RecordTrue(s', inv, pos', honest)
  {
    var n: nat :| Flagged(s, inv, pos, n, honest);
    assert Flagged(s', inv, pos', n, honest);
  }

  lemma InOrderGrows(queue: seq<Event>, pos: seq<nat>, n: nat)
    requires InOrder(queue, pos) && forall q :: 0 <= q < n <= |queue| && IsDomain(queue[q]) ==> q in pos
    ensures InOrder(queue, pos + [n])
  {
    var pos' := pos + [n];
    forall i, q | 0 <= i < |pos'| && 0 <= q < pos'[i] <= |queue| && IsDomain(queue[q]) ensures q in pos'[..i] {
      if i < |pos| { assert pos'[..i] == pos[..i]; } else { assert pos'[..i] == pos; }
    }
  }

  lemma StreamGrows(base: seq<Event>, bus: seq<Event>, inv: CueInvocation, pos: seq<nat>, n: nat, honest: bool)
    requires Streamed(base, bus, inv, pos, honest) && n < |Script(inv)| && IsDomain(Script(inv)[n])
    requires honest ==> Sent(inv, pos, n)
    ensures Streamed(base, bus + [Script(inv)[n]], inv, pos + [n], honest)
  {
    var ev := Script(inv)[n];
    assert (bus + [ev])[|base|..] == bus[|base|..] + [ev];
    if honest { InOrderGrows(Script(inv), pos, n); }
  }

  /** Writing the record with one more flag than was true before keeps it true. */
  lemma SaveOne(s0: State, s: State, inv: CueInvocation, pos: seq<nat>, n: nat, honest: bool)
    requires Replayed(s0, s, inv, pos, honest) && n <= |Script(inv)| && (honest ==> Sent(inv, pos, n)) && s.origin.Some?
    ensures var (s', a) := WriteInvocation(s, Marked(inv, n));
      && Replayed(s0, s', inv, pos, honest) && s'.origin == s.origin
      && (a.Ok? || inv.id in s.invocations ==> inv.id in s'.invocations)
  {
    var s' := WriteInvocation(s, Marked(inv, n)).0;
    if s'.invocations != s.invocations {
      assert s'.invocations == s.invocations[inv.id := Marked(inv, n)];
      assert Flagged(s', inv, pos, n, honest);
    } else if inv.id in s.invocations {
      RecordCarries(s, s', inv, pos, pos, honest);
    }
  }

  lemma SendAndSave(s0: State, s: State, pub: Publisher, inv: CueInvocation, pos: seq<nat>, n: nat, honest: bool)
    returns (pos': seq<nat>)
    requires Replayed(s0, s, inv, pos, honest) && inv.id in s.invocations && n < |Script(inv)|
    requires honest ==> !Silent(pub) && Sent(inv, pos, n)
    ensures var (s', a) := PublishAndSave(s, pub, Script(inv)[n], Marked(inv, n + 1));
      && Replayed(s0, s', inv, pos', honest) && inv.id in s'.invocations
      && (a.Ok? && honest ==> Sent(inv, pos', n + 1))
  {
    pos' := SendOne(s0, s, pub, inv, pos, n, honest);
    var (s1, sent) := Publish(s, pub, Script(inv)[n]);
    if sent.Ok? { SaveOne(s0, s1, inv, pos', n + 1, honest); }
  }

  lemma OneEvent(s: State, pub: Publisher, inv: CueInvocation, n: nat, i: nat)
    requires inv == Marked(inv, 0) && i < |inv.events| && n == i + 1
    ensures var (s1, saved) := PublishAndSave(s, pub, Script(inv)[n], Marked(inv, n + 1));
      PublishEvents(s, pub, Marked(inv, n), i)
      == if saved.Ok? then PublishEvents(s1, pub, Marked(inv, n + 1), i + 1) else (s1, saved)
  {
    MarkedSteps(inv, n);
    assert Script(inv)[n] == inv.events[i].event;
  }

  lemma SkippedEvent(s: State, pub: Publisher, inv: CueInvocation, n: nat, i: nat)
    requires i < |inv.events| && i + 1 < n
    ensures PublishEvents(s, pub, Marked(inv, n), i) == PublishEvents(s, pub, Marked(inv, n), i + 1)
  {
    assert Marked(inv, n).events[i].published;
  }

  lemma {:induction false} EventsReplayed(s0: State, s: State, pub: Publisher, inv: CueInvocation, pos: seq<nat>,
                                          n: nat, i: nat, honest: bool)
    returns (pos': seq<nat>)
    requires Replayed(s0, s, inv, pos, honest) && inv.id in s.invocations && inv == Marked(inv, 0)
    requires i + 1 <= n && n <= |Script(inv)| && (honest ==> !Silent(pub) && Sent(inv, pos, n))
    ensures var (s', a) := PublishEvents(s, pub, Marked(inv, n), i);
      && Replayed(s0, s', inv, pos', honest)
      && (a.Ok? && honest ==> Sent(inv, pos', |Script(inv)|))
    decreases |inv.events| - i
  {
    pos' := pos;
    if i >= |inv.events| {
    } else if i + 1 < n {
      SkippedEvent(s, pub, inv, n, i);
      pos' := EventsReplayed(s0, s, pub, inv, pos, n, i + 1, honest);
    } else {
      OneEvent(s, pub, inv, n, i);
      pos' := SendAndSave(s0, s, pub, inv, pos, n, honest);
      var (s1, saved) := PublishAndSave(s, pub, Script(inv)[n], Marked(inv, n + 1));
      if saved.Ok? { pos' := EventsReplayed(s0, s1, pub, inv, pos', n + 1, i + 1, honest); }
    }
  }

  lemma PublicationReplayed(s0: State, s: State, pub: Publisher, rooted: bool, inv: CueInvocation, pos: seq<nat>,
                            n: nat, honest: bool)
    returns (pos': seq<nat>)
    requires Replayed(s0, s, inv, pos, honest) && inv == Marked(inv, 0) && n <= |Script(inv)|
    requires honest ==> !Silent(pub) && Sent(inv, pos, n)
    ensures var (s', a) := PublishInvocation(s, pub, rooted, Marked(inv, n));
      && Replayed(s0, s', inv, pos', honest)
      && (a.Ok? && honest ==> Sent(inv, pos', |Script(inv)|))
  {
    pos' := pos;
    MarkedSteps(inv, n);
    if rooted {
      var (s1, proved) := EnsureTrailOrigin(s, CueOrigin(inv));
      OriginKeeps(s0, s, inv, pos, honest);
      if proved.Ok? {
        SaveOne(s0, s1, inv, pos, n, honest);
        var (s2, recorded) := WriteInvocation(s1, Marked(inv, n));
        if recorded.Ok? {
          pos' := FromRecord(s0, s2, pub, inv, pos, n, honest);
        }
      }
    }
  }

  lemma OriginKeeps(s0: State, s: State, inv: CueInvocation, pos: seq<nat>, honest: bool)
    requires Replayed(s0, s, inv, pos, honest)
    ensures var (s1, proved) := EnsureTrailOrigin(s, CueOrigin(inv));
      && Replayed(s0, s1, inv, pos, honest) && (proved.Ok? ==> s1.origin.Some?)
      && (s.origin.Some? ==> s1.origin == s.origin)
  {
    var s1 := EnsureTrailOrigin(s, CueOrigin(inv)).0;
    if inv.id in s.invocations { RecordCarries(s, s1, inv, pos, pos, honest); }
  }

  lemma HeldCases(s: State, pub: Publisher, inv: CueInvocation, n: nat)
    requires inv == Marked(inv, 0)
    ensures n > 0 ==> PublishHeld(s, pub, Marked(inv, n)) == PublishEvents(s, pub, Marked(inv, n), 0)
    ensures n == 0 ==>
      var (s1, saved) := PublishAndSave(s, pub, inv.ingress, Marked(inv, 1));
      PublishHeld(s, pub, Marked(inv, n))
      == if !saved.Ok? then (s1, saved) else PublishEvents(s1, pub, Marked(inv, 1), 0)
  {
    MarkedSteps(inv, n);
  }

  lemma FromScratch(s0: State, s: State, pub: Publisher, inv: CueInvocation, pos: seq<nat>, honest: bool)
    returns (pos': seq<nat>)
    requires Replayed(s0, s, inv, pos, honest) && inv == Marked(inv, 0) && inv.id in s.invocations
    requires honest ==> !Silent(pub)
    ensures var (s1, saved) := PublishAndSave(s, pub, inv.ingress, Marked(inv, 1));
      var (s', a) := if !saved.Ok? then (s1, saved) else PublishEvents(s1, pub, Marked(inv, 1), 0);
      Replayed(s0, s', inv, pos', honest) && (a.Ok? && honest ==> Sent(inv, pos', |Script(inv)|))
  {
    assert Script(inv)[0] == inv.ingress;
    pos' := SendAndSave(s0, s, pub, inv, pos, 0, honest);
    pos' := AfterIngress(s0, s, pub, inv, pos', honest);
  }

  /** What publishInvocation does once the record is on disk. */
  lemma FromRecord(s0: State, s: State, pub: Publisher, inv: CueInvocation, pos: seq<nat>, n: nat, honest: bool)
    returns (pos': seq<nat>)
    requires Replayed(s0, s, inv, pos, honest) && inv == Marked(inv, 0) && inv.id in s.invocations
    requires n <= |Script(inv)| && (honest ==> !Silent(pub) && Sent(inv, pos, n))
    ensures var (s', a) := PublishHeld(s, pub, Marked(inv, n));
      && Replayed(s0, s', inv, pos', honest)
      && (a.Ok? && honest ==> Sent(inv, pos', |Script(inv)|))
  {
    HeldCases(s, pub, inv, n);
    if n > 0 {
      pos' := EventsReplayed(s0, s, pub, inv, pos, n, 0, honest);
    } else {
      pos' := FromScratch(s0, s, pub, inv, pos, honest);
    }
  }

  lemma AfterIngress(s0: State, s: State, pub: Publisher, inv: CueInvocation, pos: seq<nat>, honest: bool)
    returns (pos': seq<nat>)
    requires inv == Marked(inv, 0) && (honest ==> !Silent(pub))
    requires var (s1, saved) := PublishAndSave(s, pub, inv.ingress, Marked(inv, 1));
      && Replayed(s0, s1, inv, pos, honest) && inv.id in s1.invocations
      && (saved.Ok? && honest ==> Sent(inv, pos, 1))
    ensures var (s1, saved) := PublishAndSave(s, pub, inv.ingress, Marked(inv, 1));
      var (s', a) := if !saved.Ok? then (s1, saved) else PublishEvents(s1, pub, Marked(inv, 1), 0);
      Replayed(s0, s', inv, pos', honest) && (a.Ok? && honest ==> Sent(inv, pos', |Script(inv)|))
  {
    pos' := pos;
    var (s1, saved) := PublishAndSave(s, pub, inv.ingress, Marked(inv, 1));
    if saved.Ok? { pos' := EventsReplayed(s0, s1, pub, inv, pos, 1, 0, honest); }
  }

  lemma TryReplayed(s0: State, s: State, inv: CueInvocation, a: Attempt, pos: seq<nat>, honest: bool)
    returns (pos': seq<nat>)
    requires Replayed(s0, s, inv, pos, honest) && Unflagged(inv) && (honest ==> !Silent(a.pub))
    ensures Replayed(s0, Try(s, inv, a), inv, pos', honest)
  {
    var s1 := s.(fates := a.fates);
    assert Replayed(s0, s1, inv, pos, honest) by {
      if inv.id in s.invocations { RecordCarries(s, s1, inv, pos, pos, honest); }
    }
    match a
    case First(pub, rooted, _) => pos' := PublicationReplayed(s0, s1, pub, rooted, inv, pos, 0, honest);
    case Again(pub, rooted, _) =>
      pos' := pos;
      if inv.id in s1.invocations {
        var n: nat :| Flagged(s1, inv, pos, n, honest);
        pos' := PublicationReplayed(s0, s1, pub, rooted, inv, pos, n, honest);
        if !rooted || pub.Missing? { pos' := pos; }
      }
  }

  /** No attempt went through a publisher that answers for events no broker has seen. */
  ghost predicate NoneSilent(attempts: seq<Attempt>) { forall a :: a in attempts ==> !Silent(a.pub) }

  lemma {:induction false} RetryReplayed(s0: State, inv: CueInvocation, attempts: seq<Attempt>, honest: bool)
    returns (pos: seq<nat>)
    requires NewTo(s0, inv) && (honest ==> NoneSilent(attempts))
    ensures Replayed(s0, Retry(s0, inv, attempts), inv, pos, honest)
  {
    if attempts == [] {
      pos := [];
    } else {
      var m := |attempts| - 1;
      pos := RetryReplayed(s0, inv, attempts[..m], honest);
      pos := TryReplayed(s0, Retry(s0, inv, attempts[..m]), inv, attempts[m], pos, honest);
    }
  }

  /** However often an invocation is published and replayed, through whatever publishers, and wherever each attempt
      dies: the stream holds copies of observation and events only, and nothing of them before record and origin are
      on disk; the recorded flags are a prefix, the observation's first; no other record and no existing origin
      changes. Without a silent publisher, moreover, first occurrences come in script order and everything flagged is
      on the stream. */
  lemma CueReplayIsSafe(s0: State, inv: CueInvocation, attempts: seq<Attempt>)
    requires NewTo(s0, inv)
    ensures exists pos: seq<nat> :: Replayed(s0, Retry(s0, inv, attempts), inv, pos, NoneSilent(attempts))
    ensures var s := Retry(s0, inv, attempts); s.bus != s0.bus ==> inv.id in s.invocations && s.origin.Some?
  {
    var pos := RetryReplayed(s0, inv, attempts, NoneSilent(attempts));
    var s := Retry(s0, inv, attempts);
    assert s.bus == s0.bus + s.bus[|s0.bus|..];
  }

  /** Retries add no identity of their own: the stream gains only ids of the script, and so never more distinct ones
      than the observation and the recorded events. */
  lemma {:induction false} ReplayMintsNothing(s0: State, inv: CueInvocation, attempts: seq<Attempt>)
    requires NewTo(s0, inv)
    ensures s0.bus <= Retry(s0, inv, attempts).bus
    ensures var sent := Retry(s0, inv, attempts).bus[|s0.bus|..];
      Ids(sent) <= Ids(Script(inv)) && |FirstIds(sent)| <= 1 + |inv.events|
  {
    var pos := RetryReplayed(s0, inv, attempts, false);
    ReplayNamesOnlyTheQueue(Retry(s0, inv, attempts).bus[|s0.bus|..], Script(inv), pos);
  }

  lemma LastAttemptKeepsOrigin(s0: State, inv: CueInvocation, attempts: seq<Attempt>)
    requires NewTo(s0, inv) && attempts != []
    requires Retry(s0, inv, attempts[..|attempts| - 1]).origin.Some?
    ensures Retry(s0, inv, attempts).origin == Retry(s0, inv, attempts[..|attempts| - 1]).origin
  {
    var init := attempts[..|attempts| - 1];
    var pos := RetryReplayed(s0, inv, init, false);
    AttemptKeepsOrigin(s0, Retry(s0, inv, init), inv, attempts[|attempts| - 1], pos);
  }

  /** Once proved, an origin outlives every later attempt. */
  lemma {:induction false} OriginNeverChanges(s0: State, inv: CueInvocation, attempts: seq<Attempt>, m: nat)
    requires NewTo(s0, inv)
    requires m <= |attempts| && Retry(s0, inv, attempts[..m]).origin.Some?
    ensures Retry(s0, inv, attempts).origin == Retry(s0, inv, attempts[..m]).origin
  {
    if m == |attempts| {
      assert attempts[..m] == attempts;
    } else {
      var init := attempts[..|attempts| - 1];
      assert init[..m] == attempts[..m];
      OriginNeverChanges(s0, inv, init, m);
      LastAttemptKeepsOrigin(s0, inv, attempts);
    }
  }

  lemma AttemptKeepsOrigin(s0: State, s: State, inv: CueInvocation, a: Attempt, pos: seq<nat>)
    requires Replayed(s0, s, inv, pos, false) && Unflagged(inv) && s.origin.Some?
    ensures Try(s, inv, a).origin == s.origin
  {
    // Seen from a start that already has this origin, the attempt leaves it as it was.
    var start := s0.(origin := s.origin);
    var pos' := TryReplayed(start, s, inv, a, pos, false);
  }

  lemma SavedFlags(s: State, pub: Publisher, ev: Event, after: CueInvocation)
    ensures var (s', a) := PublishAndSave(s, pub, ev, after);
      && (a.Ok? ==> after.id in s'.invocations && s'.invocations[after.id] == after)
      && (!pub.Client? ==> s'.bus == s.bus)
  {
    PublishEffect(s, pub, ev);
  }

  /** A publication that reports success has every flag on disk, whatever the publisher was. */
  lemma {:induction false} SuccessFlagsEverything(s: State, pub: Publisher, inv: CueInvocation, n: nat, i: nat)
    requires inv == Marked(inv, 0) && i + 1 <= n && n <= 1 + |inv.events|
    requires inv.id in s.invocations && s.invocations[inv.id] == Marked(inv, n)
    ensures var (s', a) := PublishEvents(s, pub, Marked(inv, n), i);
      && (a.Ok? ==> inv.id in s'.invocations && s'.invocations[inv.id] == Marked(inv, 1 + |inv.events|))
      && (!pub.Client? ==> s'.bus == s.bus)
    decreases |inv.events| - i
  {
    if i >= |inv.events| {
    } else if i + 1 < n {
      assert Marked(inv, n).events[i].published;
      SuccessFlagsEverything(s, pub, inv, n, i + 1);
    } else {
      MarkedSteps(inv, n);
      var ev := Marked(inv, n).events[i].event;
      SavedFlags(s, pub, ev, Marked(inv, n + 1));
      var (s1, saved) := PublishAndSave(s, pub, ev, Marked(inv, n + 1));
      assert !Marked(inv, n).events[i].published;
      if saved.Ok? { SuccessFlagsEverything(s1, pub, inv, n + 1, i + 1); }
    }
  }

  lemma HeldFlagsAnyway(s: State, pub: Publisher, inv: CueInvocation)
    requires Unflagged(inv) && !pub.Client?
    ensures var (s', a) := PublishHeld(s, pub, inv);
      && s'.bus == s.bus
      && (a.Ok? ==> inv.id in s'.invocations && s'.invocations[inv.id] == Marked(inv, 1 + |inv.events|))
  {
    MarkedSteps(inv, 0);
    SavedFlags(s, pub, inv.ingress, Marked(inv, 1));
    var (s1, saved) := PublishAndSave(s, pub, inv.ingress, Marked(inv, 1));
    if saved.Ok? { SuccessFlagsEverything(s1, pub, inv, 1, 0); }
  }

  /** The flags trust any publisher: one that never reaches a broker gets them all set with nothing sent. */
  lemma UnconfirmedPublisherFlagsAnyway(s: State, pub: Publisher, inv: CueInvocation)
    requires Unflagged(inv) && !pub.Client?
    ensures var (s', a) := PublishInvocation(s, pub, true, inv);
      && s'.bus == s.bus
      && (a.Ok? ==> inv.id in s'.invocations && s'.invocations[inv.id] == Marked(inv, 1 + |inv.events|))
  {
    var (s1, proved) := EnsureTrailOrigin(s, CueOrigin(inv));
    if proved.Ok? {
      var (s2, recorded) := WriteInvocation(s1, inv);
      if recorded.Ok? { HeldFlagsAnyway(s2, pub, inv); }
    }
  }

  /** Every publication the broker can hold is on the stream, by identity. */
  ghost predicate AllOnStream(s: State, inv: CueInvocation) {
    forall q :: 0 <= q < |Script(inv)| && IsDomain(Script(inv)[q]) ==> Script(inv)[q].id in Ids(s.bus)
  }

  lemma SentIsOnStream(base: seq<Event>, s: State, inv: CueInvocation, pos: seq<nat>)
    requires Streamed(base, s.bus, inv, pos, true) && Sent(inv, pos, |Script(inv)|)
    ensures AllOnStream(s, inv)
  {
    forall q | 0 <= q < |Script(inv)| && IsDomain(Script(inv)[q]) ensures Script(inv)[q].id in Ids(s.bus) {
      var i :| 0 <= i < |pos| && pos[i] == q;
      assert s.bus[|base|..][i] == s.bus[|base| + i];
      assert s.bus[|base| + i] in s.bus;
    }
  }

  /** After a publication that reports success its flags are true of the stream exactly when the publisher
      was one that reaches the broker. */
  lemma FlagsAreTrueIffTheBrokerConfirms(s: State, pub: Publisher, inv: CueInvocation)
    requires Unflagged(inv) && inv.id !in s.invocations && IsDomain(inv.ingress) && inv.ingress.id !in Ids(s.bus)
    ensures var (s', a) := PublishInvocation(s, pub, true, inv);
      a.Ok? ==> inv.id in s'.invocations && (AllOnStream(s', inv) <==> pub.Client?)
  {
    if pub.Client? {
      assert Streamed(s.bus, s.bus, inv, [], true);
      var pos := PublicationReplayed(s, s, pub, true, inv, [], 0, true);
      var (s', a) := PublishInvocation(s, pub, true, inv);
      if a.Ok? {
        assert IsDomain(Script(inv)[0]) && 0 in pos;
        SentIsOnStream(s.bus, s', inv, pos);
      }
    } else {
      UnconfirmedPublisherFlagsAnyway(s, pub, inv);
      assert Script(inv)[0] == inv.ingress;
    }
  }

  /** A built invocation is unflagged, announces exactly the identities its events carry, and puts the
      observation before them; what it reports does not depend on how far its publication got. */
  lemma BuiltInvocation(id: string, ingressId: string, cue: string, trace: string, source: string, agent: string,
                        invokedAt: nat, tasks: seq<string>, events: seq<Event>, n: nat)
    requires Text.TrimSpace(id) == id
    ensures var inv := BuildInvocation(id, ingressId, cue, trace, source, agent, invokedAt, tasks, events);
      && Unflagged(inv) && Script(inv)[1..] == events
      && (forall e :: e in inv.announced <==> e != "" && e in Ids(events))
      && Script(inv)[0].kind == "cue.ingress" && Script(inv)[0].createdAt == invokedAt && IsDomain(Script(inv)[0])
      && Script(inv)[0].id == ingressId && Script(inv)[0].trace == trace && Script(inv)[0].agent == agent
      && CueOrigin(inv) == TrailOrigin("cue", source, agent, id, cue)
      && var result := ResultFor(Marked(inv, n));
         && result.trace == trace && result.invocation == id
         && result.task == (if tasks == [] then "" else tasks[0])
         && (events != [] ==> result.typ == Some(events[0].typ) && result.kind == events[0].kind)
  {
    var inv := BuildInvocation(id, ingressId, cue, trace, source, agent, invokedAt, tasks, events);
    assert Script(inv)[1..] == events;
    assert inv.events == Marked(inv, 0).events;
    AnnouncesAll(events);
  }

  lemma {:induction false} AnnouncesAll(events: seq<Event>)
    ensures forall e :: e in NonEmptyIds(events) <==> e != "" && e in Ids(events)
  {
    if events == [] {
    } else {
      var init := events[..|events| - 1];
      AnnouncesAll(init);
      assert events == init + [events[|events| - 1]];
      assert Ids(events) == Ids(init) + {events[|events| - 1].id} by {
        assert forall ev :: ev in events <==> ev in init || ev == events[|events| - 1];
      }
    }
  }
}
