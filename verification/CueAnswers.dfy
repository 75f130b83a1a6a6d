/** What the answer of a cue's replay is worth, and all that a replay nothing hinders does. */
module CueAnswers {
  import opened Options
  import opened Events
  import opened Journal
  import opened CueIngress
  import opened FlushAnswers
  import Text

  /** The invocation on record, its first n publications flagged. */
  ghost predicate OnRecord(s: State, inv: CueInvocation, n: nat) {
    inv.id in s.invocations && n <= 1 + |inv.events| && s.invocations[inv.id] == Marked(inv, n)
  }

  lemma HeldFlagsEverything(s: State, pub: Publisher, inv: CueInvocation, n: nat)
    requires Unflagged(inv) && OnRecord(s, inv, n)
    ensures var (s', a) := PublishHeld(s, pub, Marked(inv, n)); a.Ok? ==> OnRecord(s', inv, 1 + |inv.events|)
  {
    HeldCases(s, pub, inv, n);
    if n > 0 {
      SuccessFlagsEverything(s, pub, inv, n, 0);
    } else {
      MarkedSteps(inv, 0);
      SavedFlags(s, pub, inv.ingress, Marked(inv, 1));
      var (s1, saved) := PublishAndSave(s, pub, inv.ingress, Marked(inv, 1));
      if saved.Ok? { SuccessFlagsEverything(s1, pub, inv, 1, 0); }
    }
  }

  /** However far the recorded invocation had got: a replay that answers OK leaves every flag on disk and reports what
      the first publication would have; one that does not reports nothing. */
  lemma OkReplayFlagsEverything(s: State, pub: Publisher, rooted: bool, id: string, inv: CueInvocation, n: nat)
    requires Unflagged(inv) && OnRecord(s, inv, n) && Text.TrimSpace(id) == inv.id
    ensures var (s', a, result) := RepublishInvocation(s, pub, rooted, id);
      && (a.Ok? ==> rooted && !pub.Missing? && OnRecord(s', inv, 1 + |inv.events|) && result == Some(ResultFor(inv)))
      && (!a.Ok? ==> result == None)
  {
    var held := Marked(inv, n);
    if rooted && !pub.Missing? {
      var (s1, proved) := EnsureTrailOrigin(s, CueOrigin(held));
      var (s2, recorded) := WriteInvocation(s1, held);
      if proved.Ok? && recorded.Ok? { HeldFlagsEverything(s2, pub, inv, n); }
      SameResult(inv, n);
    }
  }

  lemma SameResult(inv: CueInvocation, n: nat)
    ensures ResultFor(Marked(inv, n)) == ResultFor(inv)
  {
  }

  /** What the attempt answers, when it is made. */
  ghost function AnswerOf(s: State, inv: CueInvocation, a: Attempt): Answer {
    match a
    case First(pub, rooted, fates) => PublishInvocation(s.(fates := fates), pub, rooted, inv).1
    case Again(pub, rooted, fates) => RepublishInvocation(s.(fates := fates), pub, rooted, inv.id).1
  }

  lemma OkPublicationSends(s0: State, s: State, pub: Publisher, rooted: bool, inv: CueInvocation, pos: seq<nat>, n: nat)
    requires Replayed(s0, s, inv, pos, true) && Unflagged(inv) && n <= 1 + |inv.events| && !Silent(pub)
    requires Sent(inv, pos, n)
    ensures var (s', a) := PublishInvocation(s, pub, rooted, Marked(inv, n)); a.Ok? ==> AllOnStream(s', inv)
  {
    var pos' := PublicationReplayed(s0, s, pub, rooted, inv, pos, n, true);
    var (s', a) := PublishInvocation(s, pub, rooted, Marked(inv, n));
    if a.Ok? { SentIsOnStream(s0.bus, s', inv, pos'); }
  }

  /** At the end of any history without a silent publisher, an attempt that answers OK, first or again, means that
      the observation and every event are on the stream, whichever attempts put them there. */
  lemma OkMeansAllOnStream(s0: State, inv: CueInvocation, attempts: seq<Attempt>, last: Attempt)
    requires NewTo(s0, inv) && NoneSilent(attempts + [last])
    ensures AnswerOf(Retry(s0, inv, attempts), inv, last).Ok? ==> AllOnStream(Retry(s0, inv, attempts + [last]), inv)
  {
    assert (attempts + [last])[..|attempts|] == attempts;
    assert last in attempts + [last] && forall a :: a in attempts ==> a in attempts + [last];
    var s := Retry(s0, inv, attempts);
    var pos := RetryReplayed(s0, inv, attempts, true);
    AttemptSends(s0, s, inv, last, pos);
  }

  lemma AttemptSends(s0: State, s: State, inv: CueInvocation, a: Attempt, pos: seq<nat>)
    requires Replayed(s0, s, inv, pos, true) && Unflagged(inv) && !Silent(a.pub)
    ensures AnswerOf(s, inv, a).Ok? ==> AllOnStream(Try(s, inv, a), inv)
  {
    var s1 := s.(fates := a.fates);
    if inv.id in s.invocations { RecordCarries(s, s1, inv, pos, pos, true); }
    match a
    case First(pub, rooted, _) => OkPublicationSends(s0, s1, pub, rooted, inv, pos, 0);
    case Again(pub, rooted, _) =>
      if inv.id in s1.invocations {
        var n: nat :| Flagged(s1, inv, pos, n, true);
        OkPublicationSends(s0, s1, pub, rooted, inv, pos, n);
      }
  }

  /* The replay nothing hinders. */

  function SendAnswers(pub: Publisher, evs: seq<Event>): seq<Fate> {
    if evs == [] then [] else PublishAnswers(pub, false, evs[0]) + ([Save(Done)] + SendAnswers(pub, evs[1..]))
  }

  /** Everything but stream, record, cue record and answers is the same; these gained the events and the flags. */
  ghost predicate Gained(s: State, s': State, pub: Publisher, evs: seq<Event>, inv: CueInvocation) {
    && s' == s.(bus := s'.bus, trail := s'.trail, invocations := s'.invocations, fates := s'.fates)
    && s'.bus == s.bus + (if pub.Client? then Domain(evs) else [])
    && s'.trail == s.trail + (if KeepsRecord(pub) then Domain(evs) else [])
    && s'.invocations == s.invocations[inv.id := Marked(inv, 1 + |inv.events|)]
  }

  /** The invocation's events are of the trace whose logs these are, and the trace is bound. */
  ghost predicate Ours(s: State, inv: CueInvocation) {
    NamedTrace(s) && !s.newTrail && forall ev <- Script(inv) :: ev.trace == s.trace
  }

  function AfterSend(s: State, pub: Publisher, ev: Event, after: CueInvocation, fates: seq<Fate>): State {
    AfterPublish(s, pub, ev, fates).(invocations := s.invocations[after.id := after])
  }

  lemma SendUnhindered(s: State, pub: Publisher, ev: Event, after: CueInvocation, rest: seq<Fate>)
    requires NamedTrace(s) && !s.newTrail && Works(pub) && ev.trace == s.trace
    requires s.fates == PublishAnswers(pub, false, ev) + ([Save(Done)] + rest)
    ensures PublishAndSave(s, pub, ev, after) == (AfterSend(s, pub, ev, after, rest), Ok)
  {
    PublishUnhindered(s, pub, ev, [Save(Done)] + rest);
    assert ([Save(Done)] + rest)[1..] == rest;
  }

  lemma AfterSendGains(s: State, s1: State, s': State, pub: Publisher, evs: seq<Event>, inv: CueInvocation, n: nat)
    requires !s.newTrail && evs != [] && s1 == AfterSend(s, pub, evs[0], Marked(inv, n), s1.fates)
    requires Gained(s1, s', pub, evs[1..], inv)
    ensures Gained(s, s', pub, evs, inv)
  {
    var kept := if IsDomain(evs[0]) then [evs[0]] else [];
    assert s1.bus == s.bus + (if pub.Client? then kept else []);
    assert s1.trail == s.trail + (if KeepsRecord(pub) then kept else []);
    Assoc(s.bus, kept, Domain(evs[1..]));
    Assoc(s.trail, kept, Domain(evs[1..]));
  }

  lemma GainedNothing(s: State, pub: Publisher, inv: CueInvocation)
    requires OnRecord(s, inv, 1 + |inv.events|)
    ensures Gained(s, s, pub, [], inv)
  {
    assert s.bus + [] == s.bus && s.trail + [] == s.trail;
    assert s.invocations == s.invocations[inv.id := Marked(inv, 1 + |inv.events|)];
  }

  lemma {:induction false} EventsUnhindered(s: State, pub: Publisher, inv: CueInvocation, n: nat, i: nat)
    requires Unflagged(inv) && OnRecord(s, inv, n) && Ours(s, inv) && Works(pub) && i + 1 <= n
    requires s.fates == SendAnswers(pub, Script(inv)[n..])
    ensures var (s', a) := PublishEvents(s, pub, Marked(inv, n), i); a.Ok? && Gained(s, s', pub, Script(inv)[n..], inv)
    decreases |inv.events| - i
  {
    if i >= |inv.events| {
      GainedNothing(s, pub, inv);
    } else if i + 1 < n {
      SkippedEvent(s, pub, inv, n, i);
      EventsUnhindered(s, pub, inv, n, i + 1);
    } else {
      OneEvent(s, pub, inv, n, i);
      var s1 := NextUnhindered(s, pub, inv, n);
      EventsUnhindered(s1, pub, inv, n + 1, i + 1);
      AfterSendGains(s, s1, PublishEvents(s1, pub, Marked(inv, n + 1), i + 1).0, pub, Script(inv)[n..], inv, n + 1);
    }
  }

  lemma NextUnhindered(s: State, pub: Publisher, inv: CueInvocation, n: nat) returns (s1: State)
    requires Unflagged(inv) && OnRecord(s, inv, n) && Ours(s, inv) && Works(pub) && n < |Script(inv)|
    requires s.fates == SendAnswers(pub, Script(inv)[n..])
    ensures PublishAndSave(s, pub, Script(inv)[n], Marked(inv, n + 1)) == (s1, Ok)
    ensures s1.fates == SendAnswers(pub, Script(inv)[n + 1..]) && OnRecord(s1, inv, n + 1) && Ours(s1, inv)
    ensures s1 == AfterSend(s, pub, Script(inv)[n..][0], Marked(inv, n + 1), s1.fates)
    ensures Script(inv)[n..][1..] == Script(inv)[n + 1..]
  {
    var rest := SendAnswers(pub, Script(inv)[n + 1..]);
    assert Script(inv)[n..][1..] == Script(inv)[n + 1..] && Script(inv)[n] in Script(inv);
    SendUnhindered(s, pub, Script(inv)[n], Marked(inv, n + 1), rest);
    s1 := AfterSend(s, pub, Script(inv)[n], Marked(inv, n + 1), rest);
  }

  lemma HeldUnhindered(s: State, pub: Publisher, inv: CueInvocation, n: nat)
    requires Unflagged(inv) && OnRecord(s, inv, n) && Ours(s, inv) && Works(pub)
    requires s.fates == SendAnswers(pub, Script(inv)[n..])
    ensures var (s', a) := PublishHeld(s, pub, Marked(inv, n)); a.Ok? && Gained(s, s', pub, Script(inv)[n..], inv)
  {
    HeldCases(s, pub, inv, n);
    if n > 0 {
      EventsUnhindered(s, pub, inv, n, 0);
    } else {
      assert Script(inv)[0] == inv.ingress;
      var s1 := NextUnhindered(s, pub, inv, 0);
      EventsUnhindered(s1, pub, inv, 1, 0);
      AfterSendGains(s, s1, PublishEvents(s1, pub, Marked(inv, 1), 0).0, pub, Script(inv)[0..], inv, 1);
    }
  }

  /** The state with origin and record on disk. */
  function Prepared(s: State, inv: CueInvocation, n: nat, fates: seq<Fate>): State {
    s.(origin := if s.origin.Some? then s.origin else Some(CueOrigin(inv)), newTrail := false,
       invocations := s.invocations[inv.id := Marked(inv, n)], fates := fates)
  }

  lemma PreparedUnhindered(s: State, inv: CueInvocation, n: nat, rest: seq<Fate>)
    requires Unflagged(inv) && s.fates == [Origin(Done), Save(Done)] + rest
    ensures var (s1, proved) := EnsureTrailOrigin(s, CueOrigin(Marked(inv, n)));
      proved.Ok? && WriteInvocation(s1, Marked(inv, n)) == (Prepared(s, inv, n, rest), Ok)
  {
    MarkedSteps(inv, n);
    assert s.fates[1..] == [Save(Done)] + rest;
    assert s.fates[1..][1..] == rest;
  }

  /** Publishing an invocation n of whose publications are flagged, with nothing in the way: the rest of its script
      reaches the stream through a client and the record through whoever keeps one, once and in order, every flag is
      on disk, and the trail's origin is what it was or, if it had none, this cue. */
  lemma UnhinderedReplaySendsTheRest(s: State, pub: Publisher, id: string, inv: CueInvocation, n: nat)
    requires Unflagged(inv) && OnRecord(s, inv, n) && Text.TrimSpace(id) == inv.id && Works(pub)
    requires NamedTrace(s) && forall ev <- Script(inv) :: ev.trace == s.trace
    requires s.fates == [Origin(Done), Save(Done)] + SendAnswers(pub, Script(inv)[n..])
    ensures var (s', a, result) := RepublishInvocation(s, pub, true, id);
      && a.Ok? && result == Some(ResultFor(inv)) && Gained(Prepared(s, inv, n, []), s', pub, Script(inv)[n..], inv)
  {
    var rest := SendAnswers(pub, Script(inv)[n..]);
    PreparedUnhindered(s, inv, n, rest);
    HeldUnhindered(Prepared(s, inv, n, rest), pub, inv, n);
    SameResult(inv, n);
  }

  /** The same of a first publication: the whole script. */
  lemma UnhinderedPublicationSendsAll(s: State, pub: Publisher, inv: CueInvocation)
    requires Unflagged(inv) && Works(pub) && NamedTrace(s) && forall ev <- Script(inv) :: ev.trace == s.trace
    requires s.fates == [Origin(Done), Save(Done)] + SendAnswers(pub, Script(inv))
    ensures var (s', a) := PublishInvocation(s, pub, true, inv);
      a.Ok? && Gained(Prepared(s, inv, 0, []), s', pub, Script(inv), inv)
  {
    var rest := SendAnswers(pub, Script(inv));
    assert Script(inv)[0..] == Script(inv);
    PreparedUnhindered(s, inv, 0, rest);
    HeldUnhindered(Prepared(s, inv, 0, rest), pub, inv, 0);
  }
}
