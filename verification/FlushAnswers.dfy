/** What a flush answers: the files it insists on, all that an unhindered one does, and the name of every refusal. */
module FlushAnswers {
  import opened Options
  import opened Events
  import opened Journal
  import opened Deferred
  import Text

  /* Files. */

  /** A reference that names no file. */
  ghost predicate Dangling(ref: string, files: set<string>) { Text.Blank(ref) || Text.TrimSpace(ref) !in files }

  /** The event announces files, and its payload does not decode, or names none, or one that is not there; a spec
      announces one file, and its first reference is that one. */
  ghost predicate Wanting(ev: Event, files: set<string>) {
    || (ev.kind in {"spec.ready", "artifact.written"} && (ev.refs.Malformed? || ev.refs.refs == []))
    || (ev.kind == "spec.ready" && ev.refs.Named? && |ev.refs.refs| > 0 && Dangling(ev.refs.refs[0], files))
    || (ev.kind == "artifact.written" && ev.refs.Named? && exists ref <- ev.refs.refs :: Dangling(ref, files))
  }

  /** Whatever the state, the publisher and the answers to come: a head is refused for its files, with nothing done,
      exactly when it is wanting. */
  lemma HeadRefusedIffWanting(s: State, pub: Publisher)
    requires s.pending != [] && s.fates != [] && s.fates[0].Look?
    ensures var files := s.fates[0].files;
      && (SendHead(s, pub).1 == Stopped("file_ref_missing") <==> Wanting(s.pending[0], files))
      && (Wanting(s.pending[0], files) ==> SendHead(s, pub).0 == Next(s))
  {
    var ev := Stamp(s.pending[0], s.fates[0].provenance);
    var files := s.fates[0].files;
    if ev.refs.Named? {
      assert forall ref <- ev.refs.refs :: RefExists(ref, files) <==> !Dangling(ref, files);
    }
  }

  ghost predicate Cleared(ev: Event, fates: seq<Fate>) {
    exists look <- fates :: look.Look? && !Wanting(ev, look.files)
  }

  ghost predicate Refused(ev: Event, fates: seq<Fate>) {
    exists look <- fates :: look.Look? && Wanting(ev, look.files)
  }

  /** The first n events left with their files in place; and files missing is said of a head that wants some. */
  ghost predicate Heeded(queue: seq<Event>, left: seq<Event>, n: int, error: string, fates: seq<Fate>) {
    && 0 <= n <= |queue| && (forall q :: 0 <= q < n ==> Cleared(queue[q], fates))
    && (error == "file_ref_missing" ==> left != [] && Refused(left[0], fates))
  }

  lemma SentHeadWasCleared(s: State, pub: Publisher)
    requires s.pending != []
    ensures var (s', t) := SendHead(s, pub);
      && (t.Went? ==> Cleared(s.pending[0], s.fates))
      && (t == Stopped("file_ref_missing") ==> s'.pending == s.pending && Refused(s.pending[0], s.fates))
  {
    if s.fates != [] && s.fates[0].Look? {
      HeadRefusedIffWanting(s, pub);
      assert s.fates[0] in s.fates;
    }
  }

  lemma HeededOneMore(queue: seq<Event>, rest: seq<Event>, left: seq<Event>, n: int, error: string,
                      fates: seq<Fate>, later: seq<Fate>)
    requires queue != [] && rest == queue[1..] && Cleared(queue[0], fates) && Heeded(rest, left, n, error, later)
    requires forall fate :: fate in later ==> fate in fates
    ensures Heeded(queue, left, n + 1, error, fates)
  {
    forall q | 0 <= q < n + 1 ensures Cleared(queue[q], fates) {
      if q > 0 { assert queue[q] == rest[q - 1] && Cleared(rest[q - 1], later); }
    }
  }

  ghost predicate TurnHeeded(s: State, end: (State, Outcome), published: nat) {
    end.1.Returned? ==>
      Heeded(s.pending, end.0.pending, end.1.result.published - published, end.1.result.error, s.fates)
  }

  lemma WantsTheSame(ev: Event, named: Event, fates: seq<Fate>, later: seq<Fate>)
    requires named == ev.(id := named.id) && forall fate :: fate in later ==> fate in fates
    ensures Cleared(named, later) ==> Cleared(ev, fates)
    ensures Refused(named, later) ==> Refused(named, fates)
  {
    forall files ensures Wanting(named, files) == Wanting(ev, files) {}
  }

  lemma TurnHeeds(s: State, s1: State, pub: Publisher, published: nat, end: (State, Outcome))
    requires s.pending != [] && IdentifyHead(s) == (s1, Went) && s1.pending != [] && SendHead(s1, pub).1.Went?
    requires end == FlushLoop(SendHead(s1, pub).0, pub, published + 1)
    requires TurnHeeded(SendHead(s1, pub).0, end, published + 1)
    ensures TurnHeeded(s, FlushLoop(s, pub, published), published)
  {
    LoopTurn(s, pub, published);
    SendHeadPops(s1, pub);
    SentHeadWasCleared(s1, pub);
    WantsTheSame(s.pending[0], s1.pending[0], s.fates, s1.fates);
    var (s2, out) := (SendHead(s1, pub).0, end.1);
    if out.Returned? {
      HeededOneMore(s.pending, s2.pending, end.0.pending, out.result.published - published - 1, out.result.error,
                    s.fates, s2.fates);
    }
  }

  lemma LastTurnHeeds(s: State, pub: Publisher, published: nat)
    requires s.pending != []
    requires var (s1, named) := IdentifyHead(s); !named.Went? || s1.pending == [] || !SendHead(s1, pub).1.Went?
    ensures TurnHeeded(s, FlushLoop(s, pub, published), published)
  {
    LoopTurn(s, pub, published);
    var (s1, named) := IdentifyHead(s);
    if named.Went? {
      SentHeadWasCleared(s1, pub);
      WantsTheSame(s.pending[0], s1.pending[0], s.fates, s1.fates);
    }
  }

  lemma {:induction false} LoopHeedsFiles(s: State, pub: Publisher, published: nat)
    ensures TurnHeeded(s, FlushLoop(s, pub, published), published)
    decreases |s.pending|
  {
    if s.pending == [] {
    } else {
      IdentifyEffect(s);
      var s1 := IdentifyHead(s).0;
      if !IdentifyHead(s).1.Went? || !SendHead(s1, pub).1.Went? {
        LastTurnHeeds(s, pub, published);
      } else {
        SendHeadPops(s1, pub);
        LoopHeedsFiles(SendHead(s1, pub).0, pub, published + 1);
        TurnHeeds(s, s1, pub, published, FlushLoop(SendHead(s1, pub).0, pub, published + 1));
      }
    }
  }

  /** However a call that answers was answered itself: every event it published had its files at the moment it was
      looked at, and it speaks of missing files only when the event it left at the front wanted some. */
  lemma FlushHeedsFiles(s: State, pub: Publisher)
    ensures var (s', out) := FlushPending(s, pub, false);
      out.Returned? ==> Heeded(s.pending, s'.pending, out.result.published, out.result.error, s.fates)
  {
    LoopHeedsFiles(s, pub, 0);
  }

  /* The flush nothing hinders. */

  /** What one head meets: the id that would be minted for it, its run's recorded provenance, the files there are. */
  datatype Meeting = Meeting(id: string, provenance: Option<string>, files: set<string>)

  function Given(ev: Event, m: Meeting): Event { if ev.id == "" then ev.(id := m.id) else ev }

  /** The event as it is sent. */
  function Delivered(ev: Event, m: Meeting): Event {
    if m.provenance.Some? then Given(ev, m).(provenance := m.provenance.value) else Given(ev, m)
  }

  /** What is sent of the first k events. */
  function AllDelivered(queue: seq<Event>, meets: seq<Meeting>, k: nat): seq<Event>
    requires k <= |queue| <= |meets|
  {
    seq(k, i requires 0 <= i < k => Delivered(queue[i], meets[i]))
  }

  function Domain(evs: seq<Event>): seq<Event> {
    if evs == [] then [] else (if IsDomain(evs[0]) then [evs[0]] else []) + Domain(evs[1..])
  }

  /** How many events come before the first that wants files. */
  ghost function Ready(queue: seq<Event>, meets: seq<Meeting>): (k: nat)
    requires |queue| <= |meets|
    ensures k <= |queue|
    ensures forall i :: 0 <= i < k ==> !Wanting(queue[i], meets[i].files)
    ensures k < |queue| ==> Wanting(queue[k], meets[k].files)
  {
    if queue == [] || Wanting(queue[0], meets[0].files) then 0 else 1 + Ready(queue[1..], meets[1..])
  }

  /** The answers of an environment in which every step succeeds. */
  function PublishAnswers(pub: Publisher, newTrail: bool, ev: Event): seq<Fate> {
    if !IsDomain(ev) then []
    else
      (if pub.Client? && pub.records && newTrail then [Admit(Done), Origin(Done)] else [])
      + ((if KeepsRecord(pub) then [Record(Done)] else []) + (if pub.Client? then [Broker(Done)] else []))
  }

  function HeadAnswers(pub: Publisher, newTrail: bool, ev: Event, m: Meeting): seq<Fate> {
    [Look(m.provenance, m.files)] + (PublishAnswers(pub, newTrail, ev) + [Audit(Done), Rewrite(Done)])
  }

  function MintAnswers(ev: Event, m: Meeting): seq<Fate> {
    if ev.id == "" then [Mint(Some(m.id)), Rewrite(Done)] else []
  }

  /** Whether the trail is still unbound once this event is published. */
  predicate StillNew(pub: Publisher, newTrail: bool, ev: Event) {
    newTrail && !(pub.Client? && pub.records && IsDomain(ev))
  }

  function Answers(pub: Publisher, newTrail: bool, queue: seq<Event>, meets: seq<Meeting>): seq<Fate>
    requires |queue| <= |meets|
  {
    if queue == [] then []
    else
      MintAnswers(queue[0], meets[0])
      + (HeadAnswers(pub, newTrail, queue[0], meets[0])
         + Answers(pub, StillNew(pub, newTrail, queue[0]), queue[1..], meets[1..]))
  }

  predicate Works(pub: Publisher) { !pub.Missing? && (pub.Client? ==> pub.connected) }

  ghost predicate NamedTrace(s: State) { s.trace != "" && Text.TrimSpace(s.trace) == s.trace }

  ghost predicate OwnTrace(s: State) { NamedTrace(s) && s.runDir && s.agent != "" }

  ghost predicate FreshIds(s: State, meets: seq<Meeting>) {
    && (forall i :: 0 <= i < |meets| ==> meets[i].id != "" && meets[i].id !in KnownIds(s))
    && forall i, j :: 0 <= i < j < |meets| ==> meets[i].id != meets[j].id
  }

  /** A run's own queue, a publisher that works, and answers with which nothing fails. */
  ghost predicate Unhindered(s: State, pub: Publisher, meets: seq<Meeting>) {
    && OwnTrace(s) && Works(pub) && |meets| == |s.pending| && (forall ev <- s.pending :: OwnRun(s, ev))
    && FreshIds(s, meets) && s.fates == Answers(pub, s.newTrail, s.pending, meets)
  }

  function Bound(s: State, actor: string): State {
    s.(newTrail := false,
       origin := if s.origin.None? then Some(TrailOrigin("other", "event", actor, "", "")) else s.origin)
  }

  lemma BindUnhindered(s: State, ev: Event, rest: seq<Fate>)
    requires NamedTrace(s) && ev.trace == s.trace
    requires s.fates == (if s.newTrail then [Admit(Done), Origin(Done)] else []) + rest
    ensures AdmitTrail(s, ev.trace, "event", ev.agent)
         == ((if s.newTrail then Bound(s, ev.agent) else s).(fates := rest), Admitted)
  {
    if s.newTrail {
      assert Next(s).fates == [Origin(Done)] + rest;
      assert Next(Next(s)).fates == rest;
    } else {
      assert s.fates == rest;
    }
  }

  lemma RecordUnhindered(s: State, records: bool, ev: Event, rest: seq<Fate>)
    requires NamedTrace(s) && ev.trace == s.trace && IsDomain(ev)
    requires s.fates == (if records then [Record(Done)] else []) + rest
    ensures RecordTrailEvent(s, records, ev)
         == (s.(trail := s.trail + (if records then [ev] else []), fates := rest), Ok)
  {
    if records { assert Next(s).fates == rest; } else { assert s.fates == rest && s.trail + [] == s.trail; }
  }

  lemma ClientUnhindered(s: State, records: bool, ev: Event, rest: seq<Fate>)
    requires NamedTrace(s) && ev.trace == s.trace && IsDomain(ev)
    requires s.fates == (if records && s.newTrail then [Admit(Done), Origin(Done)] else [])
                        + ((if records then [Record(Done)] else []) + ([Broker(Done)] + rest))
    ensures ClientPublish(s, records, true, ev)
         == ((if records && s.newTrail then Bound(s, ev.agent) else s).(
               trail := s.trail + (if records then [ev] else []), bus := s.bus + [ev], fates := rest), Ok)
  {
    var onBus := [Broker(Done)] + rest;
    var onRecord := (if records then [Record(Done)] else []) + onBus;
    if records { BindUnhindered(s, ev, onRecord); } else { assert s.fates == onRecord; }
    var s1 := if records then AdmitTrail(s, ev.trace, "event", ev.agent).0 else s;
    RecordUnhindered(s1, records, ev, onBus);
    assert Next(RecordTrailEvent(s1, records, ev).0).fates == rest;
  }

  /** What publishing changes when nothing fails. */
  function AfterPublish(s: State, pub: Publisher, ev: Event, fates: seq<Fate>): State {
    if !IsDomain(ev) then s.(fates := fates)
    else
      (if pub.Client? && pub.records && s.newTrail then Bound(s, ev.agent) else s).(
        trail := s.trail + (if KeepsRecord(pub) then [ev] else []),
        bus := s.bus + (if pub.Client? then [ev] else []), fates := fates)
  }

  lemma PublishUnhindered(s: State, pub: Publisher, ev: Event, rest: seq<Fate>)
    requires NamedTrace(s) && Works(pub) && ev.trace == s.trace
    requires s.fates == PublishAnswers(pub, s.newTrail, ev) + rest
    ensures Publish(s, pub, ev) == (AfterPublish(s, pub, ev, rest), Ok)
  {
    if !IsDomain(ev) {
      assert s.fates == rest;
    } else if pub.Client? {
      ClientUnhindered(s, pub.records, ev, rest);
    } else if pub.LocalOnly? {
      RecordUnhindered(s, pub.records, ev, rest);
      assert s.bus + [] == s.bus;
    } else {
      assert s.fates == rest && s.bus + [] == s.bus && s.trail + [] == s.trail;
    }
  }

  function AfterHead(s: State, pub: Publisher, ev: Event, fates: seq<Fate>): State
    requires s.pending != []
  {
    AfterPublish(s, pub, ev, fates).(audit := s.audit + [ev], pending := s.pending[1..], garbled := false)
  }

  lemma LookUnhindered(s: State, pub: Publisher, m: Meeting)
    requires s.pending != [] && s.pending[0].agent != "" && s.pending[0].trace != "" && s.pending[0].id != ""
    requires s.fates != [] && s.fates[0] == Look(m.provenance, m.files) && !Wanting(s.pending[0], m.files)
    ensures var ev := Delivered(s.pending[0], m);
      var (s1, sent) := Publish(Next(s), pub, ev);
      sent.Ok? ==> SendHead(s, pub) == Settle(s1, s.pending[1..], ev)
  {
    HeadRefusedIffWanting(s, pub);
  }

  lemma PublishedSettles(s: State, pub: Publisher, ev: Event, rest: seq<Fate>)
    requires OwnTrace(s) && OwnRun(s, ev) && s.fates != [] && s.pending != []
    ensures var s1 := AfterPublish(Next(s), pub, ev, [Audit(Done), Rewrite(Done)] + rest);
      Settle(s1, s.pending[1..], ev) == (AfterHead(s, pub, ev, rest), Went)
  {
    SettleUnhindered(AfterPublish(Next(s), pub, ev, [Audit(Done), Rewrite(Done)] + rest), s.pending[1..], ev, rest);
  }

  lemma HeadUnhindered(s: State, pub: Publisher, m: Meeting, rest: seq<Fate>)
    requires OwnTrace(s) && Works(pub) && s.pending != [] && OwnRun(s, s.pending[0]) && s.pending[0].id != ""
    requires !Wanting(s.pending[0], m.files) && s.fates == HeadAnswers(pub, s.newTrail, s.pending[0], m) + rest
    ensures SendHead(s, pub) == (AfterHead(s, pub, Delivered(s.pending[0], m), rest), Went)
  {
    var (ev, settled) := (Delivered(s.pending[0], m), [Audit(Done), Rewrite(Done)] + rest);
    assert Next(s).fates == PublishAnswers(pub, s.newTrail, ev) + settled;
    LookUnhindered(s, pub, m);
    PublishUnhindered(Next(s), pub, ev, settled);
    PublishedSettles(s, pub, ev, rest);
  }

  lemma SettleUnhindered(s: State, left: seq<Event>, ev: Event, rest: seq<Fate>)
    requires OwnTrace(s) && OwnRun(s, ev) && s.fates == [Audit(Done), Rewrite(Done)] + rest
    ensures Settle(s, left, ev)
         == (s.(audit := s.audit + [ev], pending := left, garbled := false, fates := rest), Went)
  {
    assert s.fates[1..] == [Rewrite(Done)] + rest;
    assert s.fates[1..][1..] == rest;
  }

  /** The state whose head has its identity. */
  function AfterNaming(s: State, m: Meeting, fates: seq<Fate>): State
    requires s.pending != []
  {
    s.(pending := [Given(s.pending[0], m)] + s.pending[1..],
       garbled := s.garbled && s.pending[0].id != "", fates := fates)
  }

  lemma MintUnhindered(s: State, id: string, rest: seq<Fate>)
    requires s.pending != [] && id != "" && id !in KnownIds(s) && s.fates == [Mint(Some(id)), Rewrite(Done)] + rest
    ensures MintId(s) == (s.(fates := [Rewrite(Done)] + rest), Ok, id)
    ensures var named := s.pending[0 := s.pending[0].(id := id)];
      WritePending(s.(fates := [Rewrite(Done)] + rest), named)
      == (s.(pending := named, garbled := false, fates := rest), Ok)
  {
    assert s.fates[1..] == [Rewrite(Done)] + rest;
    assert ([Rewrite(Done)] + rest)[1..] == rest;
  }

  lemma NamingUnhindered(s: State, m: Meeting, rest: seq<Fate>)
    requires s.pending != [] && m.id != "" && m.id !in KnownIds(s) && s.fates == MintAnswers(s.pending[0], m) + rest
    ensures IdentifyHead(s) == (AfterNaming(s, m, rest), Went)
  {
    assert s.pending == [s.pending[0]] + s.pending[1..];
    if s.pending[0].id == "" {
      MintUnhindered(s, m.id, rest);
      assert s.pending[0 := s.pending[0].(id := m.id)] == [Given(s.pending[0], m)] + s.pending[1..];
    } else {
      assert s.fates == rest;
    }
  }

  /** What is left of the queue: the event that wants files, with an identity, and those behind it. */
  ghost function LeftOf(queue: seq<Event>, meets: seq<Meeting>): seq<Event>
    requires |queue| <= |meets|
  {
    var k := Ready(queue, meets);
    if k == |queue| then [] else [Given(queue[k], meets[k])] + queue[k + 1..]
  }

  ghost function Verdict(queue: seq<Event>, meets: seq<Meeting>, published: nat): FlushResult
    requires |queue| <= |meets|
  {
    var k := Ready(queue, meets);
    if k == |queue| then FlushResult(true, published + k, 0, "")
    else FlushResult(false, published + k, 0, "file_ref_missing")
  }

  ghost predicate LogsHold(s: State, s': State, pub: Publisher, sent: seq<Event>) {
    && s'.bus == s.bus + (if pub.Client? then Domain(sent) else [])
    && s'.trail == s.trail + (if KeepsRecord(pub) then Domain(sent) else [])
    && s'.audit == s.audit + sent
  }

  /** The trail was bound, if it was new and a recording client sent a domain event. */
  ghost predicate BoundBy(s: State, s': State, pub: Publisher, sent: seq<Event>) {
    var binds := pub.Client? && pub.records && s.newTrail && Domain(sent) != [];
    s'.newTrail == (s.newTrail && !binds) && s'.origin == (if binds then Bound(s, s.agent) else s).origin
  }

  /** Everything before the first event that wants files is where it should be, once and in order. */
  ghost predicate Drained(s: State, s': State, pub: Publisher, meets: seq<Meeting>)
    requires |s.pending| <= |meets|
  {
    var sent := AllDelivered(s.pending, meets, Ready(s.pending, meets));
    && s'.pending == LeftOf(s.pending, meets) && LogsHold(s, s', pub, sent) && BoundBy(s, s', pub, sent)
    && s'.trace == s.trace && s'.agent == s.agent && s'.invocations == s.invocations
  }

  lemma {:induction false} ReadyOneMore(queue: seq<Event>, meets: seq<Meeting>)
    requires queue != [] && |queue| <= |meets| && !Wanting(queue[0], meets[0].files)
    ensures Ready(queue, meets) == 1 + Ready(queue[1..], meets[1..])
    ensures LeftOf(queue, meets) == LeftOf(queue[1..], meets[1..])
  {
    var k := Ready(queue[1..], meets[1..]);
    if k < |queue| - 1 { assert queue[1..][k + 1..] == queue[k + 2..]; }
  }

  lemma DeliveredOneMore(queue: seq<Event>, meets: seq<Meeting>, k: nat)
    requires k < |queue| <= |meets|
    ensures var (sent, more) := (AllDelivered(queue, meets, 1 + k), AllDelivered(queue[1..], meets[1..], k));
      && sent == [Delivered(queue[0], meets[0])] + more
      && Domain(sent) == (if IsDomain(queue[0]) then [Delivered(queue[0], meets[0])] else []) + Domain(more)
  {
    var sent := AllDelivered(queue, meets, 1 + k);
    assert sent[1..] == AllDelivered(queue[1..], meets[1..], k);
  }

  /** What comes after the first head's turn. */
  function Later(s: State, pub: Publisher, meets: seq<Meeting>): seq<Fate>
    requires s.pending != [] && |s.pending| <= |meets|
  {
    Answers(pub, StillNew(pub, s.newTrail, s.pending[0]), s.pending[1..], meets[1..])
  }

  /** The state with an identified head, about to be sent. */
  function AtHead(s: State, pub: Publisher, meets: seq<Meeting>): State
    requires s.pending != [] && |s.pending| <= |meets|
  {
    AfterNaming(s, meets[0], HeadAnswers(pub, s.newTrail, s.pending[0], meets[0]) + Later(s, pub, meets))
  }

  function PastHead(s: State, pub: Publisher, meets: seq<Meeting>): State
    requires s.pending != [] && |s.pending| <= |meets|
  {
    AfterHead(AtHead(s, pub, meets), pub, Delivered(s.pending[0], meets[0]), Later(s, pub, meets))
  }

  lemma ReachesHead(s: State, pub: Publisher, meets: seq<Meeting>)
    requires Unhindered(s, pub, meets) && s.pending != []
    ensures IdentifyHead(s) == (AtHead(s, pub, meets), Went)
  {
    NamingUnhindered(s, meets[0], HeadAnswers(pub, s.newTrail, s.pending[0], meets[0]) + Later(s, pub, meets));
  }

  lemma PassesHead(s: State, s1: State, pub: Publisher, meets: seq<Meeting>)
    requires Unhindered(s, pub, meets) && s.pending != [] && s1 == AtHead(s, pub, meets)
    ensures s1.pending != []
    ensures Wanting(s.pending[0], meets[0].files) ==>
      SendHead(s1, pub) == (s1.(fates := s1.fates[1..]), Stopped("file_ref_missing"))
    ensures !Wanting(s.pending[0], meets[0].files) ==> SendHead(s1, pub) == (PastHead(s, pub, meets), Went)
  {
    assert s.pending[0] in s.pending;
    assert Wanting(s1.pending[0], meets[0].files) == Wanting(s.pending[0], meets[0].files);
    if Wanting(s1.pending[0], meets[0].files) {
      HeadRefusedIffWanting(s1, pub);
    } else {
      HeadUnhindered(s1, pub, meets[0], Later(s, pub, meets));
    }
  }

  /** What one head's turn adds. */
  ghost predicate Advanced(s: State, s2: State, pub: Publisher, ev: Event)
    requires s.pending != []
  {
    var kept := if IsDomain(ev) then [ev] else [];
    && s2.pending == s.pending[1..] && s2.audit == s.audit + [ev]
    && s2.bus == s.bus + (if pub.Client? then kept else [])
    && s2.trail == s.trail + (if KeepsRecord(pub) then kept else [])
    && s2.newTrail == StillNew(pub, s.newTrail, ev)
    && s2.origin == (if s2.newTrail == s.newTrail then s else Bound(s, ev.agent)).origin
    && s2.trace == s.trace && s2.agent == s.agent && s2.runDir == s.runDir && s2.invocations == s.invocations
  }

  lemma PastHeadAdvances(s: State, pub: Publisher, meets: seq<Meeting>)
    requires s.pending != [] && |s.pending| <= |meets|
    ensures Advanced(s, PastHead(s, pub, meets), pub, Delivered(s.pending[0], meets[0]))
    ensures PastHead(s, pub, meets).fates == Later(s, pub, meets)
  {
    assert s.trail + [] == s.trail && s.bus + [] == s.bus;
  }

  lemma KnownAfterHead(s: State, s2: State, pub: Publisher, ev: Event, id: string)
    requires s.pending != [] && Advanced(s, s2, pub, ev) && ev.id in {s.pending[0].id, id}
    ensures KnownIds(s2) <= KnownIds(s) + {id}
  {
    assert s.pending[0] in s.pending && forall e :: e in s2.pending ==> e in s.pending;
    assert forall e :: e in s2.audit ==> e in s.audit || e == ev;
    assert forall e :: e in s2.bus ==> e in s.bus || e == ev;
    assert forall e :: e in s2.trail ==> e in s.trail || e == ev;
  }

  lemma StaysFresh(s: State, s2: State, meets: seq<Meeting>)
    requires meets != [] && FreshIds(s, meets) && KnownIds(s2) <= KnownIds(s) + {meets[0].id}
    ensures FreshIds(s2, meets[1..])
  {
  }

  lemma StaysUnhindered(s: State, s2: State, pub: Publisher, meets: seq<Meeting>)
    requires Unhindered(s, pub, meets) && s.pending != [] && Advanced(s, s2, pub, Delivered(s.pending[0], meets[0]))
    requires s2.fates == Later(s, pub, meets)
    ensures Unhindered(s2, pub, meets[1..])
  {
    KnownAfterHead(s, s2, pub, Delivered(s.pending[0], meets[0]), meets[0].id);
    StaysFresh(s, s2, meets);
    assert forall e :: e in s2.pending ==> e in s.pending;
  }

  lemma Assoc(base: seq<Event>, first: seq<Event>, more: seq<Event>)
    ensures base + first + more == base + (first + more)
  {
  }

  lemma DrainedOneMore(s: State, s2: State, s': State, pub: Publisher, meets: seq<Meeting>)
    requires s.pending != [] && |s.pending| <= |meets| && !Wanting(s.pending[0], meets[0].files)
    requires OwnRun(s, s.pending[0]) && Advanced(s, s2, pub, Delivered(s.pending[0], meets[0]))
    requires Drained(s2, s', pub, meets[1..])
    ensures Drained(s, s', pub, meets)
  {
    ReadyOneMore(s.pending, meets);
    DeliveredOneMore(s.pending, meets, Ready(s2.pending, meets[1..]));
    LogsOneMore(s, s2, s', pub, Delivered(s.pending[0], meets[0]),
                AllDelivered(s2.pending, meets[1..], Ready(s2.pending, meets[1..])));
  }

  lemma LogsOneMore(s: State, s2: State, s': State, pub: Publisher, ev: Event, more: seq<Event>)
    requires s.pending != [] && Advanced(s, s2, pub, ev) && ev.agent == s.agent
    requires LogsHold(s2, s', pub, more) && BoundBy(s2, s', pub, more)
    ensures LogsHold(s, s', pub, [ev] + more) && BoundBy(s, s', pub, [ev] + more)
  {
    var kept := if IsDomain(ev) then [ev] else [];
    assert ([ev] + more)[1..] == more;
    Assoc(s.audit, [ev], more);
    Assoc(s.bus, kept, Domain(more));
    Assoc(s.trail, kept, Domain(more));
  }

  lemma DrainedNothing(s: State, pub: Publisher, meets: seq<Meeting>, s': State)
    requires |s.pending| <= |meets| && Ready(s.pending, meets) == 0
    requires s' == s.(pending := LeftOf(s.pending, meets), garbled := s'.garbled, fates := s'.fates)
    ensures Drained(s, s', pub, meets)
  {
    assert AllDelivered(s.pending, meets, 0) == [];
    assert s.bus + [] == s.bus && s.trail + [] == s.trail && s.audit + [] == s.audit;
  }

  ghost predicate Completes(s: State, end: (State, Outcome), pub: Publisher, meets: seq<Meeting>, published: nat)
    requires |s.pending| <= |meets|
  {
    Drained(s, end.0, pub, meets) && end.1 == Returned(Verdict(s.pending, meets, published))
  }

  lemma StopsAtHead(s: State, pub: Publisher, meets: seq<Meeting>, published: nat)
    requires Unhindered(s, pub, meets) && s.pending != [] && Wanting(s.pending[0], meets[0].files)
    ensures Completes(s, FlushLoop(s, pub, published), pub, meets, published)
  {
    var s1 := AtHead(s, pub, meets);
    ReachesHead(s, pub, meets);
    PassesHead(s, s1, pub, meets);
    LoopTurn(s, pub, published);
    DrainedNothing(s, pub, meets, s1.(fates := s1.fates[1..]));
  }

  lemma LoopPassesHead(s: State, pub: Publisher, meets: seq<Meeting>, published: nat)
    requires Unhindered(s, pub, meets) && s.pending != [] && !Wanting(s.pending[0], meets[0].files)
    ensures FlushLoop(s, pub, published) == FlushLoop(PastHead(s, pub, meets), pub, published + 1)
  {
    ReachesHead(s, pub, meets);
    PassesHead(s, AtHead(s, pub, meets), pub, meets);
    LoopTurn(s, pub, published);
  }

  lemma GoesPastHead(s: State, pub: Publisher, meets: seq<Meeting>, published: nat, s2: State, end: (State, Outcome))
    requires Unhindered(s, pub, meets) && s.pending != [] && !Wanting(s.pending[0], meets[0].files)
    requires s2 == PastHead(s, pub, meets) && |s2.pending| <= |meets[1..]|
    requires end == FlushLoop(s2, pub, published + 1) && Completes(s2, end, pub, meets[1..], published + 1)
    ensures Completes(s, FlushLoop(s, pub, published), pub, meets, published)
  {
    LoopPassesHead(s, pub, meets, published);
    PastHeadAdvances(s, pub, meets);
    assert s.pending[0] in s.pending;
    DrainedOneMore(s, s2, end.0, pub, meets);
    ReadyOneMore(s.pending, meets);
  }

  lemma {:induction false} LoopUnhindered(s: State, pub: Publisher, meets: seq<Meeting>, published: nat)
    requires Unhindered(s, pub, meets)
    ensures Completes(s, FlushLoop(s, pub, published), pub, meets, published)
    decreases |s.pending|
  {
    if s.pending == [] {
      DrainedNothing(s, pub, meets, s);
    } else if Wanting(s.pending[0], meets[0].files) {
      StopsAtHead(s, pub, meets, published);
    } else {
      var s2 := PastHead(s, pub, meets);
      PastHeadAdvances(s, pub, meets);
      StaysUnhindered(s, s2, pub, meets);
      LoopUnhindered(s2, pub, meets[1..], published + 1);
      GoesPastHead(s, pub, meets, published, s2, FlushLoop(s2, pub, published + 1));
    }
  }

  /** A flush nothing else hinders delivers the queue up to the first event whose files are missing, each event once,
      in order, with its identity and its run's provenance: to the audit log, and the domain events among them to the
      record and, through a client, to the stream, having bound the trail if it was new. It answers OK exactly when it
      got to the end. */
  lemma UnhinderedFlushDelivers(s: State, pub: Publisher, meets: seq<Meeting>)
    requires Unhindered(s, pub, meets) && !s.garbled
    ensures var (s', out) := FlushPending(s, pub, false);
      && Drained(s, s', pub, meets) && out == Returned(Verdict(s.pending, meets, 0))
      && (out.result.ok <==> forall i :: 0 <= i < |meets| ==> !Wanting(s.pending[i], meets[i].files))
  {
    LoopUnhindered(s, pub, meets, 0);
  }

  /* Refusals. */

  /** An identified domain event of the run itself, its files in place, at the head of a bound trail's queue. */
  ghost predicate OneHead(s: State, m: Meeting) {
    && OwnTrace(s) && !s.newTrail && s.pending != [] && OwnRun(s, s.pending[0]) && s.pending[0].id != ""
    && IsDomain(s.pending[0]) && !Wanting(s.pending[0], m.files)
  }

  lemma PublishMeets(s: State, ev: Event, record: Effect, broker: Effect, rest: seq<Fate>)
    requires OwnTrace(s) && OwnRun(s, ev) && IsDomain(ev) && !s.newTrail
    requires s.fates == [Record(record), Broker(broker)] + rest
    ensures Publish(s, Client(true, true), ev)
         == (s.(trail := s.trail + (if record.Refused? then [] else [ev]),
                bus := s.bus + (if broker.Refused? then [] else [ev]), fates := rest), Reported(broker))
  {
    assert s.fates[1..] == [Broker(broker)] + rest;
    assert s.fates[1..][1..] == rest;
    assert s.trail + [] == s.trail && s.bus + [] == s.bus;
  }

  lemma SettleMeets(s: State, left: seq<Event>, ev: Event, audit: Effect, rewrite: Effect)
    requires OwnTrace(s) && OwnRun(s, ev) && s.fates == [Audit(audit), Rewrite(rewrite)]
    ensures var (s', t) := Settle(s, left, ev);
      && s'.bus == s.bus && s'.trail == s.trail
      && t == (if !audit.Done? then Stopped("audit_log_failed") else if rewrite.Done? then Went else GoError)
      && s'.audit == s.audit + (if audit.Refused? then [] else [ev])
      && s'.pending == (if audit.Done? && !rewrite.Refused? then left else s.pending)
  {
    assert s.fates[1..] == [Rewrite(rewrite)];
    assert s.audit + [] == s.audit;
  }

  /** Whatever each step of one head's turn answers: the record's refusal changes nothing about the answer, the
      broker's and the audit log's stop the turn under their names with the event still queued, and the rewrite's is an
      error; each log gains the event unless its own step, or one before it, was refused. */
  lemma EveryRefusalHasItsName(s: State, m: Meeting, record: Effect, broker: Effect, audit: Effect, rewrite: Effect)
    requires OneHead(s, m)
    requires s.fates == [Look(m.provenance, m.files), Record(record), Broker(broker), Audit(audit), Rewrite(rewrite)]
    ensures var (s', t) := SendHead(s, Client(true, true));
      var ev := Delivered(s.pending[0], m);
      && t == (if !broker.Done? then Stopped("publish_failed")
               else if !audit.Done? then Stopped("audit_log_failed")
               else if rewrite.Done? then Went else GoError)
      && s'.trail == s.trail + (if record.Refused? then [] else [ev])
      && s'.bus == s.bus + (if broker.Refused? then [] else [ev])
      && s'.audit == s.audit + (if broker.Done? && !audit.Refused? then [ev] else [])
      && s'.pending == (if broker.Done? && audit.Done? && !rewrite.Refused? then s.pending[1..] else s.pending)
  {
    var ev := Delivered(s.pending[0], m);
    assert s.fates[1..] == [Record(record), Broker(broker)] + [Audit(audit), Rewrite(rewrite)];
    HeadRefusedIffWanting(s, Client(true, true));
    PublishMeets(Next(s), ev, record, broker, [Audit(audit), Rewrite(rewrite)]);
    var s1 := Publish(Next(s), Client(true, true), ev).0;
    SettleMeets(s1, s.pending[1..], ev, audit, rewrite);
    assert s.audit + [] == s.audit;
  }

  /** A head sent and then cut off within the rewrite: the queue is what had been written of it, with half a line behind
      that or without, and the call fails although every log has the event. */
  lemma CutShortHead(s: State, m: Meeting, kept: nat, garbled: bool)
    requires OneHead(s, m) && kept < |s.pending| - 1
    requires s.fates == [Look(m.provenance, m.files), Record(Done), Broker(Done), Audit(Done), Torn(kept, garbled)]
    ensures var (s', t) := SendHead(s, Client(true, true));
      var ev := Delivered(s.pending[0], m);
      && t == GoError && s'.pending == s.pending[1..][..kept] && s'.garbled == garbled
      && s'.bus == s.bus + [ev] && s'.trail == s.trail + [ev] && s'.audit == s.audit + [ev]
  {
    var ev := Delivered(s.pending[0], m);
    assert s.fates[1..] == [Record(Done), Broker(Done)] + [Audit(Done), Torn(kept, garbled)];
    HeadRefusedIffWanting(s, Client(true, true));
    PublishMeets(Next(s), ev, Done, Done, [Audit(Done), Torn(kept, garbled)]);
    SettleCutShort(Publish(Next(s), Client(true, true), ev).0, s.pending[1..], ev, kept, garbled);
  }

  lemma SettleCutShort(s: State, left: seq<Event>, ev: Event, kept: nat, garbled: bool)
    requires OwnTrace(s) && OwnRun(s, ev) && s.fates == [Audit(Done), Torn(kept, garbled)] && kept < |left|
    ensures var (s', t) := Settle(s, left, ev);
      && t == GoError && s'.pending == left[..kept] && s'.garbled == garbled
      && s'.bus == s.bus && s'.trail == s.trail && s'.audit == s.audit + [ev]
  {
    assert s.fates[1..] == [Torn(kept, garbled)];
  }

  lemma SendHeadErrors(s: State, pub: Publisher)
    requires s.pending != []
    ensures var t := SendHead(s, pub).1;
      t.Stopped? ==> t.error in {"file_ref_missing", "publish_failed", "audit_log_failed"}
  {
  }

  ghost predicate Answered(s: State, end: (State, Outcome)) {
    end.1.Returned? ==>
      var r := end.1.result;
      && r.error in {"", "identity_failed", "file_ref_missing", "publish_failed", "audit_log_failed"}
      && (r.ok <==> r.error == "") && (r.ok <==> end.0.pending == [])
  }

  lemma {:induction false} LoopErrors(s: State, pub: Publisher, published: nat)
    ensures Answered(s, FlushLoop(s, pub, published))
    decreases |s.pending|
  {
    if s.pending == [] {
    } else {
      LoopTurn(s, pub, published);
      IdentifyEffect(s);
      var s1 := IdentifyHead(s).0;
      if IdentifyHead(s).1.Went? {
        SendHeadErrors(s1, pub);
        SendHeadPops(s1, pub);
        if SendHead(s1, pub).1.Went? { LoopErrors(SendHead(s1, pub).0, pub, published + 1); }
      }
    }
  }

  /** Of the calls that answer: OK is exactly the answer without an error and leaves no queue; a missing run directory
      and a missing publisher have names of their own, given exactly then and with nothing changed; and a queue spoilt
      by half a line is never answered for. */
  lemma EveryAnswerIsNamed(s: State, pub: Publisher, discard: bool)
    ensures var (s', out) := FlushPending(s, pub, discard);
      out.Returned? ==>
        var r := out.result;
        && (r.ok <==> r.error == "") && (r.ok ==> s'.pending == []) && (s.runDir ==> !s.garbled)
        && (r.error == "run_not_found" <==> !s.runDir)
        && (r.error == "nats_not_configured" <==> s.runDir && s.pending != [] && !discard && pub.Missing?)
        && (r.error in {"run_not_found", "nats_not_configured"} ==> s' == s)
  {
    LoopErrors(s, pub, 0);
    RewriteEffect(s, []);
  }
}
