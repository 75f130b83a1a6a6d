/** When the first page of a transcript shows the same conversation whatever mask it was read with. */
module DialoguePages {
  import opened Options
  import opened Text
  import opened Transcripts
  import opened Dialogue
  import opened Paging

  predicate KeepsPart(part: Part, mask: IncludeMask) {
    match part.kind
    case TextPart => mask.text && part.text != ""
    case ReasoningPart => mask.reasoning && part.reasoning != ""
    case ToolPart => part.tool.Some?
    case OtherPart => false
  }

  /** A turn the mask keeps, as the provider's transcript already tells. */
  predicate Keeps(turn: Turn, mask: IncludeMask) {
    Visible(Role(turn), mask) && exists part <- turn.parts :: KeepsPart(part, mask)
  }

  /** How many of the turns the mask keeps. */
  function Rank(turns: seq<Turn>, mask: IncludeMask): nat {
    if turns == [] then 0 else Rank(turns[..|turns| - 1], mask) + if Keeps(turns[|turns| - 1], mask) then 1 else 0
  }

  lemma {:induction false} KeptPartsIff(parts: seq<Part>, mask: IncludeMask, limits: Limits, redact: string -> string)
    ensures NormalParts(parts, mask, limits, redact) != [] <==> exists part <- parts :: KeepsPart(part, mask)
  {
    if parts == [] {
    } else {
      var (init, last) := (parts[..|parts| - 1], parts[|parts| - 1]);
      KeptPartsIff(init, mask, limits, redact);
      assert parts == init + [last];
      assert NormalPart(last, mask, limits, redact) != [] <==> KeepsPart(last, mask);
    }
  }

  lemma KeptIff(turn: Turn, mask: IncludeMask, limits: Limits, redact: string -> string)
    ensures |NormalTurn(turn, mask, limits, redact)| == if Keeps(turn, mask) then 1 else 0
  {
    KeptPartsIff(turn.parts, mask, limits, redact);
  }

  lemma {:induction false} RankCountsKept(turns: seq<Turn>, mask: IncludeMask, limits: Limits, redact: string -> string)
    ensures |NormalTurns(turns, mask, limits, redact)| == Rank(turns, mask)
  {
    if turns == [] {
    } else {
      RankCountsKept(turns[..|turns| - 1], mask, limits, redact);
      KeptIff(turns[|turns| - 1], mask, limits, redact);
    }
  }

  /** The dialogue's view of one turn: the same under every mask that lets what it shows through. */
  function ShownTurn(turn: Turn, limits: Limits, redact: string -> string, withReasoning: bool): seq<DialogueTurn> {
    var blocks := SpokeAll(turn.parts, limits, redact, withReasoning);
    if Spoken(Role(turn)) && blocks != [] then [DialogueTurn(Role(turn), turn.timestamp, blocks)] else []
  }

  predicate Shown(turn: Turn, limits: Limits, redact: string -> string, withReasoning: bool) {
    ShownTurn(turn, limits, redact, withReasoning) != []
  }

  predicate Carries(mask: IncludeMask, withReasoning: bool) { mask.text && (withReasoning ==> mask.reasoning) }

  /** What the first k kept turns show. */
  function PageShows(turns: seq<Turn>, mask: IncludeMask, k: nat, limits: Limits, redact: string -> string,
                     withReasoning: bool): seq<DialogueTurn>
  {
    if turns == [] then []
    else
      var init := turns[..|turns| - 1];
      PageShows(init, mask, k, limits, redact, withReasoning)
      + if Rank(init, mask) < k then ShownTurn(turns[|turns| - 1], limits, redact, withReasoning) else []
  }

  function Firsts(turns: seq<Turn>, k: nat): seq<Turn> { if k < |turns| then turns[..k] else turns }

  lemma FirstsOneMore(kept: seq<Turn>, more: seq<Turn>, k: nat)
    requires |more| <= 1
    ensures Firsts(kept + more, k) == Firsts(kept, k) + if |kept| < k then more else []
  {
  }

  lemma {:induction false} PageIs(turns: seq<Turn>, mask: IncludeMask, k: nat, limits: Limits, redact: string -> string,
                                  withReasoning: bool)
    requires Carries(mask, withReasoning)
    ensures Project(Firsts(NormalTurns(turns, mask, limits, redact), k), withReasoning)
         == PageShows(turns, mask, k, limits, redact, withReasoning)
  {
    if turns == [] {
    } else {
      var (init, last) := (turns[..|turns| - 1], turns[|turns| - 1]);
      var (kept, more) := (NormalTurns(init, mask, limits, redact), NormalTurn(last, mask, limits, redact));
      PageIs(init, mask, k, limits, redact, withReasoning);
      RankCountsKept(init, mask, limits, redact);
      KeptIff(last, mask, limits, redact);
      FirstsOneMore(kept, more, k);
      TurnSurvives(last, mask, limits, redact, withReasoning);
      ProjectConcat(Firsts(kept, k), if |kept| < k then more else [], withReasoning);
    }
  }

  /* Equal ranks, equal pages. */

  /** Every turn that shows something has as many kept turns before it under one mask as under the other. */
  ghost predicate SameRanks(turns: seq<Turn>, a: IncludeMask, b: IncludeMask, limits: Limits, redact: string -> string,
                            withReasoning: bool)
  {
    forall j :: 0 <= j < |turns| && Shown(turns[j], limits, redact, withReasoning) ==>
      Rank(turns[..j], a) == Rank(turns[..j], b)
  }

  lemma {:induction false} SameRanksSamePage(turns: seq<Turn>, a: IncludeMask, b: IncludeMask, k: nat, limits: Limits,
                                             redact: string -> string, withReasoning: bool)
    requires SameRanks(turns, a, b, limits, redact, withReasoning)
    ensures PageShows(turns, a, k, limits, redact, withReasoning)
         == PageShows(turns, b, k, limits, redact, withReasoning)
  {
    if turns == [] {
    } else {
      var init := turns[..|turns| - 1];
      forall j | 0 <= j < |init| && Shown(init[j], limits, redact, withReasoning)
        ensures Rank(init[..j], a) == Rank(init[..j], b)
      {
        assert init[j] == turns[j] && init[..j] == turns[..j];
      }
      SameRanksSamePage(init, a, b, k, limits, redact, withReasoning);
      assert Shown(turns[|turns| - 1], limits, redact, withReasoning) ==> Rank(init, a) == Rank(init, b);
    }
  }

  /** How many of the turns show something. */
  function ShownCount(turns: seq<Turn>, limits: Limits, redact: string -> string, withReasoning: bool): nat {
    if turns == [] then 0
    else
      ShownCount(turns[..|turns| - 1], limits, redact, withReasoning)
      + if Shown(turns[|turns| - 1], limits, redact, withReasoning) then 1 else 0
  }

  lemma {:induction false} RankGrows(turns: seq<Turn>, mask: IncludeMask, m: nat)
    requires m <= |turns|
    ensures Rank(turns[..m], mask) <= Rank(turns, mask) <= |turns|
  {
    if turns == [] {
    } else if m == |turns| {
      assert turns[..m] == turns;
      RankGrows(turns[..m - 1], mask, m - 1);
    } else {
      var init := turns[..|turns| - 1];
      assert init[..m] == turns[..m];
      RankGrows(init, mask, m);
    }
  }

  /** A page that reaches the m-th turn shows everything up to it... */
  lemma {:induction false} PageReaches(turns: seq<Turn>, mask: IncludeMask, k: nat, m: nat, limits: Limits,
                                       redact: string -> string, withReasoning: bool)
    requires m < |turns| && Rank(turns[..m], mask) < k
    ensures |PageShows(turns, mask, k, limits, redact, withReasoning)|
         >= ShownCount(turns[..m + 1], limits, redact, withReasoning)
  {
    var init := turns[..|turns| - 1];
    if m + 1 < |turns| {
      assert init[..m] == turns[..m] && init[..m + 1] == turns[..m + 1];
      PageReaches(init, mask, k, m, limits, redact, withReasoning);
    } else {
      assert turns[..m + 1] == turns && turns[..m] == init;
      if m == 0 {
        assert init == [];
      } else {
        assert init[..m - 1] == turns[..m - 1];
        RankGrows(init, mask, m - 1);
        PageReaches(init, mask, k, m - 1, limits, redact, withReasoning);
        assert init[..m] == init;
      }
    }
  }

  /** ...and one that is full before it nothing from there on. */
  lemma {:induction false} PageStops(turns: seq<Turn>, mask: IncludeMask, k: nat, m: nat, limits: Limits,
                                     redact: string -> string, withReasoning: bool)
    requires m <= |turns| && Rank(turns[..m], mask) >= k
    ensures |PageShows(turns, mask, k, limits, redact, withReasoning)|
         <= ShownCount(turns[..m], limits, redact, withReasoning)
  {
    if m == |turns| {
      assert turns[..m] == turns;
      ShowsAtMost(turns, mask, k, limits, redact, withReasoning);
    } else {
      var init := turns[..|turns| - 1];
      assert init[..m] == turns[..m];
      RankGrows(init, mask, m);
      PageStops(init, mask, k, m, limits, redact, withReasoning);
    }
  }

  lemma {:induction false} ShowsAtMost(turns: seq<Turn>, mask: IncludeMask, k: nat, limits: Limits,
                                       redact: string -> string, withReasoning: bool)
    ensures |PageShows(turns, mask, k, limits, redact, withReasoning)|
         <= ShownCount(turns, limits, redact, withReasoning)
  {
    if turns == [] {
    } else {
      ShowsAtMost(turns[..|turns| - 1], mask, k, limits, redact, withReasoning);
    }
  }

  lemma ShownCountNext(turns: seq<Turn>, j: nat, limits: Limits, redact: string -> string, withReasoning: bool)
    requires j < |turns| && Shown(turns[j], limits, redact, withReasoning)
    ensures ShownCount(turns[..j + 1], limits, redact, withReasoning)
         == ShownCount(turns[..j], limits, redact, withReasoning) + 1
  {
    var upTo := turns[..j + 1];
    assert upTo != [] && upTo[..|upTo| - 1] == turns[..j] && upTo[|upTo| - 1] == turns[j];
  }

  /** Where the ranks differ, the page that just reaches the turn under one of the masks shows more. */
  lemma UnequalRanksTellApart(turns: seq<Turn>, a: IncludeMask, b: IncludeMask, j: nat, k: nat, limits: Limits,
                              redact: string -> string, withReasoning: bool)
    requires j < |turns| && Shown(turns[j], limits, redact, withReasoning)
    requires Rank(turns[..j], a) < k <= Rank(turns[..j], b)
    ensures |PageShows(turns, a, k, limits, redact, withReasoning)|
          > |PageShows(turns, b, k, limits, redact, withReasoning)|
  {
    PageReaches(turns, a, k, j, limits, redact, withReasoning);
    PageStops(turns, b, k, j, limits, redact, withReasoning);
    ShownCountNext(turns, j, limits, redact, withReasoning);
  }

  /* Transcripts. */

  /** What the first page of this size shows. */
  function FirstPageView(t: Transcript, mask: IncludeMask, limits: Limits, size: nat, redact: string -> string,
                         withReasoning: bool): seq<DialogueTurn>
    requires Paging.Plain(t) && 0 < size <= MAX_INT64
  {
    PageOfWalk(t, mask, limits, size, redact, 0);
    Project(Normalize(t, mask, limits, Window(0, size, ""), redact).turns, withReasoning)
  }

  lemma ViewIsPage(t: Transcript, mask: IncludeMask, limits: Limits, size: nat, redact: string -> string,
                   withReasoning: bool)
    requires Paging.Plain(t) && 0 < size <= MAX_INT64 && Carries(mask, withReasoning)
    ensures FirstPageView(t, mask, limits, size, redact, withReasoning)
         == PageShows(t.turns, mask, size, limits.WithDefaults(), redact, withReasoning)
  {
    PageOfWalk(t, mask, limits, size, redact, 0);
    var kept := Kept(t, mask, limits, redact);
    assert kept[0..EndOf(0, size, |kept|)] == Firsts(kept, size);
    PageIs(t.turns, mask, size, limits.WithDefaults(), redact, withReasoning);
  }

  ghost predicate FirstPagesAgree(t: Transcript, a: IncludeMask, b: IncludeMask, limits: Limits,
                                  redact: string -> string, withReasoning: bool)
    requires Paging.Plain(t)
  {
    forall size: nat :: 0 < size <= MAX_INT64 ==>
      FirstPageView(t, a, limits, size, redact, withReasoning)
      == FirstPageView(t, b, limits, size, redact, withReasoning)
  }

  lemma ViewsDiffer(t: Transcript, a: IncludeMask, b: IncludeMask, j: nat, k: nat, limits: Limits,
                    redact: string -> string, withReasoning: bool)
    requires Paging.Plain(t) && Carries(a, withReasoning) && Carries(b, withReasoning) && 0 < k <= MAX_INT64
    requires j < |t.turns| && Shown(t.turns[j], limits.WithDefaults(), redact, withReasoning)
    requires Rank(t.turns[..j], a) < k <= Rank(t.turns[..j], b)
    ensures |FirstPageView(t, a, limits, k, redact, withReasoning)|
          > |FirstPageView(t, b, limits, k, redact, withReasoning)|
  {
    ViewIsPage(t, a, limits, k, redact, withReasoning);
    ViewIsPage(t, b, limits, k, redact, withReasoning);
    UnequalRanksTellApart(t.turns, a, b, j, k, limits.WithDefaults(), redact, withReasoning);
  }

  lemma RanksDecide(t: Transcript, a: IncludeMask, b: IncludeMask, j: nat, limits: Limits, redact: string -> string,
                    withReasoning: bool)
    requires Paging.Plain(t) && Carries(a, withReasoning) && Carries(b, withReasoning)
    requires FirstPagesAgree(t, a, b, limits, redact, withReasoning)
    requires j < |t.turns| && Shown(t.turns[j], limits.WithDefaults(), redact, withReasoning)
    ensures Rank(t.turns[..j], a) >= Rank(t.turns[..j], b)
  {
    if Rank(t.turns[..j], a) < Rank(t.turns[..j], b) {
      var k := Rank(t.turns[..j], a) + 1;
      RankGrows(t.turns, b, j);
      ViewsDiffer(t, a, b, j, k, limits, redact, withReasoning);
      assert false;
    }
  }

  /** Two masks show the same first page, of whatever size, exactly when every turn that shows something has as many
      kept turns before it under the one as under the other. */
  lemma {:induction false} FirstPagesAgreeIff(t: Transcript, a: IncludeMask, b: IncludeMask, limits: Limits,
                                              redact: string -> string, withReasoning: bool)
    requires Paging.Plain(t) && Carries(a, withReasoning) && Carries(b, withReasoning)
    ensures FirstPagesAgree(t, a, b, limits, redact, withReasoning)
       <==> SameRanks(t.turns, a, b, limits.WithDefaults(), redact, withReasoning)
  {
    var l := limits.WithDefaults();
    if SameRanks(t.turns, a, b, l, redact, withReasoning) {
      forall size: nat | 0 < size <= MAX_INT64
        ensures FirstPageView(t, a, limits, size, redact, withReasoning)
             == FirstPageView(t, b, limits, size, redact, withReasoning)
      {
        ViewIsPage(t, a, limits, size, redact, withReasoning);
        ViewIsPage(t, b, limits, size, redact, withReasoning);
        SameRanksSamePage(t.turns, a, b, size, l, redact, withReasoning);
      }
    }
    if FirstPagesAgree(t, a, b, limits, redact, withReasoning) {
      forall j | 0 <= j < |t.turns| && Shown(t.turns[j], l, redact, withReasoning)
        ensures Rank(t.turns[..j], a) == Rank(t.turns[..j], b)
      {
        RanksDecide(t, a, b, j, limits, redact, withReasoning);
        RanksDecide(t, b, a, j, limits, redact, withReasoning);
      }
    }
  }

  lemma RankNext(turns: seq<Turn>, j: nat, mask: IncludeMask)
    requires j < |turns|
    ensures Rank(turns[..j + 1], mask) == Rank(turns[..j], mask) + if Keeps(turns[j], mask) then 1 else 0
  {
    assert turns[..j + 1][..j] == turns[..j];
  }

  lemma RankOfTwo(turns: seq<Turn>, mask: IncludeMask, j: nat)
    requires j < |turns| == 3 && j != 1 && Keeps(turns[0], mask) != Keeps(turns[1], mask)
    ensures Rank(turns[..j], mask) == if j == 0 then 0 else 1
  {
    if j == 2 {
      RankNext(turns, 0, mask);
      RankNext(turns, 1, mask);
    }
  }

  lemma BalancedRanks(turns: seq<Turn>, a: IncludeMask, b: IncludeMask, limits: Limits, redact: string -> string,
                      withReasoning: bool)
    requires |turns| == 3 && !Shown(turns[1], limits, redact, withReasoning)
    requires Keeps(turns[0], a) != Keeps(turns[1], a) && Keeps(turns[0], b) != Keeps(turns[1], b)
    ensures SameRanks(turns, a, b, limits, redact, withReasoning)
  {
    forall j | 0 <= j < |turns| && Shown(turns[j], limits, redact, withReasoning)
      ensures Rank(turns[..j], a) == Rank(turns[..j], b)
    {
      RankOfTwo(turns, a, j);
      RankOfTwo(turns, b, j);
    }
  }

  /** Counting is needed: two masks may each keep a turn the other drops and yet agree on every page. */
  lemma DifferentKeepsMayBalance(t: Transcript, a: IncludeMask, b: IncludeMask, limits: Limits,
                                 redact: string -> string, withReasoning: bool)
    requires Paging.Plain(t) && Carries(a, withReasoning) && Carries(b, withReasoning) && |t.turns| == 3
    requires Keeps(t.turns[0], a) && !Keeps(t.turns[0], b) && !Keeps(t.turns[1], a) && Keeps(t.turns[1], b)
    requires !Shown(t.turns[1], limits.WithDefaults(), redact, withReasoning)
    ensures FirstPagesAgree(t, a, b, limits, redact, withReasoning)
  {
    BalancedRanks(t.turns, a, b, limits.WithDefaults(), redact, withReasoning);
    FirstPagesAgreeIff(t, a, b, limits, redact, withReasoning);
  }

  /* Masks one of which lets through all the other does, as the presets are. */

  predicate Within(a: IncludeMask, b: IncludeMask) {
    (a.text ==> b.text) && (a.reasoning ==> b.reasoning) && (a.system ==> b.system)
  }

  lemma KeepsWithin(turn: Turn, a: IncludeMask, b: IncludeMask)
    requires Within(a, b) && Keeps(turn, a)
    ensures Keeps(turn, b)
  {
    var part :| part in turn.parts && KeepsPart(part, a);
    assert KeepsPart(part, b);
  }

  lemma {:induction false} RanksWithin(turns: seq<Turn>, a: IncludeMask, b: IncludeMask)
    requires Within(a, b)
    ensures Rank(turns, a) <= Rank(turns, b)
    ensures Rank(turns, a) == Rank(turns, b) <==> forall turn <- turns :: Keeps(turn, b) ==> Keeps(turn, a)
  {
    if turns == [] {
    } else {
      var (init, last) := (turns[..|turns| - 1], turns[|turns| - 1]);
      RanksWithin(init, a, b);
      if Keeps(last, a) { KeepsWithin(last, a, b); }
      assert turns == init + [last];
    }
  }

  /** No turn that only the wider mask keeps comes before a turn that shows something. */
  ghost predicate NothingExtraBefore(turns: seq<Turn>, a: IncludeMask, b: IncludeMask, limits: Limits,
                                     redact: string -> string, withReasoning: bool)
  {
    forall i, j :: 0 <= i < j < |turns| && Shown(turns[j], limits, redact, withReasoning) && Keeps(turns[i], b) ==>
      Keeps(turns[i], a)
  }

  /** For two of the presets that means: no system turn and no turn of nothing but reasoning that only one of them
      keeps comes before something the dialogue shows. */
  lemma {:induction false} FirstPagesOfPresetsAgreeIff(t: Transcript, a: IncludeMask, b: IncludeMask, limits: Limits,
                                                       redact: string -> string, withReasoning: bool)
    requires Paging.Plain(t) && Carries(a, withReasoning) && Within(a, b)
    ensures FirstPagesAgree(t, a, b, limits, redact, withReasoning)
       <==> NothingExtraBefore(t.turns, a, b, limits.WithDefaults(), redact, withReasoning)
  {
    FirstPagesAgreeIff(t, a, b, limits, redact, withReasoning);
    forall j | 0 <= j < |t.turns|
      ensures Rank(t.turns[..j], a) == Rank(t.turns[..j], b)
         <==> forall i :: 0 <= i < j && Keeps(t.turns[i], b) ==> Keeps(t.turns[i], a)
    {
      RanksWithin(t.turns[..j], a, b);
      assert forall i :: 0 <= i < j ==> t.turns[..j][i] == t.turns[i];
    }
  }

  lemma PresetsAreNested()
    ensures Within(PRESET_DIALOGUE, PRESET_DIALOGUE_WITH_REASONING)
    ensures Within(PRESET_DIALOGUE_WITH_REASONING, PRESET_FULL)
    ensures Within(PRESET_DIALOGUE, PRESET_FULL)
  {
  }
}
