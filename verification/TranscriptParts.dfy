/** What a normalised transcript holds, part by part and page by page, told from the provider's transcript alone. */
module TranscriptParts {
  import opened Options
  import opened Text
  import opened Transcripts
  import opened DialoguePages

  /** `out` is s, or as much of it as the cap allows and an ellipsis. */
  ghost predicate Capped(s: string, cap: nat, out: string) {
    if |s| <= cap then out == s else out == s[..cap] + ['\U{2026}']
  }

  /** Every cap is positive, and is the one asked for if there was one. */
  lemma CapsArePositive(limits: Limits)
    ensures var l := limits.WithDefaults(); l.text > 0 && l.reasoning > 0 && l.toolInput > 0 && l.toolOutput > 0
    ensures var l := limits.WithDefaults();
      && (limits.text > 0 ==> l.text == limits.text) && (limits.reasoning > 0 ==> l.reasoning == limits.reasoning)
      && (limits.toolInput > 0 ==> l.toolInput == limits.toolInput)
      && (limits.toolOutput > 0 ==> l.toolOutput == limits.toolOutput)
  {
  }

  predicate Positive(l: Limits) { l.text > 0 && l.reasoning > 0 && l.toolInput > 0 && l.toolOutput > 0 }

  /** The provider's tool, its input and output redacted and then capped where the mask shows them, and empty where it
      does not. */
  ghost predicate TellsTool(tool: Tool, out: Tool, mask: IncludeMask, l: Limits, redact: string -> string)
    requires Positive(l)
  {
    && out.name == tool.name && out.callId == tool.callId
    && (out.status == if tool.status == "" then "unknown" else tool.status)
    && (if mask.toolInput then Capped(redact(tool.input), l.toolInput, out.input) else out.input == "")
    && (if mask.toolOutput then Capped(redact(tool.output), l.toolOutput, out.output) else out.output == "")
  }

  ghost predicate TellsPart(part: Part, out: Part, mask: IncludeMask, l: Limits, redact: string -> string)
    requires Positive(l)
  {
    out.kind == part.kind
    && match part.kind
       case TextPart =>
         && Capped(redact(part.text), l.text, out.text) && out.reasoning == "" && out.tool.None?
         && (out.truncated <==> |redact(part.text)| > l.text)
       case ReasoningPart =>
         && Capped(redact(part.reasoning), l.reasoning, out.reasoning) && out.text == "" && out.tool.None?
         && (out.truncated <==> |redact(part.reasoning)| > l.reasoning)
       case ToolPart =>
         && part.tool.Some? && out.tool.Some? && TellsTool(part.tool.value, out.tool.value, mask, l, redact)
         && out.text == "" && out.reasoning == "" && !out.truncated
       case OtherPart => false
  }

  /** The part shows something, and that is longer than its cap. */
  ghost predicate Overlong(part: Part, mask: IncludeMask, l: Limits, redact: string -> string) {
    KeepsPart(part, mask)
    && match part.kind
       case TextPart => |redact(part.text)| > l.text
       case ReasoningPart => |redact(part.reasoning)| > l.reasoning
       case ToolPart =>
         || (mask.toolInput && |redact(part.tool.value.input)| > l.toolInput)
         || (mask.toolOutput && |redact(part.tool.value.output)| > l.toolOutput)
       case OtherPart => false
  }

  /** Exactly these positions, in order. */
  ghost predicate Lists(pos: seq<nat>, where: set<nat>) {
    (forall i, j :: 0 <= i < j < |pos| ==> pos[i] < pos[j]) && forall q: nat :: q in pos <==> q in where
  }

  ghost function PartsKept(parts: seq<Part>, mask: IncludeMask): set<nat> {
    set q: nat | q < |parts| && KeepsPart(parts[q], mask)
  }

  ghost function TurnsKept(turns: seq<Turn>, mask: IncludeMask): set<nat> {
    set q: nat | q < |turns| && Keeps(turns[q], mask)
  }

  /** These are the parts the mask keeps, in order, and each tells the provider's. */
  ghost predicate TellsParts(parts: seq<Part>, out: seq<Part>, pos: seq<nat>, mask: IncludeMask, l: Limits,
                             redact: string -> string)
    requires Positive(l)
  {
    && |pos| == |out| && Lists(pos, PartsKept(parts, mask))
    && forall i :: 0 <= i < |pos| && pos[i] < |parts| ==> TellsPart(parts[pos[i]], out[i], mask, l, redact)
  }

  ghost predicate TellsTurn(turn: Turn, out: Turn, mask: IncludeMask, l: Limits, redact: string -> string)
    requires Positive(l)
  {
    && out.role == Role(turn) && out.timestamp == turn.timestamp
    && exists pos :: TellsParts(turn.parts, out.parts, pos, mask, l, redact)
  }

  ghost predicate TellsTurns(turns: seq<Turn>, out: seq<Turn>, pos: seq<nat>, mask: IncludeMask, l: Limits,
                             redact: string -> string)
    requires Positive(l)
  {
    && |pos| == |out| && Lists(pos, TurnsKept(turns, mask))
    && forall i :: 0 <= i < |pos| && pos[i] < |turns| ==> TellsTurn(turns[pos[i]], out[i], mask, l, redact)
  }

  lemma ListsOneMore(pos: seq<nat>, where: set<nat>, n: nat)
    requires Lists(pos, where) && forall q :: q in where ==> q < n
    ensures Lists(pos + [n], where + {n})
  {
    forall q: nat ensures q in pos + [n] <==> q in where + {n} {}
    forall i | 0 <= i < |pos| ensures pos[i] < n { assert pos[i] in pos; }
  }

  /* Parts. */

  lemma PartTells(part: Part, mask: IncludeMask, l: Limits, redact: string -> string)
    requires Positive(l)
    ensures var out := NormalPart(part, mask, l, redact);
      |out| == (if KeepsPart(part, mask) then 1 else 0) && (out != [] ==> TellsPart(part, out[0], mask, l, redact))
    ensures CutPart(part, mask, l, redact) <==> Overlong(part, mask, l, redact)
  {
  }

  lemma PartsTellMore(init: seq<Part>, last: Part, out: seq<Part>, pos: seq<nat>, mask: IncludeMask, l: Limits,
                      redact: string -> string)
    requires Positive(l) && TellsParts(init, out, pos, mask, l, redact)
    ensures var more := NormalPart(last, mask, l, redact);
      TellsParts(init + [last], out + more, pos + (if more == [] then [] else [|init|]), mask, l, redact)
  {
    PartTells(last, mask, l, redact);
    var (parts, more) := (init + [last], NormalPart(last, mask, l, redact));
    assert forall q :: 0 <= q < |init| ==> parts[q] == init[q];
    forall i | 0 <= i < |pos| ensures pos[i] < |init| { assert pos[i] in pos; }
    if more == [] {
      assert PartsKept(parts, mask) == PartsKept(init, mask);
      assert out + more == out && pos + [] == pos;
    } else {
      assert PartsKept(parts, mask) == PartsKept(init, mask) + {|init|};
      ListsOneMore(pos, PartsKept(init, mask), |init|);
    }
  }

  lemma {:induction false} PartsTell(parts: seq<Part>, mask: IncludeMask, l: Limits, redact: string -> string)
    returns (pos: seq<nat>)
    requires Positive(l)
    ensures TellsParts(parts, NormalParts(parts, mask, l, redact), pos, mask, l, redact)
  {
    if parts == [] {
      pos := [];
    } else {
      var (init, last) := (parts[..|parts| - 1], parts[|parts| - 1]);
      pos := PartsTell(init, mask, l, redact);
      PartsTellMore(init, last, NormalParts(init, mask, l, redact), pos, mask, l, redact);
      assert parts == init + [last];
      pos := pos + if NormalPart(last, mask, l, redact) == [] then [] else [|init|];
    }
  }

  lemma {:induction false} PartsCutIff(parts: seq<Part>, mask: IncludeMask, l: Limits, redact: string -> string)
    requires Positive(l)
    ensures CutParts(parts, mask, l, redact) <==> exists part <- parts :: Overlong(part, mask, l, redact)
  {
    if parts == [] {
    } else {
      var (init, last) := (parts[..|parts| - 1], parts[|parts| - 1]);
      assert parts == init + [last];
      PartsCutIff(init, mask, l, redact);
      PartTells(last, mask, l, redact);
    }
  }

  /* Turns. */

  lemma TurnTells(turn: Turn, mask: IncludeMask, l: Limits, redact: string -> string)
    requires Positive(l)
    ensures var out := NormalTurn(turn, mask, l, redact);
      |out| == (if Keeps(turn, mask) then 1 else 0) && (out != [] ==> TellsTurn(turn, out[0], mask, l, redact))
  {
    KeptIff(turn, mask, l, redact);
    var pos := PartsTell(turn.parts, mask, l, redact);
  }

  lemma TurnsTellMore(init: seq<Turn>, last: Turn, out: seq<Turn>, pos: seq<nat>, mask: IncludeMask, l: Limits,
                      redact: string -> string)
    requires Positive(l) && TellsTurns(init, out, pos, mask, l, redact)
    ensures var more := NormalTurn(last, mask, l, redact);
      TellsTurns(init + [last], out + more, pos + (if more == [] then [] else [|init|]), mask, l, redact)
  {
    TurnTells(last, mask, l, redact);
    var (turns, more) := (init + [last], NormalTurn(last, mask, l, redact));
    assert forall q :: 0 <= q < |init| ==> turns[q] == init[q];
    forall i | 0 <= i < |pos| ensures pos[i] < |init| { assert pos[i] in pos; }
    if more == [] {
      assert TurnsKept(turns, mask) == TurnsKept(init, mask);
      assert out + more == out && pos + [] == pos;
    } else {
      assert TurnsKept(turns, mask) == TurnsKept(init, mask) + {|init|};
      ListsOneMore(pos, TurnsKept(init, mask), |init|);
    }
  }

  lemma {:induction false} TurnsTell(turns: seq<Turn>, mask: IncludeMask, l: Limits, redact: string -> string)
    returns (pos: seq<nat>)
    requires Positive(l)
    ensures TellsTurns(turns, NormalTurns(turns, mask, l, redact), pos, mask, l, redact)
  {
    if turns == [] {
      pos := [];
    } else {
      var (init, last) := (turns[..|turns| - 1], turns[|turns| - 1]);
      pos := TurnsTell(init, mask, l, redact);
      TurnsTellMore(init, last, NormalTurns(init, mask, l, redact), pos, mask, l, redact);
      assert turns == init + [last];
      pos := pos + if NormalTurn(last, mask, l, redact) == [] then [] else [|init|];
    }
  }

  /** Some turn the mask lets through shows something longer than its cap. */
  ghost predicate SomeOverlong(turns: seq<Turn>, mask: IncludeMask, l: Limits, redact: string -> string) {
    exists turn <- turns, part <- turn.parts :: Visible(Role(turn), mask) && Overlong(part, mask, l, redact)
  }

  lemma {:induction false} TurnsCutIff(turns: seq<Turn>, mask: IncludeMask, l: Limits, redact: string -> string)
    requires Positive(l)
    ensures CutTurns(turns, mask, l, redact) <==> SomeOverlong(turns, mask, l, redact)
  {
    if turns == [] {
    } else {
      var (init, last) := (turns[..|turns| - 1], turns[|turns| - 1]);
      assert turns == init + [last];
      TurnsCutIff(init, mask, l, redact);
      PartsCutIff(last.parts, mask, l, redact);
    }
  }

  /* Pages. */

  /** Where a page starts: an explicit offset decides, clamped to the turns there are; without one the cursor does. */
  lemma WindowStarts(w: Window, total: nat, n: nat)
    requires n <= MAX_INT64
    ensures w.offset > 0 ==> w.Start(total) == if w.offset < total then w.offset else total
    ensures w.offset < 0 ==> w.Start(total) == 0
    ensures w.offset == 0 && w.cursor == EncodeCursor(n) ==> w.Start(total) == if n < total then n else total
    ensures w.offset == 0 && !(CURSOR_PREFIX <= TrimSpace(w.cursor)) ==> w.Start(total) == 0
  {
    Paging.CursorRoundTrip(n);
  }

  /** The part of these turns that a window asks for, and what is said of the rest. */
  ghost predicate Paged(t: Transcript, all: seq<Turn>, w: Window, out: Transcript) {
    if w.limit < 0 then out.turns == all && !out.hasMore && out.nextCursor == ""
    else if t.hasMore || t.nextCursor != "" then
      out.turns == all && out.hasMore == t.hasMore && out.nextCursor == t.nextCursor
    else
      var end := w.Start(|all|) + Paging.PageSize(w.limit);
      && out.turns == all[w.Start(|all|)..if end < |all| then end else |all|]
      && (out.hasMore <==> end < |all|)
      && out.nextCursor == if end < |all| then EncodeCursor(end) else ""
  }

  lemma PageIsPaged(t: Transcript, turns: seq<Turn>, truncated: bool, w: Window)
    requires Sliceable(t, w, |turns|)
    ensures Paged(t, turns, w, Page(t, turns, truncated, w))
  {
    var full := w.WithDefaultLimit();
    if full.limit > 0 && !t.hasMore && t.nextCursor == "" {
      Paging.EndFrom(full, full.Start(|turns|), |turns|);
    }
  }

  /** Whatever the mask, the caps and the window: a transcript holds the turns the mask keeps, in the provider's order,
      each with the parts it keeps, redacted first and capped then; of these it holds the page that was asked for; and
      it calls itself truncated exactly if the provider did or something that shows was longer than its cap. */
  lemma TranscriptTellsTheProvider(t: Transcript, mask: IncludeMask, limits: Limits, window: Window,
                                   redact: string -> string)
    requires Sliceable(t, window, |NormalTurns(t.turns, mask, limits.WithDefaults(), redact)|) && t.omitted == ""
    ensures Positive(limits.WithDefaults())
    ensures var (out, l) := (Normalize(t, mask, limits, window, redact), limits.WithDefaults());
      && out.omitted == ""
      && (exists all, pos :: TellsTurns(t.turns, all, pos, mask, l, redact) && Paged(t, all, window, out))
      && (out.truncated <==> t.truncated || SomeOverlong(t.turns, mask, l, redact))
  {
    var l := limits.WithDefaults();
    var all := NormalTurns(t.turns, mask, l, redact);
    var pos := TurnsTell(t.turns, mask, l, redact);
    TurnsCutIff(t.turns, mask, l, redact);
    PageIsPaged(t, all, t.truncated || CutTurns(t.turns, mask, l, redact), window);
  }

  /** A turn is kept when somebody said it, or the system did and the mask lets that through, and some part of it is a
      tool's or a text or reasoning that is not empty and that the mask lets through. */
  lemma TurnsThatAreKept(turn: Turn, mask: IncludeMask)
    ensures Keeps(turn, mask)
       <==> && (Role(turn) in {"user", "assistant"} || (mask.system && Role(turn) == "system"))
            && exists part <- turn.parts ::
                 || (part.kind.TextPart? && part.text != "" && mask.text)
                 || (part.kind.ReasoningPart? && part.reasoning != "" && mask.reasoning)
                 || (part.kind.ToolPart? && part.tool.Some?)
  {
    if Keeps(turn, mask) {
      var part :| part in turn.parts && KeepsPart(part, mask);
    }
    forall part | part in turn.parts && (|| (part.kind.TextPart? && part.text != "" && mask.text)
                                         || (part.kind.ReasoningPart? && part.reasoning != "" && mask.reasoning)
                                         || (part.kind.ToolPart? && part.tool.Some?))
      ensures KeepsPart(part, mask)
    {
    }
  }

  /* Roles. */

  /** The character lower-cases to this letter. */
  predicate Folds(c: char, letter: char) {
    || c == letter || c as int + 32 == letter as int
    || (letter == 'i' && c == '\U{0130}') || (letter == 'k' && c == '\U{212A}')
  }

  /** A role is recognised in any case and with any space around it. */
  lemma RolesAreFolded(turn: Turn, role: string)
    requires forall c <- role :: 'a' <= c <= 'z'
    ensures var given := TrimSpace(turn.role);
      Role(turn) == role <==> |given| == |role| && forall i :: 0 <= i < |given| ==> Folds(given[i], role[i])
  {
    var given := TrimSpace(turn.role);
    if |given| == |role| {
      forall i | 0 <= i < |given| ensures ToLower(given)[i] == role[i] <==> Folds(given[i], role[i]) {
        assert role[i] in role;
      }
    }
  }
}
