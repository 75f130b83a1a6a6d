/** internal/adapters/dialogue.go: render-ready conversation turns, whatever mask the transcript was read with. */
module Dialogue {
  import opened Options
  import opened Transcripts
  import Paging

  datatype DialogueTool = DialogueTool(name: string, status: string)

  datatype Block =
    | TextBlock(text: string, truncated: bool)
    | ReasoningBlock(reasoning: string, truncated: bool)
    | ToolBlock(tool: DialogueTool)

  datatype DialogueTurn = DialogueTurn(role: string, timestamp: int, blocks: seq<Block>)

  function BlockOf(part: Part, keepReasoning: bool): seq<Block> {
    match part.kind
    case TextPart => if part.text == "" then [] else [TextBlock(part.text, part.truncated)]
    case ReasoningPart =>
      if !keepReasoning || part.reasoning == "" then [] else [ReasoningBlock(part.reasoning, part.truncated)]
    case ToolPart =>
      if part.tool.None? then []
      else
        var tool := part.tool.value;
        [ToolBlock(DialogueTool(tool.name, if tool.status == "" then "unknown" else tool.status))]
    case OtherPart => []
  }

  function Blocks(parts: seq<Part>, keepReasoning: bool): seq<Block> {
    if parts == [] then [] else Blocks(parts[..|parts| - 1], keepReasoning) + BlockOf(parts[|parts| - 1], keepReasoning)
  }

  function TurnOf(turn: Turn, keepReasoning: bool): seq<DialogueTurn> {
    var blocks := Blocks(turn.parts, keepReasoning);
    if !Spoken(turn.role) || blocks == [] then [] else [DialogueTurn(turn.role, turn.timestamp, blocks)]
  }

  function Project(turns: seq<Turn>, keepReasoning: bool): seq<DialogueTurn> {
    if turns == [] then [] else Project(turns[..|turns| - 1], keepReasoning) + TurnOf(turns[|turns| - 1], keepReasoning)
  }

  method ProjectBlocks(parts: seq<Part>, keepReasoning: bool) returns (blocks: seq<Block>)
    ensures blocks == Blocks(parts, keepReasoning)
  {
    blocks := [];
    for i := 0 to |parts|
      invariant blocks == Blocks(parts[..i], keepReasoning)
    {
      assert parts[..i + 1][..i] == parts[..i];
      var part := parts[i];
      match part.kind {
        case TextPart =>
          if part.text != "" { blocks := blocks + [TextBlock(part.text, part.truncated)]; }
        case ReasoningPart =>
          if keepReasoning && part.reasoning != "" {
            blocks := blocks + [ReasoningBlock(part.reasoning, part.truncated)];
          }
        case ToolPart =>
          if part.tool.Some? {
            var status := part.tool.value.status;
            if status == "" { status := "unknown"; }
            blocks := blocks + [ToolBlock(DialogueTool(part.tool.value.name, status))];
          }
        case OtherPart =>
      }
    }
    assert parts[..|parts|] == parts;
  }

  lemma ProjectOneMore(turns: seq<Turn>, i: nat, keepReasoning: bool)
    requires i < |turns|
    ensures Project(turns[..i + 1], keepReasoning)
         == Project(turns[..i], keepReasoning) + TurnOf(turns[i], keepReasoning)
  {
    assert turns[..i + 1][..i] == turns[..i];
  }

  /** projectDialogue; the two exported wrappers pass false and true. */
  method ProjectDialogue(t: Transcript, keepReasoning: bool) returns (turns: seq<DialogueTurn>)
    ensures turns == Project(t.turns, keepReasoning)
  {
    turns := [];
    for i := 0 to |t.turns|
      invariant turns == Project(t.turns[..i], keepReasoning)
    {
      ProjectOneMore(t.turns, i, keepReasoning);
      var turn := t.turns[i];
      if turn.role != "user" && turn.role != "assistant" { continue; }
      var blocks := ProjectBlocks(turn.parts, keepReasoning);
      if |blocks| == 0 { continue; }
      turns := turns + [DialogueTurn(turn.role, turn.timestamp, blocks)];
    }
    assert t.turns[..|t.turns|] == t.turns;
  }

  /** The conversation read straight off the provider's parts: no mask, no intermediate transcript. */
  function Spoke(part: Part, limits: Limits, redact: string -> string, withReasoning: bool): seq<Block> {
    match part.kind
    case TextPart =>
      var (text, cut) := TruncateRunes(redact(part.text), limits.text);
      if part.text == "" || text == "" then [] else [TextBlock(text, cut)]
    case ReasoningPart =>
      var (reasoning, cut) := TruncateRunes(redact(part.reasoning), limits.reasoning);
      if !withReasoning || part.reasoning == "" || reasoning == "" then [] else [ReasoningBlock(reasoning, cut)]
    case ToolPart =>
      if part.tool.None? then []
      else
        var tool := part.tool.value;
        [ToolBlock(DialogueTool(tool.name, if tool.status == "" then "unknown" else tool.status))]
    case OtherPart => []
  }

  function SpokeAll(parts: seq<Part>, limits: Limits, redact: string -> string, withReasoning: bool): seq<Block> {
    if parts == [] then []
    else
      SpokeAll(parts[..|parts| - 1], limits, redact, withReasoning)
      + Spoke(parts[|parts| - 1], limits, redact, withReasoning)
  }

  function Conversation(turns: seq<Turn>, limits: Limits, redact: string -> string, withReasoning: bool)
    : seq<DialogueTurn>
  {
    if turns == [] then []
    else
      var turn := turns[|turns| - 1];
      var blocks := SpokeAll(turn.parts, limits, redact, withReasoning);
      Conversation(turns[..|turns| - 1], limits, redact, withReasoning)
      + if Spoken(Role(turn)) && blocks != [] then [DialogueTurn(Role(turn), turn.timestamp, blocks)] else []
  }

  lemma {:induction false} BlocksConcat(a: seq<Part>, b: seq<Part>, keepReasoning: bool)
    ensures Blocks(a + b, keepReasoning) == Blocks(a, keepReasoning) + Blocks(b, keepReasoning)
  {
    if b == [] {
      assert a + b == a;
    } else {
      assert (a + b)[..|a + b| - 1] == a + b[..|b| - 1];
      BlocksConcat(a, b[..|b| - 1], keepReasoning);
    }
  }

  lemma {:induction false} ProjectConcat(a: seq<Turn>, b: seq<Turn>, keepReasoning: bool)
    ensures Project(a + b, keepReasoning) == Project(a, keepReasoning) + Project(b, keepReasoning)
  {
    if b == [] {
      assert a + b == a;
    } else {
      assert (a + b)[..|a + b| - 1] == a + b[..|b| - 1];
      ProjectConcat(a, b[..|b| - 1], keepReasoning);
    }
  }

  lemma PartSurvives(part: Part, mask: IncludeMask, limits: Limits, redact: string -> string, withReasoning: bool)
    requires mask.text && (withReasoning ==> mask.reasoning)
    ensures Blocks(NormalPart(part, mask, limits, redact), withReasoning) == Spoke(part, limits, redact, withReasoning)
  {
    var kept := NormalPart(part, mask, limits, redact);
    if kept != [] {
      assert kept[..0] == [];
      assert Blocks(kept, withReasoning) == [] + BlockOf(kept[0], withReasoning);
    }
  }

  lemma {:induction false} PartsSurvive(parts: seq<Part>, mask: IncludeMask, limits: Limits, redact: string -> string,
                                        withReasoning: bool)
    requires mask.text && (withReasoning ==> mask.reasoning)
    ensures Blocks(NormalParts(parts, mask, limits, redact), withReasoning)
         == SpokeAll(parts, limits, redact, withReasoning)
  {
    if parts == [] {
    } else {
      var init, last := parts[..|parts| - 1], parts[|parts| - 1];
      PartsSurvive(init, mask, limits, redact, withReasoning);
      PartSurvives(last, mask, limits, redact, withReasoning);
      BlocksConcat(NormalParts(init, mask, limits, redact), NormalPart(last, mask, limits, redact), withReasoning);
    }
  }

  lemma TurnSurvives(turn: Turn, mask: IncludeMask, limits: Limits, redact: string -> string, withReasoning: bool)
    requires mask.text && (withReasoning ==> mask.reasoning)
    ensures var blocks := SpokeAll(turn.parts, limits, redact, withReasoning);
      Project(NormalTurn(turn, mask, limits, redact), withReasoning)
      == if Spoken(Role(turn)) && blocks != [] then [DialogueTurn(Role(turn), turn.timestamp, blocks)] else []
  {
    PartsSurvive(turn.parts, mask, limits, redact, withReasoning);
    var kept := NormalTurn(turn, mask, limits, redact);
    if kept != [] {
      assert kept[..0] == [];
      assert Project(kept, withReasoning) == [] + TurnOf(kept[0], withReasoning);
    }
  }

  lemma {:induction false} TurnsSurvive(turns: seq<Turn>, mask: IncludeMask, limits: Limits, redact: string -> string,
                                        withReasoning: bool)
    requires mask.text && (withReasoning ==> mask.reasoning)
    ensures Project(NormalTurns(turns, mask, limits, redact), withReasoning)
         == Conversation(turns, limits, redact, withReasoning)
  {
    if turns == [] {
    } else {
      var init, turn := turns[..|turns| - 1], turns[|turns| - 1];
      TurnsSurvive(init, mask, limits, redact, withReasoning);
      TurnSurvives(turn, mask, limits, redact, withReasoning);
      ProjectConcat(NormalTurns(init, mask, limits, redact), NormalTurn(turn, mask, limits, redact), withReasoning);
    }
  }

  /** Parts that were neither redacted nor cut project to what was said in them. */
  lemma {:induction false} RawPartsSpeak(parts: seq<Part>, withReasoning: bool)
    requires forall part <- parts :: !part.truncated
    ensures Blocks(parts, withReasoning) == SpokeAll(parts, Limits(0, 0, 0, 0), s => s, withReasoning)
  {
    if parts == [] {
    } else {
      var (init, last) := (parts[..|parts| - 1], parts[|parts| - 1]);
      assert last in parts;
      RawPartsSpeak(init, withReasoning);
    }
  }

  /** Over the whole window a dialogue is the provider's own conversation, redacted and capped: masks that
      keep different turns and parts give the same one, as long as they let text through. */
  lemma {:induction false} DialogueIsTheConversation(t: Transcript, mask: IncludeMask, limits: Limits,
                                                     redact: string -> string, withReasoning: bool)
    requires t.omitted == "" && mask.text && (withReasoning ==> mask.reasoning)
    requires Sliceable(t, WHOLE, |NormalTurns(t.turns, mask, limits.WithDefaults(), redact)|)
    ensures Project(Normalize(t, mask, limits, WHOLE, redact).turns, withReasoning)
         == Conversation(t.turns, limits.WithDefaults(), redact, withReasoning)
  {
    TurnsSurvive(t.turns, mask, limits.WithDefaults(), redact, withReasoning);
  }

  /** What a view over the whole window shows of a transcript. */
  function View(t: Transcript, mask: IncludeMask, limits: Limits, redact: string -> string, withReasoning: bool)
    : seq<DialogueTurn>
    requires |t.turns| <= 0x7FFF_FFFF_FFFF_FFFF
  {
    Project(Normalize(t, mask, limits, WHOLE, redact).turns, withReasoning)
  }

  lemma ViewOfOmitted(t: Transcript, mask: IncludeMask, limits: Limits, redact: string -> string, withReasoning: bool)
    requires |t.turns| <= 0x7FFF_FFFF_FFFF_FFFF && t.omitted != ""
    ensures View(t, mask, limits, redact, withReasoning) == []
  {
  }

  lemma ViewsAgree(t: Transcript, a: IncludeMask, b: IncludeMask, limits: Limits, redact: string -> string,
                   withReasoning: bool)
    requires |t.turns| <= 0x7FFF_FFFF_FFFF_FFFF && a.text && b.text && (withReasoning ==> a.reasoning && b.reasoning)
    ensures View(t, a, limits, redact, withReasoning) == View(t, b, limits, redact, withReasoning)
  {
    if t.omitted == "" {
      DialogueIsTheConversation(t, a, limits, redact, withReasoning);
      DialogueIsTheConversation(t, b, limits, redact, withReasoning);
    } else {
      ViewOfOmitted(t, a, limits, redact, withReasoning);
      ViewOfOmitted(t, b, limits, redact, withReasoning);
    }
  }

  /** The dialogue preset keeps no reasoning, so both wrappers show the same of it. */
  lemma PlainView(t: Transcript, limits: Limits, redact: string -> string)
    requires |t.turns| <= 0x7FFF_FFFF_FFFF_FFFF
    ensures View(t, PRESET_DIALOGUE, limits, redact, true) == View(t, PRESET_DIALOGUE, limits, redact, false)
  {
    PlainHasNoReasoning(t.turns, limits.WithDefaults(), redact);
    NoThinking(Normalize(t, PRESET_DIALOGUE, limits, WHOLE, redact).turns);
  }

  /** The three presets that carry text agree on the dialogue, and the two that carry reasoning on the
      dialogue with it; an omitted transcript is empty under each. */
  lemma PresetsAgree(t: Transcript, limits: Limits, redact: string -> string)
    requires |t.turns| <= 0x7FFF_FFFF_FFFF_FFFF
    ensures View(t, PRESET_DIALOGUE, limits, redact, false)
         == View(t, PRESET_DIALOGUE_WITH_REASONING, limits, redact, false)
    ensures View(t, PRESET_DIALOGUE, limits, redact, false) == View(t, PRESET_FULL, limits, redact, false)
    ensures View(t, PRESET_DIALOGUE_WITH_REASONING, limits, redact, true) == View(t, PRESET_FULL, limits, redact, true)
    ensures View(t, PRESET_DIALOGUE, limits, redact, true) == View(t, PRESET_DIALOGUE, limits, redact, false)
  {
    ViewsAgree(t, PRESET_DIALOGUE, PRESET_DIALOGUE_WITH_REASONING, limits, redact, false);
    ViewsAgree(t, PRESET_DIALOGUE, PRESET_FULL, limits, redact, false);
    ViewsAgree(t, PRESET_DIALOGUE_WITH_REASONING, PRESET_FULL, limits, redact, true);
    PlainView(t, limits, redact);
  }

  ghost predicate Plain(turns: seq<Turn>) {
    forall i, j :: 0 <= i < |turns| && 0 <= j < |turns[i].parts| ==> !turns[i].parts[j].kind.ReasoningPart?
  }

  lemma {:induction false} PlainParts(parts: seq<Part>, limits: Limits, redact: string -> string)
    ensures forall j :: 0 <= j < |NormalParts(parts, PRESET_DIALOGUE, limits, redact)| ==>
      !NormalParts(parts, PRESET_DIALOGUE, limits, redact)[j].kind.ReasoningPart?
  {
    if parts == [] {
    } else {
      PlainParts(parts[..|parts| - 1], limits, redact);
    }
  }

  lemma {:induction false} PlainHasNoReasoning(turns: seq<Turn>, limits: Limits, redact: string -> string)
    ensures Plain(NormalTurns(turns, PRESET_DIALOGUE, limits, redact))
  {
    if turns == [] {
    } else {
      PlainHasNoReasoning(turns[..|turns| - 1], limits, redact);
      PlainParts(turns[|turns| - 1].parts, limits, redact);
    }
  }

  lemma {:induction false} NoThinkingBlocks(parts: seq<Part>)
    requires forall j :: 0 <= j < |parts| ==> !parts[j].kind.ReasoningPart?
    ensures Blocks(parts, true) == Blocks(parts, false)
  {
    if parts == [] {
    } else {
      NoThinkingBlocks(parts[..|parts| - 1]);
    }
  }

  lemma {:induction false} NoThinking(turns: seq<Turn>)
    requires Plain(turns)
    ensures Project(turns, true) == Project(turns, false)
  {
    if turns == [] {
    } else {
      NoThinking(turns[..|turns| - 1]);
      NoThinkingBlocks(turns[|turns| - 1].parts);
    }
  }

  function Thought(reasoning: string): Turn { Turn("assistant", 0, [Part(ReasoningPart, "", reasoning, None, false)]) }

  function Said(text: string): Turn { Turn("user", 1, [Part(TextPart, text, "", None, false)]) }

  lemma KnownRoles()
    ensures Role(Thought("x")) == "assistant" && Role(Said("x")) == "user"
  {
    assert ToLower("assistant") == "assistant" && ToLower("user") == "user";
  }

  lemma SinglePart(part: Part, mask: IncludeMask, limits: Limits, redact: string -> string)
    ensures NormalParts([part], mask, limits, redact) == NormalPart(part, mask, limits, redact)
    ensures Blocks([part], false) == BlockOf(part, false)
  {
    assert [part][..0] == [];
    assert NormalParts([part], mask, limits, redact) == [] + NormalPart(part, mask, limits, redact);
    assert Blocks([part], false) == [] + BlockOf(part, false);
  }

  lemma KeptOfTwo(thought: string, said: string, mask: IncludeMask, limits: Limits, redact: string -> string)
    requires 0 < |thought| <= limits.reasoning && 0 < |said| <= limits.text && mask.text
    requires redact(thought) == thought && redact(said) == said
    ensures NormalTurns([Thought(thought), Said(said)], mask, limits, redact)
         == (if mask.reasoning then [Thought(thought)] else []) + [Said(said)]
  {
    KnownRoles();
    SinglePart(Thought(thought).parts[0], mask, limits, redact);
    SinglePart(Said(said).parts[0], mask, limits, redact);
    var both := [Thought(thought), Said(said)];
    assert both[..1] == [Thought(thought)] && both[..1][..0] == [];
    assert NormalTurn(Said(said), mask, limits, redact) == [Said(said)];
  }

  lemma ProjectionOfOne(thought: string, said: string, redact: string -> string, limits: Limits)
    requires said != ""
    ensures Project([Said(said)], false) == [DialogueTurn("user", 1, [TextBlock(said, false)])]
    ensures Project([Thought(thought)], false) == []
  {
    SinglePart(Said(said).parts[0], PRESET_FULL, limits, redact);
    SinglePart(Thought(thought).parts[0], PRESET_FULL, limits, redact);
    assert [Said(said)][..0] == [] && [Thought(thought)][..0] == [];
  }

  /** The first page of one turn. */
  lemma FirstPage(t: Transcript, mask: IncludeMask, limits: Limits, redact: string -> string)
    requires Paging.Plain(t) && Paging.Kept(t, mask, limits, redact) != []
    ensures Sliceable(t, Window(0, 1, ""), |Paging.Kept(t, mask, limits, redact)|)
    ensures Normalize(t, mask, limits, Window(0, 1, ""), redact).turns == [Paging.Kept(t, mask, limits, redact)[0]]
  {
    Paging.PageOfWalk(t, mask, limits, 1, redact, 0);
    var kept := Paging.Kept(t, mask, limits, redact);
    assert kept[0..1] == [kept[0]];
  }

  /** The whole window is needed: a page counts the turns its mask kept, so the first page of one transcript
      shows the conversation under one preset and nothing of it under another. */
  lemma {:induction false} PagesDependOnTheMask(thought: string, said: string, redact: string -> string)
    requires 0 < |thought| <= 16000 && 0 < |said| <= 8000 && redact(thought) == thought && redact(said) == said
    ensures var t := Transcript([Thought(thought), Said(said)], "", false, false, "");
      var (limits, first) := (Limits(0, 0, 0, 0), Window(0, 1, ""));
      && Project(Normalize(t, PRESET_DIALOGUE, limits, first, redact).turns, false)
         == [DialogueTurn("user", 1, [TextBlock(said, false)])]
      && Project(Normalize(t, PRESET_DIALOGUE_WITH_REASONING, limits, first, redact).turns, false) == []
  {
    var l := Limits(0, 0, 0, 0).WithDefaults();
    KeptOfTwo(thought, said, PRESET_DIALOGUE, l, redact);
    KeptOfTwo(thought, said, PRESET_DIALOGUE_WITH_REASONING, l, redact);
    ProjectionOfOne(thought, said, redact, l);
    var t := Transcript([Thought(thought), Said(said)], "", false, false, "");
    FirstPage(t, PRESET_DIALOGUE, Limits(0, 0, 0, 0), redact);
    FirstPage(t, PRESET_DIALOGUE_WITH_REASONING, Limits(0, 0, 0, 0), redact);
  }
}
