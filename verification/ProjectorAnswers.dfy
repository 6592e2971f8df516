/**
  What the live projector (Projector) sends for each frame, read off the frames that came
  before: which start opens a card, which stream's result settles it, with which text,
  and what the end of the run still owes.
*/
module ProjectorAnswers {
  import opened Common
  import opened Projector
  import opened ProjectorRuns

  // ---- the history of a call -------------------------------------------------------

  function StartedName(fr: Frame): string {
    match fr
    case Tool(t) => t.name
    case Item(it) => it.name
    case _ => ""
  }

  /** The tool name the first start of the call carried. */
  function NameOf(frames: seq<Frame>, id: string): string {
    if frames == [] then ""
    else
      var before, fr := frames[..|frames| - 1], frames[|frames| - 1];
      if StartSeen(before, id) || !Starts(fr, id) then NameOf(before, id) else StartedName(fr)
  }

  /** Its complete output arrives on the command_output stream. */
  predicate RunsCommands(name: string) {
    name in {"exec", "bash"} || exists k :: 0 <= k <= |name| && name == name[..k] + "-exec"
  }

  /** A card is on the screen and waits for its result. */
  predicate Waiting(frames: seq<Frame>, id: string) {
    StartSeen(frames, id) && NameOf(frames, id) != "ask_user" && Results(Log(frames), id) == 0
  }

  /** What a result frame says: its text, or for an error without text the error. */
  function Reported(t: AgentTool): string {
    if t.isError && t.resultText == "" then t.errorText else t.resultText
  }

  /** The last result a waiting command call was given, kept for the end of the run. */
  function Kept(frames: seq<Frame>, id: string): string {
    if frames == [] then ""
    else
      var before, fr := frames[..|frames| - 1], frames[|frames| - 1];
      if fr.Tool? && fr.tool.phase == Result && fr.tool.callId == id && Waiting(before, id) && RunsCommands(NameOf(before, id))
      then Reported(fr.tool)
      else Kept(before, id)
  }

  function Accumulated(frames: seq<Frame>, id: string): string {
    Capped(Base(frames, id), Fragments(frames, id))
  }

  // ---- the state says the same -------------------------------------------------------

  function CallOf(st: State, id: string): LiveCall {
    if id in st.calls then st.calls[id] else FreshCall
  }

  lemma CommandToolsRunCommands(name: string)
    ensures IsCommandTool(name) <==> RunsCommands(name)
  {
    if |name| >= 5 && name[|name| - 5..] == "-exec" {
      assert name == name[..|name| - 5] + "-exec";
    }
    if k :| 0 <= k <= |name| && name == name[..k] + "-exec" {
      assert |name| == k + 5 && name[k..] == "-exec";
    }
  }

  predicate IsResultFor(fr: Frame, id: string) {
    fr.Tool? && fr.tool.phase == Result && fr.tool.callId == id
  }

  lemma StepName(st: State, fr: Frame, id: string)
    requires id != ""
    ensures CallOf(Step(st, fr).0, id).name == if !StartedIn(st, id) && Starts(fr, id) then StartedName(fr) else CallOf(st, id).name
  {
    match fr
    case Tool(t) => ToolName(st, t, id);
    case _ =>
  }

  lemma ToolName(st: State, t: AgentTool, id: string)
    requires id != ""
    ensures CallOf(ToolStep(st, t).0, id).name == if !StartedIn(st, id) && Starts(Tool(t), id) then t.name else CallOf(st, id).name
  {
  }

  lemma StepKept(st: State, fr: Frame, id: string)
    requires id != ""
    ensures CallOf(Step(st, fr).0, id).pendingResult ==
      if IsResultFor(fr, id) && Owes(CallOf(st, id)) && IsCommandTool(CallOf(st, id).name) then Reported(fr.tool)
      else CallOf(st, id).pendingResult
  {
    match fr
    case Tool(t) => ToolKept(st, t, id);
    case _ =>
  }

  lemma ToolKept(st: State, t: AgentTool, id: string)
    requires id != ""
    ensures CallOf(ToolStep(st, t).0, id).pendingResult ==
      if IsResultFor(Tool(t), id) && Owes(CallOf(st, id)) && IsCommandTool(CallOf(st, id).name) then Reported(t)
      else CallOf(st, id).pendingResult
  {
  }

  /** Everything the projector remembers of a call, in terms of the frames. */
  ghost predicate Remembers(frames: seq<Frame>, id: string) {
    var c := CallOf(Run(frames), id);
    && c.started == StartSeen(frames, id) && c.name == NameOf(frames, id)
    && Owes(c) == Waiting(frames, id)
    && c.pendingResult == Kept(frames, id) && c.output == Accumulated(frames, id)
  }

  lemma CardsAgree(frames: seq<Frame>, id: string)
    requires id != ""
    ensures var c := CallOf(Run(frames), id);
      && c.started == StartSeen(frames, id) && c.output == Accumulated(frames, id)
      && (c.resultOut <==> Results(Log(frames), id) > 0) && (c.suppressed <==> c.started && c.name == "ask_user")
  {
    RunCardInv(frames);
    assert CardOk(Run(frames), Log(frames), id);
    StartedIffStartSeen(frames, id);
    if id in Run(frames).calls {
      OutputIsCappedConcatenation(frames, id);
    } else {
      NothingBeforeFirstMention(frames, id);
    }
  }

  lemma {:induction false} RunRemembers(frames: seq<Frame>, id: string)
    requires id != ""
    ensures Remembers(frames, id)
  {
    CardsAgree(frames, id);
    if frames != [] {
      var before, fr := frames[..|frames| - 1], frames[|frames| - 1];
      RunRemembers(before, id);
      StepName(Run(before), fr, id);
      StepKept(Run(before), fr, id);
      CommandToolsRunCommands(NameOf(before, id));
    }
  }

  lemma LogSnoc(frames: seq<Frame>, fr: Frame)
    ensures Log(frames + [fr]) == Log(frames) + Step(Run(frames), fr).1
  {
    assert (frames + [fr])[..|frames|] == frames;
  }

  // ---- what each frame sends -----------------------------------------------------------

  /** The arguments shown with a card: the JSON of a tool start, the meta of an item, the title when there is none. */
  function Described(fr: Frame): string {
    match fr
    case Tool(t) => if t.args == "" then t.title else t.args
    case Item(it) => if it.meta == "" then it.title else it.meta
    case _ => ""
  }

  lemma StartSends(st: State, fr: Frame, id: string)
    requires id != "" && Starts(fr, id) && (CallOf(st, id).suppressed ==> CallOf(st, id).started)
    ensures Step(st, fr).1 ==
      if CallOf(st, id).started || StartedName(fr) == "ask_user" then [] else [ToolCall(StartedName(fr), id, Described(fr))]
  {
    if fr.Tool? {
      assert ToolStep(st, fr.tool).1 == StartStep(st, id, fr.tool.name, Described(fr)).1;
    } else {
      assert ItemStep(st, fr.item).1 == StartStep(st, id, fr.item.name, Described(fr)).1;
    }
  }

  /** The first start of a call opens its card, unless it asks the user. */
  lemma StartOpensTheCard(frames: seq<Frame>, fr: Frame, id: string)
    requires id != "" && Starts(fr, id)
    ensures Log(frames + [fr]) == Log(frames) +
      if StartSeen(frames, id) || StartedName(fr) == "ask_user" then [] else [ToolCall(StartedName(fr), id, Described(fr))]
  {
    LogSnoc(frames, fr);
    CardsAgree(frames, id);
    StartSends(Run(frames), fr, id);
  }

  /** A result frame settles a waiting card at once, except for commands, whose output is still to come. */
  lemma ResultSettlesAllButCommands(frames: seq<Frame>, t: AgentTool)
    requires t.phase == Result && t.callId != ""
    ensures Log(frames + [Tool(t)]) == Log(frames) +
      if Waiting(frames, t.callId) && !RunsCommands(NameOf(frames, t.callId))
      then [ToolResult(NameOf(frames, t.callId), t.callId, Reported(t))] else []
  {
    LogSnoc(frames, Tool(t));
    RunRemembers(frames, t.callId);
    CommandToolsRunCommands(NameOf(frames, t.callId));
  }

  /** The end of a command's output settles its card: with that output, else what accumulated, else the summary. */
  lemma OutputEndSettles(frames: seq<Frame>, o: AgentOutput)
    requires o.callId != ""
    ensures Log(frames + [CommandOutput(o)]) == Log(frames) +
      if o.ended && Waiting(frames, o.callId) then [ToolResult(NameOf(frames, o.callId), o.callId, Ended(frames, o))] else []
  {
    LogSnoc(frames, CommandOutput(o));
    RunRemembers(frames, o.callId);
  }

  function Ended(frames: seq<Frame>, o: AgentOutput): string {
    if o.output != "" then o.output
    else if Accumulated(frames, o.callId) != "" then Accumulated(frames, o.callId)
    else o.summary
  }

  /** The frame ends the run: final, aborted or error. */
  predicate EndsRun(fr: Frame) {
    fr.Chat? && (fr.chat.Final? || fr.chat.Failed?)
  }

  /** Whatever still waits is settled when the run ends: with the result it was given, else what accumulated. */
  lemma EndSettlesWhatWaits(frames: seq<Frame>, last: Frame, id: string, text: string)
    requires EndsRun(last) && id != ""
    ensures ToolResult(NameOf(frames, id), id, text) in Log(frames + [last])[|Log(frames)|..] <==>
      Waiting(frames, id) && text == if Kept(frames, id) != "" then Kept(frames, id) else Accumulated(frames, id)
  {
    LogSnoc(frames, last);
    RunRemembers(frames, id);
    RunCardInv(frames);
    var st := Run(frames);
    var sent := Step(st, last).1;
    assert Log(frames + [last])[|Log(frames)|..] == sent;
    FlushMember(st.calls, st.order, id, NameOf(frames, id), text);
    EndSendsTheFlush(st, last, ToolResult(NameOf(frames, id), id, text));
  }

  lemma EndSendsTheFlush(st: State, last: Frame, e: Event)
    requires EndsRun(last) && e.ToolResult?
    ensures e in Step(st, last).1 <==> e in Flush(st.calls, st.order)
  {
  }

  lemma {:induction false} FlushMember(calls: map<string, LiveCall>, ids: seq<string>, id: string, name: string, text: string)
    ensures ToolResult(name, id, text) in Flush(calls, ids) <==>
      id in ids && id in calls && Owes(calls[id]) && name == calls[id].name
      && text == if calls[id].pendingResult != "" then calls[id].pendingResult else calls[id].output
  {
    if ids != [] {
      FlushMember(calls, ids[..|ids| - 1], id, name, text);
      assert id in ids <==> id in ids[..|ids| - 1] || id == ids[|ids| - 1];
    }
  }

  /** The ids among these whose card waits. */
  function WaitingIds(frames: seq<Frame>, ids: seq<string>): seq<string> {
    if ids == [] then []
    else
      var id := ids[|ids| - 1];
      WaitingIds(frames, ids[..|ids| - 1]) + if Waiting(frames, id) then [id] else []
  }

  lemma {:induction false} OwingIdsWait(frames: seq<Frame>, ids: seq<string>)
    requires forall id :: id in ids ==> id != "" && id in Run(frames).calls
    ensures OwingIds(Run(frames).calls, ids) == WaitingIds(frames, ids)
  {
    if ids != [] {
      var before := ids[..|ids| - 1];
      forall id | id in before ensures id in ids {
        var k :| 0 <= k < |before| && before[k] == id;
        assert ids[k] == id;
      }
      assert ids[|ids| - 1] in ids;
      OwingIdsWait(frames, ids[..|ids| - 1]);
      RunRemembers(frames, ids[|ids| - 1]);
    }
  }

  /** What the end sends: one result for each waiting card, by first appearance, and then at most the text of a silent run. */
  lemma EndSettlesInOrder(frames: seq<Frame>, last: Frame) returns (results: seq<Event>, tail: seq<Event>)
    requires EndsRun(last)
    ensures Log(frames + [last]) == Log(frames) + results + tail
    ensures (forall e :: e in results ==> e.ToolResult?) && CallIds(results) == WaitingIds(frames, FirstSeen(frames))
    ensures tail == if last.chat.Final? && !Spoke(frames, last.chat.runId) && Snapshot(last.chat) != ""
                    then [MessageDelta(Snapshot(last.chat))] else []
  {
    LogSnoc(frames, last);
    DeferredResultsFollowFirstAppearance(frames);
    NoEmptyId(frames);
    OwingIdsWait(frames, FirstSeen(frames));
    BrowserTextIsTheChatFold(frames);
    var st := Run(frames);
    results := Flush(st.calls, st.order);
    tail := Step(st, last).1[|results|..];
    if last.chat.Final? {
      SnapshotIsFinalText(last.chat);
    }
  }

  /** No other frame ends the run. */
  lemma OnlyTheEndIsTerminal(frames: seq<Frame>, fr: Frame)
    ensures Step(Run(frames), fr).2 <==> EndsRun(fr)
  {
  }

  /** The frame concerns a card: a start, a result, or the end of a command's output. */
  predicate ConcernsCards(fr: Frame) {
    || (fr.Tool? && fr.tool.callId != "" && (fr.tool.phase == Start || fr.tool.phase == Result))
    || (fr.Item? && !fr.item.preamble && fr.item.callId != "" && fr.item.toolStart)
    || (fr.CommandOutput? && fr.out.callId != "" && fr.out.ended)
  }

  /** Every other frame says nothing about cards. */
  lemma OtherFramesSayNothingAboutCards(frames: seq<Frame>, fr: Frame, e: Event)
    requires !EndsRun(fr) && !ConcernsCards(fr) && e in Log(frames + [fr])[|Log(frames)|..]
    ensures !e.ToolCall? && !e.ToolResult?
  {
    LogSnoc(frames, fr);
    assert Log(frames + [fr])[|Log(frames)|..] == Step(Run(frames), fr).1;
    OtherStepsSayNothing(Run(frames), fr, e);
  }

  lemma OtherStepsSayNothing(st: State, fr: Frame, e: Event)
    requires !EndsRun(fr) && !ConcernsCards(fr) && e in Step(st, fr).1
    ensures !e.ToolCall? && !e.ToolResult?
  {
  }

  // ---- narration -------------------------------------------------------------------------

  /** The number a decimal string stands for. */
  function ReadDecimal(s: string): int {
    if s == "" then 0 else 10 * ReadDecimal(s[..|s| - 1]) + (s[|s| - 1] as int - '0' as int)
  }

  lemma {:induction false} ItoaReadsBack(n: nat)
    ensures Itoa(n) != "" && ReadDecimal(Itoa(n)) == n
  {
    var s := Itoa(n);
    if n >= 10 {
      ItoaReadsBack(n / 10);
      assert s[..|s| - 1] == Itoa(n / 10);
    } else {
      assert s[..|s| - 1] == "";
    }
  }

  /** The calls started so far. */
  function StartedCalls(frames: seq<Frame>): set<string> {
    set id | id in FirstSeen(frames) && StartSeen(frames, id)
  }

  lemma StartedCallsAreStarted(frames: seq<Frame>)
    ensures StartedIds(Run(frames)) == StartedCalls(frames)
  {
    DeferredResultsFollowFirstAppearance(frames);
    NoEmptyId(frames);
    forall id | id in FirstSeen(frames) ensures id in StartedIds(Run(frames)) <==> StartSeen(frames, id) {
      StartedIffStartSeen(frames, id);
    }
  }

  /** A preamble is shown under its own id, or under the number of the block: one more than the calls started so far. */
  lemma PreambleIsNarrated(frames: seq<Frame>, it: AgentItem)
    requires it.preamble
    ensures it.text == "" ==> Log(frames + [Item(it)]) == Log(frames)
    ensures it.text != "" ==> |Log(frames + [Item(it)])| == |Log(frames)| + 1 && Log(frames) <= Log(frames + [Item(it)])
    ensures it.text != "" ==>
      var e := Log(frames + [Item(it)])[|Log(frames)|];
      && e.Narration? && e.text == it.text
      && if it.itemId != "" then e.blockId == it.itemId else ReadDecimal(e.blockId) == 1 + |StartedCalls(frames)|
  {
    LogSnoc(frames, Item(it));
    BlockCountsStartedCalls(frames);
    StartedCallsAreStarted(frames);
    ItoaReadsBack(Run(frames).block);
  }
}
