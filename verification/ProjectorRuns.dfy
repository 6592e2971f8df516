/**
  What the live projector (Projector) sends over whole runs: cards once each and all
  settled, narration blocks, the visible text, and the output a card accumulates.
*/
module ProjectorRuns {
  import opened Common
  import opened Projector

  // ---- cards: once each, result after call, settled at the end ---------------

  function Calls(log: seq<Event>, id: string): nat {
    if log == [] then 0
    else Calls(log[..|log| - 1], id) + (var e := log[|log| - 1]; if e.ToolCall? && e.callId == id then 1 else 0)
  }

  function Results(log: seq<Event>, id: string): nat {
    if log == [] then 0
    else Results(log[..|log| - 1], id) + (var e := log[|log| - 1]; if e.ToolResult? && e.callId == id then 1 else 0)
  }

  lemma {:induction false} CountConcat(a: seq<Event>, b: seq<Event>, id: string)
    ensures Calls(a + b, id) == Calls(a, id) + Calls(b, id)
    ensures Results(a + b, id) == Results(a, id) + Results(b, id)
  {
    if b == [] {
      assert a + b == a;
    } else {
      CountConcat(a, b[..|b| - 1], id);
      assert (a + b)[..|a + b| - 1] == a + b[..|b| - 1];
    }
  }

  /** The log shows the card of `id` opened under `name`. */
  ghost predicate Opened(log: seq<Event>, id: string, name: string) {
    exists i :: 0 <= i < |log| && log[i].ToolCall? && log[i].callId == id && log[i].name == name
  }

  /** Every result comes after the card it settles, under the same tool name. */
  ghost predicate ResultsFollowCalls(log: seq<Event>) {
    forall j :: 0 <= j < |log| && log[j].ToolResult? ==> Opened(log[..j], log[j].callId, log[j].name)
  }

  /** What the state says about one call id is what the log shows. */
  ghost predicate CardOk(st: State, log: seq<Event>, id: string) {
    if id in st.calls then
      var c := st.calls[id];
      && Calls(log, id) == (if c.started && !c.suppressed then 1 else 0)
      && Results(log, id) == (if c.resultOut then 1 else 0)
      && (c.resultOut ==> c.started && !c.suppressed)
      && (c.suppressed <==> c.started && IsQuestionTool(c.name))
      && (c.started && !c.suppressed ==> Opened(log, id, c.name))
    else Calls(log, id) == 0 && Results(log, id) == 0
  }

  ghost predicate CardInv(st: State, log: seq<Event>) {
    Ordered(st) && ResultsFollowCalls(log) && forall id :: CardOk(st, log, id)
  }

  lemma OpenedGrows(log: seq<Event>, more: seq<Event>, id: string, name: string)
    requires Opened(log, id, name)
    ensures Opened(log + more, id, name)
  {
    var i :| 0 <= i < |log| && log[i].ToolCall? && log[i].callId == id && log[i].name == name;
    assert (log + more)[i] == log[i];
  }

  lemma FollowSnoc(log: seq<Event>, e: Event)
    requires ResultsFollowCalls(log)
    requires e.ToolResult? ==> Opened(log, e.callId, e.name)
    ensures ResultsFollowCalls(log + [e])
  {
    var l := log + [e];
    forall j | 0 <= j < |l| && l[j].ToolResult?
      ensures Opened(l[..j], l[j].callId, l[j].name)
    {
      assert l[..j] == log[..j];
      if j == |log| {
        assert log[..j] == log;
      }
    }
  }

  /** An event that settles or opens no card leaves every card as it was. */
  lemma OtherEvent(st: State, log: seq<Event>, e: Event)
    requires CardInv(st, log) && !e.ToolCall? && !e.ToolResult?
    ensures CardInv(st, log + [e])
  {
    FollowSnoc(log, e);
    forall id ensures CardOk(st, log + [e], id) {
      assert CardOk(st, log, id);
      CountConcat(log, [e], id);
      if id in st.calls && st.calls[id].started && !st.calls[id].suppressed {
        OpenedGrows(log, [e], id, st.calls[id].name);
      }
    }
  }

  lemma TouchInv(st: State, log: seq<Event>, id: string)
    requires CardInv(st, log)
    ensures CardInv(Touch(st, id), log)
  {
    assert CardOk(st, log, id);
    if id !in st.calls {
      DistinctSnoc(st.order, id);
      forall i ensures CardOk(Touch(st, id), log, i) {
        assert CardOk(st, log, i);
      }
    }
  }

  /** Rewriting one call, with at most one event about it, keeps the invariant when that call stays in order. */
  lemma CardStep(st: State, log: seq<Event>, st': State, evs: seq<Event>, id: string)
    requires CardInv(st, log) && id in st.calls
    requires id in st'.calls && st'.order == st.order && st'.calls == st.calls[id := st'.calls[id]]
    requires |evs| <= 1 && forall e :: e in evs ==> (e.ToolCall? || e.ToolResult?) && e.callId == id
    requires CardOk(st', log + evs, id)
    requires forall e :: e in evs && e.ToolResult? ==> Opened(log, id, e.name)
    ensures CardInv(st', log + evs)
  {
    if evs == [] {
      assert log + evs == log;
    } else {
      assert evs == [evs[0]] && evs[0] in evs;
      FollowSnoc(log, evs[0]);
    }
    forall i ensures CardOk(st', log + evs, i) {
      assert CardOk(st, log, i);
      if i != id {
        CountConcat(log, evs, i);
        if i in st.calls && st.calls[i].started && !st.calls[i].suppressed {
          OpenedGrows(log, evs, i, st.calls[i].name);
        }
        assert Calls(evs, i) == 0 && Results(evs, i) == 0;
      }
    }
  }

  lemma StartStepInv(st: State, log: seq<Event>, id: string, name: string, arguments: string)
    requires CardInv(st, log)
    ensures var (st', evs) := StartStep(st, id, name, arguments); CardInv(st', log + evs)
  {
    TouchInv(st, log, id);
    var st1 := Touch(st, id);
    assert CardOk(st1, log, id);
    var (st', evs) := StartStep(st, id, name, arguments);
    if st1.calls[id].started {
      assert log + evs == log;
    } else {
      CountConcat(log, evs, id);
      if evs != [] {
        assert (log + evs)[|log|] == evs[0];
      } else {
        assert log + evs == log;
      }
      CardStep(st1, log, st', evs, id);
    }
  }

  lemma ResultStepInv(st: State, log: seq<Event>, t: AgentTool)
    requires CardInv(st, log) && t.callId in st.calls
    ensures var (st', evs) := ResultStep(st, t); CardInv(st', log + evs)
  {
    var (st', evs) := ResultStep(st, t);
    var id := t.callId;
    assert CardOk(st, log, id);
    CountConcat(log, evs, id);
    if st.calls[id].started && !st.calls[id].suppressed {
      OpenedGrows(log, evs, id, st.calls[id].name);
    }
    assert st'.calls == st.calls[id := st'.calls[id]];
    CardStep(st, log, st', evs, id);
  }

  lemma OutputStepInv(st: State, log: seq<Event>, o: AgentOutput)
    requires CardInv(st, log)
    ensures var (st', evs) := OutputStep(st, o); CardInv(st', log + evs)
  {
    var (st', evs) := OutputStep(st, o);
    if o.callId == "" {
      assert log + evs == log;
    } else {
      var id := o.callId;
      TouchInv(st, log, id);
      var st1 := Touch(st, id);
      assert CardOk(st1, log, id);
      CountConcat(log, evs, id);
      if st1.calls[id].started && !st1.calls[id].suppressed {
        OpenedGrows(log, evs, id, st1.calls[id].name);
      }
      assert st'.calls == st1.calls[id := st'.calls[id]];
      CardStep(st1, log, st', evs, id);
    }
  }

  lemma {:induction false} FlushInv(st: State, log: seq<Event>, n: nat)
    requires CardInv(st, log) && n <= |st.order|
    ensures CardInv(st.(calls := Settle(st.calls, st.order[..n])), log + Flush(st.calls, st.order[..n]))
  {
    if n == 0 {
      assert log + [] == log;
      assert Settle(st.calls, []) == st.calls;
    } else {
      var ids, id := st.order[..n - 1], st.order[n - 1];
      FlushInv(st, log, n - 1);
      assert st.order[..n] == ids + [id];
      FlushOne(st, log, ids, id);
    }
  }

  lemma FlushOne(st: State, log: seq<Event>, ids: seq<string>, id: string)
    requires id in st.calls && id !in ids
    requires CardInv(st.(calls := Settle(st.calls, ids)), log + Flush(st.calls, ids))
    ensures CardInv(st.(calls := Settle(st.calls, ids + [id])), log + Flush(st.calls, ids + [id]))
  {
    assert (ids + [id])[..|ids|] == ids;
    SettleOneMore(st.calls, ids, id);
    if Owes(st.calls[id]) {
      var c := st.calls[id];
      var text := FirstNonEmpty(c.pendingResult, c.output);
      SettleCard(st.(calls := Settle(st.calls, ids)), log + Flush(st.calls, ids), id, text);
      assert log + Flush(st.calls, ids + [id]) == log + Flush(st.calls, ids) + [ToolResult(c.name, id, text)];
    }
  }

  lemma SettleCard(st: State, log: seq<Event>, id: string, text: string)
    requires CardInv(st, log) && id in st.calls && Owes(st.calls[id])
    ensures CardInv(st.(calls := st.calls[id := st.calls[id].(resultOut := true)]), log + [ToolResult(st.calls[id].name, id, text)])
  {
    var e := ToolResult(st.calls[id].name, id, text);
    assert CardOk(st, log, id);
    CountConcat(log, [e], id);
    OpenedGrows(log, [e], id, st.calls[id].name);
    CardStep(st, log, st.(calls := st.calls[id := st.calls[id].(resultOut := true)]), [e], id);
  }

  /** Every frame keeps the cards of the log and the state in agreement. */
  lemma StepCardInv(st: State, log: seq<Event>, fr: Frame)
    requires CardInv(st, log)
    ensures var (st', evs, _) := Step(st, fr); CardInv(st', log + evs)
  {
    assert log + [] == log;
    match fr
    case Tool(t) =>
      if t.callId != "" {
        if t.phase == Start {
          StartStepInv(st, log, t.callId, t.name, FirstNonEmpty(t.args, t.title));
        } else {
          TouchInv(st, log, t.callId);
          if t.phase == Result {
            ResultStepInv(Touch(st, t.callId), log, t);
          }
        }
      }
    case Item(it) =>
      if it.preamble {
        if it.text != "" {
          OtherEvent(st, log, Narration(FirstNonEmpty(it.itemId, Itoa(st.block)), it.text));
        }
      } else if it.callId != "" && it.toolStart {
        StartStepInv(st, log, it.callId, it.name, FirstNonEmpty(it.meta, it.title));
      }
    case CommandOutput(o) => OutputStepInv(st, log, o);
    case Chat(d) => ChatStepInv(st, log, d);
    case Ignored =>
  }

  /** The cards do not depend on which runs have spoken. */
  lemma TextsDoNotMatter(st: State, log: seq<Event>, texts: set<string>)
    requires CardInv(st, log)
    ensures CardInv(st.(texts := texts), log)
  {
    forall id ensures CardOk(st.(texts := texts), log, id) {
      assert CardOk(st, log, id);
    }
  }

  lemma ChatStepInv(st: State, log: seq<Event>, d: ChatDelta)
    requires CardInv(st, log)
    ensures CardInv(ChatStep(st, d).0, log + ChatStep(st, d).1)
  {
    assert log + [] == log;
    if d.Delta? {
      if d.text != "" {
        TextsDoNotMatter(st, log, st.texts + {d.runId});
        OtherEvent(ChatStep(st, d).0, log, ChatStep(st, d).1[0]);
      }
    } else if d.Failed? || d.Final? {
      FlushInv(st, log, |st.order|);
      assert st.order[..|st.order|] == st.order;
      if d.Final? {
        FinalInv(st, log, d);
      }
    }
  }

  lemma FinalInv(st: State, log: seq<Event>, d: ChatDelta)
    requires d.Final? && CardInv(st.(calls := Settle(st.calls, st.order)), log + Flush(st.calls, st.order))
    ensures CardInv(ChatStep(st, d).0, log + ChatStep(st, d).1)
  {
    var flush := log + Flush(st.calls, st.order);
    var text := if d.runId in st.texts then "" else FinalText(d);
    TextsDoNotMatter(st.(calls := Settle(st.calls, st.order)), flush, ChatStep(st, d).0.texts);
    if text == "" {
      assert log + ChatStep(st, d).1 == flush;
    } else {
      OtherEvent(ChatStep(st, d).0, flush, MessageDelta(text));
      assert log + ChatStep(st, d).1 == flush + [MessageDelta(text)];
    }
  }

  lemma {:induction false} RunCardInv(frames: seq<Frame>)
    ensures CardInv(Run(frames), Log(frames))
  {
    if frames != [] {
      var n := |frames| - 1;
      RunCardInv(frames[..n]);
      StepCardInv(Run(frames[..n]), Log(frames[..n]), frames[n]);
    }
  }

  /**
    For every frame sequence and call id: at most one card and at most one
    result, no result without an earlier card of the same tool name, and
    neither for a question tool.
  */
  lemma {:induction false} CardsAreEmittedOnce(frames: seq<Frame>, id: string)
    ensures Results(Log(frames), id) <= Calls(Log(frames), id) <= 1
    ensures ResultsFollowCalls(Log(frames))
    ensures id in Run(frames).calls && Run(frames).calls[id].started && IsQuestionTool(Run(frames).calls[id].name) ==>
      Calls(Log(frames), id) == Results(Log(frames), id) == 0
  {
    RunCardInv(frames);
    assert CardOk(Run(frames), Log(frames), id);
  }

  /** When a frame ends the run, every card shown so far has exactly one result. */
  lemma TerminalSettlesEveryCard(frames: seq<Frame>, last: Frame, id: string)
    requires Step(Run(frames), last).2
    ensures Results(Log(frames + [last]), id) == Calls(Log(frames + [last]), id)
  {
    var fs := frames + [last];
    assert fs[..|fs| - 1] == frames;
    RunCardInv(frames);
    RunCardInv(fs);
    assert CardOk(Run(fs), Log(fs), id);
    var st, st' := Run(frames), Run(fs);
    assert st'.calls == Settle(st.calls, st.order);
  }

  /** The call id a frame refers to, when it refers to one. */
  function Mentions(fr: Frame): Option<string> {
    match fr
    case Tool(t) => if t.callId == "" then None else Some(t.callId)
    case Item(it) => if it.preamble || it.callId == "" || !it.toolStart then None else Some(it.callId)
    case CommandOutput(o) => if o.callId == "" then None else Some(o.callId)
    case _ => None
  }

  /** The mentioned call ids, each at its first appearance. */
  function FirstSeen(frames: seq<Frame>): seq<string> {
    if frames == [] then []
    else
      var seen := FirstSeen(frames[..|frames| - 1]);
      var m := Mentions(frames[|frames| - 1]);
      if m.Some? && m.value !in seen then seen + [m.value] else seen
  }

  lemma StepOrder(st: State, fr: Frame)
    ensures Step(st, fr).0.order ==
      var m := Mentions(fr); if m.Some? && m.value !in st.calls then st.order + [m.value] else st.order
  {
  }

  function CallIds(evs: seq<Event>): seq<string>
    requires forall e :: e in evs ==> e.ToolResult?
  {
    seq(|evs|, i requires 0 <= i < |evs| => assert evs[i] in evs; evs[i].callId)
  }

  function OwingIds(calls: map<string, LiveCall>, ids: seq<string>): seq<string> {
    if ids == [] then []
    else
      var id := ids[|ids| - 1];
      OwingIds(calls, ids[..|ids| - 1]) + (if id in calls && Owes(calls[id]) then [id] else [])
  }

  lemma {:induction false} FlushIds(calls: map<string, LiveCall>, ids: seq<string>)
    ensures forall e :: e in Flush(calls, ids) ==> e.ToolResult?
    ensures CallIds(Flush(calls, ids)) == OwingIds(calls, ids)
  {
    if ids != [] {
      FlushIds(calls, ids[..|ids| - 1]);
    }
  }

  /**
    `order` is the sequence of call ids by first appearance, without repeats and
    exactly the keys of `calls`; deferred results are emitted along it.
  */
  lemma {:induction false} DeferredResultsFollowFirstAppearance(frames: seq<Frame>)
    ensures Run(frames).order == FirstSeen(frames) && Ordered(Run(frames))
    ensures var flush := Flush(Run(frames).calls, Run(frames).order);
      && (forall e :: e in flush ==> e.ToolResult?)
      && CallIds(flush) == OwingIds(Run(frames).calls, FirstSeen(frames))
  {
    RunCardInv(frames);
    if frames != [] {
      var n := |frames| - 1;
      DeferredResultsFollowFirstAppearance(frames[..n]);
      RunCardInv(frames[..n]);
      StepOrder(Run(frames[..n]), frames[n]);
    }
    FlushIds(Run(frames).calls, Run(frames).order);
  }

  // ---- narration blocks ------------------------------------------------------

  function StartedIds(st: State): set<string> {
    set id | id in st.calls && st.calls[id].started
  }

  lemma SameStarted(st: State, st': State)
    requires st.calls.Keys <= st'.calls.Keys
    requires forall id :: id in st'.calls ==> st'.calls[id].started == (id in st.calls && st.calls[id].started)
    ensures StartedIds(st') == StartedIds(st)
  {
  }

  lemma StartStepBlock(st: State, id: string, name: string, arguments: string)
    requires st.block == 1 + |StartedIds(st)|
    ensures var st' := StartStep(st, id, name, arguments).0; st'.block == 1 + |StartedIds(st')|
  {
    var st1, st' := Touch(st, id), StartStep(st, id, name, arguments).0;
    SameStarted(st, st1);
    if !st1.calls[id].started {
      assert StartedIds(st') == StartedIds(st1) + {id};
    }
  }

  lemma StepBlock(st: State, fr: Frame)
    requires st.block == 1 + |StartedIds(st)|
    ensures Step(st, fr).0.block == 1 + |StartedIds(Step(st, fr).0)|
  {
    match fr
    case Tool(t) =>
      if t.callId != "" && t.phase == Start {
        StartStepBlock(st, t.callId, t.name, FirstNonEmpty(t.args, t.title));
      } else {
        SameStarted(st, ToolStep(st, t).0);
      }
    case Item(it) =>
      if !it.preamble && it.callId != "" && it.toolStart {
        StartStepBlock(st, it.callId, it.name, FirstNonEmpty(it.meta, it.title));
      }
    case CommandOutput(o) => SameStarted(st, OutputStep(st, o).0);
    case Chat(d) => SameStarted(st, ChatStep(st, d).0);
    case Ignored =>
  }

  /** The narration block is 1 plus the number of calls started, the suppressed ones included. */
  lemma {:induction false} BlockCountsStartedCalls(frames: seq<Frame>)
    ensures Run(frames).block == 1 + |StartedIds(Run(frames))|
  {
    if frames == [] {
      assert StartedIds(Init) == {};
    } else {
      BlockCountsStartedCalls(frames[..|frames| - 1]);
      StepBlock(Run(frames[..|frames| - 1]), frames[|frames| - 1]);
    }
  }

  // ---- visible text --------------------------------------------------------

  /** The browser's bubble: append on delta, set on replace. */
  function BrowserText(log: seq<Event>): string {
    if log == [] then ""
    else
      var before, e := BrowserText(log[..|log| - 1]), log[|log| - 1];
      match e
      case MessageDelta(d) => before + d
      case TextReplace(d) => d
      case _ => before
  }

  function BlockText(content: seq<Block>): string {
    if content == [] then ""
    else
      var last := content[|content| - 1];
      BlockText(content[..|content| - 1]) + if last.isText then last.text else ""
  }

  /** The text of a final frame: its own, or else that of its text blocks in order. */
  function Snapshot(d: ChatDelta): string
    requires d.Final?
  {
    if d.text != "" then d.text else BlockText(d.content)
  }

  lemma {:induction false} ConcatSnoc(content: seq<Block>, b: Block)
    ensures Concat(content + [b]) == Concat(content) + if b.isText then b.text else ""
  {
    if content == [] {
      assert [] + [b] == [b] && [b][1..] == [];
    } else {
      assert (content + [b])[1..] == content[1..] + [b];
      ConcatSnoc(content[1..], b);
    }
  }

  lemma {:induction false} BlockTextIsConcat(content: seq<Block>)
    ensures Concat(content) == BlockText(content)
  {
    if content != [] {
      var n := |content| - 1;
      assert content == content[..n] + [content[n]];
      ConcatSnoc(content[..n], content[n]);
      BlockTextIsConcat(content[..n]);
    }
  }

  lemma SnapshotIsFinalText(d: ChatDelta)
    requires d.Final?
    ensures Snapshot(d) == FinalText(d)
  {
    BlockTextIsConcat(d.content);
  }

  /** The run has shown text: a non-empty delta, or a final that had something to say. */
  predicate Spoke(frames: seq<Frame>, run: string) {
    frames != [] &&
    (var fr := frames[|frames| - 1];
      || Spoke(frames[..|frames| - 1], run)
      || (fr.Chat? && fr.chat.Delta? && fr.chat.runId == run && fr.chat.text != "")
      || (fr.Chat? && fr.chat.Final? && fr.chat.runId == run && Snapshot(fr.chat) != ""))
  }

  /** The text the chat frames alone determine. */
  function Said(frames: seq<Frame>): string {
    if frames == [] then ""
    else
      var before, fr := frames[..|frames| - 1], frames[|frames| - 1];
      if fr.Chat? && fr.chat.Delta? then
        if fr.chat.replace && fr.chat.text != "" then fr.chat.text else Said(before) + fr.chat.text
      else if fr.Chat? && fr.chat.Final? && !Spoke(before, fr.chat.runId) then Said(before) + Snapshot(fr.chat)
      else Said(before)
  }

  lemma BrowserTextSnoc(log: seq<Event>, e: Event)
    ensures BrowserText(log + [e]) ==
      if e.MessageDelta? then BrowserText(log) + e.delta else if e.TextReplace? then e.delta else BrowserText(log)
  {
    assert (log + [e])[..|log|] == log;
  }

  predicate Silent(evs: seq<Event>) {
    forall i :: 0 <= i < |evs| ==> !evs[i].TextReplace? && !evs[i].MessageDelta?
  }

  /** Events about cards and narration leave the bubble as it was. */
  lemma {:induction false} SilentEventsAddNoText(log: seq<Event>, evs: seq<Event>)
    requires Silent(evs)
    ensures BrowserText(log + evs) == BrowserText(log)
  {
    if evs == [] {
      assert log + evs == log;
    } else {
      var before, e := evs[..|evs| - 1], evs[|evs| - 1];
      SilentEventsAddNoText(log, before);
      assert log + evs == (log + before) + [e];
      BrowserTextSnoc(log + before, e);
    }
  }

  lemma {:induction false} FlushIsSilent(calls: map<string, LiveCall>, ids: seq<string>)
    ensures Silent(Flush(calls, ids))
  {
    if ids != [] {
      FlushIsSilent(calls, ids[..|ids| - 1]);
    }
  }

  lemma CardFramesAreSilent(st: State, fr: Frame)
    requires !fr.Chat?
    ensures Step(st, fr).0.texts == st.texts
    ensures Silent(Step(st, fr).1)
  {
  }

  lemma ChatText(st: State, log: seq<Event>, d: ChatDelta)
    ensures BrowserText(log + ChatStep(st, d).1) ==
      if d.Delta? then (if d.replace && d.text != "" then d.text else BrowserText(log) + d.text)
      else if d.Final? && d.runId !in st.texts then BrowserText(log) + FinalText(d)
      else BrowserText(log)
  {
    var evs := ChatStep(st, d).1;
    if d.Delta? || d.OtherState? {
      if evs == [] {
        assert log + evs == log;
      } else {
        BrowserTextSnoc(log, evs[0]);
        assert evs == [evs[0]];
      }
    } else {
      FlushedText(st, log);
      var flush := Flush(st.calls, st.order);
      if evs == flush {
      } else {
        var e := MessageDelta(FinalText(d));
        assert evs == flush + [e] && log + evs == (log + flush) + [e];
        BrowserTextSnoc(log + flush, e);
      }
    }
  }

  /** Deferred results add no text. */
  lemma FlushedText(st: State, log: seq<Event>)
    ensures BrowserText(log + Flush(st.calls, st.order)) == BrowserText(log)
  {
    FlushIsSilent(st.calls, st.order);
    SilentEventsAddNoText(log, Flush(st.calls, st.order));
  }

  /** What the browser shows is the fold of the chat frames; a `final` adds only for a run that was silent. */
  lemma {:induction false} BrowserTextIsTheChatFold(frames: seq<Frame>)
    ensures BrowserText(Log(frames)) == Said(frames)
    ensures forall run :: run in Run(frames).texts <==> Spoke(frames, run)
  {
    if frames != [] {
      var before, fr := frames[..|frames| - 1], frames[|frames| - 1];
      BrowserTextIsTheChatFold(before);
      var st, log := Run(before), Log(before);
      if fr.Chat? {
        if fr.chat.Final? {
          SnapshotIsFinalText(fr.chat);
        }
        ChatText(st, log, fr.chat);
      } else {
        CardFramesAreSilent(st, fr);
        SilentEventsAddNoText(log, Step(st, fr).1);
      }
    }
  }

  // ---- accumulated output ----------------------------------------------------

  predicate Starts(fr: Frame, id: string) {
    || (fr.Tool? && fr.tool.callId == id && fr.tool.phase == Start)
    || (fr.Item? && !fr.item.preamble && fr.item.callId == id && fr.item.toolStart)
  }

  predicate StartSeen(frames: seq<Frame>, id: string) {
    frames != [] && (Starts(frames[|frames| - 1], id) || StartSeen(frames[..|frames| - 1], id))
  }

  /** A command_output fragment the call accumulates. */
  predicate Carries(frames: seq<Frame>, id: string)
    requires frames != []
  {
    var fr := frames[|frames| - 1];
    fr.CommandOutput? && fr.out.callId == id && fr.out.output != "" && StartSeen(frames[..|frames| - 1], id)
  }

  /** The last complete output the call received, empty before the first. */
  function Base(frames: seq<Frame>, id: string): string {
    if frames == [] then ""
    else if Carries(frames, id) && frames[|frames| - 1].out.ended then frames[|frames| - 1].out.output
    else Base(frames[..|frames| - 1], id)
  }

  /** The fragments received since that complete output, concatenated. */
  function Fragments(frames: seq<Frame>, id: string): string {
    if frames == [] then ""
    else if Carries(frames, id) then
      if frames[|frames| - 1].out.ended then "" else Fragments(frames[..|frames| - 1], id) + frames[|frames| - 1].out.output
    else Fragments(frames[..|frames| - 1], id)
  }

  function Capped(base: string, frags: string): string {
    if |base| >= LIVE_OUTPUT_CAP then base
    else if |base| + |frags| > LIVE_OUTPUT_CAP then (base + frags)[..LIVE_OUTPUT_CAP]
    else base + frags
  }

  lemma AppendCapped(base: string, frags: string, s: string)
    ensures Append(Capped(base, frags), s) == Capped(base, frags + s)
  {
    assert base + (frags + s) == base + frags + s;
  }

  predicate StartedIn(st: State, id: string) {
    id in st.calls && st.calls[id].started
  }

  lemma StepStarted(st: State, fr: Frame, id: string)
    requires id != ""
    ensures StartedIn(Step(st, fr).0, id) <==> Starts(fr, id) || StartedIn(st, id)
  {
    match fr
    case Tool(t) => ToolStarted(st, t, id);
    case _ =>
  }

  lemma ToolStarted(st: State, t: AgentTool, id: string)
    requires id != ""
    ensures StartedIn(ToolStep(st, t).0, id) <==> (t.callId == id && t.phase == Start) || StartedIn(st, id)
  {
  }

  lemma {:induction false} StartedIffStartSeen(frames: seq<Frame>, id: string)
    requires id != ""
    ensures StartSeen(frames, id) <==> StartedIn(Run(frames), id)
  {
    if frames != [] {
      StartedIffStartSeen(frames[..|frames| - 1], id);
      StepStarted(Run(frames[..|frames| - 1]), frames[|frames| - 1], id);
    }
  }

  function OutputIn(st: State, id: string): string {
    if id in st.calls then st.calls[id].output else ""
  }

  /** One frame either adds its fragment to the call's output or leaves it alone. */
  lemma StepOutput(st: State, fr: Frame, id: string)
    requires id != ""
    ensures OutputIn(Step(st, fr).0, id) ==
      if fr.CommandOutput? && fr.out.callId == id && id in st.calls && st.calls[id].started
      then Absorb(OutputIn(st, id), fr.out) else OutputIn(st, id)
  {
    match fr
    case Tool(t) => ToolKeepsOutput(st, t, id);
    case Chat(d) => assert forall i :: i in st.calls ==> Settle(st.calls, st.order)[i].output == st.calls[i].output;
    case _ =>
  }

  lemma ToolKeepsOutput(st: State, t: AgentTool, id: string)
    ensures OutputIn(ToolStep(st, t).0, id) == OutputIn(st, id)
  {
  }

  /**
    Between terminal resets the accumulated output is the LIVE_OUTPUT_CAP prefix
    of what was received: the reset text followed by the fragments since.
  */
  lemma {:induction false} OutputIsCappedConcatenation(frames: seq<Frame>, id: string)
    requires id in Run(frames).calls
    ensures Run(frames).calls[id].output == Capped(Base(frames, id), Fragments(frames, id))
  {
    NoEmptyId(frames);
    var before := frames[..|frames| - 1];
    StepOutput(Run(before), frames[|frames| - 1], id);
    StartedIffStartSeen(before, id);
    if id in Run(before).calls {
      OutputIsCappedConcatenation(before, id);
    } else {
      NothingBeforeFirstMention(before, id);
    }
    if Carries(frames, id) && !frames[|frames| - 1].out.ended {
      AppendCapped(Base(before, id), Fragments(before, id), frames[|frames| - 1].out.output);
    }
  }

  lemma {:induction false} NoEmptyId(frames: seq<Frame>)
    ensures "" !in Run(frames).calls
  {
    if frames != [] {
      NoEmptyId(frames[..|frames| - 1]);
    }
  }

  lemma {:induction false} NothingBeforeFirstMention(frames: seq<Frame>, id: string)
    requires id != "" && id !in Run(frames).calls
    ensures Base(frames, id) == "" && Fragments(frames, id) == ""
  {
    if frames != [] {
      var before := frames[..|frames| - 1];
      StartedIffStartSeen(before, id);
      assert id !in Run(before).calls;
      NothingBeforeFirstMention(before, id);
    }
  }

  /**
    The cap bounds the memory of a call exactly while its last complete output
    fits: a terminal command_output replaces the buffer without being cut.
  */
  lemma CapHoldsIffLastCompleteOutputFits(frames: seq<Frame>, id: string)
    requires id in Run(frames).calls
    ensures |Run(frames).calls[id].output| <= LIVE_OUTPUT_CAP <==> |Base(frames, id)| <= LIVE_OUTPUT_CAP
  {
    OutputIsCappedConcatenation(frames, id);
  }

  /** A started call whose terminal command_output is longer than the cap. */
  lemma CapCanBeExceeded(big: string)
    requires |big| == LIVE_OUTPUT_CAP + 1
    ensures var frames := [Tool(AgentTool(Start, "exec", "c1", "", "", "", false, "")), CommandOutput(AgentOutput(true, "c1", big, ""))];
      "c1" in Run(frames).calls && |Run(frames).calls["c1"].output| > LIVE_OUTPUT_CAP
  {
    var f0 := Tool(AgentTool(Start, "exec", "c1", "", "", "", false, ""));
    var f1 := CommandOutput(AgentOutput(true, "c1", big, ""));
    assert [f0, f1][..1] == [f0];
    assert [f0][..0] == [];
    assert Run([]) == Init;
    assert Run([f0]).calls["c1"].started;
  }
}
