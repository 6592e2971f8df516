/**
  The live projector (internal/server/livetools.go): folds the decoded frames of
  one turn into browser events. Frames of several streams describe the same tool
  call, so cards are de-duplicated per call id, results of command tools are
  deferred, question tools are suppressed, and output is accumulated up to a cap.

  Frame is a decoded frame. Step is the fold as a function; LiveProjector is the
  source's object, whose methods compute Step. Run and Log are what any sequence of
  frames leaves and sends.
*/
module Projector {
  import opened Common

  const LIVE_OUTPUT_CAP: nat := 0x10_0000

  datatype Event =
    | ToolCall(name: string, callId: string, arguments: string)
    | ToolResult(name: string, callId: string, output: string)
    | Narration(blockId: string, text: string)
    | MessageDelta(delta: string)
    | TextReplace(delta: string)

  datatype ToolPhase = Start | Update | Result | OtherPhase

  /** stream="tool"; `resultText` is toolResultText of the raw result, `args` is empty for absent or null. */
  datatype AgentTool = AgentTool(phase: ToolPhase, name: string, callId: string, title: string,
                                 args: string, resultText: string, isError: bool, errorText: string)

  /** stream="item"; `text` is the preamble text after normalizePreamble. */
  datatype AgentItem = AgentItem(preamble: bool, toolStart: bool, name: string, meta: string, title: string,
                                 callId: string, text: string, itemId: string)

  datatype AgentOutput = AgentOutput(ended: bool, callId: string, output: string, summary: string)

  datatype Block = Block(isText: bool, text: string)

  datatype ChatDelta =
    | Delta(runId: string, text: string, replace: bool)
    | Final(runId: string, text: string, content: seq<Block>)
    | Failed    // state "aborted" or "error"
    | OtherState

  datatype Frame =
    | Tool(tool: AgentTool)
    | Item(item: AgentItem)
    | CommandOutput(out: AgentOutput)
    | Chat(chat: ChatDelta)
    | Ignored   // any other event, stream or undecodable payload

  datatype LiveCall = LiveCall(started: bool, name: string, suppressed: bool, output: string,
                               pendingResult: string, resultOut: bool)

  const FreshCall := LiveCall(false, "", false, "", "", false)

  datatype State = State(calls: map<string, LiveCall>, order: seq<string>, texts: set<string>, block: nat)

  const Init := State(map[], [], {}, 1)

  predicate IsQuestionTool(name: string) {
    name == "ask_user"
  }

  predicate IsCommandTool(name: string) {
    name == "exec" || name == "bash" || (|name| >= 5 && name[|name| - 5..] == "-exec")
  }

  function Itoa(n: nat): string
  {
    (if n < 10 then "" else Itoa(n / 10)) + [('0' as int + n % 10) as char]
  }

  function Concat(blocks: seq<Block>): string {
    if blocks == [] then "" else (if blocks[0].isText then blocks[0].text else "") + Concat(blocks[1..])
  }

  /** liveCall.append: the accumulated output never grows past the cap. */
  function Append(output: string, s: string): string {
    if |output| >= LIVE_OUTPUT_CAP then output
    else if |output| + |s| > LIVE_OUTPUT_CAP then output + s[..LIVE_OUTPUT_CAP - |output|]
    else output + s
  }

  function FirstNonEmpty(a: string, b: string): string {
    if a == "" then b else a
  }

  // ---- the fold ------------------------------------------------------------

  /** liveProjector.call: look the call up, entering it at the end of `order` when new. */
  function Touch(st: State, id: string): State {
    if id in st.calls then st else st.(calls := st.calls[id := FreshCall], order := st.order + [id])
  }

  function StartCall(st: State, id: string, name: string): State
    requires id in st.calls && !st.calls[id].started
  {
    var c := st.calls[id];
    st.(block := st.block + 1,
        calls := st.calls[id := c.(started := true, name := name, suppressed := c.suppressed || IsQuestionTool(name))])
  }

  /** Both start frames: open the card unless the call is already open or suppressed. */
  function StartStep(st: State, id: string, name: string, arguments: string): (State, seq<Event>) {
    var st1 := Touch(st, id);
    if st1.calls[id].started then (st1, [])
    else
      var st2 := StartCall(st1, id, name);
      (st2, if st2.calls[id].suppressed then [] else [ToolCall(name, id, arguments)])
  }

  function ToolStep(st: State, t: AgentTool): (State, seq<Event>) {
    if t.callId == "" then (st, [])
    else if t.phase == Start then StartStep(st, t.callId, t.name, FirstNonEmpty(t.args, t.title))
    else if t.phase == Result then ResultStep(Touch(st, t.callId), t)
    else (Touch(st, t.callId), [])
  }

  function ResultOf(t: AgentTool): string {
    if t.isError then FirstNonEmpty(t.resultText, t.errorText) else t.resultText
  }

  function ResultStep(st: State, t: AgentTool): (State, seq<Event>)
    requires t.callId in st.calls
  {
    var c := st.calls[t.callId];
    if !c.started || c.resultOut || c.suppressed then (st, [])
    else if IsCommandTool(c.name) then (st.(calls := st.calls[t.callId := c.(pendingResult := ResultOf(t))]), [])
    else (st.(calls := st.calls[t.callId := c.(resultOut := true)]), [ToolResult(c.name, t.callId, ResultOf(t))])
  }

  function ItemStep(st: State, it: AgentItem): (State, seq<Event>) {
    if it.preamble then
      (st, if it.text == "" then [] else [Narration(FirstNonEmpty(it.itemId, Itoa(st.block)), it.text)])
    else if it.callId == "" || !it.toolStart then (st, [])
    else StartStep(st, it.callId, it.name, FirstNonEmpty(it.meta, it.title))
  }

  function Absorb(output: string, o: AgentOutput): string {
    if o.output == "" then output else if o.ended then o.output else Append(output, o.output)
  }

  function OutputStep(st: State, o: AgentOutput): (State, seq<Event>) {
    if o.callId == "" then (st, [])
    else
      var st1 := Touch(st, o.callId);
      var c := st1.calls[o.callId];
      if !c.started then (st1, [])
      else
        var c1 := c.(output := Absorb(c.output, o));
        if o.ended && !c1.resultOut && !c1.suppressed then
          (st1.(calls := st1.calls[o.callId := c1.(resultOut := true)]),
           [ToolResult(c1.name, o.callId, FirstNonEmpty(c1.output, o.summary))])
        else (st1.(calls := st1.calls[o.callId := c1]), [])
  }

  /** The card is open and still owes its result. */
  predicate Owes(c: LiveCall) {
    c.started && !c.resultOut && !c.suppressed
  }

  function Settle(calls: map<string, LiveCall>, ids: seq<string>): map<string, LiveCall> {
    map id | id in calls :: if id in ids && Owes(calls[id]) then calls[id].(resultOut := true) else calls[id]
  }

  /** The results finalizeAll emits, in the order of `ids`. */
  function Flush(calls: map<string, LiveCall>, ids: seq<string>): seq<Event> {
    if ids == [] then []
    else
      var rest := Flush(calls, ids[..|ids| - 1]);
      var id := ids[|ids| - 1];
      if id in calls && Owes(calls[id]) then
        rest + [ToolResult(calls[id].name, id, FirstNonEmpty(calls[id].pendingResult, calls[id].output))]
      else rest
  }

  function FinalText(d: ChatDelta): string
    requires d.Final?
  {
    FirstNonEmpty(d.text, Concat(d.content))
  }

  function ChatStep(st: State, d: ChatDelta): (State, seq<Event>, bool) {
    match d
    case Delta(run, text, replace) =>
      if text == "" then (st, [], false)
      else (st.(texts := st.texts + {run}), [if replace then TextReplace(text) else MessageDelta(text)], false)
    case Final(run, _, _) =>
      var text := if run in st.texts then "" else FinalText(d);
      (st.(texts := if text == "" then st.texts else st.texts + {run}, calls := Settle(st.calls, st.order)),
       Flush(st.calls, st.order) + (if text == "" then [] else [MessageDelta(text)]), true)
    case Failed => (st.(calls := Settle(st.calls, st.order)), Flush(st.calls, st.order), true)
    case OtherState => (st, [], false)
  }

  /** One frame: the next state, the browser events, and whether the run ended. */
  function Step(st: State, fr: Frame): (State, seq<Event>, bool) {
    match fr
    case Tool(t) => var (s, e) := ToolStep(st, t); (s, e, false)
    case Item(it) => var (s, e) := ItemStep(st, it); (s, e, false)
    case CommandOutput(o) => var (s, e) := OutputStep(st, o); (s, e, false)
    case Chat(d) => ChatStep(st, d)
    case Ignored => (st, [], false)
  }

  // ---- the object ----------------------------------------------------------

  class LiveProjector {
    var calls: map<string, LiveCall>
    var order: seq<string>
    var texts: set<string>
    var block: nat

    ghost function Abs(): State
      reads this
    {
      State(calls, order, texts, block)
    }

    /** `order` enumerates the keys of `calls` without repeats. */
    ghost predicate Valid()
      reads this
    {
      Ordered(Abs())
    }

    constructor ()
      ensures Valid() && Abs() == Init
    {
      calls := map[];
      order := [];
      texts := {};
      block := 1;
    }

    method Call(id: string)
      requires Valid()
      modifies this
      ensures Valid() && Abs() == Touch(old(Abs()), id)
    {
      if id !in calls {
        calls := calls[id := FreshCall];
        order := order + [id];
      }
    }

    method DoStartCall(id: string, name: string) returns (first: bool)
      requires Valid()
      modifies this
      ensures Valid() && id in calls
      ensures first == !Touch(old(Abs()), id).calls[id].started
      ensures Abs() == if first then StartCall(Touch(old(Abs()), id), id, name) else Touch(old(Abs()), id)
    {
      Call(id);
      var c := calls[id];
      if c.started {
        return false;
      }
      c := c.(started := true, name := name);
      block := block + 1;
      if IsQuestionTool(name) {
        c := c.(suppressed := true);
      }
      calls := calls[id := c];
      first := true;
    }

    method StartCard(id: string, name: string, arguments: string) returns (evs: seq<Event>)
      requires Valid()
      modifies this
      ensures Valid() && (Abs(), evs) == StartStep(old(Abs()), id, name, arguments)
    {
      var first := DoStartCall(id, name);
      if !first || calls[id].suppressed {
        return [];
      }
      evs := [ToolCall(name, id, arguments)];
    }

    method ToolEvent(t: AgentTool) returns (evs: seq<Event>)
      requires Valid()
      modifies this
      ensures Valid() && (Abs(), evs) == ToolStep(old(Abs()), t)
    {
      evs := [];
      if t.callId == "" {
        return;
      }
      if t.phase == Start {
        evs := StartCard(t.callId, t.name, if t.args != "" then t.args else t.title);
        return;
      }
      Call(t.callId);
      if t.phase == Result {
        var c := calls[t.callId];
        if !c.started || c.resultOut || c.suppressed {
          return;
        }
        var out := t.resultText;
        if t.isError && out == "" {
          out := t.errorText;
        }
        if IsCommandTool(c.name) {
          calls := calls[t.callId := c.(pendingResult := out)];
          return;
        }
        calls := calls[t.callId := c.(resultOut := true)];
        evs := [ToolResult(c.name, t.callId, out)];
      }
    }

    method PreambleEvent(it: AgentItem) returns (evs: seq<Event>)
      ensures evs == if it.text == "" then [] else [Narration(FirstNonEmpty(it.itemId, Itoa(block)), it.text)]
    {
      if it.text == "" {
        return [];
      }
      var blockId := it.itemId;
      if blockId == "" {
        blockId := Itoa(block);
      }
      evs := [Narration(blockId, it.text)];
    }

    method CommandOutputEvent(o: AgentOutput) returns (evs: seq<Event>)
      requires Valid()
      modifies this
      ensures Valid() && (Abs(), evs) == OutputStep(old(Abs()), o)
    {
      evs := [];
      if o.callId == "" {
        return;
      }
      Call(o.callId);
      var c := calls[o.callId];
      if !c.started {
        return;
      }
      if o.ended && o.output != "" {
        c := c.(output := o.output);
      } else if o.output != "" {
        c := c.(output := Append(c.output, o.output));
      }
      if o.ended && !c.resultOut && !c.suppressed {
        c := c.(resultOut := true);
        evs := [ToolResult(c.name, o.callId, if c.output == "" then o.summary else c.output)];
      }
      calls := calls[o.callId := c];
    }

    /** Emit the owed result of every open card, in first-appearance order. */
    method FinalizeAll() returns (out: seq<Event>)
      requires Valid()
      modifies this
      ensures Valid()
      ensures Abs() == old(Abs()).(calls := Settle(old(calls), order))
      ensures out == Flush(old(calls), order)
    {
      out := [];
      var i := 0;
      while i < |order|
        invariant 0 <= i <= |order|
        invariant unchanged(`order) && unchanged(`texts) && unchanged(`block)
        invariant calls == Settle(old(calls), order[..i])
        invariant out == Flush(old(calls), order[..i])
      {
        var id := order[i];
        assert order[..i + 1] == order[..i] + [id];
        SettleOneMore(old(calls), order[..i], id);
        FlushOneMore(old(calls), order[..i], id);
        var c := calls[id];
        if Owes(c) {
          calls := calls[id := c.(resultOut := true)];
          out := out + [ToolResult(c.name, id, if c.pendingResult == "" then c.output else c.pendingResult)];
        }
        i := i + 1;
      }
      assert order[..i] == order;
    }

    method Feed(fr: Frame) returns (evs: seq<Event>, terminal: bool)
      requires Valid()
      modifies this
      ensures Valid() && (Abs(), evs, terminal) == Step(old(Abs()), fr)
    {
      evs, terminal := [], false;
      match fr
      case Tool(t) => evs := ToolEvent(t);
      case Item(it) =>
        if it.preamble {
          evs := PreambleEvent(it);
        } else if it.callId != "" && it.toolStart {
          evs := StartCard(it.callId, it.name, if it.meta == "" then it.title else it.meta);
        }
      case CommandOutput(o) => evs := CommandOutputEvent(o);
      case Chat(d) =>
        match d {
          case Delta(run, text, replace) =>
            if text != "" {
              texts := texts + {run};
              evs := [if replace then TextReplace(text) else MessageDelta(text)];
            }
          case Final(run, _, content) =>
            var tail := [];
            if run !in texts {
              var text := d.text;
              if text == "" {
                text := Concat(content);
              }
              if text != "" {
                texts := texts + {run};
                tail := [MessageDelta(text)];
              }
            }
            var flush := FinalizeAll();
            evs, terminal := flush + tail, true;
          case Failed =>
            evs := FinalizeAll();
            terminal := true;
          case OtherState =>
        }
      case Ignored =>
    }
  }

  lemma SettleOneMore(calls: map<string, LiveCall>, ids: seq<string>, id: string)
    requires id in calls && id !in ids
    ensures Settle(calls, ids + [id]) ==
      var s := Settle(calls, ids); if Owes(s[id]) then s[id := s[id].(resultOut := true)] else s
  {
  }

  lemma FlushOneMore(calls: map<string, LiveCall>, ids: seq<string>, id: string)
    requires id in calls && id !in ids
    ensures var c := Settle(calls, ids)[id];
      Flush(calls, ids + [id]) == Flush(calls, ids) +
        if Owes(c) then [ToolResult(c.name, id, if c.pendingResult == "" then c.output else c.pendingResult)] else []
  {
    assert (ids + [id])[..|ids|] == ids;
  }

  // ---- runs ----------------------------------------------------------------

  ghost predicate Ordered(st: State) {
    Distinct(st.order) && forall id :: id in st.order <==> id in st.calls
  }

  function Run(frames: seq<Frame>): State {
    if frames == [] then Init else Step(Run(frames[..|frames| - 1]), frames[|frames| - 1]).0
  }

  /** Everything the browser was sent. */
  function Log(frames: seq<Frame>): seq<Event> {
    if frames == [] then []
    else
      var n := |frames| - 1;
      Log(frames[..n]) + Step(Run(frames[..n]), frames[n]).1
  }
}
