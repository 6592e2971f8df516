/** What the browser is shown of a stream (Sse), frame by frame of what the server wrote. */
module SseAnswers {
  import opened Common
  import opened Sse

  predicate Increasing(at: seq<nat>) {
    forall j, k :: 0 <= j < k < |at| ==> at[j] < at[k]
  }

  predicate IsFrame(items: seq<Item>, i: nat) {
    i < |items| && items[i].Frame?
  }

  /** The positions of the frames among the items written. */
  ghost predicate FramesAt(items: seq<Item>, at: seq<nat>) {
    Increasing(at) && forall i: nat :: IsFrame(items, i) <==> i in at
  }

  /** An event is delivered under its own type, or as a message when it has none. */
  predicate Shown(s: Seen, ev: Event) {
    s.Delivered? && s.ev == ev && s.name == (if ev.typ == "" then "message" else ev.typ)
  }

  predicate CarriesDone(items: seq<Item>) {
    exists i :: 0 <= i < |items| && items[i].Frame? && items[i].ev.typ == "message_done"
  }

  /** Whether the reader adds a terminal of its own, and which. */
  predicate Lacking(items: seq<Item>, end: End) {
    !CarriesDone(items) && !end.Aborted?
  }

  function Reason(end: End): string {
    if end.Failed? && end.error != "" then end.error else "connection closed before the turn finished"
  }

  /** `at` with one item more looked at. */
  function Extended(before: seq<nat>, item: Item, n: nat): seq<nat> {
    if item.Frame? then before + [n] else before
  }

  lemma FramesGrow(items: seq<Item>, item: Item, before: seq<nat>)
    requires FramesAt(items, before)
    ensures FramesAt(items + [item], Extended(before, item, |items|))
  {
    var n := |items|;
    forall i: nat ensures IsFrame(items + [item], i) <==> IsFrame(items, i) || (i == n && item.Frame?) {
    }
    forall k | 0 <= k < |before| ensures before[k] < n {
      assert before[k] in before;
    }
  }

  ghost predicate Carried(sent: seq<Event>, items: seq<Item>, at: seq<nat>) {
    && FramesAt(items, at) && |sent| == |at|
    && forall k :: 0 <= k < |at| ==> IsFrame(items, at[k]) && sent[k] == items[at[k]].ev
  }

  lemma CarriedGrows(sent: seq<Event>, items: seq<Item>, at: seq<nat>, item: Item)
    requires Carried(sent, items, at)
    ensures Carried(sent + (if item.Frame? then [item.ev] else []), items + [item], Extended(at, item, |items|))
  {
    FramesGrow(items, item, at);
    assert (items + [item])[|items|] == item;
    assert forall i :: 0 <= i < |items| ==> (items + [item])[i] == items[i];
  }

  lemma {:induction false} SentAreTheFrames(items: seq<Item>) returns (at: seq<nat>)
    ensures Carried(Sent(items), items, at)
  {
    if items == [] {
      at := [];
    } else {
      var n := |items| - 1;
      var before := SentAreTheFrames(items[..n]);
      CarriedGrows(Sent(items[..n]), items[..n], before, items[n]);
      assert items[..n] + [items[n]] == items;
      at := Extended(before, items[n], n);
    }
  }

  lemma DoneAmongSent(items: seq<Item>, at: seq<nat>)
    requires Carried(Sent(items), items, at)
    ensures HasDone(Sent(items)) <==> CarriesDone(items)
  {
    if CarriesDone(items) {
      var i :| 0 <= i < |items| && items[i].Frame? && items[i].ev.typ == "message_done";
      assert IsFrame(items, i);
      var k :| 0 <= k < |at| && at[k] == i;
      assert Sent(items)[k].typ == DONE;
    }
  }

  ghost predicate SeesFrames(items: seq<Item>, at: seq<nat>, seen: seq<Seen>, end: End) {
    && FramesAt(items, at)
    && |seen| == |at| + (if Lacking(items, end) then 1 else 0)
    && (forall k :: 0 <= k < |at| ==> IsFrame(items, at[k]) && Shown(seen[k], items[at[k]].ev))
    && (Lacking(items, end) ==> seen[|at|] == Terminal(Reason(end)))
  }

  /**
    Whatever the chunks, the browser is shown each frame written, once, in order,
    whole and under its name; then one terminal when the frames held none and the
    call was not cancelled, with the transport's error if it gave one.
  */
  lemma BrowserSeesEveryFrame(json: Json, items: seq<Item>, chunks: seq<string>, end: End)
    requires Faithful(json) && forall i :: 0 <= i < |items| ==> OneLine(items[i])
    requires Concat(chunks) == Wire(json, items)
    ensures exists at :: SeesFrames(items, at, Seeing(json, Body(chunks, end)), end)
  {
    RoundTrip(json, items, chunks, end);
    var at := SentAreTheFrames(items);
    DoneAmongSent(items, at);
    assert SeesFrames(items, at, Seeing(json, Body(chunks, end)), end);
  }

  /** What is written for the items: blocks ended by a blank line, in order. */
  lemma WireGrows(json: Json, items: seq<Item>, ev: Event)
    ensures Wire(json, []) == ""
    ensures Wire(json, items + [Ping]) == Wire(json, items) + ": ping\n\n"
    ensures Wire(json, items + [Frame(ev)]) == Wire(json, items) + ("event: " + ev.typ + "\ndata: " + json.encode(ev) + "\n\n")
  {
    assert (items + [Ping])[..|items|] == items && (items + [Frame(ev)])[..|items|] == items;
    assert ": ping" + BREAK == ": ping\n\n";
    assert "\n" + "data: " == "\ndata: ";
    assert Block(json, Frame(ev)) + BREAK == "event: " + ev.typ + "\ndata: " + json.encode(ev) + "\n\n";
  }
}
