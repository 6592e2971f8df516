/**
  What the grants store (Grants) keeps over whole runs of concurrent Adds and Removes,
  and what each of its answers means.
*/
module GrantRuns {
  import opened Common
  import opened Grants

  // ---- runs ------------------------------------------------------------------

  ghost predicate Run(p: Store, states: seq<System>, steps: seq<Step>) {
    && |states| == |steps| + 1 && states[0] == Init()
    && forall i :: 0 <= i < |steps| ==> Enabled(p, states[i], steps[i]) && states[i + 1] == Apply(p, states[i], steps[i])
  }

  lemma {:induction false} RunInv(p: Store, states: seq<System>, steps: seq<Step>, n: nat)
    requires Run(p, states, steps) && n < |states|
    ensures Inv(p, states[n])
  {
    if n > 0 {
      RunInv(p, states, steps, n - 1);
      StepInv(p, states[n - 1], steps[n - 1]);
    }
  }

  /**
    Every interleaving of concurrent Adds and Removes leaves exactly what replaying
    the atomic operations leaves, and each call that returned nil is one of them,
    once.
  */
  lemma StoreRefinesTheAtomicMap(p: Store, states: seq<System>, steps: seq<Step>, n: nat)
    requires Run(p, states, steps) && n < |states|
    ensures var s := states[n];
      && Abs(s) == Replay(p, s.log)
      && (forall c :: c in s.pc && s.pc[c] == Done(Stored) ==> c in s.ops && IsEntry(s, c))
      && (forall i, j :: 0 <= i < |s.log| && 0 <= j < |s.log| && s.log[i].Did? && s.log[j].Did? && i != j ==>
           s.log[i].client != s.log[j].client)
  {
    RunInv(p, states, steps, n);
  }

  ghost predicate IsEntry(s: System, c: nat)
    requires c in s.ops
  {
    c in s.entryOf && s.entryOf[c] < |s.log| && s.log[s.entryOf[c]].Did?
    && s.log[s.entryOf[c]].client == c && s.log[s.entryOf[c]].op == s.ops[c]
  }

  /** A grant leaves the store only by its own Remove, by an Add's eviction, or with the whole object. */
  lemma NoGrantIsLostExceptByEviction(p: Store, states: seq<System>, steps: seq<Step>, n: nat, key: string)
    requires Run(p, states, steps) && n < |steps| && key in Abs(states[n]) && key !in Abs(states[n + 1])
    ensures var s, s', st := states[n], states[n + 1], steps[n];
      || st.Collect?
      || ((st.Update? || st.UpdateReplyLost?) && s.ops[st.c] == Remove(key))
      || ((st.Update? || st.UpdateReplyLost?) && s.ops[st.c].Add? && s.pc[st.c].Updating?
          && Abs(s') == Evicted(p, Decodable(p, Abs(s)[s.ops[st.c].key := s.ops[st.c].value]), s.pc[st.c].order))
  {
    RunInv(p, states, steps, n);
  }

  /** A nil Add means the key is stored: by itself, within both bounds, or already when it looked. */
  lemma NilAddMeansStored(p: Store, states: seq<System>, steps: seq<Step>, n: nat, c: nat)
    requires Run(p, states, steps) && n < |steps| && c in states[n].pc && c in states[n].ops && states[n].ops[c].Add?
    requires states[n].pc[c] != Done(Stored) && c in states[n + 1].pc && states[n + 1].pc[c] == Done(Stored)
    ensures var s, s', op := states[n], states[n + 1], states[n].ops[c];
      && op.key in Abs(s')
      && (op.key !in Abs(s) ==> Abs(s')[op.key] == op.value && Fits(p, Abs(s')))
  {
    RunInv(p, states, steps, n);
    var s, st := states[n], steps[n];
    var op := s.ops[c];
    if st.Update? {
      EvictedKeepsValues(p, Decodable(p, s.pc[c].base[op.key := op.value]), s.pc[c].order);
    } else {
      ReadsTakeNothing(p, s, st);
    }
  }

  lemma {:induction false} EvictedKeepsValues(p: Store, d: Data, order: seq<string>)
    ensures forall k :: k in Evicted(p, d, order) ==> k in d && Evicted(p, d, order)[k] == d[k]
    decreases |order|
  {
    if order != [] && !Fits(p, d) {
      EvictedKeepsValues(p, d - {order[0]}, order[1..]);
    }
  }

  /** An Add never refuses for the budget, and gives up as too old only when its own entry was evicted. */
  lemma EvictionAlwaysMakesRoom(p: Store, d: Data, op: Op, order: seq<string>)
    requires Bounded(p) && op.Add? && op.key !in d && Choosable(p, d, op, order)
    ensures Fits(p, Effect(p, d, op, order))
  {
    var n := EvictKeepsTheNewest(p, Decodable(p, d[op.key := op.value]), order);
  }

  // ---- what List shows -------------------------------------------------------

  predicate Shown(p: Store, d: Data, key: string) {
    key in d && p.decode(d[key]).Some? && p.decode(d[key]).value.pattern != ""
  }

  /** After an Add that takes effect, List shows the grant exactly when no unreadable value already stood under its key. */
  lemma AddedGrantIsShownIff(p: Store, d: Data, op: Op, order: seq<string>)
    requires op.Add? && Choosable(p, d, op, order) && op.key in Effect(p, d, op, order)
    requires p.decode(op.value).Some? && p.decode(op.value).value.pattern != ""
    ensures Shown(p, Effect(p, d, op, order), op.key) <==> (op.key in d ==> Shown(p, d, op.key))
  {
    if op.key !in d {
      EvictedKeepsValues(p, Decodable(p, d[op.key := op.value]), order);
    }
  }

  /** An unreadable value under the key: Add returns nil and List does not show the grant. */
  lemma UnreadableValueHidesTheGrant(p: Store, value: string)
    requires p.decode("{") == None
    ensures var d := map["k" := "{"];
      Effect(p, d, Add("k", value), []) == d && !Shown(p, d, "k")
  {
  }

  // ---- what each answer means ---------------------------------------------------

  /** The client's write is on the server after this step, whatever it is told. */
  ghost predicate Lands(states: seq<System>, steps: seq<Step>, n: nat)
    requires n < |steps| && |states| == |steps| + 1
  {
    || steps[n].UpdateReplyLost?
    || (steps[n].Update? && steps[n].c in states[n + 1].pc && states[n + 1].pc[steps[n].c] == Done(Stored))
  }

  /** A landed Remove takes its key and nothing else. */
  lemma LandedRemoveTakesItsKey(p: Store, states: seq<System>, steps: seq<Step>, n: nat, key: string)
    requires Run(p, states, steps) && n < |steps| && Lands(states, steps, n) && states[n].ops[steps[n].c] == Remove(key)
    ensures Abs(states[n + 1]) == Abs(states[n]) - {key}
  {
    RunInv(p, states, steps, n);
  }

  /** A Remove that returns nil leaves no grant under its key. */
  lemma NilRemoveMeansGone(p: Store, states: seq<System>, steps: seq<Step>, n: nat, c: nat, key: string)
    requires Run(p, states, steps) && n < |steps| && c in states[n].ops && states[n].ops[c] == Remove(key)
    requires c in states[n].pc && states[n].pc[c] != Done(Stored) && states[n + 1].pc[c] == Done(Stored)
    ensures key !in Abs(states[n + 1])
  {
    RunInv(p, states, steps, n);
    if steps[n].Update? {
      LandedRemoveTakesItsKey(p, states, steps, n, key);
    }
  }

  /** The newest entries of the data with the new one: one suffix of an order by creation time, the longest within the bounds. */
  ghost predicate NewestOf(p: Store, d: Data, d': Data) {
    exists order, m: nat :: Orders(p, d, order) && m <= |order| && d' == Only(d, order[m..]) && Fits(p, d')
      && forall k: nat :: k < m ==> !Fits(p, Only(d, order[k..]))
  }

  lemma EvictedIsNewest(p: Store, d: Data, order: seq<string>)
    requires Bounded(p) && Orders(p, d, order)
    ensures NewestOf(p, d, Evicted(p, d, order))
  {
    var m := EvictKeepsTheNewest(p, d, order);
    assert Evicted(p, d, order) == Only(d, order[m..]);
  }

  lemma LandedAddWrites(p: Store, states: seq<System>, steps: seq<Step>, n: nat, key: string, value: string)
    requires Run(p, states, steps) && n < |steps| && Lands(states, steps, n) && states[n].ops[steps[n].c] == Add(key, value)
    ensures var d, order := Decodable(p, Abs(states[n])[key := value]), states[n].pc[steps[n].c].order;
      && Orders(p, d, order) && key !in Abs(states[n]) && key in Abs(states[n + 1]) && Abs(states[n + 1]) == Evicted(p, d, order)
  {
    RunInv(p, states, steps, n);
  }

  /** A landed Add writes the readable entries and its own, less the oldest that do not fit. */
  lemma LandedAddKeepsTheNewest(p: Store, states: seq<System>, steps: seq<Step>, n: nat, key: string, value: string)
    requires Run(p, states, steps) && n < |steps| && Lands(states, steps, n) && states[n].ops[steps[n].c] == Add(key, value)
    requires Bounded(p)
    ensures var d := Abs(states[n])[key := value];
      && key !in Abs(states[n]) && key in Abs(states[n + 1])
      && NewestOf(p, map k | k in d && p.decode(d[k]).Some? :: d[k], Abs(states[n + 1]))
  {
    LandedAddWrites(p, states, steps, n, key, value);
    var d := Abs(states[n])[key := value];
    EvictedIsNewest(p, Decodable(p, d), states[n].pc[steps[n].c].order);
  }

  /** Nothing but a landed write or the object's collection changes what is stored. */
  lemma OnlyLandedWritesChange(p: Store, states: seq<System>, steps: seq<Step>, n: nat)
    requires Run(p, states, steps) && n < |steps| && Abs(states[n + 1]) != Abs(states[n])
    ensures steps[n].Collect? || Lands(states, steps, n)
  {
    RunInv(p, states, steps, n);
  }

  /** What a client that gives up for itself has just read. */
  lemma GivesUpAfterReading(p: Store, s: System, st: Step, c: nat, result: Grants.Result)
    requires Enabled(p, s, st) && (result == TooOld || result == Refused)
    requires c in s.pc && s.pc[c] != Done(result) && Apply(p, s, st).pc[c] == Done(result)
    ensures (st.Get? || st.Create?) && st.c == c && c in s.ops && s.ops[c].Add? && s.ops[c].key !in Abs(s)
    ensures Abs(Apply(p, s, st)) == Abs(s) && Choosable(p, Abs(s), s.ops[c], st.order)
    ensures var d := Effect(p, Abs(s), s.ops[c], st.order); if result == TooOld then s.ops[c].key !in d else !Fits(p, d)
  {
  }

  /** Too old: the store is untouched, and its own entry is among those the bounds would evict. */
  lemma TooOldWouldHaveBeenEvicted(p: Store, states: seq<System>, steps: seq<Step>, n: nat, c: nat)
    requires Run(p, states, steps) && n < |steps| && Bounded(p) && c in states[n].pc && c in states[n].ops
    requires states[n].pc[c] != Done(TooOld) && states[n + 1].pc[c] == Done(TooOld)
    ensures states[n].ops[c].Add? && Abs(states[n + 1]) == Abs(states[n])
    ensures var key, d := states[n].ops[c].key, Abs(states[n])[states[n].ops[c].key := states[n].ops[c].value];
      exists kept: Data :: NewestOf(p, map k | k in d && p.decode(d[k]).Some? :: d[k], kept) && key !in kept
  {
    GivesUpAfterReading(p, states[n], steps[n], c, TooOld);
    var op := states[n].ops[c];
    var d := Decodable(p, Abs(states[n])[op.key := op.value]);
    EvictedIsNewest(p, d, steps[n].order);
    assert op.key !in Evicted(p, d, steps[n].order);
  }

  /** An Add is never refused for the budget. */
  lemma {:induction false} NothingIsRefused(p: Store, states: seq<System>, steps: seq<Step>, n: nat, c: nat)
    requires Run(p, states, steps) && n < |states| && Bounded(p) && c in states[n].pc
    ensures states[n].pc[c] != Done(Refused)
  {
    if n > 0 {
      var s, st := states[n - 1], steps[n - 1];
      if c in s.pc {
        NothingIsRefused(p, states, steps, n - 1, c);
        RefusedWouldFit(p, s, st, c);
      }
    }
  }

  lemma RefusedWouldFit(p: Store, s: System, st: Step, c: nat)
    requires Bounded(p) && Enabled(p, s, st) && c in s.pc && s.pc[c] != Done(Refused)
    ensures c in Apply(p, s, st).pc && Apply(p, s, st).pc[c] != Done(Refused)
  {
    if (st.Get? || st.Create?) && st.c == c && s.ops[c].Add? && s.ops[c].key !in Abs(s) && Choosable(p, Abs(s), s.ops[c], st.order) {
      EvictionAlwaysMakesRoom(p, Abs(s), s.ops[c], st.order);
    }
  }

  // ---- conflicts ------------------------------------------------------------------

  /** How many updates the client has sent. */
  function Updates(steps: seq<Step>, n: nat, c: nat): nat
    requires n <= |steps|
  {
    if n == 0 then 0 else Updates(steps, n - 1, c) + if steps[n - 1] == Update(c) then 1 else 0
  }

  function TriesOf(pc: Pc): nat
    requires !pc.Done?
  {
    pc.tries
  }

  lemma {:induction false} TriesAreCounted(p: Store, states: seq<System>, steps: seq<Step>, n: nat, c: nat)
    requires Run(p, states, steps) && n < |states|
    ensures c in states[n].pc && !states[n].pc[c].Done? ==> TriesOf(states[n].pc[c]) == Updates(steps, n, c) < RETRIES
    ensures c !in states[n].pc ==> Updates(steps, n, c) == 0
  {
    if n > 0 {
      TriesAreCounted(p, states, steps, n - 1, c);
      RunInv(p, states, steps, n - 1);
      TriesStep(p, states[n - 1], steps[n - 1], c);
    }
  }

  lemma TriesStep(p: Store, s: System, st: Step, c: nat)
    requires Enabled(p, s, st) && s.pc.Keys == s.ops.Keys
    ensures var s' := Apply(p, s, st);
      && (c in s.pc ==> c in s'.pc)
      && (c in s.pc && s.pc[c].Done? ==> s'.pc[c] == s.pc[c])
      && (c in s'.pc && !s'.pc[c].Done? ==>
           if c in s.pc then
             TriesOf(s'.pc[c]) == TriesOf(s.pc[c]) + (if st == Update(c) then 1 else 0)
             && (st == Update(c) ==> TriesOf(s'.pc[c]) < RETRIES)
           else st.Invoke? && TriesOf(s'.pc[c]) == 0)
      && (st == Update(c) ==> c in s.pc)
  {
  }

  /** An update that lost its race is started over, five updates in all, and then fails; one that finds no object fails at once. */
  lemma ConflictsAreRetried(p: Store, states: seq<System>, steps: seq<Step>, n: nat, c: nat)
    requires Run(p, states, steps) && n < |steps| && steps[n] == Update(c) && !Lands(states, steps, n)
    ensures states[n].stored.Some? && Updates(steps, n + 1, c) < 5 ==> states[n + 1].pc[c].Start?
    ensures states[n].stored.None? || Updates(steps, n + 1, c) == 5 ==> states[n + 1].pc[c] == Done(Failed)
    ensures Updates(steps, n + 1, c) <= 5
  {
    TriesAreCounted(p, states, steps, n, c);
    RunInv(p, states, steps, n);
  }
}
