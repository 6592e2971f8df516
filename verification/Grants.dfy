/**
  The learned-grants store (internal/grants/grants.go): one ConfigMap for each
  user, written by optimistic-concurrency retry loops, bounded in entries and in
  serialized bytes by evicting the oldest grants.
*/
module Grants {
  import opened Common

  type Data = map<string, string>

  datatype Record = Record(pattern: string, argPattern: string, command: string, at: int)

  /** `decode` is JSON decoding of one value, `size` the length of the serialized map. */
  datatype Store = Store(max: nat, budget: nat, decode: string -> Option<Record>, size: Data -> nat)

  /** The serialized empty map, "{}", is within the budget. */
  ghost predicate Bounded(p: Store) {
    p.size(map[]) <= p.budget
  }

  predicate Fits(p: Store, d: Data) {
    |d| <= p.max && p.size(d) <= p.budget
  }

  // ---- eviction --------------------------------------------------------------

  function Decodable(p: Store, d: Data): Data {
    map k | k in d && p.decode(d[k]).Some? :: d[k]
  }

  function At(p: Store, d: Data, k: string): int {
    if k in d && p.decode(d[k]).Some? then p.decode(d[k]).value.at else 0
  }

  /** Some order sort.Slice may leave the keys in: by creation time, ties anyhow. */
  ghost predicate Orders(p: Store, d: Data, order: seq<string>) {
    && Distinct(order)
    && (forall k :: k in d <==> k in order)
    && forall i, j :: 0 <= i < j < |order| ==> At(p, d, order[i]) <= At(p, d, order[j])
  }

  function Evicted(p: Store, d: Data, order: seq<string>): Data {
    if order == [] || Fits(p, d) then d else Evicted(p, d - {order[0]}, order[1..])
  }

  /** The entries whose key is in the list. */
  function Only(d: Data, keys: seq<string>): Data {
    map k | k in d && k in keys :: d[k]
  }

  method DropUndecodable(p: Store, data: Data) returns (d: Data)
    ensures d == Decodable(p, data)
  {
    d := data;
    var keys := data.Keys;
    while keys != {}
      invariant keys <= data.Keys
      invariant d == map k | k in data && (k in keys || p.decode(data[k]).Some?) :: data[k]
      decreases keys
    {
      var k :| k in keys;
      if p.decode(data[k]).None? {
        d := d - {k};
      }
      keys := keys - {k};
    }
  }

  /** Undecodable entries go first; then the oldest, one by one, until both bounds hold. */
  method Evict(p: Store, data: Data, order: seq<string>) returns (d: Data, fits: bool)
    requires Orders(p, Decodable(p, data), order)
    ensures d == Evicted(p, Decodable(p, data), order) && fits == Fits(p, d)
  {
    d := DropUndecodable(p, data);
    ghost var start := d;
    var i := 0;
    while i < |order| && (|d| > p.max || p.size(d) > p.budget)
      invariant 0 <= i <= |order|
      invariant Evicted(p, start, order) == Evicted(p, d, order[i..])
    {
      assert order[i..][1..] == order[i + 1..];
      d := d - {order[i]};
      i := i + 1;
    }
    fits := |d| <= p.max && p.size(d) <= p.budget;
  }

  /** Dropping the first n keys is what eviction does, and each shorter drop breaks a bound. */
  ghost predicate LeastDrop(p: Store, d: Data, order: seq<string>, n: nat) {
    && n <= |order| && Evicted(p, d, order) == Only(d, order[n..]) && Fits(p, Only(d, order[n..]))
    && forall m :: 0 <= m < n ==> !Fits(p, Only(d, order[m..]))
  }

  lemma LeastDropOneMore(p: Store, d: Data, order: seq<string>, n: nat)
    requires Orders(p, d, order) && order != [] && !Fits(p, d)
    requires LeastDrop(p, d - {order[0]}, order[1..], n)
    ensures LeastDrop(p, d, order, n + 1)
  {
    assert Only(d, order[0..]) == d;
    OnlyTail(d, order, n + 1);
    forall m | 0 <= m < n + 1 ensures !Fits(p, Only(d, order[m..])) {
      if m > 0 {
        OnlyTail(d, order, m);
        assert !Fits(p, Only(d - {order[0]}, order[1..][m - 1..]));
      }
    }
  }

  /**
    Eviction ends within both bounds. What survives is a suffix of the order, so no
    survivor is older than anything evicted, and any shorter eviction along that
    order would have broken a bound.
  */
  lemma {:induction false} EvictKeepsTheNewest(p: Store, d: Data, order: seq<string>) returns (n: nat)
    requires Bounded(p) && Orders(p, d, order)
    ensures LeastDrop(p, d, order, n)
    ensures forall i, j :: 0 <= i < n <= j < |order| ==> At(p, d, order[i]) <= At(p, d, order[j])
    decreases |order|
  {
    if order == [] || Fits(p, d) {
      n := 0;
      assert order[0..] == order;
      assert Only(d, order) == d;
      assert order == [] ==> d == map[];
    } else {
      OrdersTail(p, d, order);
      var n' := EvictKeepsTheNewest(p, d - {order[0]}, order[1..]);
      LeastDropOneMore(p, d, order, n');
      n := n' + 1;
    }
  }

  lemma OrdersTail(p: Store, d: Data, order: seq<string>)
    requires Orders(p, d, order) && order != []
    ensures Orders(p, d - {order[0]}, order[1..])
  {
    var rest, tail := d - {order[0]}, order[1..];
    forall k ensures k in rest <==> k in tail {
      if k in rest {
        var i :| 0 <= i < |order| && order[i] == k;
        assert tail[i - 1] == k;
      }
    }
    forall i, j | 0 <= i < j < |tail| ensures At(p, rest, tail[i]) <= At(p, rest, tail[j]) {
      assert tail[i] == order[i + 1] && tail[j] == order[j + 1];
      assert tail[i] in rest && tail[j] in rest;
    }
  }

  lemma OnlyTail(d: Data, order: seq<string>, m: nat)
    requires Distinct(order) && 1 <= m <= |order|
    ensures order[1..][m - 1..] == order[m..] && Only(d - {order[0]}, order[m..]) == Only(d, order[m..])
  {
    assert order[0] !in order[m..];
  }

  /** Every map can be so ordered. */
  lemma {:induction false} AnOrderExists(p: Store, d: Data) returns (order: seq<string>)
    ensures Orders(p, d, order)
    decreases |d|
  {
    if d == map[] {
      order := [];
    } else {
      var k := Newest(p, d, d.Keys);
      var rest := d - {k};
      assert rest.Keys == d.Keys - {k};
      var before := AnOrderExists(p, rest);
      order := before + [k];
      assert forall x :: x in before ==> x in rest && At(p, rest, x) == At(p, d, x);
    }
  }

  lemma {:induction false} Newest(p: Store, d: Data, keys: set<string>) returns (k: string)
    requires keys != {}
    ensures k in keys && forall x :: x in keys ==> At(p, d, x) <= At(p, d, k)
    decreases keys
  {
    k := Pick(keys);
    if keys != {k} {
      var k' := Newest(p, d, keys - {k});
      if At(p, d, k') > At(p, d, k) {
        k := k';
      }
    }
  }

  // ---- the atomic map --------------------------------------------------------

  datatype Op = Add(key: string, value: string) | Remove(key: string)

  /** The data an operation writes: insert-if-absent then evict, or delete. */
  function Effect(p: Store, d: Data, op: Op, order: seq<string>): Data {
    match op
    case Add(key, value) => if key in d then d else Evicted(p, Decodable(p, d[key := value]), order)
    case Remove(key) => d - {key}
  }

  /** A linearized operation, or the object's garbage collection. */
  datatype Entry = Did(client: nat, op: Op, order: seq<string>) | Collected

  function After(p: Store, d: Data, e: Entry): Data {
    if e.Did? then Effect(p, d, e.op, e.order) else map[]
  }

  function Replay(p: Store, log: seq<Entry>): Data {
    if log == [] then map[] else After(p, Replay(p, log[..|log| - 1]), log[|log| - 1])
  }

  lemma ReplaySnoc(p: Store, log: seq<Entry>, e: Entry)
    ensures Replay(p, log + [e]) == After(p, Replay(p, log), e)
  {
    assert (log + [e])[..|log|] == log;
  }

  // ---- the API server and its clients ----------------------------------------

  datatype Object = Object(data: Data, rv: nat)

  datatype Result = Stored | Refused | TooOld | Failed

  datatype Pc =
    | Start(tries: nat)
    | Missing(tries: nat)                                     // ensure's Get answered NotFound
    | Reread(tries: nat)                                      // its Create answered AlreadyExists
    | Updating(tries: nat, rv: nat, base: Data, order: seq<string>)
    | Done(result: Result)

  const RETRIES := 5

  /** The user's ConfigMap as the API server holds it. */
  class ConfigMap {
    var stored: Option<Object>
    var nextRv: nat

    constructor ()
      ensures stored == None
    {
      stored, nextRv := None, 0;
    }

    ghost function Contents(): Data
      reads this
    {
      if stored.Some? then stored.value.data else map[]
    }

    /** The object, created empty when it is missing. */
    method Ensure() returns (cm: Object)
      modifies this
      ensures stored == Some(cm) && Contents() == old(Contents())
    {
      if stored.None? {
        stored := Some(Object(map[], nextRv));
        nextRv := nextRv + 1;
      }
      cm := stored.value;
    }

    /** An update names the version it read. */
    method Put(data: Data, rv: nat) returns (ok: bool)
      modifies this
      ensures ok == (old(stored).Some? && old(stored).value.rv == rv)
      ensures stored == if ok then Some(Object(data, old(nextRv))) else old(stored)
    {
      ok := stored.Some? && stored.value.rv == rv;
      if ok {
        stored := Some(Object(data, nextRv));
        nextRv := nextRv + 1;
      }
    }

    /** One round of Add with nobody in between. */
    method AddOnce(p: Store, key: string, value: string, order: seq<string>) returns (r: Result)
      requires Choosable(p, Contents(), Add(key, value), order)
      modifies this
      ensures key in old(Contents()) ==> r == Stored && Contents() == old(Contents())
      ensures key !in old(Contents()) ==>
                var d := Evicted(p, Decodable(p, old(Contents())[key := value]), order);
                && r == (if !Fits(p, d) then Refused else if key !in d then TooOld else Stored)
                && Contents() == if r.Stored? then d else old(Contents())
    {
      var cm := Ensure();
      if key in cm.data {
        return Stored;
      }
      var d, fits := Evict(p, cm.data[key := value], order);
      if !fits {
        return Refused;
      }
      if key !in d {
        return TooOld;
      }
      var ok := Put(d, cm.rv);
      r := if ok then Stored else Failed;
    }

    method RemoveOnce(key: string) returns (r: Result)
      modifies this
      ensures r == Stored && Contents() == old(Contents()) - {key}
    {
      if stored.None? || key !in stored.value.data {
        return Stored;
      }
      var ok := Put(stored.value.data - {key}, stored.value.rv);
      r := if ok then Stored else Failed;
    }
  }

  /** `log` and `entryOf` are history: the atomic operations in the order they took effect. */
  datatype System = System(
    stored: Option<Object>, nextRv: nat, ops: map<nat, Op>, pc: map<nat, Pc>,
    log: seq<Entry>, entryOf: map<nat, nat>)

  datatype Step =
    | Invoke(c: nat, op: Op)
    | Get(c: nat, order: seq<string>)
    | Create(c: nat, order: seq<string>)
    | Update(c: nat)
    | UpdateReplyLost(c: nat)
    | CallFails(c: nat)
    | Collect

  function Abs(s: System): Data {
    match s.stored
    case Some(o) => o.data
    case None => map[]
  }

  predicate Active(s: System, c: nat) {
    c in s.pc && c in s.ops && !s.pc[c].Done?
  }

  ghost predicate Enabled(p: Store, s: System, st: Step) {
    match st
    case Invoke(c, _) => c !in s.pc && c !in s.ops
    case Get(c, order) => Active(s, c) && (s.pc[c].Start? || s.pc[c].Reread?) && Choosable(p, Abs(s), s.ops[c], order)
    case Create(c, order) => Active(s, c) && s.pc[c].Missing? && s.ops[c].Add? && Choosable(p, map[], s.ops[c], order)
    case Update(c) => Active(s, c) && s.pc[c].Updating?
    case UpdateReplyLost(c) => Active(s, c) && s.pc[c].Updating? && Current(s, s.pc[c].rv)
    case CallFails(c) => Active(s, c)
    case Collect => true
  }

  ghost predicate Choosable(p: Store, d: Data, op: Op, order: seq<string>) {
    op.Add? ==> Orders(p, Decodable(p, d[op.key := op.value]), order)
  }

  predicate Current(s: System, rv: nat) {
    s.stored.Some? && s.stored.value.rv == rv
  }

  /** What a step makes of its client: it moves on, or its operation takes effect and it returns. */
  datatype Move = Goes(pc: Pc) | Takes(order: seq<string>, result: Result)

  /** What the closure does with the object it read: a no-op returns at once. */
  function AfterRead(p: Store, o: Object, op: Op, tries: nat, order: seq<string>): Move {
    if (op.Add? && op.key in o.data) || (op.Remove? && op.key !in o.data) then Takes(order, Stored)
    else if op.Add? && !Fits(p, Effect(p, o.data, op, order)) then Goes(Done(Refused))
    else if op.Add? && op.key !in Effect(p, o.data, op, order) then Goes(Done(TooOld))
    else Goes(Updating(tries, o.rv, o.data, order))
  }

  predicate ClientStep(st: Step) {
    !st.Invoke? && !st.Collect?
  }

  ghost function MoveOf(p: Store, s: System, st: Step): Move
    requires Enabled(p, s, st) && ClientStep(st)
  {
    var pc, op := s.pc[st.c], s.ops[st.c];
    match st
    case Get(_, order) =>
      if s.stored.Some? then AfterRead(p, s.stored.value, op, pc.tries, order)
      else if op.Remove? then Takes(order, Stored)
      else Goes(if pc.Reread? then Done(Failed) else Missing(pc.tries))
    case Create(_, order) =>
      if s.stored.Some? then Goes(Reread(pc.tries)) else AfterRead(p, Object(map[], s.nextRv), op, pc.tries, order)
    case Update(_) =>
      if Current(s, pc.rv) then Takes(pc.order, Stored)
      else Goes(if s.stored.None? || pc.tries + 1 >= RETRIES then Done(Failed) else Start(pc.tries + 1))
    case UpdateReplyLost(_) => Takes(pc.order, Failed)
    case CallFails(_) => Goes(Done(Failed))
  }

  /** The content a step writes, if it writes. */
  ghost function WriteOf(p: Store, s: System, st: Step): Option<Data>
    requires Enabled(p, s, st)
  {
    match st
    case Create(c, _) => if s.stored.None? then Some(map[]) else None
    case Update(c) => if Current(s, s.pc[c].rv) then Some(Effect(p, s.pc[c].base, s.ops[c], s.pc[c].order)) else None
    case UpdateReplyLost(c) => Some(Effect(p, s.pc[c].base, s.ops[c], s.pc[c].order))
    case _ => None
  }

  function Moved(s: System, c: nat, m: Move, w: Option<Data>): System
    requires c in s.ops
  {
    System(
      if w.Some? then Some(Object(w.value, s.nextRv)) else s.stored,
      if w.Some? then s.nextRv + 1 else s.nextRv,
      s.ops,
      s.pc[c := if m.Goes? then m.pc else Done(m.result)],
      if m.Takes? then s.log + [Did(c, s.ops[c], m.order)] else s.log,
      if m.Takes? then s.entryOf[c := |s.log|] else s.entryOf)
  }

  ghost function Apply(p: Store, s: System, st: Step): System
    requires Enabled(p, s, st)
  {
    match st
    case Invoke(c, op) => s.(pc := s.pc[c := Start(0)], ops := s.ops[c := op])
    case Collect => s.(stored := None, log := s.log + [Collected])
    case _ => Moved(s, st.c, MoveOf(p, s, st), WriteOf(p, s, st))
  }

  ghost function Init(): System {
    System(None, 0, map[], map[], [], map[])
  }

  // ---- the invariant ---------------------------------------------------------

  /** A resource version names one content: the base a writer holds is the current data while the version stands. */
  ghost predicate VersionsInv(o: Option<Object>, nextRv: nat, pc: map<nat, Pc>) {
    && (o.Some? ==> o.value.rv < nextRv)
    && (forall c :: c in pc && pc[c].Updating? ==>
         pc[c].rv < nextRv && (o.Some? && o.value.rv == pc[c].rv ==> o.value.data == pc[c].base))
  }

  /** Each client has at most one entry; a returned nil has one. */
  ghost predicate EntriesInv(ops: map<nat, Op>, pc: map<nat, Pc>, log: seq<Entry>, entryOf: map<nat, nat>) {
    && pc.Keys == ops.Keys && entryOf.Keys <= pc.Keys
    && (forall c :: c in entryOf ==>
         entryOf[c] < |log| && log[entryOf[c]].Did? && log[entryOf[c]].client == c && log[entryOf[c]].op == ops[c])
    && (forall i :: 0 <= i < |log| && log[i].Did? ==> log[i].client in entryOf && entryOf[log[i].client] == i)
    && (forall c :: c in pc && !pc[c].Done? ==> c !in entryOf)
    && (forall c :: c in pc && pc[c] == Done(Stored) ==> c in entryOf)
  }

  /** What a writer is about to store is within the bounds and holds its key. */
  ghost predicate WritersInv(p: Store, ops: map<nat, Op>, pc: map<nat, Pc>) {
    forall c :: c in pc && c in ops && pc[c].Updating? && ops[c].Add? ==> Good(p, ops[c], pc[c].base, pc[c].order)
  }

  ghost predicate Good(p: Store, op: Op, base: Data, order: seq<string>)
    requires op.Add?
  {
    var d := Effect(p, base, op, order);
    Choosable(p, base, op, order) && op.key !in base && op.key in d && Fits(p, d)
  }

  ghost predicate Inv(p: Store, s: System) {
    && VersionsInv(s.stored, s.nextRv, s.pc) && EntriesInv(s.ops, s.pc, s.log, s.entryOf)
    && WritersInv(p, s.ops, s.pc) && Abs(s) == Replay(p, s.log)
  }

  lemma VersionsWrite(o: Option<Object>, nextRv: nat, pc: map<nat, Pc>, d: Data)
    requires VersionsInv(o, nextRv, pc)
    ensures VersionsInv(Some(Object(d, nextRv)), nextRv + 1, pc)
  {
  }

  lemma VersionsMove(o: Option<Object>, nextRv: nat, pc: map<nat, Pc>, c: nat, pc': Pc)
    requires VersionsInv(o, nextRv, pc)
    requires pc'.Updating? ==> o.Some? && o.value == Object(pc'.base, pc'.rv)
    ensures VersionsInv(o, nextRv, pc[c := pc'])
  {
  }

  /** A client that starts to write holds the object as it is. */
  lemma WriterHoldsTheObject(p: Store, s: System, st: Step)
    requires Enabled(p, s, st) && ClientStep(st)
    ensures var s' := Apply(p, s, st);
      s'.pc[st.c].Updating? ==> s'.stored == Some(Object(s'.pc[st.c].base, s'.pc[st.c].rv))
  {
  }

  lemma VersionsStep(p: Store, s: System, st: Step)
    requires Inv(p, s) && Enabled(p, s, st)
    ensures var s' := Apply(p, s, st); VersionsInv(s'.stored, s'.nextRv, s'.pc)
  {
    if ClientStep(st) {
      var s' := Apply(p, s, st);
      WriterHoldsTheObject(p, s, st);
      if WriteOf(p, s, st).Some? {
        VersionsWrite(s.stored, s.nextRv, s.pc, WriteOf(p, s, st).value);
      }
      VersionsMove(s'.stored, s'.nextRv, s.pc, st.c, s'.pc[st.c]);
    }
  }

  lemma EntriesTakes(ops: map<nat, Op>, pc: map<nat, Pc>, log: seq<Entry>, entryOf: map<nat, nat>, c: nat, m: Move)
    requires EntriesInv(ops, pc, log, entryOf) && c in pc && !pc[c].Done? && m.Takes?
    ensures EntriesInv(ops, pc[c := Done(m.result)], log + [Did(c, ops[c], m.order)], entryOf[c := |log|])
  {
  }

  lemma EntriesGoes(ops: map<nat, Op>, pc: map<nat, Pc>, log: seq<Entry>, entryOf: map<nat, nat>, c: nat, m: Move)
    requires EntriesInv(ops, pc, log, entryOf) && c in pc && !pc[c].Done? && m.Goes? && m.pc != Done(Stored)
    ensures EntriesInv(ops, pc[c := m.pc], log, entryOf)
  {
  }

  lemma EntriesStep(p: Store, s: System, st: Step)
    requires Inv(p, s) && Enabled(p, s, st)
    ensures var s' := Apply(p, s, st); EntriesInv(s'.ops, s'.pc, s'.log, s'.entryOf)
  {
    if ClientStep(st) {
      var m := MoveOf(p, s, st);
      if m.Takes? {
        EntriesTakes(s.ops, s.pc, s.log, s.entryOf, st.c, m);
      } else {
        EntriesGoes(s.ops, s.pc, s.log, s.entryOf, st.c, m);
      }
    }
  }

  lemma WritersStep(p: Store, s: System, st: Step)
    requires Inv(p, s) && Enabled(p, s, st)
    ensures var s' := Apply(p, s, st); WritersInv(p, s'.ops, s'.pc)
  {
    if ClientStep(st) {
      var c, s' := st.c, Apply(p, s, st);
      if s'.pc[c].Updating? && s.ops[c].Add? {
        assert Good(p, s.ops[c], s'.pc[c].base, s'.pc[c].order);
      }
    }
  }

  /** A read that ends its call found nothing to do. */
  lemma ReadsTakeNothing(p: Store, s: System, st: Step)
    requires Enabled(p, s, st) && (st.Get? || st.Create?)
    ensures var m := MoveOf(p, s, st);
      Abs(Apply(p, s, st)) == Abs(s) && (m.Takes? ==> Effect(p, Abs(s), s.ops[st.c], m.order) == Abs(s))
  {
  }

  /** A write that lands found the data its base holds. */
  lemma WritesTakeTheirEffect(p: Store, s: System, st: Step)
    requires VersionsInv(s.stored, s.nextRv, s.pc) && Enabled(p, s, st) && (st.Update? || st.UpdateReplyLost? || st.CallFails?)
    ensures var m := MoveOf(p, s, st);
      Abs(Apply(p, s, st)) == if m.Takes? then Effect(p, Abs(s), s.ops[st.c], m.order) else Abs(s)
  {
  }

  lemma RefinesMoved(p: Store, s: System, c: nat, m: Move, w: Option<Data>)
    requires c in s.ops && Abs(s) == Replay(p, s.log)
    requires Abs(Moved(s, c, m, w)) == if m.Takes? then Effect(p, Abs(s), s.ops[c], m.order) else Abs(s)
    ensures Abs(Moved(s, c, m, w)) == Replay(p, Moved(s, c, m, w).log)
  {
    if m.Takes? {
      ReplaySnoc(p, s.log, Did(c, s.ops[c], m.order));
    }
  }

  lemma ClientStepEffect(p: Store, s: System, st: Step)
    requires VersionsInv(s.stored, s.nextRv, s.pc) && Enabled(p, s, st) && ClientStep(st)
    ensures var m := MoveOf(p, s, st);
      Abs(Moved(s, st.c, m, WriteOf(p, s, st))) == if m.Takes? then Effect(p, Abs(s), s.ops[st.c], m.order) else Abs(s)
  {
    if st.Get? || st.Create? {
      ReadsTakeNothing(p, s, st);
    } else {
      WritesTakeTheirEffect(p, s, st);
    }
  }

  /** Only a write or a collection changes the data, and a write only as its atomic operation does. */
  lemma RefinesStep(p: Store, s: System, st: Step)
    requires VersionsInv(s.stored, s.nextRv, s.pc) && Abs(s) == Replay(p, s.log) && Enabled(p, s, st)
    ensures Abs(Apply(p, s, st)) == Replay(p, Apply(p, s, st).log)
  {
    if ClientStep(st) {
      ClientStepEffect(p, s, st);
      RefinesMoved(p, s, st.c, MoveOf(p, s, st), WriteOf(p, s, st));
    } else if st.Collect? {
      ReplaySnoc(p, s.log, Collected);
    }
  }

  lemma {:induction false} StepInv(p: Store, s: System, st: Step)
    requires Inv(p, s) && Enabled(p, s, st)
    ensures Inv(p, Apply(p, s, st))
  {
    VersionsStep(p, s, st);
    EntriesStep(p, s, st);
    WritersStep(p, s, st);
    RefinesStep(p, s, st);
  }
}
