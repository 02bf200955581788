/** A hooking session: the numbered log of runtime events, its pages, and its batches for the database. */
module HookSession {
  import opened Model

  // ---------- messages and events ----------

  datatype Fragment = Fragment(emitEvent: string, location: int)

  /** The hooks known to the manager, by identifier, with their fragments. */
  type Hooks = map<string, map<string, Fragment>>

  /** A message received from a hook: the properties that `push` looks at. */
  datatype Raw = Raw(
    hid: Option<string>, fid: Option<string>, err: Option<int>,
    fsid: Option<string>, fztype: Option<string>, data: string)

  datatype RuntimeType = HOOK | FRAG_ERROR | HOOK_ERROR | FUZZER | INPUT_EVT

  datatype Event =
    | HookEvent(id: nat, uid: nat, kind: string, rt: RuntimeType, hid: string, fragment: Option<Fragment>, data: string)
    | ExtraEvent(kind: string, rt: RuntimeType, data: string)

  datatype PushResult = MissingHook | TypeError | Fuzzed(event: Event) | Stored(event: Event)

  // ---------- the session as a state machine ----------

  const BATCH: nat := 100

  /** `saved` lists the batches handed to the database so far. */
  datatype State = State(message: seq<Event>, offset: nat, batch: seq<Event>, saved: seq<seq<Event>>)

  const FRESH := State([], 0, [], [])

  datatype Op = Push(raw: Raw, hooks: Hooks) | Extra(event: Option<Event>, kind: string)

  function FragmentOf(raw: Raw, hooks: Hooks): Option<Fragment>
    requires raw.hid.Some? && raw.hid.value in hooks
  {
    var fragments := hooks[raw.hid.value];
    if raw.fid.Some? && raw.fid.value in fragments then Some(fragments[raw.fid.value]) else None
  }

  /** The hook exists, and so does the fragment if one is named. */
  predicate Resolves(raw: Raw, hooks: Hooks) {
    raw.hid.Some? && raw.hid.value in hooks && (raw.fid.Some? ==> FragmentOf(raw, hooks).Some?)
  }

  predicate IsFuzz(raw: Raw) {
    raw.fsid.Some? && raw.fztype.Some?
  }

  function MakeEvent(raw: Raw, hooks: Hooks, id: nat, uid: nat): Event
    requires Resolves(raw, hooks)
  {
    var frag := FragmentOf(raw, hooks);
    var rt := match raw.err case None => HOOK case Some(e) => if e == -1 then FRAG_ERROR else HOOK_ERROR;
    if IsFuzz(raw) then HookEvent(id, uid, "fuzz." + raw.fztype.value, FUZZER, raw.hid.value, frag, raw.data)
    else HookEvent(id, uid, if frag.Some? then frag.value.emitEvent else "*", rt, raw.hid.value, frag, raw.data)
  }

  function Outcome(s: State, raw: Raw, hooks: Hooks): PushResult {
    if raw.hid.None? then MissingHook
    else if !Resolves(raw, hooks) then TypeError
    else
      var ev := MakeEvent(raw, hooks, |s.message|, s.offset);
      if IsFuzz(raw) then Fuzzed(ev) else Stored(ev)
  }

  function Log(s: State, ev: Event): State {
    s.(message := s.message + [ev], offset := s.offset + 1)
  }

  /** A full batch goes to the database when the next event comes in. */
  function Batched(s: State, ev: Event, size: nat): State {
    if |s.batch| == size then s.(batch := [ev], saved := s.saved + [s.batch])
    else s.(batch := s.batch + [ev])
  }

  function WithKind(ev: Event, kind: string): Event {
    if ev.HookEvent? then ev.(kind := kind) else ev.(kind := kind)
  }

  function Step(s: State, op: Op): State {
    match op
    case Push(raw, hooks) =>
      var r := Outcome(s, raw, hooks);
      if r.Stored? then Batched(Log(s, r.event), r.event, BATCH) else s
    case Extra(None, _) => s
    case Extra(Some(ev), kind) => Log(s, WithKind(ev, kind))
  }

  function Run(ops: seq<Op>): State {
    if ops == [] then FRESH else Step(Run(ops[..|ops| - 1]), ops[|ops| - 1])
  }

  /** What one operation does. A push without hook identifier, or for an unknown hook or fragment, and a fuzzing
      message leave the session as it was; any other push logs a message, which is numbered by its place
      and the offset, has the type of its fragment, and goes to the batch. An extra event is logged. */
  lemma StepIs(s: State, op: Op)
    ensures var next := Step(s, op);
      match op
      case Push(raw, hooks) =>
        if raw.hid.None? || raw.hid.value !in hooks || (raw.fid.Some? && raw.fid.value !in hooks[raw.hid.value])
            || (raw.fsid.Some? && raw.fztype.Some?) then
          next == s
        else
          var frag := if raw.fid.Some? then Some(hooks[raw.hid.value][raw.fid.value]) else None;
          var kind := if frag.Some? then frag.value.emitEvent else "*";
          var rt := if raw.err.None? then HOOK else if raw.err.value == -1 then FRAG_ERROR else HOOK_ERROR;
          var ev := HookEvent(|s.message|, s.offset, kind, rt, raw.hid.value, frag, raw.data);
          && next.message == s.message + [ev] && next.offset == s.offset + 1
          && (|s.batch| != 100 ==> next.saved == s.saved && next.batch == s.batch + [ev])
          && (|s.batch| == 100 ==> next.saved == s.saved + [s.batch] && next.batch == [ev])
      case Extra(None, _) => next == s
      case Extra(Some(HookEvent(id, uid, _, rt, hid, frag, data)), kind) =>
        next == s.(message := s.message + [HookEvent(id, uid, kind, rt, hid, frag, data)], offset := s.offset + 1)
      case Extra(Some(ExtraEvent(_, rt, data)), kind) =>
        next == s.(message := s.message + [ExtraEvent(kind, rt, data)], offset := s.offset + 1)
  {
  }

  // ---------- what a run promises ----------

  /** Whether an operation adds to the log, as far as its arguments tell. */
  predicate Accepts(op: Op) {
    match op
    case Push(raw, hooks) => Resolves(raw, hooks) && !IsFuzz(raw)
    case Extra(ev, _) => ev.Some?
  }

  function Accepted(ops: seq<Op>): seq<Op> {
    if ops == [] then [] else
      Accepted(ops[..|ops| - 1]) + if Accepts(ops[|ops| - 1]) then [ops[|ops| - 1]] else []
  }

  /** The entry an accepted operation leaves at place `i` of the log. */
  function Entry(op: Op, i: nat): Event
    requires Accepts(op)
  {
    match op
    case Push(raw, hooks) => MakeEvent(raw, hooks, i, i)
    case Extra(ev, kind) => WithKind(ev.value, kind)
  }

  /** In every run, a hook message that is not an event handed in otherwise has its place in the log as uid
      and as id; and all that it holds is told from the message pushed and from the hooks at that time. */
  lemma MessagesTell(ops: seq<Op>)
    ensures |Run(ops).message| == |Accepted(ops)|
    ensures forall i :: 0 <= i < |Accepted(ops)| && Accepted(ops)[i].Push? ==>
      var e, raw, hooks := Run(ops).message[i], Accepted(ops)[i].raw, Accepted(ops)[i].hooks;
      && e.HookEvent? && e.uid == i && e.id == i
      && raw.hid == Some(e.hid) && e.hid in hooks && e.data == raw.data
      && (raw.fid.None? ==> e.fragment == None && e.kind == "*")
      && (raw.fid.Some? ==>
           && raw.fid.value in hooks[e.hid] && e.fragment == Some(hooks[e.hid][raw.fid.value])
           && e.kind == hooks[e.hid][raw.fid.value].emitEvent)
      && (raw.err.None? ==> e.rt == HOOK)
      && (raw.err == Some(-1) ==> e.rt == FRAG_ERROR)
      && (raw.err.Some? && raw.err != Some(-1) ==> e.rt == HOOK_ERROR)
      && (raw.fsid.None? || raw.fztype.None?)
    ensures (forall op :: op in ops && op.Extra? && op.event.Some? ==> op.event.value.ExtraEvent?) ==>
      forall i :: 0 <= i < |Run(ops).message| && Run(ops).message[i].HookEvent? ==>
        Run(ops).message[i].uid == i && Run(ops).message[i].id == i
  {
    LogIsAccepted(ops);
    AcceptedOps(ops);
  }

  /** An operation is accepted if it is one of the run and its arguments say so. */
  lemma {:induction false} AcceptedOps(ops: seq<Op>)
    ensures forall op :: op in Accepted(ops) <==> op in ops && Accepts(op)
  {
    if ops != [] {
      AcceptedOps(ops[..|ops| - 1]);
      assert ops == ops[..|ops| - 1] + [ops[|ops| - 1]];
    }
  }

  /** The log holds one entry for each accepted operation, in order; the offset is its length, and
      a hook message is numbered by its place. */
  lemma {:induction false} LogIsAccepted(ops: seq<Op>)
    ensures var s := Run(ops);
      && s.offset == |s.message| == |Accepted(ops)|
      && forall i :: 0 <= i < |s.message| ==> Accepts(Accepted(ops)[i]) && s.message[i] == Entry(Accepted(ops)[i], i)
  {
    if ops != [] {
      LogIsAccepted(ops[..|ops| - 1]);
    }
  }

  /** The hook messages of a run: the accepted pushes, at their places in the log. */
  function Pushed(ops: seq<Op>): seq<Event> {
    if ops == [] then [] else
      var init, op := ops[..|ops| - 1], ops[|ops| - 1];
      Pushed(init) + if op.Push? && Accepts(op) then [Entry(op, |Accepted(init)|)] else []
  }

  function Flatten(batches: seq<seq<Event>>): seq<Event> {
    if batches == [] then [] else Flatten(batches[..|batches| - 1]) + batches[|batches| - 1]
  }

  /** Batches partition a sequence of events: full ones, then a non-empty rest unless there is no event. */
  ghost predicate Partition(s: State, evs: seq<Event>, size: nat) {
    && Flatten(s.saved) + s.batch == evs
    && (forall b :: b in s.saved ==> |b| == size)
    && |s.batch| <= size && (s.batch == [] ==> s.saved == [])
  }

  lemma BatchedPartition(s: State, evs: seq<Event>, ev: Event, size: nat)
    requires Partition(s, evs, size) && size > 0
    ensures Partition(Batched(s, ev, size), evs + [ev], size)
  {
    if |s.batch| == size {
      var saved := s.saved + [s.batch];
      assert saved[..|saved| - 1] == s.saved;
    }
  }

  lemma {:induction false} FlattenLength(batches: seq<seq<Event>>, size: nat)
    requires forall b :: b in batches ==> |b| == size
    ensures |Flatten(batches)| == |batches| * size
  {
    if batches != [] {
      var n := |batches| - 1;
      FlattenLength(batches[..n], size);
      assert (n + 1) * size == n * size + size;
    }
  }

  /** There are floor((k - 1) / size) saves after `k` events. */
  lemma SaveCount(s: State, evs: seq<Event>, size: nat)
    requires Partition(s, evs, size) && size > 0
    ensures |s.saved| == if evs == [] then 0 else (|evs| - 1) / size
  {
    FlattenLength(s.saved, size);
    var q, r := |s.saved|, |s.batch|;
    assert |evs| == q * size + r;
    if evs != [] {
      DivUnique(|evs| - 1, size, q, r - 1);
    }
  }

  lemma DivUnique(n: nat, d: nat, q: nat, r: int)
    requires d > 0 && n == q * d + r && 0 <= r < d
    ensures n / d == q
  {
    assert n == n / d * d + n % d;
    QuotientUnique(n / d, n % d, q, r, d);
  }

  lemma QuotientUnique(k: int, m: int, q: int, r: int, d: int)
    requires k * d + m == q * d + r && 0 <= m < d && 0 <= r < d
    ensures k == q
  {
    Apart(k, q, d);
    Apart(q, k, d);
  }

  lemma Apart(k: int, q: int, d: int)
    requires d > 0
    ensures k > q ==> k * d >= q * d + d
  {
    var e := k - q - 1;
    assert k * d == (q + 1 + e) * d == q * d + d + e * d;
  }

  /** Nothing is lost, doubled or reordered on the way to the database: the saved batches followed by
      the waiting one are the hook messages of the run; every saved batch is full. */
  lemma {:induction false} BatchesArePushed(ops: seq<Op>)
    ensures Partition(Run(ops), Pushed(ops), BATCH)
    ensures |Run(ops).saved| == if Pushed(ops) == [] then 0 else (|Pushed(ops)| - 1) / BATCH
  {
    if ops != [] {
      var init, op := ops[..|ops| - 1], ops[|ops| - 1];
      BatchesArePushed(init);
      LogIsAccepted(init);
      if op.Push? && Accepts(op) {
        var ev := Entry(op, |Accepted(init)|);
        BatchedPartition(Log(Run(init), ev), Pushed(init), ev, BATCH);
      }
      hide Flatten, MakeEvent, Batched;
    }
    SaveCount(Run(ops), Pushed(ops), BATCH);
  }

  // ---------- pages ----------

  /** The messages at the places from `offset` on, `size` of them, that exist. */
  function Page(log: seq<Event>, offset: int, size: int): seq<Event>
    decreases size
  {
    if size <= 0 then [] else
      Page(log, offset, size - 1) + (var i := offset + size - 1; if 0 <= i < |log| then [log[i]] else [])
  }

  /** The nearest place of the log, or its end. */
  function Clip(log: seq<Event>, i: int): (k: nat)
    ensures k <= |log| && (0 <= i <= |log| ==> k == i) && (i < 0 ==> k == 0) && (i > |log| ==> k == |log|)
  {
    if i < 0 then 0 else if i > |log| then |log| else i
  }

  /** A page is the part of the log between its bounds, also for bounds outside of the log. */
  lemma {:induction false} PageIsSlice(log: seq<Event>, offset: int, size: int)
    ensures size >= 0 ==> Page(log, offset, size) == log[Clip(log, offset)..Clip(log, offset + size)]
    ensures size < 0 ==> Page(log, offset, size) == []
  {
    if size > 0 {
      PageIsSlice(log, offset, size - 1);
    }
  }

  /** Pages of one size, one after the other. */
  function Pages(log: seq<Event>, size: nat, count: nat): seq<Event> {
    if count == 0 then [] else Pages(log, size, count - 1) + Page(log, (count - 1) * size, size)
  }

  /** Consecutive pages concatenate to the log up to where they stop. */
  lemma {:induction false} PagesAreLog(log: seq<Event>, size: nat, count: nat)
    ensures Pages(log, size, count) == log[..if count * size <= |log| then count * size else |log|]
  {
    if count > 0 {
      PagesAreLog(log, size, count - 1);
      var from := (count - 1) * size;
      assert count * size == from + size;
      PageIsSlice(log, from, size);
    }
  }

  /** Reading on while the session runs: a page within the log stays as it was read. */
  lemma {:induction false} PagesStay(ops: seq<Op>, more: seq<Op>, offset: nat, size: nat)
    requires offset + size <= |Run(ops).message|
    ensures Run(ops).message <= Run(ops + more).message
    ensures Page(Run(ops + more).message, offset, size) == Page(Run(ops).message, offset, size)
  {
    if more == [] {
      assert ops + more == ops;
    } else {
      var all := ops + more;
      assert all[..|all| - 1] == ops + more[..|more| - 1];
      PagesStay(ops, more[..|more| - 1], offset, size);
    }
    PageIsSlice(Run(ops).message, offset, size);
    PageIsSlice(Run(ops + more).message, offset, size);
  }

  // ---------- the session ----------

  class Session {
    var message: seq<Event>
    var offset: nat
    var batch: seq<Event>
    ghost var saved: seq<seq<Event>>

    ghost function View(): State
      reads this
    {
      State(message, offset, batch, saved)
    }

    constructor ()
      ensures View() == Run([])
    {
      message, offset, batch, saved := [], 0, [], [];
    }

    method PushMessage(raw: Raw, hooks: Hooks) returns (r: PushResult)
      modifies this
      ensures r == Outcome(old(View()), raw, hooks)
      ensures View() == Step(old(View()), Push(raw, hooks))
      ensures raw.hid.None? <==> r == MissingHook
      ensures raw.hid.Some? && (raw.hid.value !in hooks || (raw.fid.Some? && raw.fid.value !in hooks[raw.hid.value]))
        <==> r == TypeError
      ensures r.MissingHook? || r.TypeError? || r.Fuzzed? ==>
        message == old(message) && offset == old(offset) && batch == old(batch) && saved == old(saved)
      ensures r.Fuzzed? || r.Stored? ==>
        var frag := if raw.fid.Some? then Some(hooks[raw.hid.value][raw.fid.value]) else None;
        var kind := if frag.Some? then frag.value.emitEvent else "*";
        var rt := if raw.err.None? then HOOK else if raw.err.value == -1 then FRAG_ERROR else HOOK_ERROR;
        if raw.fsid.Some? && raw.fztype.Some? then
          r == Fuzzed(HookEvent(old(|message|), old(offset), "fuzz." + raw.fztype.value, FUZZER, raw.hid.value, frag,
            raw.data))
        else
          && r == Stored(HookEvent(old(|message|), old(offset), kind, rt, raw.hid.value, frag, raw.data))
          && message == old(message) + [r.event] && offset == old(offset) + 1
    {
      var id := |message|;
      if raw.hid.None? {
        return MissingHook;
      }
      var uid := offset;
      var kind, rt, frag := "*", HOOK, None;
      if raw.hid.value in hooks && raw.fid.Some? {
        frag := FragmentOf(raw, hooks);
        if frag.None? {
          return TypeError;
        }
        kind := frag.value.emitEvent;
      }
      if raw.err.Some? {
        rt := if raw.err.value == -1 then FRAG_ERROR else HOOK_ERROR;
      }
      if raw.hid.value !in hooks {
        return TypeError;
      }
      if raw.fsid.Some? && raw.fztype.Some? {
        return Fuzzed(HookEvent(id, uid, "fuzz." + raw.fztype.value, FUZZER, raw.hid.value, frag, raw.data));
      }
      offset := offset + 1;
      var ev := HookEvent(id, uid, kind, rt, raw.hid.value, frag, raw.data);
      message := message + [ev];
      var _ := BatchSave(ev, BATCH);
      return Stored(ev);
    }

    /** 1 when a batch went to the database, else -1. */
    method BatchSave(ev: Event, size: nat) returns (r: int)
      modifies this`batch, this`saved
      ensures View() == Batched(old(View()), ev, size)
      ensures old(|batch|) == size ==> saved == old(saved + [batch]) && batch == [ev]
      ensures old(|batch|) != size ==> saved == old(saved) && batch == old(batch) + [ev]
      ensures r == if saved == old(saved) then -1 else 1
    {
      if |batch| == size {
        saved := saved + [batch];
        batch := [ev];
        r := 1;
      } else {
        batch := batch + [ev];
        r := -1;
      }
    }

    method PushExtraRuntimeEvent(ev: Option<Event>, kind: string)
      modifies this
      ensures View() == Step(old(View()), Extra(ev, kind))
    {
      if ev.Some? {
        offset := offset + 1;
        message := message + [WithKind(ev.value, kind)];
      }
    }

    method GetMessages(from: int, size: int) returns (arr: seq<Event>)
      ensures arr == Page(message, from, size)
      ensures size >= 0 ==> arr == message[Clip(message, from)..Clip(message, from + size)]
    {
      arr := [];
      var i := from;
      while i < from + size
        invariant i <= from + (if size > 0 then size else 0) && from <= i
        invariant arr == Page(message, from, i - from)
      {
        if 0 <= i < |message| {
          arr := arr + [message[i]];
        }
        i := i + 1;
      }
      PageIsSlice(message, from, size);
    }
  }
}
