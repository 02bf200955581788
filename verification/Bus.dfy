/** The event bus: publish and subscribe with one-shot suppression. */
module Bus {

  type Topic = string

  /** Identity of a listener. */
  type Listener = nat

  datatype Op =
    | Subscribe(topics: seq<Topic>, listener: Listener)
    | Prevent(topic: Topic)
    | Unprevent(topic: Topic)
    | Send(topic: Topic)

  datatype Outcome = Swallowed | Delivered(listeners: seq<Listener>)

  datatype State = State(prevented: map<Topic, bool>, subscriptions: map<Topic, seq<Listener>>)

  // ---------- the bus as a state machine ----------

  ghost predicate IsPrevented(s: State, t: Topic) {
    t in s.prevented && s.prevented[t]
  }

  ghost function ListenersOf(s: State, t: Topic): seq<Listener> {
    if t in s.subscriptions then s.subscriptions[t] else []
  }

  ghost function AddListener(s: State, t: Topic, l: Listener): State {
    s.(subscriptions := s.subscriptions[t := ListenersOf(s, t) + [l]])
  }

  ghost function AddListenerTo(s: State, ts: seq<Topic>, l: Listener): State {
    if ts == [] then s else AddListener(AddListenerTo(s, ts[..|ts| - 1], l), ts[|ts| - 1], l)
  }

  ghost function Step(s: State, op: Op): State {
    match op
    case Subscribe(ts, l) => AddListenerTo(s, ts, l)
    case Prevent(t) => s.(prevented := s.prevented[t := true])
    case Unprevent(t) => s.(prevented := s.prevented[t := false])
    case Send(t) => if IsPrevented(s, t) then s.(prevented := s.prevented[t := false]) else s
  }

  ghost function SendOutcome(s: State, t: Topic): Outcome {
    if IsPrevented(s, t) then Swallowed else Delivered(ListenersOf(s, t))
  }

  const INITIAL := State(map[], map[])

  ghost function Run(ops: seq<Op>): State {
    if ops == [] then INITIAL else Step(Run(ops[..|ops| - 1]), ops[|ops| - 1])
  }

  // ---------- what a history promises ----------

  ghost function Occurrences(t: Topic, ts: seq<Topic>, l: Listener): seq<Listener> {
    if ts == [] then [] else Occurrences(t, ts[..|ts| - 1], l) + if ts[|ts| - 1] == t then [l] else []
  }

  /** The subscriptions to a topic in a history, oldest first. */
  ghost function Subscribed(ops: seq<Op>, t: Topic): seq<Listener> {
    if ops == [] then [] else
      var op := ops[|ops| - 1];
      Subscribed(ops[..|ops| - 1], t) + if op.Subscribe? then Occurrences(t, op.topics, op.listener) else []
  }

  /** Only these operations touch the suppression of a topic. */
  ghost predicate Concerns(op: Op, t: Topic) {
    !op.Subscribe? && op.topic == t
  }

  /** The latest operation on the suppression of `t` before `i` is at `j`, and it is `prevent`. */
  ghost predicate PreventedAt(ops: seq<Op>, i: nat, t: Topic, j: int)
    requires i <= |ops|
  {
    0 <= j < i && ops[j] == Prevent(t) && forall k :: j < k < i ==> !Concerns(ops[k], t)
  }

  lemma {:induction false} AddedListeners(s: State, ts: seq<Topic>, l: Listener, t: Topic)
    ensures AddListenerTo(s, ts, l).prevented == s.prevented
    ensures ListenersOf(AddListenerTo(s, ts, l), t) == ListenersOf(s, t) + Occurrences(t, ts, l)
  {
    if ts != [] {
      AddedListeners(s, ts[..|ts| - 1], l, t);
    }
  }

  /** After any run the listeners of a topic are its earlier subscriptions, in order. */
  lemma {:induction false} ListenersAreSubscribed(ops: seq<Op>, t: Topic)
    ensures ListenersOf(Run(ops), t) == Subscribed(ops, t)
  {
    if ops != [] {
      var init, op := ops[..|ops| - 1], ops[|ops| - 1];
      ListenersAreSubscribed(init, t);
      if op.Subscribe? {
        AddedListeners(Run(init), op.topics, op.listener, t);
      }
    }
  }

  lemma {:induction false} PreventedIff(ops: seq<Op>, t: Topic)
    ensures IsPrevented(Run(ops), t) <==> exists j :: PreventedAt(ops, |ops|, t, j)
  {
    if ops != [] {
      var n := |ops| - 1;
      var init, op := ops[..n], ops[n];
      PreventedIff(init, t);
      if op.Subscribe? {
        AddedListeners(Run(init), op.topics, op.listener, t);
      }
      if Concerns(op, t) {
        if op == Prevent(t) {
          assert PreventedAt(ops, |ops|, t, n);
        } else {
          assert forall j :: PreventedAt(ops, |ops|, t, j) ==> j < n;
        }
      } else {
        assert IsPrevented(Run(ops), t) == IsPrevented(Run(init), t);
        if j :| PreventedAt(init, n, t, j) {
          assert PreventedAt(ops, |ops|, t, j);
        }
        if j :| PreventedAt(ops, |ops|, t, j) {
          assert j != n;
          assert init[j] == ops[j];
          assert PreventedAt(init, n, t, j);
        }
      }
    }
  }

  /** Outcome of the send at position `i` of a history. */
  ghost function OutcomeAt(ops: seq<Op>, i: nat): Outcome
    requires i < |ops| && ops[i].Send?
  {
    SendOutcome(Run(ops[..i]), ops[i].topic)
  }

  /** A send is swallowed exactly when `prevent` came last on its topic; otherwise it reaches each
      earlier subscription of its topic once, in subscription order. */
  lemma Delivery(ops: seq<Op>, i: nat)
    requires i < |ops| && ops[i].Send?
    ensures OutcomeAt(ops, i) == Swallowed <==> exists j :: PreventedAt(ops, i, ops[i].topic, j)
    ensures OutcomeAt(ops, i) != Swallowed ==> OutcomeAt(ops, i) == Delivered(Subscribed(ops[..i], ops[i].topic))
  {
    var t, past := ops[i].topic, ops[..i];
    PreventedIff(past, t);
    ListenersAreSubscribed(past, t);
    if j :| PreventedAt(past, i, t, j) {
      assert forall k :: j < k < i ==> ops[k] == past[k];
      assert PreventedAt(ops, i, t, j);
    }
    if j :| PreventedAt(ops, i, t, j) {
      assert PreventedAt(past, i, t, j);
    }
  }

  // ---------- counting ----------

  ghost function Prevents(ops: seq<Op>, t: Topic): nat {
    if ops == [] then 0 else Prevents(ops[..|ops| - 1], t) + if ops[|ops| - 1] == Prevent(t) then 1 else 0
  }

  /** Outcomes of the sends of a topic, in order. */
  ghost function Outcomes(ops: seq<Op>, t: Topic): seq<Outcome> {
    if ops == [] then [] else
      var init := ops[..|ops| - 1];
      Outcomes(init, t) + if ops[|ops| - 1] == Send(t) then [SendOutcome(Run(init), t)] else []
  }

  /** Swallowed sends never outnumber the calls to `prevent`: each pays for one at most. */
  lemma {:induction false} SwallowedPaid(ops: seq<Op>, t: Topic)
    ensures multiset(Outcomes(ops, t))[Swallowed] + (if IsPrevented(Run(ops), t) then 1 else 0) <= Prevents(ops, t)
  {
    if ops != [] {
      var init, op := ops[..|ops| - 1], ops[|ops| - 1];
      SwallowedPaid(init, t);
      if op.Subscribe? {
        AddedListeners(Run(init), op.topics, op.listener, t);
      }
    }
  }

  // ---------- topics are independent ----------

  ghost function Only(ts: seq<Topic>, t: Topic): seq<Topic> {
    if ts == [] then [] else Only(ts[..|ts| - 1], t) + if ts[|ts| - 1] == t then [t] else []
  }

  /** The part of a history that speaks of one topic. */
  ghost function Project(ops: seq<Op>, t: Topic): seq<Op> {
    if ops == [] then [] else
      var op := ops[|ops| - 1];
      Project(ops[..|ops| - 1], t) +
      if op.Subscribe? then [Subscribe(Only(op.topics, t), op.listener)] else if op.topic == t then [op] else []
  }

  lemma {:induction false} OnlyOccurrences(ts: seq<Topic>, t: Topic, l: Listener)
    ensures Occurrences(t, Only(ts, t), l) == Occurrences(t, ts, l)
  {
    if ts != [] {
      OnlyOccurrences(ts[..|ts| - 1], t, l);
      var rest := Only(ts[..|ts| - 1], t);
      assert rest + [] == rest && (rest + [t])[..|rest|] == rest;
    }
  }

  /** A topic's part of the state. */
  ghost predicate Agree(s: State, s': State, t: Topic) {
    IsPrevented(s, t) == IsPrevented(s', t) && ListenersOf(s, t) == ListenersOf(s', t)
  }

  lemma StepAgrees(s: State, s': State, op: Op, t: Topic)
    requires Agree(s, s', t)
    ensures op.Subscribe? ==> Agree(Step(s, op), Step(s', Subscribe(Only(op.topics, t), op.listener)), t)
    ensures !op.Subscribe? && op.topic == t ==> Agree(Step(s, op), Step(s', op), t)
    ensures !op.Subscribe? && op.topic != t ==> Agree(Step(s, op), s', t)
  {
    if op.Subscribe? {
      AddedListeners(s, op.topics, op.listener, t);
      AddedListeners(s', Only(op.topics, t), op.listener, t);
      OnlyOccurrences(op.topics, t, op.listener);
    }
  }

  lemma Appended(ops: seq<Op>, op: Op, t: Topic)
    ensures Run(ops + [op]) == Step(Run(ops), op)
    ensures Outcomes(ops + [op], t) == Outcomes(ops, t) + if op == Send(t) then [SendOutcome(Run(ops), t)] else []
  {
    assert (ops + [op])[..|ops|] == ops;
  }

  /** Everything done to other topics can be erased: a topic's sends fare the same without it. */
  lemma {:induction false} Independent(ops: seq<Op>, t: Topic)
    ensures Outcomes(ops, t) == Outcomes(Project(ops, t), t)
    ensures Agree(Run(ops), Run(Project(ops, t)), t)
  {
    if ops != [] {
      var init, op := ops[..|ops| - 1], ops[|ops| - 1];
      Independent(init, t);
      var rest := Project(init, t);
      StepAgrees(Run(init), Run(rest), op, t);
      var op' := if op.Subscribe? then Subscribe(Only(op.topics, t), op.listener) else op;
      Appended(rest, op', t);
      Appended(init, op, t);
      assert ops == init + [op];
      assert Project(ops, t) == if op.Subscribe? || op.topic == t then rest + [op'] else rest;
      hide Run, Outcomes, Step, Project;
    }
  }

  // ---------- the bus ----------

  class EventBus {
    var prevented: map<Topic, bool>
    var buses: map<Topic, seq<Listener>>

    ghost function View(): State
      reads this
    {
      State(prevented, buses)
    }

    constructor ()
      ensures View() == Run([])
    {
      prevented, buses := map[], map[];
    }

    method PreventTopic(t: Topic)
      modifies this
      ensures View() == Step(old(View()), Prevent(t))
    {
      prevented := prevented[t := true];
    }

    method UnpreventTopic(t: Topic)
      modifies this
      ensures View() == Step(old(View()), Unprevent(t))
    {
      prevented := prevented[t := false];
    }

    method SingleSubscribe(t: Topic, l: Listener)
      modifies this
      ensures View() == AddListener(old(View()), t, l)
    {
      if t !in buses {
        buses := buses[t := []];
      }
      buses := buses[t := buses[t] + [l]];
    }

    method SubscribeTo(ts: seq<Topic>, l: Listener)
      modifies this
      ensures View() == Step(old(View()), Subscribe(ts, l))
    {
      for i := 0 to |ts|
        invariant View() == AddListenerTo(old(View()), ts[..i], l)
      {
        assert ts[..i + 1][..i] == ts[..i];
        SingleSubscribe(ts[i], l);
      }
      assert ts[..|ts|] == ts;
    }

    /** Whether the event is emitted, and the listeners called, in order. */
    method SendEvent(t: Topic) returns (emitted: bool, called: seq<Listener>)
      modifies this
      ensures View() == Step(old(View()), Send(t))
      ensures SendOutcome(old(View()), t) == if emitted then Delivered(called) else Swallowed
      ensures !emitted ==> called == []
    {
      if t in prevented && prevented[t] {
        prevented := prevented[t := false];
        return false, [];
      }
      called := [];
      if t in buses {
        for i := 0 to |buses[t]|
          invariant called == buses[t][..i]
        {
          called := called + [buses[t][i]];
        }
      }
      return true, called;
    }
  }
}
