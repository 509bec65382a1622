/**
 * The desktop client's connection to the daemon: concurrent calls and reader tasks sharing a writer slot,
 * a pending map and an id counter, interleaved at every lock and await point. Replies follow section 5 of
 * JSON-RPC 2.0.
 */
module TauriClient {
  import opened Prelude

  /** The members of a reply that matter to a call; an error's own members may be missing. */
  datatype ErrorBody = ErrorBody(code: Option<int>, message: Option<string>)

  datatype Body = Body(error: Option<ErrorBody>, result: Option<int>)

  /** What a pending entry's channel carries: a reply, or the null a drained connection sends. */
  datatype Message = Null | Reply(id: nat, body: Body)

  datatype Outcome = NotRunning | WriteLost | FlushLost | Answered(message: Message)

  datatype Phase = Issued | Registered | Holding | Written | Waiting | Done(outcome: Outcome)

  /** A call, and the connection its request was written to, once it was. */
  datatype Request = Request(phase: Phase, conn: Option<nat>)

  datatype Reader = Reading | Closed | Detached | Drained

  datatype State = State(
    nextId: nat,
    writer: Option<nat>,
    holder: Option<nat>,
    pending: set<nat>,
    calls: map<nat, Request>,
    inbox: map<nat, Message>,
    readers: map<nat, Reader>)

  const START := State(1, None, None, {}, map[], map[], map[])

  datatype Step =
    | Connect(c: nat)
    | Issue
    | Register(id: nat)
    | Lock(id: nat)
    | WriteOk(id: nat)
    | WriteFail(id: nat)
    | FlushOk(id: nat)
    | FlushFail(id: nat)
    | Receive(id: nat)
    | Deliver(c: nat, id: nat, body: Body)
    | Close(c: nat)
    | Detach(c: nat)
    | Drain(c: nat)

  predicate InPhase(s: State, id: nat, phase: Phase) {
    id in s.calls && s.calls[id].phase == phase
  }

  predicate ReaderIs(s: State, c: nat, phase: Reader) {
    c in s.readers && s.readers[c] == phase
  }

  /** `connect` is only called while not connected; the writer lock is held from taking it to the flush. */
  predicate Enabled(s: State, step: Step) {
    match step
    case Connect(c) => c !in s.readers && s.writer.None? && s.holder.None?
    case Issue => true
    case Register(id) => InPhase(s, id, Issued)
    case Lock(id) => InPhase(s, id, Registered) && s.holder.None?
    case WriteOk(id) => InPhase(s, id, Holding) && s.holder == Some(id)
    case WriteFail(id) => InPhase(s, id, Holding) && s.holder == Some(id)
    case FlushOk(id) => InPhase(s, id, Written) && s.holder == Some(id)
    case FlushFail(id) => InPhase(s, id, Written) && s.holder == Some(id)
    case Receive(id) => InPhase(s, id, Waiting) && id in s.inbox
    case Deliver(c, _, _) => ReaderIs(s, c, Reading)
    case Close(c) => ReaderIs(s, c, Reading)
    case Detach(c) => ReaderIs(s, c, Closed) && s.holder.None?
    case Drain(c) => ReaderIs(s, c, Detached)
  }

  function SetPhase(s: State, id: nat, phase: Phase): State
    requires id in s.calls
  {
    s.(calls := s.calls[id := s.calls[id].(phase := phase)])
  }

  function Apply(s: State, step: Step): State
    requires Enabled(s, step)
  {
    match step
    case Connect(c) => s.(writer := Some(c), readers := s.readers[c := Reading])
    case Issue => s.(nextId := s.nextId + 1, calls := s.calls[s.nextId := Request(Issued, None)])
    case Register(id) => SetPhase(s, id, Registered).(pending := s.pending + {id})
    case Lock(id) =>
      if s.writer.None? then SetPhase(s, id, Done(NotRunning))
      else SetPhase(s, id, Holding).(holder := Some(id))
    case WriteOk(id) => s.(calls := s.calls[id := Request(Written, s.writer)])
    case WriteFail(id) => SetPhase(s, id, Done(WriteLost)).(pending := s.pending - {id}, holder := None)
    case FlushOk(id) => SetPhase(s, id, Waiting).(holder := None)
    case FlushFail(id) => SetPhase(s, id, Done(FlushLost)).(holder := None)
    case Receive(id) => SetPhase(s, id, Done(Answered(s.inbox[id])))
    case Deliver(c, id, body) =>
      if id in s.pending then s.(pending := s.pending - {id}, inbox := s.inbox[id := Reply(id, body)]) else s
    case Close(c) => s.(readers := s.readers[c := Closed])
    case Detach(c) => s.(writer := None, readers := s.readers[c := Detached])
    case Drain(c) =>
      s.(pending := {}, inbox := s.inbox + (map id | id in s.pending :: Null), readers := s.readers[c := Drained])
  }

  // ----- The invariant -----

  predicate Live(r: Reader) {
    r.Reading? || r.Closed?
  }

  /** The writer slot names the one connection whose reader has not let go of it. */
  ghost predicate SlotSound(s: State) {
    && (s.writer.Some? ==> s.writer.value in s.readers && Live(s.readers[s.writer.value]))
    && (forall c :: c in s.readers && Live(s.readers[c]) ==> s.writer == Some(c))
    && (s.holder.Some? ==> s.writer.Some? && s.holder.value in s.calls)
    && (forall id :: id in s.calls ==>
          (s.holder == Some(id) <==> s.calls[id].phase.Holding? || s.calls[id].phase.Written?))
  }

  ghost predicate IdsSound(s: State) {
    && (forall id :: id in s.calls ==> id < s.nextId)
    && s.pending + s.inbox.Keys <= s.calls.Keys
    && s.pending !! s.inbox.Keys
    && (forall id :: id in s.inbox ==> s.inbox[id].Null? || s.inbox[id].id == id)
  }

  ghost predicate CallSound(s: State, id: nat)
    requires id in s.calls
  {
    var call := s.calls[id];
    match call.phase
    case Issued => id !in s.pending && id !in s.inbox && call.conn.None?
    case Registered => (id in s.pending || id in s.inbox) && call.conn.None?
    case Holding => (id in s.pending || id in s.inbox) && call.conn.None?
    case Written => WrittenSound(s, id, call)
    case Waiting => WrittenSound(s, id, call)
    case Done(outcome) =>
      match outcome
      case NotRunning => call.conn.None?
      case WriteLost => id !in s.pending && call.conn.None?
      case FlushLost => call.conn.Some?
      case Answered(message) => call.conn.Some? && id in s.inbox && s.inbox[id] == message
  }

  /** A written request is answered, or still pending with its connection not yet drained. */
  ghost predicate WrittenSound(s: State, id: nat, call: Request) {
    && call.conn.Some? && call.conn.value in s.readers
    && (id in s.inbox || (id in s.pending && !s.readers[call.conn.value].Drained?))
  }

  ghost predicate Inv(s: State) {
    && SlotSound(s)
    && IdsSound(s)
    && forall id :: id in s.calls ==> CallSound(s, id)
  }

  predicate BeforeWriting(step: Step) {
    step.Issue? || step.Register? || step.Lock?
  }

  predicate AfterLocking(step: Step) {
    step.WriteOk? || step.WriteFail? || step.FlushOk? || step.FlushFail? || step.Receive?
  }

  lemma EarlyStepKeepsInv(s: State, step: Step)
    requires Inv(s) && Enabled(s, step) && BeforeWriting(step)
    ensures Inv(Apply(s, step))
  {
    var after := Apply(s, step);
    forall id | id in after.calls
      ensures CallSound(after, id)
    {
      if id in s.calls { assert CallSound(s, id); }
    }
  }

  lemma LateStepKeepsInv(s: State, step: Step)
    requires Inv(s) && Enabled(s, step) && AfterLocking(step)
    ensures Inv(Apply(s, step))
  {
    var after := Apply(s, step);
    forall id | id in after.calls
      ensures CallSound(after, id)
    {
      assert CallSound(s, id);
    }
  }

  lemma ReaderStepKeepsInv(s: State, step: Step)
    requires Inv(s) && Enabled(s, step)
    requires !BeforeWriting(step) && !AfterLocking(step)
    ensures Inv(Apply(s, step))
  {
    var after := Apply(s, step);
    forall id | id in after.calls
      ensures CallSound(after, id)
    {
      assert CallSound(s, id);
    }
  }

  lemma StepKeepsInv(s: State, step: Step)
    requires Inv(s) && Enabled(s, step)
    ensures Inv(Apply(s, step))
  {
    if BeforeWriting(step) {
      EarlyStepKeepsInv(s, step);
    } else if AfterLocking(step) {
      LateStepKeepsInv(s, step);
    } else {
      ReaderStepKeepsInv(s, step);
    }
  }

  ghost predicate Run(states: seq<State>, steps: seq<Step>) {
    && |states| == |steps| + 1
    && states[0] == START
    && forall i :: 0 <= i < |steps| ==> Enabled(states[i], steps[i]) && states[i + 1] == Apply(states[i], steps[i])
  }

  lemma {:induction false} RunKeepsInv(states: seq<State>, steps: seq<Step>, n: nat)
    requires Run(states, steps) && n < |states|
    ensures Inv(states[n])
  {
    if n > 0 {
      RunKeepsInv(states, steps, n - 1);
      StepKeepsInv(states[n - 1], steps[n - 1]);
    }
  }

  // ----- What every interleaving guarantees -----

  predicate AwaitsReplyFrom(call: Request, c: nat) {
    call.conn == Some(c) && (call.phase.Written? || call.phase.Waiting?)
  }

  /** Once a connection is drained, no call whose request was written to it is left without an answer. */
  lemma NoCallLeftWaiting(states: seq<State>, steps: seq<Step>, n: nat, id: nat, c: nat)
    requires Run(states, steps) && n < |states|
    requires id in states[n].calls && AwaitsReplyFrom(states[n].calls[id], c) && ReaderIs(states[n], c, Drained)
    ensures id in states[n].inbox
    ensures states[n].calls[id].phase.Waiting? ==> Enabled(states[n], Receive(id))
  {
    RunKeepsInv(states, steps, n);
    assert CallSound(states[n], id);
  }

  /** A finished call that got an answer got the reply bearing its own id, or a disconnect. */
  lemma AnswersBearOwnId(states: seq<State>, steps: seq<Step>, n: nat, id: nat, message: Message)
    requires Run(states, steps) && n < |states|
    requires InPhase(states[n], id, Done(Answered(message)))
    ensures message.Null? || message.id == id
    ensures states[n].calls[id].conn.Some?
  {
    RunKeepsInv(states, steps, n);
    assert CallSound(states[n], id);
  }

  lemma InboxStep(s: State, step: Step, id: nat)
    requires Inv(s) && Enabled(s, step) && id in s.inbox
    ensures id in Apply(s, step).inbox && Apply(s, step).inbox[id] == s.inbox[id]
  {
  }

  /** Nothing is delivered to a call twice: the first answer stays the answer. */
  lemma {:induction false} AnsweredAtMostOnce(states: seq<State>, steps: seq<Step>, m: nat, n: nat, id: nat)
    requires Run(states, steps) && m <= n < |states|
    requires id in states[m].inbox
    ensures id in states[n].inbox && states[n].inbox[id] == states[m].inbox[id]
  {
    if m < n {
      AnsweredAtMostOnce(states, steps, m, n - 1, id);
      RunKeepsInv(states, steps, n - 1);
      InboxStep(states[n - 1], steps[n - 1], id);
    }
  }

  /**
   * Which finished calls may still be listed as pending: only those that found no writer or whose flush
   * failed. A failed write removes its entry and an answer takes it out.
   */
  lemma StaleEntries(states: seq<State>, steps: seq<Step>, n: nat, id: nat)
    requires Run(states, steps) && n < |states|
    requires id in states[n].pending && id in states[n].calls && states[n].calls[id].phase.Done?
    ensures states[n].calls[id].phase.outcome.NotRunning? || states[n].calls[id].phase.outcome.FlushLost?
  {
    RunKeepsInv(states, steps, n);
    assert CallSound(states[n], id);
  }

  /** And such an entry does occur: a call made while nothing is connected leaves one behind. */
  lemma StaleEntryOccurs() returns (states: seq<State>, steps: seq<Step>)
    ensures Run(states, steps)
    ensures InPhase(states[|steps|], 1, Done(NotRunning)) && 1 in states[|steps|].pending
  {
    steps := [Issue, Register(1), Lock(1)];
    var s1 := Apply(START, Issue);
    var s2 := Apply(s1, Register(1));
    var s3 := Apply(s2, Lock(1));
    states := [START, s1, s2, s3];
  }

  // ----- The steps of other tasks -----

  predicate OfCall(step: Step, id: nat) {
    step in {Register(id), Lock(id), WriteOk(id), WriteFail(id), FlushOk(id), FlushFail(id), Receive(id)}
  }

  predicate OfReader(step: Step, c: nat) {
    step in {Close(c), Detach(c), Drain(c)} || (step.Deliver? && step.c == c)
  }

  /** A call's own record, once made, changes only by the call's own steps. */
  lemma OthersLeaveCall(s: State, step: Step, id: nat)
    requires Inv(s) && Enabled(s, step) && id in s.calls && !OfCall(step, id)
    ensures id in Apply(s, step).calls && Apply(s, step).calls[id] == s.calls[id]
    ensures s.holder == Some(id) ==> Apply(s, step).holder == Some(id) && Apply(s, step).writer == s.writer
  {
  }

  lemma OthersLeaveReader(s: State, step: Step, c: nat)
    requires Enabled(s, step) && c in s.readers && !OfReader(step, c)
    ensures c in Apply(s, step).readers && Apply(s, step).readers[c] == s.readers[c]
  {
  }

  // ----- The client object -----

  const DEFAULT_MESSAGE := "acelusd refused the request"

  /** `as i32`. */
  function WrapI32(code: int): (r: int)
    ensures -0x8000_0000 <= r < 0x8000_0000 && (r - code) % 0x1_0000_0000 == 0
    ensures -0x8000_0000 <= code < 0x8000_0000 ==> r == code
  {
    (code + 0x8000_0000) % 0x1_0000_0000 - 0x8000_0000
  }

  /** How a call ends; the last two say that it has not ended yet. */
  datatype CallResult =
    | Value(result: Option<int>)
    | Rpc(code: int, message: string)
    | NoDaemon
    | Disconnected
    | WaitsForLock
    | WaitsForReply

  /** What a message means to the caller: null a disconnect, an error before any result. */
  function MeaningOf(message: Message): CallResult {
    match message
    case Null => Disconnected
    case Reply(_, Body(Some(error), _)) =>
      Rpc(WrapI32(error.code.UnwrapOr(0)), error.message.UnwrapOr(DEFAULT_MESSAGE))
    case Reply(_, Body(None, result)) => Value(result)
  }

  /** A line a reader gets: not JSON, a message without a numeric id, or a reply. */
  datatype Line = Garbage | Unnumbered | Numbered(id: nat, body: Body)

  /**
   * The shared state, how far each task has come (`calls` and `readers`), and the whole run so far: every
   * change is recorded as a step of the machine, so what holds of every run holds of the object.
   */
  class Client {
    var nextId: nat
    var writer: Option<nat>
    var holder: Option<nat>
    var pending: set<nat>
    var inbox: map<nat, Message>
    var calls: map<nat, Request>
    var readers: map<nat, Reader>
    ghost var states: seq<State>
    ghost var steps: seq<Step>

    function Abs(): State
      reads this
    {
      State(nextId, writer, holder, pending, calls, inbox, readers)
    }

    ghost predicate Valid()
      reads this
    {
      Run(states, steps) && states[|steps|] == Abs()
    }

    constructor ()
      ensures Valid() && Abs() == START && steps == []
    {
      nextId, writer, holder, pending, inbox := 1, None, None, {}, map[];
      calls, readers := map[], map[];
      states, steps := [START], [];
    }

    ghost method Record(step: Step)
      requires Run(states, steps) && Enabled(states[|steps|], step) && Abs() == Apply(states[|steps|], step)
      modifies this`states, this`steps
      ensures Valid() && steps == old(steps) + [step]
    {
      states, steps := states + [Abs()], steps + [step];
    }

    lemma HoldsNow()
      requires Valid()
      ensures Inv(Abs())
    {
      RunKeepsInv(states, steps, |steps|);
    }

    /** Any number of steps of the rest of the program: other calls, other readers, and connecting again. */
    method Others(id: Option<nat>, c: Option<nat>)
      requires Valid()
      requires id.Some? ==> id.value in calls
      requires c.Some? ==> c.value in readers
      modifies this
      ensures Valid() && old(steps) <= steps
      ensures id.Some? ==> id.value in calls && calls[id.value] == old(calls)[id.value]
      ensures id.Some? && old(holder) == id ==> holder == id && writer == old(writer)
      ensures c.Some? ==> c.value in readers && readers[c.value] == old(readers)[c.value]
    {
      var turns: nat :| true;
      for turn := 0 to turns
        invariant Valid() && old(steps) <= steps
        invariant id.Some? ==> id.value in calls && calls[id.value] == old(calls)[id.value]
        invariant id.Some? && old(holder) == id ==> holder == id && writer == old(writer)
        invariant c.Some? ==> c.value in readers && readers[c.value] == old(readers)[c.value]
      {
        OtherStep(id, c);
      }
    }

    /** One step of the rest of the program. */
    method OtherStep(id: Option<nat>, c: Option<nat>)
      requires Valid()
      requires id.Some? ==> id.value in calls
      requires c.Some? ==> c.value in readers
      modifies this
      ensures Valid() && old(steps) <= steps
      ensures id.Some? ==> id.value in calls && calls[id.value] == old(calls)[id.value]
      ensures id.Some? && old(holder) == id ==> holder == id && writer == old(writer)
      ensures c.Some? ==> c.value in readers && readers[c.value] == old(readers)[c.value]
    {
      HoldsNow();
      ghost var before := Abs();
      assert Enabled(before, Issue);
      var step :| Enabled(Abs(), step)
                  && (id.Some? ==> !OfCall(step, id.value)) && (c.Some? ==> !OfReader(step, c.value));
      if id.Some? { OthersLeaveCall(before, step, id.value); }
      if c.Some? { OthersLeaveReader(before, step, c.value); }
      var after := Apply(Abs(), step);
      nextId, writer, holder, pending := after.nextId, after.writer, after.holder, after.pending;
      inbox, calls, readers := after.inbox, after.calls, after.readers;
      assert Abs() == after;
      Record(step);
    }

    /** Fills the writer slot and starts the connection's reader. */
    method Connect(c: nat)
      requires Valid() && Enabled(Abs(), Step.Connect(c))
      modifies this
      ensures Valid() && old(steps) <= steps
      ensures writer == Some(c) && ReaderIs(Abs(), c, Reading)
    {
      writer := Some(c);
      readers := readers[c := Reading];
      Record(Step.Connect(c));
    }

    /** Takes a fresh id and lists the call as pending, before anything is written. */
    method Register() returns (id: nat)
      requires Valid()
      modifies this
      ensures Valid() && old(steps) <= steps && id !in old(calls) && InPhase(Abs(), id, Registered)
    {
      HoldsNow();
      id := nextId;
      calls := calls[id := Request(Issued, None)];
      nextId := nextId + 1;
      Record(Issue);
      Others(Some(id), None);

      pending := pending + {id};
      calls := calls[id := calls[id].(phase := Registered)];
      Record(Step.Register(id));
    }

    /** Takes the writer lock if it is free; without a writer the call ends there and leaves its entry. */
    method LockWriter(id: nat) returns (locked: Option<bool>)
      requires Valid() && InPhase(Abs(), id, Registered)
      modifies this
      ensures Valid() && old(steps) <= steps && id in calls
      ensures match locked
              case None => calls[id].phase == Registered
              case Some(false) => calls[id].phase == Done(NotRunning)
              case Some(true) => calls[id].phase == Holding && holder == Some(id) && writer.Some?
    {
      if holder.Some? {
        return None;
      }
      locked := Some(writer.Some?);
      if writer.None? {
        calls := calls[id := calls[id].(phase := Done(NotRunning))];
      } else {
        holder := Some(id);
        calls := calls[id := calls[id].(phase := Holding)];
      }
      Record(Lock(id));
    }

    /** Writes the request and flushes it under the writer lock; either may fail. */
    method Transmit(id: nat) returns (sent: bool)
      requires Valid() && InPhase(Abs(), id, Holding) && holder == Some(id) && writer.Some?
      modifies this
      ensures Valid() && old(steps) <= steps && id in calls
      ensures sent ==> calls[id].phase == Waiting
      ensures !sent ==> calls[id].phase in {Done(WriteLost), Done(FlushLost)}
    {
      Others(Some(id), None);
      var written: bool := *;
      if !written {
        pending := pending - {id};
        holder := None;
        calls := calls[id := calls[id].(phase := Done(WriteLost))];
        Record(WriteFail(id));
        return false;
      }
      calls := calls[id := Request(Written, writer)];
      Record(WriteOk(id));
      Others(Some(id), None);

      sent := *;
      holder := None;
      calls := calls[id := calls[id].(phase := if sent then Waiting else Done(FlushLost))];
      Record(if sent then FlushOk(id) else FlushFail(id));
    }

    /**
     * A whole call, with the rest of the program running between its critical sections and while it waits.
     * An answer is the reply bearing its own id, or a disconnect: an error whatever the result beside it, with the
     * code as a 32-bit number, or else the result. A call that still waits has a connection whose reader has not
     * drained yet; a call that fails to be written leaves no entry behind.
     */
    method Call() returns (id: nat, r: CallResult)
      requires Valid()
      modifies this
      ensures Valid() && old(steps) <= steps && id !in old(calls) && id in calls
      ensures match r
              case NoDaemon => calls[id].phase == Done(NotRunning)
              case WaitsForLock => calls[id].phase == Registered
              case WaitsForReply =>
                calls[id].phase == Waiting && id !in inbox && id in pending
                && calls[id].conn.Some? && !ReaderIs(Abs(), calls[id].conn.value, Drained)
              case Disconnected =>
                calls[id].phase == Done(Answered(Null))
                || (calls[id].phase == Done(WriteLost) && id !in pending)
                || calls[id].phase == Done(FlushLost)
              case Value(result) => calls[id].phase == Done(Answered(Reply(id, Body(None, result))))
              case Rpc(code, message) =>
                && calls[id].phase.Done? && calls[id].phase.outcome.Answered?
                && var answer := calls[id].phase.outcome.message;
                && answer.Reply? && answer.id == id && answer.body.error.Some?
                && var error := answer.body.error.value;
                && message == (if error.message.Some? then error.message.value else "acelusd refused the request")
                && -0x8000_0000 <= code < 0x8000_0000
                && (code - (if error.code.Some? then error.code.value else 0)) % 0x1_0000_0000 == 0
    {
      id := Register();
      Others(Some(id), None);
      var locked := LockWriter(id);
      if locked.None? {
        return id, WaitsForLock;
      }
      if !locked.value {
        return id, NoDaemon;
      }
      var sent := Transmit(id);
      HoldsNow();
      assert CallSound(Abs(), id);
      if !sent {
        return id, Disconnected;
      }
      r := AwaitReply(id);
    }

    /** Waits for a message while the rest of the program runs, and says what it means. */
    method AwaitReply(id: nat) returns (r: CallResult)
      requires Valid() && InPhase(Abs(), id, Waiting)
      modifies this
      ensures Valid() && old(steps) <= steps && id in calls
      ensures r.WaitsForReply? ==>
                calls[id].phase == Waiting && id !in inbox && id in pending
                && calls[id].conn.Some? && !ReaderIs(Abs(), calls[id].conn.value, Drained)
      ensures !r.WaitsForReply? ==>
                && calls[id].phase.Done? && calls[id].phase.outcome.Answered?
                && var message := calls[id].phase.outcome.message;
                && r == MeaningOf(message) && (message.Null? || message.id == id)
    {
      Others(Some(id), None);
      HoldsNow();
      assert CallSound(Abs(), id);
      if id !in inbox {
        return WaitsForReply;
      }
      var message := inbox[id];
      calls := calls[id := calls[id].(phase := Done(Answered(message)))];
      Record(Receive(id));
      return MeaningOf(message);
    }

    /** Sends null to every entry, one by one, under the map's lock; the map is then empty. */
    method DrainPending(c: nat)
      requires Valid() && Enabled(Abs(), Drain(c))
      modifies this
      ensures Valid() && steps == old(steps) + [Drain(c)]
      ensures ReaderIs(Abs(), c, Drained)
      ensures pending == {} && forall id :: id in old(pending) ==> id in inbox && inbox[id] == Null
      ensures forall id :: id in old(inbox) && id !in old(pending) ==> id in inbox && inbox[id] == old(inbox)[id]
    {
      while pending != {}
        invariant pending <= old(pending)
        invariant inbox == old(inbox) + map id | id in old(pending) - pending :: Null
        invariant nextId == old(nextId) && writer == old(writer) && holder == old(holder)
        invariant calls == old(calls) && readers == old(readers)
        invariant states == old(states) && steps == old(steps)
        decreases pending
      {
        var id :| id in pending;
        inbox := inbox[id := Null];
        pending := pending - {id};
      }
      assert old(pending) - pending == old(pending);
      readers := readers[c := Drained];
      Record(Drain(c));
    }

    /**
     * A connection's reader task, from the first line to the drain. Once it has finished, every call whose
     * request was written to this connection has an answer. It may still wait for the writer lock.
     */
    method ReadLoop(c: nat, lines: seq<Line>) returns (finished: bool)
      requires Valid() && ReaderIs(Abs(), c, Reading)
      modifies this
      ensures Valid() && old(steps) <= steps
      ensures !finished ==> ReaderIs(Abs(), c, Closed) && holder.Some?
      ensures finished ==> ReaderIs(Abs(), c, Drained) && pending == {}
      ensures finished ==> forall id :: id in calls && AwaitsReplyFrom(calls[id], c) ==> id in inbox
    {
      ReadLines(c, lines);
      readers := readers[c := Closed];
      Record(Close(c));
      Others(None, Some(c));
      if holder.Some? {
        return false;
      }
      LetGo(c);
      Others(None, Some(c));
      DrainPending(c);
      AllAnswered(c);
      return true;
    }

    /** Hands each reply to the pending call of its id, if there is one, and ignores every other line. */
    method ReadLines(c: nat, lines: seq<Line>)
      requires Valid() && ReaderIs(Abs(), c, Reading)
      modifies this
      ensures Valid() && ReaderIs(Abs(), c, Reading) && old(steps) <= steps
    {
      for n := 0 to |lines|
        invariant Valid() && ReaderIs(Abs(), c, Reading) && old(steps) <= steps
      {
        Others(None, Some(c));
        match lines[n] {
          case Numbered(id, body) =>
            if id in pending {
              pending := pending - {id};
              inbox := inbox[id := Reply(id, body)];
            }
            Record(Deliver(c, id, body));
          case _ =>
        }
      }
    }

    /** Resets the writer slot, which still is this connection's. */
    method LetGo(c: nat)
      requires Valid() && ReaderIs(Abs(), c, Closed) && holder.None?
      modifies this
      ensures Valid() && old(steps) <= steps && ReaderIs(Abs(), c, Detached)
      ensures old(writer) == Some(c) && writer.None?
    {
      HoldsNow();
      writer := None;
      readers := readers[c := Detached];
      Record(Detach(c));
    }

    lemma AllAnswered(c: nat)
      requires Valid() && ReaderIs(Abs(), c, Drained)
      ensures forall id :: id in calls && AwaitsReplyFrom(calls[id], c) ==> id in inbox
    {
      forall id | id in calls && AwaitsReplyFrom(calls[id], c)
        ensures id in inbox
      {
        NoCallLeftWaiting(states, steps, |steps|, id, c);
      }
    }
  }
}
