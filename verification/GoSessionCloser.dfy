/** The Go runner's Close as an object, one method for each stretch of code between its waits. */
module GoSessionCloser {
  import opened Results
  import opened CloseProtocol

  /** What a caller that is to end the session does, step by step. */
  ghost function Ran(s: State, id: CallerId, brokerEnds: bool, reply: Option<Answer>): State {
    var t := Step(s, End(id, brokerEnds));
    if brokerEnds then Finalized(t, id, reply) else t
  }

  ghost function Finalized(s: State, id: CallerId, reply: Option<Answer>): State {
    var t := Step(s, Finalize(id, reply));
    if reply.Some? then Step(t, Store(id)) else t
  }

  class SessionCloser {
    var finalSettle: Answer
    var closeStarted: bool
    var closedChClosed: bool
    ghost var ends: nat
    ghost var finalizations: nat
    ghost var stored: Option<Answer>

    ghost function Snapshot(callers: map<CallerId, At>): State
      reads this
    {
      State(Go, finalSettle, closeStarted, closedChClosed, false, ends, finalizations, stored, callers)
    }

    constructor ()
      ensures Snapshot(map[]) == Init(Go)
    {
      finalSettle, closeStarted, closedChClosed := None, false, false;
      ends, finalizations, stored := 0, 0, None;
    }

    /** Up to the first unlock: where the caller goes from there. */
    method Enter(id: CallerId, ghost callers: map<CallerId, At>) returns (at: At)
      requires id !in callers
      modifies this`closeStarted
      ensures at == if finalSettle.Some? then Done(finalSettle) else if old(closeStarted) then Waiting else Ending
      ensures Snapshot(callers[id := at]) == Step(old(Snapshot(callers)), Call(id))
    {
      if finalSettle.Some? {
        return Done(finalSettle);
      }
      if closeStarted {
        return Waiting;
      }
      closeStarted := true;
      return Ending;
    }

    /** From the last lock to the return. */
    method StoreAnswer(id: CallerId, answer: Answer, ghost callers: map<CallerId, At>)
      requires !closedChClosed && Is(Snapshot(callers), id, Storing(answer))
      modifies this`finalSettle, this`closedChClosed, this`stored
      ensures finalSettle == answer && closedChClosed
      ensures Snapshot(callers[id := Done(answer)]) == Step(old(Snapshot(callers)), Store(id))
    {
      finalSettle := answer;
      closedChClosed := true;
      stored := Some(answer);
    }

    /** A whole call that no other comes between: what the broker and LOC answer decides it. */
    method Close(id: CallerId, starts: bool, brokerEnds: bool, reply: Option<Answer>, ghost callers: map<CallerId, At>)
      returns (at: At)
      requires id !in callers && Inv(Snapshot(callers))
      modifies this
      ensures Inv(Snapshot(callers[id := at]))
      ensures old(finalSettle.Some?) ==> at == Done(old(finalSettle))
      ensures old(finalSettle.None? && closeStarted) ==> at == Waiting
      ensures old(finalSettle.None? && !closeStarted) ==>
              at == if starts && brokerEnds && reply.Some? then Done(reply.value) else Failed
      ensures at.Failed? || at.Waiting? ==> finalSettle == old(finalSettle)
    {
      ghost var s := Snapshot(callers);
      at := Enter(id, callers);
      StepKeepsInv(s, Call(id));
      if !at.Ending? {
        return;
      }
      s := Snapshot(callers[id := Ending]);
      if !starts {
        StepKeepsInv(s, StartFails(id));
        assert s.callers[id := Failed] == callers[id := Failed];
        return Failed;
      }
      at := Finish(id, brokerEnds, reply, callers);
    }

    method Finish(id: CallerId, brokerEnds: bool, reply: Option<Answer>, ghost callers: map<CallerId, At>)
      returns (at: At)
      requires Inv(Snapshot(callers[id := Ending])) && closeStarted
      modifies this
      ensures Inv(Snapshot(callers[id := at]))
      ensures Snapshot(callers[id := at]) == Ran(old(Snapshot(callers[id := Ending])), id, brokerEnds, reply)
      ensures at == if brokerEnds && reply.Some? then Done(reply.value) else Failed
      ensures at.Failed? ==> finalSettle == old(finalSettle)
    {
      ghost var s := Snapshot(callers[id := Ending]);
      ends := ends + 1;
      at := if brokerEnds then Finalizing else Failed;
      StepKeepsInv(s, End(id, brokerEnds));
      assert s.callers[id := at] == callers[id := at];
      if !brokerEnds {
        return;
      }
      at := AskLoc(id, reply, callers);
    }

    method AskLoc(id: CallerId, reply: Option<Answer>, ghost callers: map<CallerId, At>) returns (at: At)
      requires Inv(Snapshot(callers[id := Finalizing]))
      modifies this
      ensures Inv(Snapshot(callers[id := at]))
      ensures Snapshot(callers[id := at]) == Finalized(old(Snapshot(callers[id := Finalizing])), id, reply)
      ensures at == if reply.Some? then Done(reply.value) else Failed
      ensures at.Failed? ==> finalSettle == old(finalSettle)
    {
      ghost var s := Snapshot(callers[id := Finalizing]);
      finalizations := finalizations + 1;
      StepKeepsInv(s, Finalize(id, reply));
      if reply.None? {
        assert s.callers[id := Failed] == callers[id := Failed];
        return Failed;
      }
      assert s.callers[id := Storing(reply.value)] == callers[id := Storing(reply.value)];
      s := Snapshot(callers[id := Storing(reply.value)]);
      StoreAnswer(id, reply.value, s.callers);
      StepKeepsInv(s, Store(id));
      assert s.callers[id := Done(reply.value)] == callers[id := Done(reply.value)];
      return Done(reply.value);
    }
  }
}
