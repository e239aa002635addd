// The part of the project store that one run reads and writes.
module ProjectStore {
  import opened Domain
  import opened ControlEnvelope
  import opened RunState

  class Store {
    var results: map<InstanceId, Payload>
    var interrupts: map<InterruptId, Interrupt>
    var replies: map<InterruptId, Reply>
    var log: seq<Event>
    var nextInterrupt: InterruptId

    constructor ()
      ensures results == map[] && interrupts == map[] && replies == map[] && log == [] && Valid()
    {
      results := map[];
      interrupts := map[];
      replies := map[];
      log := [];
      nextInterrupt := 0;
    }

    // Fresh identifiers are larger than those in use.
    ghost predicate Valid()
      reads this
    {
      forall n :: n in interrupts ==> n < nextInterrupt
    }

    method AppendEvent(event: Event)
      modifies this`log
      ensures log == old(log) + [event]
    {
      log := log + [event];
    }

    method AppendEvents(events: seq<Event>)
      modifies this`log
      ensures log == old(log) + events
    {
      for k := 0 to |events|
        invariant log == old(log) + events[..k]
      {
        AppendEvent(events[k]);
      }
      assert events[..|events|] == events;
    }

    method SaveInstanceResult(i: InstanceId, payload: Payload)
      modifies this`results
      ensures results == old(results)[i := payload]
    {
      results := results[i := payload];
    }

    method DeleteInstanceResult(i: InstanceId)
      modifies this`results
      ensures results == old(results) - {i}
    {
      if i in results {
        results := results - {i};
      }
    }

    method CreateInterrupt(request: Interrupt) returns (n: InterruptId)
      requires Valid()
      modifies this
      ensures Valid() && n !in old(interrupts)
      ensures interrupts == old(interrupts)[n := request.(status := Open)]
      ensures results == old(results) && replies == old(replies) && log == old(log) + [Requested(n)]
    {
      n := nextInterrupt;
      nextInterrupt := nextInterrupt + 1;
      interrupts := interrupts[n := request.(status := Open)];
      AppendEvent(Requested(n));
    }

    // There is no guard on the status: a reply may be replaced, and an applied interrupt resolved again.
    method SaveInterruptReply(n: InterruptId, reply: Reply) returns (ok: bool)
      requires Valid()
      modifies this
      ensures Valid() && results == old(results) && (ok <==> n in old(interrupts))
      ensures ok ==> replies == old(replies)[n := reply] && log == old(log) + [WasResolved(n)]
      ensures ok ==> interrupts == old(interrupts)[n := old(interrupts)[n].(status := Resolved)]
      ensures !ok ==> replies == old(replies) && interrupts == old(interrupts) && log == old(log)
    {
      if n !in interrupts {
        return false;
      }
      replies := replies[n := reply];
      interrupts := interrupts[n := interrupts[n].(status := Resolved)];
      AppendEvent(WasResolved(n));
      ok := true;
    }

    method MarkInterruptApplied(n: InterruptId)
      requires Valid() && n in interrupts
      modifies this
      ensures Valid() && results == old(results) && replies == old(replies) && log == old(log) + [WasApplied(n)]
      ensures interrupts == old(interrupts)[n := old(interrupts)[n].(status := InterruptStatus.Applied)]
    {
      interrupts := interrupts[n := interrupts[n].(status := InterruptStatus.Applied)];
      AppendEvent(WasApplied(n));
    }

    // The interrupts of one instance, in some order, each once.
    method ListInstanceInterrupts(i: InstanceId, blockingOnly: bool) returns (found: seq<InterruptId>)
      ensures forall n :: n in found <==>
        n in interrupts && interrupts[n].instance == i && (blockingOnly ==> interrupts[n].blocking)
      ensures NoDuplicates(found)
    {
      found := [];
      var todo := interrupts.Keys;
      while todo != {}
        invariant todo <= interrupts.Keys
        invariant forall n :: n in found <==>
          n in interrupts && n !in todo && interrupts[n].instance == i && (blockingOnly ==> interrupts[n].blocking)
        invariant NoDuplicates(found)
      {
        var n :| n in todo;
        todo := todo - {n};
        if interrupts[n].instance == i && (!blockingOnly || interrupts[n].blocking) {
          found := found + [n];
        }
      }
    }
  }
}
