/** The single-completion future: state shared between a `UsbFuture` and the
    backend callback that completes it. The lock around the state is left
    out; each method below runs with the lock held. */
module Futures {

  import opened Wrappers
  import opened Errors

  /** An executor's waker, as an opaque token. */
  datatype Waker = Waker(id: nat)

  datatype Poll<T> = Pending | Ready(value: T)

  /** `UsbFutureState`. */
  class UsbFutureState {
    /** Whether the transfer is still outstanding. */
    var pending: bool
    /** The transfer's outcome, from completion until it is polled out. */
    var result: Option<Result<nat>>
    /** The waker of the last poll that found the transfer pending. */
    var waker: Option<Waker>
    /** The wakers woken so far, oldest first (the effect of `wake()`). */
    ghost var woken: seq<Waker>
    /** Whether a Ready poll has taken the result out. */
    ghost var consumed: bool

    /** A pending state holds no result; a completed one holds its result
        until a Ready poll takes it. */
    ghost predicate Valid()
      reads this
    {
      (pending ==> result.None? && !consumed) &&
      (!pending ==> (result.Some? <==> !consumed))
    }

    /** `UsbFutureState::new`. */
    constructor ()
      ensures Valid()
      ensures pending && result == None && waker == None
      ensures woken == [] && !consumed
    {
      pending := true;
      result := None;
      waker := None;
      woken := [];
      consumed := false;
    }

    /** `UsbFutureState::complete`: stores the result, clears `pending`, and
        wakes the stored waker, if there is one. */
    method Complete(r: Result<nat>)
      modifies this
      ensures Valid()
      ensures !pending && result == Some(r) && waker == None && !consumed
      ensures woken == old(woken) + (if old(waker).Some? then [old(waker).value] else [])
    {
      result := Some(r);
      pending := false;
      consumed := false;
      var w := waker;
      waker := None;
      if w.Some? {
        woken := woken + [w.value];
      }
    }
  }

  /** `UsbFuture`: a handle onto state it shares with the completing callback. */
  class UsbFuture {
    const state: UsbFutureState

    /** `UsbFuture::new`. */
    constructor ()
      ensures fresh(state)
      ensures state.Valid()
      ensures state.pending && state.result == None && state.waker == None
      ensures state.woken == [] && !state.consumed
    {
      state := new UsbFutureState();
    }

    /** `UsbFuture::clone_state`: the shared state itself, not a copy. */
    method CloneState() returns (s: UsbFutureState)
      ensures s == state
    {
      s := state;
    }

    /** `UsbFuture::poll`. While pending it stores the caller's waker and
        reports `Pending`; afterwards it takes the result out and reports it.
        Polling a completed future whose result was already taken is refused
        (the source's `expect` panics). */
    method Poll(cx: Waker) returns (p: Poll<Result<nat>>)
      requires state.Valid()
      requires state.pending || state.result.Some?
      modifies state
      ensures state.Valid()
      ensures state.pending == old(state.pending)
      ensures state.woken == old(state.woken)
      ensures old(state.pending) ==>
                p == Pending && state.waker == Some(cx) && state.result == old(state.result) &&
                state.consumed == old(state.consumed)
      ensures !old(state.pending) ==>
                p == Ready(old(state.result).value) && state.result == None &&
                state.waker == old(state.waker) && state.consumed
    {
      if state.pending {
        state.waker := Some(cx);
        return Pending;
      } else {
        var r := state.result.value;
        state.result := None;
        state.consumed := true;
        return Ready(r);
      }
    }
  }

  /** A future polled before completion registers the waker; completion wakes
      exactly that waker; the next poll yields exactly the completion's result
      and a further poll is refused. */
  method CompletionScenario(r: Result<nat>, cx: Waker)
    returns (first: Poll<Result<nat>>, second: Poll<Result<nat>>, ghost woken: seq<Waker>, drained: bool)
    ensures first == Pending
    ensures woken == [cx]
    ensures second == Ready(r)
    ensures drained
  {
    var future := new UsbFuture();
    first := future.Poll(cx);
    var shared := future.CloneState();
    shared.Complete(r);
    woken := shared.woken;
    second := future.Poll(cx);
    drained := !future.state.pending && future.state.result.None?;
  }
}
