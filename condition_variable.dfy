// ConditionVariable of quantum_condition_variable_impl.h: a FIFO list of
// waiters, each one a pointer to the waiting thread's or coroutine's signal
// flag (0 = cleared, 1 = signalled, -1 = idle), and a destroyed flag.
module ConditionVariables {
  import opened Wrappers

  /** Identity of a signal flag (one per thread, or one per coroutine's sync object). */
  type SignalRef = nat

  datatype CvState = CvState(waiters: seq<SignalRef>, signals: map<SignalRef, int>, destroyed: bool)

  function Initial(): CvState
  {
    CvState([], map[], false)
  }

  /** notifyOneImpl: signal the oldest waiter and drop it from the list. */
  function NotifyOne(s: CvState): CvState
  {
    if s.waiters == [] then s
    else s.(signals := s.signals[s.waiters[0] := 1], waiters := s.waiters[1..])
  }

  /** notifyAllImpl: signal every waiter, then empty the list. */
  function NotifyAll(s: CvState): CvState
  {
    s.(signals := SignalAll(s.signals, s.waiters), waiters := [])
  }

  /** The signal map after setting each listed flag to 1, in list order. */
  function SignalAll(signals: map<SignalRef, int>, ws: seq<SignalRef>): map<SignalRef, int>
    decreases |ws|
  {
    if ws == [] then signals else SignalAll(signals[ws[0] := 1], ws[1..])
  }

  /** The locked part of waitImpl: unless destroyed, clear the flag and queue it at the back. */
  function Register(s: CvState, sig: SignalRef): CvState
  {
    if s.destroyed then s
    else s.(signals := s.signals[sig := 0], waiters := s.waiters + [sig])
  }

  /** A registered waiter may stop waiting: its flag was signalled, or the variable was destroyed. */
  predicate Woken(s: CvState, sig: SignalRef)
  {
    s.destroyed || (sig in s.signals && s.signals[sig] != 0)
  }

  /** The end of waitImpl: the flag goes back to -1. */
  function Finish(s: CvState, sig: SignalRef): CvState
  {
    s.(signals := s.signals[sig := -1])
  }

  /**
   * The locked part of waitForImpl: on a destroyed variable the answer is
   * true, on a zero duration it is false (a timeout), and in both cases
   * nothing is registered; otherwise the flag is registered as in wait.
   */
  function RegisterFor(s: CvState, sig: SignalRef, time: int): (CvState, Option<bool>)
  {
    if s.destroyed then (s, Some(true))
    else if time == 0 then (s, Some(false))
    else (Register(s, sig), None)
  }

  /** The end of waitForImpl: true unless the time ran out; the remaining time is handed back. */
  function FinishFor(s: CvState, sig: SignalRef, time: int, elapsed: int, timeout: bool): (CvState, bool, int)
  {
    (Finish(s, sig), !timeout, if timeout then 0 else time - elapsed)
  }

  /** k successive notifyOne calls. */
  function NotifyOneTimes(s: CvState, k: nat): CvState
    decreases k
  {
    if k == 0 then s else NotifyOneTimes(NotifyOne(s), k - 1)
  }

  /** notifyOne on an empty list changes nothing; otherwise only the oldest waiter is signalled and removed. */
  lemma NotifyOneSpec(s: CvState)
    ensures s.waiters == [] ==> NotifyOne(s) == s
    ensures s.waiters != [] ==> NotifyOne(s).waiters == s.waiters[1..]
    ensures s.waiters != [] ==> NotifyOne(s).signals[s.waiters[0]] == 1
    ensures s.waiters != [] ==> forall r | r in s.signals && r != s.waiters[0] :: NotifyOne(s).signals[r] == s.signals[r]
    ensures NotifyOne(s).destroyed == s.destroyed
  {
  }

  lemma {:induction false} SignalAllSpec(signals: map<SignalRef, int>, ws: seq<SignalRef>)
    ensures forall r :: r in ws ==> r in SignalAll(signals, ws) && SignalAll(signals, ws)[r] == 1
    ensures forall r :: r !in ws ==> (r in SignalAll(signals, ws) <==> r in signals)
    ensures forall r :: r !in ws && r in signals ==> SignalAll(signals, ws)[r] == signals[r]
    decreases |ws|
  {
    if ws != [] {
      SignalAllSpec(signals[ws[0] := 1], ws[1..]);
      forall r | r in ws
        ensures r == ws[0] || r in ws[1..]
      {
        var i :| 0 <= i < |ws| && ws[i] == r;
        if i > 0 {
          assert ws[1..][i - 1] == r;
        }
      }
    }
  }

  /** notifyAll signals every waiter, leaves every other flag alone and empties the list. */
  lemma NotifyAllSpec(s: CvState)
    ensures NotifyAll(s).waiters == []
    ensures forall r :: r in s.waiters ==> r in NotifyAll(s).signals && NotifyAll(s).signals[r] == 1
    ensures forall r :: r in s.signals && r !in s.waiters ==> r in NotifyAll(s).signals && NotifyAll(s).signals[r] == s.signals[r]
    ensures forall r :: r !in s.signals && r !in s.waiters ==> r !in NotifyAll(s).signals
  {
    SignalAllSpec(s.signals, s.waiters);
  }

  /** notifyAll is one notifyOne per waiter: waiters are woken first come, first served. */
  lemma {:induction false} NotifyAllIsNotifyOneEach(s: CvState)
    ensures NotifyOneTimes(s, |s.waiters|) == NotifyAll(s)
    decreases |s.waiters|
  {
    if s.waiters != [] {
      var t := NotifyOne(s);
      NotifyAllIsNotifyOneEach(t);
      assert |t.waiters| == |s.waiters| - 1;
    }
  }

  /** After k notifyOne calls the first k waiters are gone and the others wait in their order. */
  lemma {:induction false} NotifyOneTimesDrops(s: CvState, k: nat)
    requires k <= |s.waiters|
    ensures NotifyOneTimes(s, k).waiters == s.waiters[k..]
    ensures NotifyOneTimes(s, k).destroyed == s.destroyed
    decreases k
  {
    if k > 0 {
      NotifyOneTimesDrops(NotifyOne(s), k - 1);
      assert s.waiters[1..][k - 1..] == s.waiters[k..];
    }
  }

  /** wait on a live variable clears the caller's flag and queues it last; on a destroyed one it does nothing. */
  lemma RegisterSpec(s: CvState, sig: SignalRef)
    ensures s.destroyed ==> Register(s, sig) == s
    ensures !s.destroyed ==> Register(s, sig).waiters == s.waiters + [sig] && Register(s, sig).signals[sig] == 0
    ensures !s.destroyed ==> !Woken(Register(s, sig), sig)
  {
  }

  /** A waiter registered last is woken by the notifyOne that comes after every earlier waiter's. */
  lemma RegisteredWaiterIsWokenInTurn(s: CvState, sig: SignalRef)
    requires !s.destroyed && sig !in s.waiters
    ensures var r := Register(s, sig);
            var before := NotifyOneTimes(r, |s.waiters|);
            before.waiters == [sig] && Woken(NotifyOne(before), sig)
  {
    var r := Register(s, sig);
    NotifyOneTimesDrops(r, |s.waiters|);
    assert r.waiters[|s.waiters|..] == [sig];
  }

  /** waitFor with a zero duration never registers: false on a live variable, true on a destroyed one. */
  lemma ZeroWaitForSpec(s: CvState, sig: SignalRef)
    ensures RegisterFor(s, sig, 0).0 == s
    ensures RegisterFor(s, sig, 0).1 == Some(s.destroyed)
  {
  }

  /** The end of wait resets the caller's flag to -1 and touches nothing else. */
  lemma FinishSpec(s: CvState, sig: SignalRef)
    ensures Finish(s, sig).signals[sig] == -1
    ensures Finish(s, sig).waiters == s.waiters && Finish(s, sig).destroyed == s.destroyed
    ensures forall r | r in s.signals && r != sig :: r in Finish(s, sig).signals && Finish(s, sig).signals[r] == s.signals[r]
  {
  }

  /** A full wait on a live variable with no other waiter: registered, notified, finished, it leaves the list with its flag idle. */
  lemma WaitRoundTrip(s: CvState, sig: SignalRef)
    requires !s.destroyed && s.waiters == []
    ensures var r := NotifyOne(Register(s, sig));
            Woken(r, sig) && Finish(r, sig).waiters == [] && Finish(r, sig).signals[sig] == -1
  {
  }

  /**
   * The end of waitFor answers true exactly when the wait did not time out;
   * a timeout leaves no time, and a wake-up before the deadline hands back
   * the unused, still positive, part of the duration.
   */
  lemma FinishForSpec(s: CvState, sig: SignalRef, time: int, elapsed: int, timeout: bool)
    ensures FinishFor(s, sig, time, elapsed, timeout).0 == Finish(s, sig)
    ensures FinishFor(s, sig, time, elapsed, timeout).1 <==> !timeout
    ensures timeout ==> FinishFor(s, sig, time, elapsed, timeout).2 == 0
    ensures !timeout && 0 <= elapsed < time ==> 0 < FinishFor(s, sig, time, elapsed, timeout).2 <= time
  {
  }

  // ---- waitFor with a predicate ----

  /** One round of the predicate loop: what the predicate returned, and whether the inner waitFor was woken in time. */
  datatype Round = Round(holds: bool, woke: bool)

  /**
   * The predicate loop over a script of rounds: true once the predicate
   * holds or the variable is destroyed; after an inner waitFor that timed
   * out, the predicate's value at that point (`final`); otherwise another
   * round. None when the script ends before the loop does.
   */
  function PredicateLoop(rounds: seq<Round>, final: bool, destroyed: bool): Option<bool>
    decreases |rounds|
  {
    if rounds == [] then None
    else if rounds[0].holds || destroyed then Some(true)
    else if !rounds[0].woke then Some(final)
    else PredicateLoop(rounds[1..], final, destroyed)
  }

  /** waitForImpl with a predicate, as written: a duration that is not positive gives true straight away. */
  function WaitForPredicateAsWritten(time: int, rounds: seq<Round>, final: bool, destroyed: bool): Option<bool>
  {
    if time > 0 then PredicateLoop(rounds, final, destroyed) else Some(true)
  }

  /** As documented: with no time to wait, the answer is the predicate's current value. */
  function WaitForPredicate(time: int, rounds: seq<Round>, final: bool, destroyed: bool): Option<bool>
  {
    if time > 0 then PredicateLoop(rounds, final, destroyed)
    else if rounds == [] then None
    else Some(rounds[0].holds)
  }

  /** Some predicate evaluation in the script (or the one after a timeout) was true. */
  predicate SawTrue(rounds: seq<Round>, final: bool)
  {
    final || exists i | 0 <= i < |rounds| :: rounds[i].holds
  }

  lemma {:induction false} PredicateLoopTrueMeansSeen(rounds: seq<Round>, final: bool, destroyed: bool)
    ensures PredicateLoop(rounds, final, destroyed) == Some(true) ==> destroyed || SawTrue(rounds, final)
    decreases |rounds|
  {
    if rounds != [] && !rounds[0].holds && !destroyed && rounds[0].woke {
      PredicateLoopTrueMeansSeen(rounds[1..], final, destroyed);
      if PredicateLoop(rounds, final, destroyed) == Some(true) && !final {
        var i :| 0 <= i < |rounds[1..]| && rounds[1..][i].holds;
        assert rounds[i + 1].holds;
      }
    }
    if rounds != [] && rounds[0].holds {
      assert SawTrue(rounds, final);
    }
  }

  /** A true answer from the intended predicate wait means the predicate held at some point (or the variable died). */
  lemma WaitForPredicateTrueMeansSeen(time: int, rounds: seq<Round>, final: bool, destroyed: bool)
    ensures WaitForPredicate(time, rounds, final, destroyed) == Some(true) ==> destroyed || SawTrue(rounds, final)
  {
    PredicateLoopTrueMeansSeen(rounds, final, destroyed);
    if time <= 0 && rounds != [] && rounds[0].holds {
      assert SawTrue(rounds, final);
    }
  }

  /** As written, waitFor(mutex, 0ms, predicate) answers true although the predicate is false. */
  lemma ZeroTimeIgnoresPredicate()
    ensures WaitForPredicateAsWritten(0, [Round(false, false)], false, false) == Some(true)
    ensures !SawTrue([Round(false, false)], false)
    ensures WaitForPredicate(0, [Round(false, false)], false, false) == Some(false)
  {
  }

  /** The two agree whenever there is time to wait. */
  lemma AgreeWithPositiveTime(time: int, rounds: seq<Round>, final: bool, destroyed: bool)
    requires time > 0
    ensures WaitForPredicate(time, rounds, final, destroyed) == WaitForPredicateAsWritten(time, rounds, final, destroyed)
  {
  }

  /** The condition variable, updated in place. */
  class ConditionVariable {
    var waiters: seq<SignalRef>
    var signals: map<SignalRef, int>
    var destroyed: bool

    function Snapshot(): CvState
      reads this
    {
      CvState(waiters, signals, destroyed)
    }

    constructor ()
      ensures Snapshot() == Initial()
    {
      waiters, signals, destroyed := [], map[], false;
    }

    /** The destructor: later and pending waits return at once. */
    method Destroy()
      modifies this
      ensures Snapshot() == old(Snapshot()).(destroyed := true)
    {
      destroyed := true;
    }

    method NotifyOneImpl()
      modifies this
      ensures Snapshot() == NotifyOne(old(Snapshot()))
    {
      if waiters == [] {
        return;
      }
      signals := signals[waiters[0] := 1];
      waiters := waiters[1..];
    }

    method NotifyAllImpl()
      modifies this
      ensures Snapshot() == NotifyAll(old(Snapshot()))
    {
      var i := 0;
      while i < |waiters|
        invariant 0 <= i <= |waiters| && waiters == old(waiters) && destroyed == old(destroyed)
        invariant SignalAll(signals, waiters[i..]) == SignalAll(old(signals), old(waiters))
      {
        assert waiters[i..][0] == waiters[i] && waiters[i..][1..] == waiters[i + 1..];
        signals := signals[waiters[i] := 1];
        i := i + 1;
      }
      waiters := [];
    }

    /** waitImpl, first half: register the caller's flag. */
    method BeginWait(sig: SignalRef)
      modifies this
      ensures Snapshot() == Register(old(Snapshot()), sig)
    {
      if destroyed {
        return;
      }
      signals := signals[sig := 0];
      waiters := waiters + [sig];
    }

    /** waitImpl, second half: the yield loop has ended (a precondition here); the flag is reset. */
    method EndWait(sig: SignalRef)
      requires Woken(Snapshot(), sig)
      modifies this
      ensures Snapshot() == Finish(old(Snapshot()), sig)
    {
      signals := signals[sig := -1];
    }

    /** waitForImpl, first half: Some(answer) when it returns without waiting. */
    method BeginWaitFor(sig: SignalRef, time: int) returns (answer: Option<bool>)
      modifies this
      ensures (Snapshot(), answer) == RegisterFor(old(Snapshot()), sig, time)
    {
      if destroyed {
        return Some(true);
      }
      if time == 0 {
        return Some(false);
      }
      signals := signals[sig := 0];
      waiters := waiters + [sig];
      return None;
    }

    /**
     * waitForImpl, second half: the loop ended because the flag was
     * signalled, the variable was destroyed or `elapsed` reached `time`
     * (which `timeout` reports); the clock is a parameter.
     */
    method EndWaitFor(sig: SignalRef, time: int, elapsed: int, timeout: bool) returns (ok: bool, remaining: int)
      requires Woken(Snapshot(), sig) || (timeout && elapsed >= time)
      modifies this
      ensures (Snapshot(), ok, remaining) == FinishFor(old(Snapshot()), sig, time, elapsed, timeout)
    {
      signals := signals[sig := -1];
      remaining := if timeout then 0 else time - elapsed;
      ok := !timeout;
    }
  }
}
