/**
  The byte reservation and the rate-limit streak that all copying threads share under one lock
  (src/gdrive_turbo_copy/copier.py:635-646, 682-747, 1036-1056).

  Each function is the effect of one critical section; class SharedLedger performs them in
  place. CopyProtocol interleaves them.
 */
module CopyLedger {

  const RATE_LIMIT_STOP_THRESHOLD: nat := 8

  datatype Ledger = Ledger(runBytes: int, copiedBytes: int, copiedCount: int, consecRateFail: nat)

  const EMPTY_LEDGER := Ledger(0, 0, 0, 0)

  /** A positive budget admits a file only if the bytes reserved with it stay within. */
  predicate Fits(budget: real, l: Ledger, size: nat) {
    !(budget > 0.0 && (l.runBytes + size) as real > budget)
  }

  function Reserve(l: Ledger, size: nat): Ledger {
    l.(runBytes := l.runBytes + size)
  }

  function Release(l: Ledger, size: nat): Ledger {
    l.(runBytes := l.runBytes - size)
  }

  function MarkCopied(l: Ledger, size: nat): Ledger {
    l.(copiedBytes := l.copiedBytes + size, copiedCount := l.copiedCount + 1, consecRateFail := 0)
  }

  function CountRateFailure(l: Ledger): Ledger {
    l.(consecRateFail := l.consecRateFail + 1)
  }

  predicate Tripped(l: Ledger) {
    l.consecRateFail >= RATE_LIMIT_STOP_THRESHOLD
  }

  function BreakStreak(l: Ledger): Ledger {
    l.(consecRateFail := 0)
  }

  class SharedLedger {
    const budget: real
    var runBytes: int
    var copiedBytes: int
    var copiedCount: int
    var consecRateFail: nat

    function View(): Ledger
      reads this
    {
      Ledger(runBytes, copiedBytes, copiedCount, consecRateFail)
    }

    constructor (budget: real)
      ensures this.budget == budget && View() == EMPTY_LEDGER
    {
      this.budget := budget;
      runBytes, copiedBytes, copiedCount, consecRateFail := 0, 0, 0, 0;
    }

    /** False means the run must stop: the budget would be exceeded, and nothing was reserved. */
    method TryReserve(size: nat) returns (reserved: bool)
      modifies this
      ensures reserved == Fits(budget, old(View()), size)
      ensures View() == if reserved then Reserve(old(View()), size) else old(View())
    {
      var projected := runBytes + size;
      if budget > 0.0 && projected as real > budget {
        return false;
      }
      runBytes := projected;
      return true;
    }

    method ReleaseReservation(size: nat)
      modifies this
      ensures View() == Release(old(View()), size)
    {
      if size != 0 {
        runBytes := runBytes - size;
      }
    }

    method Mark(size: nat)
      modifies this
      ensures View() == MarkCopied(old(View()), size)
    {
      copiedCount := copiedCount + 1;
      copiedBytes := copiedBytes + size;
      consecRateFail := 0;
    }

    /** A copy that exhausted its retries on rate limiting; the result says whether to stop. */
    method RateLimited() returns (tripped: bool)
      modifies this
      ensures View() == CountRateFailure(old(View()))
      ensures tripped == Tripped(View())
    {
      consecRateFail := consecRateFail + 1;
      tripped := consecRateFail >= RATE_LIMIT_STOP_THRESHOLD;
    }

    method OtherOutcome()
      modifies this
      ensures View() == BreakStreak(old(View()))
    {
      consecRateFail := 0;
    }
  }
}
