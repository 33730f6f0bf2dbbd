/** The failed sign-in lockout: a counter over a fixed window. */
module Lockout {
  import opened Clock
  import opened Wrappers

  const MAX_FAILURES: nat := 5
  const LOCKOUT_WINDOW_SECS: nat := 300

  datatype Entry = Entry(failures: nat, firstAt: nat)

  function Recorded(entry: Option<Entry>, now: nat): Entry {
    var e := if entry.Some? then entry.value else Entry(0, now);
    if Elapsed(now, e.firstAt) >= LOCKOUT_WINDOW_SECS then Entry(1, now) else Entry(e.failures + 1, e.firstAt)
  }

  predicate LockedOut(entry: Option<Entry>, now: nat) {
    entry.Some? && entry.value.failures >= MAX_FAILURES && Elapsed(now, entry.value.firstAt) < LOCKOUT_WINDOW_SECS
  }

  class LockoutMap {
    var lockouts: map<string, Entry>
    /** Every failure and clear so far, by login id. */
    ghost var history: map<string, seq<Event>>

    ghost function EntryOf(loginId: string): Option<Entry>
      reads this
    {
      if loginId in lockouts then Some(lockouts[loginId]) else None
    }

    ghost function HistoryOf(loginId: string): seq<Event>
      reads this
    {
      if loginId in history then history[loginId] else []
    }

    /** What is stored for a login id is what its history says. */
    ghost predicate Valid()
      reads this
    {
      forall l :: EntryOf(l) == Stored(HistoryOf(l))
    }

    constructor ()
      ensures Valid() && history == map[]
    {
      lockouts, history := map[], map[];
    }

    /** Only `loginId` was touched, and its own entry is right. */
    twostate lemma OthersKept(loginId: string)
      requires old(Valid()) && EntryOf(loginId) == Stored(HistoryOf(loginId))
      requires lockouts - {loginId} == old(lockouts) - {loginId} && history - {loginId} == old(history) - {loginId}
      ensures Valid()
    {
      forall l ensures EntryOf(l) == Stored(HistoryOf(l)) {
        if l != loginId {
          assert l in lockouts <==> l in lockouts - {loginId};
          assert l in old(lockouts) <==> l in old(lockouts) - {loginId};
          assert l in history <==> l in history - {loginId};
          assert l in old(history) <==> l in old(history) - {loginId};
          assert old(EntryOf(l)) == EntryOf(l) && old(HistoryOf(l)) == HistoryOf(l);
        }
      }
    }

    method CheckNotLockedOut(loginId: string, now: nat) returns (r: Result<(), StoreError>)
      requires Valid()
      ensures r == if LockedOut(Stored(HistoryOf(loginId)), now) then Err(TooManyRequests) else Ok(())
    {
      assert EntryOf(loginId) == Stored(HistoryOf(loginId));
      if loginId in lockouts {
        var elapsed := Elapsed(now, lockouts[loginId].firstAt);
        if lockouts[loginId].failures >= MAX_FAILURES && elapsed < LOCKOUT_WINDOW_SECS {
          return Err(TooManyRequests);
        }
      }
      return Ok(());
    }

    method RecordFailure(loginId: string, now: nat)
      requires Valid()
      modifies this
      ensures Valid() && history == old(history)[loginId := old(HistoryOf(loginId)) + [Failure(now)]]
    {
      assert EntryOf(loginId) == Stored(HistoryOf(loginId));
      var entry := if loginId in lockouts then lockouts[loginId] else Entry(0, now);
      var elapsed := Elapsed(now, entry.firstAt);
      if elapsed >= LOCKOUT_WINDOW_SECS {
        entry := Entry(1, now);
      } else {
        entry := entry.(failures := entry.failures + 1);
      }
      ghost var was := HistoryOf(loginId);
      assert entry == Recorded(EntryOf(loginId), now);
      StoredSnoc(was, Failure(now));
      assert Some(entry) == Stored(was + [Failure(now)]);
      lockouts := lockouts[loginId := entry];
      history := history[loginId := was + [Failure(now)]];
      assert EntryOf(loginId) == Some(entry) && HistoryOf(loginId) == was + [Failure(now)];
      OthersKept(loginId);
    }

    method ClearFailures(loginId: string, now: nat)
      requires Valid()
      modifies this
      ensures Valid() && history == old(history)[loginId := old(HistoryOf(loginId)) + [Clear(now)]]
    {
      StoredSnoc(HistoryOf(loginId), Clear(now));
      lockouts := lockouts - {loginId};
      history := history[loginId := HistoryOf(loginId) + [Clear(now)]];
      OthersKept(loginId);
    }
  }

  // ---------------------------------------------------------- its history

  /** What happened to one login id, oldest first. */
  datatype Event = Failure(at: nat) | Clear(at: nat)

  function Stored(history: seq<Event>): Option<Entry> {
    if history == [] then None
    else StoredAfter(Stored(history[..|history| - 1]), history[|history| - 1])
  }

  function StoredAfter(before: Option<Entry>, event: Event): Option<Entry> {
    if event.Failure? then Some(Recorded(before, event.at)) else None
  }

  lemma StoredSnoc(history: seq<Event>, event: Event)
    ensures Stored(history + [event]) == StoredAfter(Stored(history), event)
  {
    assert (history + [event])[..|history|] == history;
  }

  ghost predicate ClockForward(history: seq<Event>) {
    forall i, j | 0 <= i < j < |history| :: history[i].at <= history[j].at
  }

  /** From event `i` on, the history is failures only, all inside the window the one at `i` opened. */
  ghost predicate WindowFrom(history: seq<Event>, i: nat) {
    && i < |history|
    && (forall j | i <= j < |history| :: history[j].Failure? && history[j].at < history[i].at + LOCKOUT_WINDOW_SECS)
  }

  /** The failure at `i` opened a window: nothing came before it, or a clear, or a window it fell outside of. */
  ghost predicate Opens(history: seq<Event>, i: nat)
    decreases i
  {
    && i < |history| && history[i].Failure?
    && (i == 0 || history[i - 1].Clear? ||
        exists o | 0 <= o < i :: Opens(history, o) && WindowFrom(history[..i], o)
                                 && history[i].at >= history[o].at + LOCKOUT_WINDOW_SECS)
  }

  /** The open window of a history, if it ends in one. */
  ghost predicate CurrentWindow(history: seq<Event>, i: nat) {
    Opens(history, i) && WindowFrom(history, i)
  }

  lemma {:induction false} OpensInPrefix(history: seq<Event>, n: nat, i: nat)
    requires i < n <= |history|
    ensures Opens(history[..n], i) <==> Opens(history, i)
    decreases i
  {
    assert history[..n][..i] == history[..i];
    forall o | 0 <= o < i ensures Opens(history[..n], o) <==> Opens(history, o) {
      OpensInPrefix(history, n, o);
    }
  }

  /** The stored pair is its history: the number of failures since the one that opened the window, and when that was. */
  lemma {:induction false} StoredIsHistory(history: seq<Event>) returns (opener: nat)
    requires ClockForward(history)
    ensures Stored(history).None? <==> history == [] || history[|history| - 1].Clear?
    ensures Stored(history).Some? ==>
              CurrentWindow(history, opener)
              && Stored(history).value == Entry(|history| - opener, history[opener].at)
  {
    opener := 0;
    if history != [] && history[|history| - 1].Failure? {
      var n := |history| - 1;
      var init := history[..n];
      var o := StoredIsHistory(init);
      var at := history[n].at;
      if Stored(init).None? {
        opener := n;
      } else {
        OpensInPrefix(history, n, o);
        assert init[o] == history[o];
        if at >= history[o].at + LOCKOUT_WINDOW_SECS {
          opener := n;
        } else {
          opener := o;
          forall j | o <= j < |history|
            ensures history[j].Failure? && history[j].at < history[o].at + LOCKOUT_WINDOW_SECS
          {
            if j < n { assert init[j] == history[j]; }
          }
        }
      }
    }
  }

  /** There is never more than one open window. */
  lemma {:induction false} WindowUnique(history: seq<Event>, i: nat, j: nat)
    requires ClockForward(history) && CurrentWindow(history, i) && CurrentWindow(history, j)
    ensures i == j
    decreases i + j
  {
    if i < j {
      NoSecondOpener(history, i, j);
    } else if j < i {
      NoSecondOpener(history, j, i);
    }
  }

  lemma {:induction false} NoSecondOpener(history: seq<Event>, i: nat, j: nat)
    requires i < j && ClockForward(history) && CurrentWindow(history, i)
    ensures !Opens(history, j)
    decreases i + j, 0
  {
    if Opens(history, j) {
      assert history[j - 1].Failure?;
      var o :| 0 <= o < j && Opens(history, o) && WindowFrom(history[..j], o)
               && history[j].at >= history[o].at + LOCKOUT_WINDOW_SECS;
      OpensInPrefix(history, j, o);
      OpensInPrefix(history, j, i);
      WindowInPrefix(history, j, i);
      WindowUnique(history[..j], i, o);
    }
  }

  lemma WindowInPrefix(history: seq<Event>, n: nat, i: nat)
    requires i < n <= |history| && WindowFrom(history, i)
    ensures WindowFrom(history[..n], i)
  {
    forall k | i <= k < n
      ensures history[..n][k].Failure? && history[..n][k].at < history[..n][i].at + LOCKOUT_WINDOW_SECS
    {
      assert history[..n][k] == history[k];
    }
  }

  /** The window opened at `i` is current, holds at least five failures, and is not over. */
  ghost predicate FullWindow(history: seq<Event>, now: nat, i: nat) {
    CurrentWindow(history, i) && |history| - i >= MAX_FAILURES && now < history[i].at + LOCKOUT_WINDOW_SECS
  }

  /** A sign-in is refused exactly when the open window holds five failures and is not over. */
  lemma RefusedIffFullWindow(history: seq<Event>, now: nat)
    requires ClockForward(history) && forall i | 0 <= i < |history| :: history[i].at <= now
    ensures LockedOut(Stored(history), now)
       <==> exists i | 0 <= i < |history| :: FullWindow(history, now, i)
  {
    var o := StoredIsHistory(history);
    if LockedOut(Stored(history), now) {
      assert FullWindow(history, now, o);
    }
    forall i | 0 <= i < |history| && FullWindow(history, now, i) ensures LockedOut(Stored(history), now) {
      assert history[|history| - 1].Failure?;
      WindowUnique(history, i, o);
    }
  }

  /** A refusal means the last five events were failures, uncleared, all in the last 300 seconds. */
  lemma RefusalMeansFiveRecentFailures(history: seq<Event>, now: nat)
    requires ClockForward(history) && forall i | 0 <= i < |history| :: history[i].at <= now
    requires LockedOut(Stored(history), now)
    ensures |history| >= MAX_FAILURES
    ensures forall j | |history| - MAX_FAILURES <= j < |history| ::
              history[j].Failure? && now < history[j].at + LOCKOUT_WINDOW_SECS
  {
    var o := StoredIsHistory(history);
    forall j | |history| - MAX_FAILURES <= j < |history|
      ensures history[j].Failure? && now < history[j].at + LOCKOUT_WINDOW_SECS
    {
      if o < j { assert history[o].at <= history[j].at; }
    }
  }

  /** The converse fails: the window is fixed, so five failures in 300 seconds that straddle its end do not lock. */
  lemma FiveRecentFailuresMayNotLock()
    ensures var history := [Failure(0), Failure(299), Failure(299), Failure(299), Failure(300), Failure(301)];
            ClockForward(history) && !LockedOut(Stored(history), 301)
            && forall j | 1 <= j < 6 :: history[j].Failure? && 301 < history[j].at + LOCKOUT_WINDOW_SECS
  {
    var h: seq<Event> := [];
    StoredSnoc(h, Failure(0));
    h := h + [Failure(0)];
    StoredSnoc(h, Failure(299));
    h := h + [Failure(299)];
    StoredSnoc(h, Failure(299));
    h := h + [Failure(299)];
    StoredSnoc(h, Failure(299));
    h := h + [Failure(299)];
    StoredSnoc(h, Failure(300));
    h := h + [Failure(300)];
    StoredSnoc(h, Failure(301));
    h := h + [Failure(301)];
    assert h == [Failure(0), Failure(299), Failure(299), Failure(299), Failure(300), Failure(301)];
  }

  /** Failures recorded while a lock is on never move its end. */
  lemma {:induction false} FailuresDoNotExtendLock(history: seq<Event>, more: seq<Event>)
    requires Stored(history).Some? && Stored(history).value.failures >= MAX_FAILURES
    requires forall i | 0 <= i < |more| ::
               more[i].Failure? && more[i].at < Stored(history).value.firstAt + LOCKOUT_WINDOW_SECS
    ensures Stored(history + more).Some?
    ensures Stored(history + more).value
            == Entry(Stored(history).value.failures + |more|, Stored(history).value.firstAt)
  {
    if more == [] {
      assert history + more == history;
    } else {
      var init := more[..|more| - 1];
      FailuresDoNotExtendLock(history, init);
      assert (history + more)[..|history + more| - 1] == history + init;
      assert (history + more)[|history + more| - 1] == more[|more| - 1];
    }
  }

  /** So the lock is over 300 seconds after its window opened, however many failures followed. */
  lemma LockEndsOnTime(history: seq<Event>, more: seq<Event>, now: nat)
    requires Stored(history).Some? && Stored(history).value.failures >= MAX_FAILURES
    requires forall i | 0 <= i < |more| ::
               more[i].Failure? && more[i].at < Stored(history).value.firstAt + LOCKOUT_WINDOW_SECS
    ensures LockedOut(Stored(history + more), now) <==> now < Stored(history).value.firstAt + LOCKOUT_WINDOW_SECS
  {
    FailuresDoNotExtendLock(history, more);
  }
}
