/**
 The sliding window of failed Discord requests
 (components/runtime/src/extensions/discord.rs): a deque of at most 29 instants
 decides what the whole history would.  Times are milliseconds.
 */
module FailureWindow {
  const CAPACITY := 29
  const WINDOW := 60_000

  /** The last `CAPACITY` elements. */
  function Recent(history: seq<int>): seq<int> {
    if |history| <= CAPACITY then history else history[|history| - CAPACITY..]
  }

  ghost predicate Ordered(history: seq<int>, now: int) {
    && (forall i, j :: 0 <= i < j < |history| ==> history[i] <= history[j])
    && (forall i :: 0 <= i < |history| ==> history[i] <= now)
  }

  /** How many failures of the history are younger than the window. */
  function Young(history: seq<int>, now: int): nat {
    if history == [] then 0
    else Young(history[..|history| - 1], now) + if now - history[|history| - 1] < 60_000 then 1 else 0
  }

  lemma {:induction false} AllYoung(history: seq<int>, now: int)
    requires forall i :: 0 <= i < |history| ==> now - history[i] < WINDOW
    ensures Young(history, now) == |history|
  {
    if history != [] {
      AllYoung(history[..|history| - 1], now);
    }
  }

  lemma {:induction false} YoungAppend(a: seq<int>, b: seq<int>, now: int)
    ensures Young(a + b, now) == Young(a, now) + Young(b, now)
    decreases |b|
  {
    if b == [] {
      assert a + b == a;
    } else {
      assert (a + b)[..|a + b| - 1] == a + b[..|b| - 1];
      YoungAppend(a, b[..|b| - 1], now);
    }
  }

  lemma {:induction false} NoneYoung(history: seq<int>, now: int)
    requires forall i :: 0 <= i < |history| ==> now - history[i] >= WINDOW
    ensures Young(history, now) == 0
  {
    if history != [] {
      NoneYoung(history[..|history| - 1], now);
    }
  }

  lemma {:induction false} YoungAtMost(history: seq<int>, now: int)
    ensures Young(history, now) <= |history|
  {
    if history != [] {
      YoungAtMost(history[..|history| - 1], now);
    }
  }

  /** When the oldest of the last elements is young, they all are. */
  lemma {:induction false} YoungTail(a: seq<int>, b: seq<int>, now: int)
    requires Ordered(a + b, now) && b != [] && now - b[0] < WINDOW
    ensures Young(a + b, now) >= |b|
  {
    YoungAppend(a, b, now);
    forall i | 0 <= i < |b| ensures now - b[i] < WINDOW {
      assert b[0] == (a + b)[|a|] && b[i] == (a + b)[|a| + i];
    }
    AllYoung(b, now);
  }

  /** When it is old, fewer than all of them are young, and nothing before is. */
  lemma {:induction false} OldHead(a: seq<int>, b: seq<int>, now: int)
    requires Ordered(a + b, now) && b != [] && now - b[0] >= WINDOW
    ensures Young(a + b, now) < |b|
  {
    var upTo := a + [b[0]];
    assert a + b == upTo + b[1..];
    forall i | 0 <= i < |upTo| ensures now - upTo[i] >= WINDOW {
      assert upTo[i] == (a + b)[i] && b[0] == (a + b)[|a|];
    }
    NoneYoung(upTo, now);
    YoungAppend(upTo, b[1..], now);
    YoungAtMost(b[1..], now);
  }

  /** The deque alone decides whether at least 29 failures of the whole history
      are younger than a minute. */
  lemma {:induction false} WindowDecides(history: seq<int>, now: int)
    requires Ordered(history, now)
    ensures Young(history, now) >= 29 <==>
      |Recent(history)| >= CAPACITY && now - Recent(history)[0] < WINDOW
  {
    hide Young, Ordered;
    var n := |history|;
    if n < CAPACITY {
      YoungAtMost(history, now);
    } else {
      var a, b := history[..n - CAPACITY], history[n - CAPACITY..];
      assert history == a + b && Recent(history) == b && |b| == CAPACITY;
      if now - b[0] < WINDOW {
        YoungTail(a, b, now);
      } else {
        OldHead(a, b, now);
      }
    }
  }

  lemma {:induction false} OrderedSnoc(history: seq<int>, last: int, now: int)
    requires Ordered(history, last) && last <= now
    ensures Ordered(history + [now], now)
  {}

  class DiscordOpsState {
    var recentBadRequests: seq<int>
    ghost var history: seq<int>
    ghost var lastNow: int

    ghost predicate Valid()
      reads this
    {
      Ordered(history, lastNow) && recentBadRequests == Recent(history)
    }

    constructor ()
      ensures Valid() && history == []
    {
      recentBadRequests, history := [], [];
    }

    /** `add_failed_req`. */
    method AddFailedReq(now: int)
      requires Valid() && now >= lastNow
      modifies this
      ensures Valid() && history == old(history) + [now] && lastNow == now
    {
      OrderedSnoc(history, lastNow, now);
      hide Ordered;
      recentBadRequests := recentBadRequests + [now];
      history, lastNow := history + [now], now;
      while |recentBadRequests| > 29
        invariant |recentBadRequests| <= |history|
        invariant recentBadRequests == history[|history| - |recentBadRequests|..]
        invariant |recentBadRequests| >= if |history| < CAPACITY then |history| else CAPACITY
        invariant history == old(history) + [now] && lastNow == now
      {
        recentBadRequests := recentBadRequests[1..];
      }
    }

    /** `should_suspend_guild`: at least 29 failures, over all time, are younger
        than a minute. */
    method ShouldSuspendGuild(now: int) returns (r: bool)
      requires Valid() && now >= lastNow
      ensures r <==> Young(history, now) >= 29
    {
      WindowDecides(history, now);
      if |recentBadRequests| < 29 {
        return false;
      }
      return now - recentBadRequests[0] < 60_000;
    }
  }
}
