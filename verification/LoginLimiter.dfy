// The sliding-window cap on portal login attempts (LoginRateLimiter in portal/routes.py).
module LoginLimiter {
  import opened Sums

  // time.monotonic() readings, in seconds.
  const WINDOW: real := 60.0

  datatype Attempt = Attempt(client: string, at: real)

  // The clock never runs backwards.
  ghost predicate Ordered(attempts: seq<Attempt>) {
    forall i, j :: 0 <= i < j < |attempts| ==> attempts[i].at <= attempts[j].at
  }

  ghost predicate Increasing(times: seq<real>) {
    forall i, j :: 0 <= i < j < |times| ==> times[i] <= times[j]
  }

  // The times not more than a window old.
  function Recent(times: seq<real>, now: real): (r: seq<real>)
    ensures |r| <= |times|
  {
    if times == [] then []
    else
      var t := times[|times| - 1];
      Recent(times[..|times| - 1], now) + if now - t > WINDOW then [] else [t]
  }

  // The rule itself: a client is admitted while fewer than n of its admissions lie within the
  // last 60 seconds.  These are the admission times of client c.
  function Admissions(n: int, attempts: seq<Attempt>, c: string): seq<real> {
    if attempts == [] then []
    else
      var before := Admissions(n, attempts[..|attempts| - 1], c);
      var a := attempts[|attempts| - 1];
      if a.client == c && |Recent(before, a.at)| < n then before + [a.at] else before
  }

  // What the rule decides about one more attempt.
  predicate Allowed(n: int, attempts: seq<Attempt>, client: string, now: real) {
    |Recent(Admissions(n, attempts, client), now)| < n
  }

  // The time of client c's last attempt.
  function LastSeen(attempts: seq<Attempt>, c: string): real {
    if attempts == [] then 0.0
    else if attempts[|attempts| - 1].client == c then attempts[|attempts| - 1].at
    else LastSeen(attempts[..|attempts| - 1], c)
  }

  function InWindow(start: real): real -> int { (t: real) => if start <= t <= start + 60.0 then 1 else 0 }

  lemma {:induction false} WindowIsRecent(times: seq<real>, start: real, now: real)
    requires now <= start + WINDOW
    ensures Sum(times, InWindow(start)) <= |Recent(times, now)|
  {
    if times != [] { WindowIsRecent(times[..|times| - 1], start, now); }
  }

  // No closed 60-second window, wherever it starts, holds more than n admissions of a client.
  lemma {:induction false} AtMostNPerWindow(n: nat, attempts: seq<Attempt>, c: string, start: real)
    ensures Sum(Admissions(n, attempts, c), InWindow(start)) <= n
  {
    if attempts != [] {
      var init, a := attempts[..|attempts| - 1], attempts[|attempts| - 1];
      var before := Admissions(n, init, c);
      AtMostNPerWindow(n, init, c, start);
      SumAppend(before, a.at, InWindow(start));
      if a.at <= start + WINDOW { WindowIsRecent(before, start, a.at); }
    }
  }

  lemma {:induction false} AdmissionsSoFar(n: int, attempts: seq<Attempt>, c: string)
    requires Ordered(attempts)
    ensures Increasing(Admissions(n, attempts, c))
    ensures attempts != [] ==>
              forall i :: 0 <= i < |Admissions(n, attempts, c)| ==>
                            Admissions(n, attempts, c)[i] <= attempts[|attempts| - 1].at
  {
    if attempts != [] {
      var init, a := attempts[..|attempts| - 1], attempts[|attempts| - 1];
      AdmissionsSoFar(n, init, c);
      if init != [] { assert init[|init| - 1].at <= a.at; }
    }
  }

  lemma {:induction false} RecentIsWindow(times: seq<real>, now: real)
    requires forall i :: 0 <= i < |times| ==> times[i] <= now
    ensures |Recent(times, now)| == Sum(times, InWindow(now - WINDOW))
  {
    if times != [] {
      assert times[|times| - 1] <= now;
      RecentIsWindow(times[..|times| - 1], now);
    }
  }

  // An attempt is refused if and only if exactly n admissions of that client already lie
  // within the 60 seconds before it.
  lemma {:induction false} RefusedExactly(n: nat, attempts: seq<Attempt>, c: string, now: real)
    requires Ordered(attempts + [Attempt(c, now)])
    ensures Allowed(n, attempts, c, now) <==> Sum(Admissions(n, attempts, c), InWindow(now - 60.0)) != n
    ensures Admissions(n, attempts + [Attempt(c, now)], c) ==
            Admissions(n, attempts, c) + if Allowed(n, attempts, c, now) then [now] else []
  {
    AdmittedBefore(n, attempts, c, now);
    RecentIsWindow(Admissions(n, attempts, c), now);
    AtMostNPerWindow(n, attempts, c, now - WINDOW);
    AdmissionsAppend(n, attempts, c, now, c);
  }

  lemma {:induction false} AdmittedBefore(n: int, attempts: seq<Attempt>, c: string, now: real)
    requires Ordered(attempts + [Attempt(c, now)])
    ensures forall i :: 0 <= i < |Admissions(n, attempts, c)| ==> Admissions(n, attempts, c)[i] <= now
  {
    var longer := attempts + [Attempt(c, now)];
    forall i, j | 0 <= i < j < |attempts| ensures attempts[i].at <= attempts[j].at {
      assert longer[i].at <= longer[j].at;
    }
    AdmissionsSoFar(n, attempts, c);
    if attempts != [] { assert longer[|attempts| - 1].at <= longer[|attempts|].at; }
  }

  // --- What the deque forgets does not matter. ---

  lemma {:induction false} RecentOfRecent(times: seq<real>, earlier: real, now: real)
    requires earlier <= now
    ensures Recent(Recent(times, earlier), now) == Recent(times, now)
  {
    if times != [] {
      var init, t := times[..|times| - 1], times[|times| - 1];
      RecentOfRecent(init, earlier, now);
      if earlier - t <= WINDOW {
        assert (Recent(init, earlier) + [t])[..|Recent(init, earlier)|] == Recent(init, earlier);
      } else {
        assert Recent(times, earlier) == Recent(init, earlier);
      }
    }
  }

  lemma {:induction false} RecentKeepsAll(times: seq<real>, now: real)
    requires forall i :: 0 <= i < |times| ==> now - times[i] <= WINDOW
    ensures Recent(times, now) == times
  {
    if times != [] {
      assert now - times[|times| - 1] <= WINDOW;
      RecentKeepsAll(times[..|times| - 1], now);
      assert times == times[..|times| - 1] + [times[|times| - 1]];
    }
  }

  lemma {:induction false} RecentDropsOldest(times: seq<real>, now: real)
    requires times != [] && now - times[0] > WINDOW
    ensures Recent(times, now) == Recent(times[1..], now)
  {
    if |times| == 1 {
      assert times[1..] == [] && times[..0] == [];
    } else {
      var init := times[..|times| - 1];
      RecentDropsOldest(init, now);
      assert init[1..] == times[1..][..|times[1..]| - 1];
    }
  }

  lemma {:induction false} RecentIncreasing(times: seq<real>, now: real)
    requires Increasing(times)
    ensures Increasing(Recent(times, now))
    ensures forall i :: 0 <= i < |Recent(times, now)| ==> Recent(times, now)[i] in times
  {
    if times != [] {
      var init := times[..|times| - 1];
      RecentIncreasing(init, now);
      assert forall i :: 0 <= i < |init| ==> init[i] == times[i];
    }
  }

  lemma {:induction false} LastSeenBefore(attempts: seq<Attempt>, c: string, now: real)
    requires forall i :: 0 <= i < |attempts| ==> attempts[i].at <= now
    ensures LastSeen(attempts, c) <= now || forall i :: 0 <= i < |attempts| ==> attempts[i].client != c
  {
    if attempts != [] {
      assert attempts[|attempts| - 1].at <= now;
      LastSeenBefore(attempts[..|attempts| - 1], c, now);
    }
  }

  lemma {:induction false} NeverSeen(n: int, attempts: seq<Attempt>, c: string)
    requires forall i :: 0 <= i < |attempts| ==> attempts[i].client != c
    ensures Admissions(n, attempts, c) == []
  {
    if attempts != [] {
      assert attempts[|attempts| - 1].client != c;
      NeverSeen(n, attempts[..|attempts| - 1], c);
    }
  }

  // Forgetting what was too old at the client's previous attempt loses nothing that counts now.
  lemma {:induction false} ForgettingIsSafe(n: int, attempts: seq<Attempt>, c: string, now: real)
    requires Ordered(attempts + [Attempt(c, now)])
    ensures Recent(Recent(Admissions(n, attempts, c), LastSeen(attempts, c)), now) == Recent(Admissions(n, attempts, c), now)
  {
    var longer := attempts + [Attempt(c, now)];
    forall i | 0 <= i < |attempts| ensures attempts[i].at <= now {
      assert longer[i].at <= longer[|attempts|].at;
    }
    LastSeenBefore(attempts, c, now);
    if LastSeen(attempts, c) <= now {
      RecentOfRecent(Admissions(n, attempts, c), LastSeen(attempts, c), now);
    } else {
      NeverSeen(n, attempts, c);
    }
  }

  lemma {:induction false} RecentAppend(times: seq<real>, t: real, now: real)
    ensures Recent(times + [t], now) == Recent(times, now) + if now - t > WINDOW then [] else [t]
  {
    assert (times + [t])[..|times|] == times;
  }

  lemma {:induction false} AdmissionsAppend(n: int, attempts: seq<Attempt>, client: string, now: real, c: string)
    ensures Admissions(n, attempts + [Attempt(client, now)], c) ==
            if client == c && Allowed(n, attempts, c, now)
            then Admissions(n, attempts, c) + [now] else Admissions(n, attempts, c)
  {
    assert (attempts + [Attempt(client, now)])[..|attempts|] == attempts;
  }

  lemma {:induction false} LastSeenAppend(attempts: seq<Attempt>, client: string, now: real, c: string)
    ensures LastSeen(attempts + [Attempt(client, now)], c) == if client == c then now else LastSeen(attempts, c)
  {
    assert (attempts + [Attempt(client, now)])[..|attempts|] == attempts;
  }

  // A client's deque: its admissions not older than 60 seconds at its last attempt.
  ghost predicate Tracks(n: int, attempts: seq<Attempt>, c: string, deque: seq<real>) {
    deque == Recent(Admissions(n, attempts, c), LastSeen(attempts, c))
  }

  // Evicting, counting and appending keep the client's deque in step with the rule.
  lemma {:induction false} DequeStep(n: int, attempts: seq<Attempt>, client: string, now: real, deque: seq<real>, recent: seq<real>)
    requires Ordered(attempts + [Attempt(client, now)]) && Tracks(n, attempts, client, deque)
    requires recent == Recent(deque, now)
    ensures |recent| < n <==> Allowed(n, attempts, client, now)
    ensures Tracks(n, attempts + [Attempt(client, now)], client, if |recent| < n then recent + [now] else recent)
  {
    ForgettingIsSafe(n, attempts, client, now);
    AdmissionsAppend(n, attempts, client, now, client);
    LastSeenAppend(attempts, client, now, client);
    RecentAppend(Admissions(n, attempts, client), now, now);
  }

  // Everybody else's deque is in step as it is.
  lemma OtherDeque(n: int, attempts: seq<Attempt>, client: string, now: real, c: string, deque: seq<real>)
    requires c != client && Tracks(n, attempts, c, deque)
    ensures Tracks(n, attempts + [Attempt(client, now)], c, deque)
  {
    AdmissionsAppend(n, attempts, client, now, c);
    LastSeenAppend(attempts, client, now, c);
  }

  lemma TracksIncreasing(n: int, attempts: seq<Attempt>, c: string, deque: seq<real>)
    requires Ordered(attempts) && Tracks(n, attempts, c, deque)
    ensures Increasing(deque)
  {
    AdmissionsSoFar(n, attempts, c);
    RecentIncreasing(Admissions(n, attempts, c), LastSeen(attempts, c));
  }

  function DequeOf(hits: map<string, seq<real>>, c: string): seq<real> { if c in hits then hits[c] else [] }

  ghost predicate AllTrack(n: int, attempts: seq<Attempt>, hits: map<string, seq<real>>) {
    forall c :: Tracks(n, attempts, c, DequeOf(hits, c))
  }

  lemma DequeSorted(n: int, attempts: seq<Attempt>, client: string, hits: map<string, seq<real>>)
    requires Ordered(attempts) && AllTrack(n, attempts, hits)
    ensures Increasing(DequeOf(hits, client))
  {
    assert Tracks(n, attempts, client, DequeOf(hits, client));
    TracksIncreasing(n, attempts, client, DequeOf(hits, client));
  }

  // One call of allow on the table of deques, with the client's deque already evicted.
  lemma {:induction false} AllowStep(n: int, attempts: seq<Attempt>, client: string, now: real,
                  hits: map<string, seq<real>>, recent: seq<real>, deque: seq<real>)
    requires Ordered(attempts + [Attempt(client, now)]) && AllTrack(n, attempts, hits)
    requires recent == Recent(DequeOf(hits, client), now) && deque == if |recent| < n then recent + [now] else recent
    ensures |recent| < n <==> Allowed(n, attempts, client, now)
    ensures AllTrack(n, attempts + [Attempt(client, now)], hits[client := deque])
  {
    assert Tracks(n, attempts, client, DequeOf(hits, client));
    DequeStep(n, attempts, client, now, DequeOf(hits, client), recent);
    AllDeques(n, attempts, client, now, hits, deque, attempts + [Attempt(client, now)]);
  }

  lemma AllDeques(n: int, attempts: seq<Attempt>, client: string, now: real,
                  hits: map<string, seq<real>>, deque: seq<real>, longer: seq<Attempt>)
    requires longer == attempts + [Attempt(client, now)]
    requires AllTrack(n, attempts, hits) && Tracks(n, longer, client, deque)
    ensures AllTrack(n, longer, hits[client := deque])
  {
    var hits' := hits[client := deque];
    forall c ensures Tracks(n, longer, c, DequeOf(hits', c)) {
      if c != client {
        assert Tracks(n, attempts, c, DequeOf(hits, c));
        OtherDeque(n, attempts, client, now, c, DequeOf(hits, c));
      }
    }
  }

  class LoginRateLimiter {
    const attemptsPerMinute: int
    var hits: map<string, seq<real>>
    // Every attempt made since start-up.
    ghost var attempts: seq<Attempt>

    ghost predicate Valid()
      reads this
    {
      && Ordered(attempts)
      && AllTrack(attemptsPerMinute, attempts, hits)
    }

    constructor (attemptsPerMinute: int)
      ensures Valid() && attempts == [] && this.attemptsPerMinute == attemptsPerMinute
    {
      this.attemptsPerMinute := attemptsPerMinute;
      hits, attempts := map[], [];
    }

    // Whether the attempt may go ahead.  A limit of zero or less switches the cap off, and
    // then nothing is recorded.
    method Allow(client: string, now: real) returns (allowed: bool)
      requires Valid() && Ordered(attempts + [Attempt(client, now)])
      modifies this
      ensures Valid()
      ensures attempts == if attemptsPerMinute <= 0 then old(attempts) else old(attempts) + [Attempt(client, now)]
      ensures allowed <==> attemptsPerMinute <= 0 || Allowed(attemptsPerMinute, old(attempts), client, now)
      ensures forall c :: c != client ==> DequeOf(hits, c) == old(DequeOf(hits, c))
    {
      if attemptsPerMinute <= 0 { return true; }
      DequeSorted(attemptsPerMinute, attempts, client, hits);
      var recent := Evict(DequeOf(hits, client), now);
      ghost var evicted := recent;
      allowed := |recent| < attemptsPerMinute;
      if allowed { recent := recent + [now]; }
      AllowStep(attemptsPerMinute, attempts, client, now, hits, evicted, recent);
      attempts := attempts + [Attempt(client, now)];
      hits := hits[client := recent];
    }

    // The eviction loop.
    static method Evict(hits: seq<real>, now: real) returns (recent: seq<real>)
      requires Increasing(hits)
      ensures recent == Recent(hits, now)
    {
      recent := hits;
      while recent != [] && now - recent[0] > WINDOW
        invariant Increasing(recent) && Recent(recent, now) == Recent(hits, now)
        decreases |recent|
      {
        RecentDropsOldest(recent, now);
        recent := recent[1..];
      }
      RecentKeepsAll(recent, now);
    }
  }
}
