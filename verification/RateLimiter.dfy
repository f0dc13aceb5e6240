/** The sliding-window rate limiter, and what its two deques mean in terms of everything it ever admitted. */
module RateLimiter {
  import opened Base

  /** `window` in microseconds. */
  datatype Limit = Limit(maxEvents: int, window: int)

  datatype Limits = Limits(overall: Limit, perChat: Limit)

  const MIN_RETRY: int := 50_000

  // ---------------------------------------------------------------- the limiter as it is

  datatype Limiter = Limiter(events: seq<Time>, chats: map<string, seq<Time>>)

  datatype Verdict = Verdict(allowed: bool, retryAfter: int)

  function Chat(l: Limiter, key: string): seq<Time> {
    if key in l.chats then l.chats[key] else []
  }

  /** Drop what is older than the window from the front. */
  function Trim(data: seq<Time>, cutoff: Time): seq<Time> {
    if data != [] && data[0] < cutoff then Trim(data[1..], cutoff) else data
  }

  function RetryAfter(data: seq<Time>, window: int, now: Time): int {
    if data == [] then 0 else MaxI(MIN_RETRY, data[0] + window - now)
  }

  function Allow(l: Limiter, limits: Limits, key: string, now: Time): (Limiter, Verdict) {
    var events := Trim(l.events, now - limits.overall.window);
    var chat := Trim(Chat(l, key), now - limits.perChat.window);
    if |events| >= limits.overall.maxEvents then
      (Limiter(events, l.chats[key := chat]), Verdict(false, RetryAfter(events, limits.overall.window, now)))
    else if |chat| >= limits.perChat.maxEvents then
      (Limiter(events, l.chats[key := chat]), Verdict(false, RetryAfter(chat, limits.perChat.window, now)))
    else
      (Limiter(events + [now], l.chats[key := chat + [now]]), Verdict(true, 0))
  }

  // ---------------------------------------------------------------- the history it stands for

  datatype Call = Call(key: string, at: Time)

  ghost predicate NonDecreasing(calls: seq<Call>) {
    forall i, j :: 0 <= i < j < |calls| ==> calls[i].at <= calls[j].at
  }

  function TimesOf(h: seq<Call>): seq<Time> {
    if h == [] then [] else TimesOf(h[..|h| - 1]) + [h[|h| - 1].at]
  }

  function TimesFor(h: seq<Call>, key: string): seq<Time> {
    if h == [] then []
    else TimesFor(h[..|h| - 1], key) + if h[|h| - 1].key == key then [h[|h| - 1].at] else []
  }

  /** How many of the times fall in the closed interval. */
  function CountIn(ts: seq<Time>, lo: Time, hi: Time): nat {
    if ts == [] then 0
    else CountIn(ts[..|ts| - 1], lo, hi) + if lo <= ts[|ts| - 1] <= hi then 1 else 0
  }

  predicate Fits(ts: seq<Time>, limit: Limit, now: Time) {
    CountIn(ts, now - limit.window, now) < limit.maxEvents
  }

  ghost predicate WithinLimit(ts: seq<Time>, limit: Limit, now: Time) {
    CountIn(ts, now - limit.window, now) <= limit.maxEvents
  }

  /** The declarative reading: room in the window that ends now, overall and for the chat. */
  predicate HasRoom(h: seq<Call>, limits: Limits, c: Call) {
    Fits(TimesOf(h), limits.overall, c.at) && Fits(TimesFor(h, c.key), limits.perChat, c.at)
  }

  /** Every call the declarative limiter admits. */
  function Admitted(limits: Limits, calls: seq<Call>): seq<Call> {
    if calls == [] then []
    else
      var h := Admitted(limits, calls[..|calls| - 1]);
      var c := calls[|calls| - 1];
      if HasRoom(h, limits, c) then h + [c] else h
  }

  function Run(limits: Limits, calls: seq<Call>): Limiter {
    if calls == [] then Limiter([], map[])
    else Allow(Run(limits, calls[..|calls| - 1]), limits, calls[|calls| - 1].key, calls[|calls| - 1].at).0
  }

  // ---------------------------------------------------------------- trimming and counting

  ghost predicate SortedUpTo(ts: seq<Time>, now: Time) {
    (forall i, j :: 0 <= i <= j < |ts| ==> ts[i] <= ts[j]) && forall i :: 0 <= i < |ts| ==> ts[i] <= now
  }

  /** The deque is the history without a front part that had already left the window. */
  ghost predicate Tracks(deque: seq<Time>, ts: seq<Time>, horizon: Time) {
    && |deque| <= |ts|
    && deque == ts[|ts| - |deque|..]
    && forall i :: 0 <= i < |ts| - |deque| ==> ts[i] < horizon
  }

  lemma {:induction false} TrimSplits(ts: seq<Time>, cutoff: Time) returns (k: nat)
    ensures k <= |ts| && Trim(ts, cutoff) == ts[k..]
    ensures forall i :: 0 <= i < k ==> ts[i] < cutoff
    ensures k < |ts| ==> ts[k] >= cutoff
    decreases |ts|
  {
    if ts != [] && ts[0] < cutoff {
      var j := TrimSplits(ts[1..], cutoff);
      k := j + 1;
      assert ts[1..][j..] == ts[k..];
      forall i | 0 <= i < k ensures ts[i] < cutoff {
        if i > 0 { assert ts[i] == ts[1..][i - 1]; }
      }
    } else {
      k := 0;
    }
  }

  lemma {:induction false} TrimAt(ts: seq<Time>, cutoff: Time, k: nat)
    requires k <= |ts| && (forall i :: 0 <= i < k ==> ts[i] < cutoff) && (k < |ts| ==> ts[k] >= cutoff)
    ensures Trim(ts, cutoff) == ts[k..]
    decreases k
  {
    if k > 0 {
      TrimAt(ts[1..], cutoff, k - 1);
      assert ts[1..][k - 1..] == ts[k..];
    }
  }

  lemma TrimTracks(deque: seq<Time>, ts: seq<Time>, horizon: Time, cutoff: Time)
    requires Tracks(deque, ts, horizon) && horizon <= cutoff
    ensures Tracks(Trim(deque, cutoff), ts, cutoff)
    ensures Trim(deque, cutoff) == Trim(ts, cutoff)
  {
    var k := |ts| - |deque|;
    var j := TrimSplits(deque, cutoff);
    forall i | 0 <= i < k + j ensures ts[i] < cutoff {
      if i >= k { assert ts[i] == deque[i - k]; }
    }
    assert deque[j..] == ts[k + j..];
    assert j < |deque| ==> ts[k + j] == deque[j];
    TrimAt(ts, cutoff, k + j);
  }

  lemma {:induction false} CountSplit(ts: seq<Time>, k: nat, lo: Time, hi: Time)
    requires k <= |ts|
    ensures CountIn(ts, lo, hi) == CountIn(ts[..k], lo, hi) + CountIn(ts[k..], lo, hi)
    decreases |ts|
  {
    if k == |ts| {
      assert ts[..k] == ts && ts[k..] == [];
    } else {
      var n := |ts| - 1;
      CountSplit(ts[..n], k, lo, hi);
      assert ts[..n][..k] == ts[..k];
      assert ts[k..][..n - k] == ts[..n][k..];
    }
  }

  lemma {:induction false} CountAllOrNone(ts: seq<Time>, lo: Time, hi: Time)
    ensures (forall i :: 0 <= i < |ts| ==> lo <= ts[i] <= hi) ==> CountIn(ts, lo, hi) == |ts|
    ensures (forall i :: 0 <= i < |ts| ==> !(lo <= ts[i] <= hi)) ==> CountIn(ts, lo, hi) == 0
    decreases |ts|
  {
    if ts != [] {
      CountAllOrNone(ts[..|ts| - 1], lo, hi);
    }
  }

  /** What trimming leaves is what lies in the window that ends now. */
  lemma TrimCounts(ts: seq<Time>, lo: Time, now: Time)
    requires SortedUpTo(ts, now)
    ensures |Trim(ts, lo)| == CountIn(ts, lo, now)
  {
    var k := TrimSplits(ts, lo);
    CountSplit(ts, k, lo, now);
    CountAllOrNone(ts[..k], lo, now);
    forall i | 0 <= i < |ts[k..]| ensures lo <= ts[k..][i] <= now {
      assert ts[k] <= ts[k + i];
    }
    CountAllOrNone(ts[k..], lo, now);
  }

  // ---------------------------------------------------------------- one deque, one call

  lemma TracksLater(deque: seq<Time>, ts: seq<Time>, horizon: Time, later: Time)
    requires Tracks(deque, ts, horizon) && horizon <= later
    ensures Tracks(deque, ts, later)
  {
  }

  lemma TracksAppend(deque: seq<Time>, ts: seq<Time>, horizon: Time, t: Time)
    requires Tracks(deque, ts, horizon)
    ensures Tracks(deque + [t], ts + [t], horizon)
  {
    assert (ts + [t])[|ts| - |deque|..] == deque + [t];
  }

  /** Whether there is room, read off the trimmed deque. */
  lemma DequeCounts(deque: seq<Time>, ts: seq<Time>, limit: Limit, before: Time, now: Time)
    requires Tracks(deque, ts, before - limit.window) && before <= now && SortedUpTo(ts, now)
    ensures
      var kept := Trim(deque, now - limit.window);
      kept == Trim(ts, now - limit.window) && (|kept| < limit.maxEvents <==> Fits(ts, limit, now))
  {
    TrimTracks(deque, ts, before - limit.window, now - limit.window);
    TrimCounts(ts, now - limit.window, now);
  }

  /** What a call leaves of a deque goes on standing for the history, with the call added or not. */
  lemma DequeTracks(deque: seq<Time>, ts: seq<Time>, limit: Limit, before: Time, now: Time, added: bool)
    requires Tracks(deque, ts, before - limit.window) && before <= now
    ensures Tracks(Trim(deque, now - limit.window) + Added(added, now), ts + Added(added, now), now - limit.window)
  {
    TrimTracks(deque, ts, before - limit.window, now - limit.window);
    var kept := Trim(deque, now - limit.window);
    if added {
      TracksAppend(kept, ts, now - limit.window, now);
    } else {
      assert kept + [] == kept && ts + [] == ts;
    }
  }

  // ---------------------------------------------------------------- the limiter refines its history

  lemma TimesAppend(h: seq<Call>, c: Call, key: string)
    ensures TimesOf(h + [c]) == TimesOf(h) + [c.at]
    ensures TimesFor(h + [c], key) == if c.key == key then TimesFor(h, key) + [c.at] else TimesFor(h, key)
  {
    assert (h + [c])[..|h|] == h;
  }

  lemma SortedAppend(ts: seq<Time>, before: Time, now: Time)
    requires SortedUpTo(ts, before) && before <= now
    ensures SortedUpTo(ts, now) && SortedUpTo(ts + [now], now)
  {
  }

  /** `now` is no earlier than any call. */
  ghost predicate UpTo(calls: seq<Call>, now: Time) {
    NonDecreasing(calls) && forall i :: 0 <= i < |calls| ==> calls[i].at <= now
  }

  lemma AdmitSorted(limits: Limits, h: seq<Call>, c: Call, key: string, before: Time)
    requires SortedUpTo(TimesOf(h), before) && SortedUpTo(TimesFor(h, key), before) && before <= c.at
    ensures SortedUpTo(TimesOf(h + [c]), c.at) && SortedUpTo(TimesFor(h + [c], key), c.at)
  {
    TimesAppend(h, c, key);
    SortedAppend(TimesOf(h), before, c.at);
    SortedAppend(TimesFor(h, key), before, c.at);
  }

  lemma SortedLater(ts: seq<Time>, now: Time, later: Time)
    requires SortedUpTo(ts, now) && now <= later
    ensures SortedUpTo(ts, later)
  {
  }

  lemma {:induction false} AdmittedSorted(limits: Limits, calls: seq<Call>, key: string, now: Time)
    requires UpTo(calls, now)
    ensures SortedUpTo(TimesOf(Admitted(limits, calls)), now)
    ensures SortedUpTo(TimesFor(Admitted(limits, calls), key), now)
    decreases |calls|
  {
    if calls != [] {
      var before, c := calls[..|calls| - 1], calls[|calls| - 1];
      AdmittedSorted(limits, before, key, c.at);
      AdmitSorted(limits, Admitted(limits, before), c, key, c.at);
      SortedLater(TimesOf(Admitted(limits, calls)), c.at, now);
      SortedLater(TimesFor(Admitted(limits, calls), key), c.at, now);
    }
  }

  /** The limiter stands for a history of admissions. */
  ghost predicate Represents(l: Limiter, limits: Limits, h: seq<Call>, now: Time) {
    && Tracks(l.events, TimesOf(h), now - limits.overall.window)
    && forall key :: Tracks(Chat(l, key), TimesFor(h, key), now - limits.perChat.window)
  }

  lemma AllowedIff(l: Limiter, limits: Limits, key: string, now: Time)
    ensures Allow(l, limits, key, now).1.allowed
            <==> |Trim(l.events, now - limits.overall.window)| < limits.overall.maxEvents
                 && |Trim(Chat(l, key), now - limits.perChat.window)| < limits.perChat.maxEvents
  {
  }

  /** One call, for the two histories its deques stand for: the verdict is the declarative one. */
  lemma AllowVerdict(l: Limiter, limits: Limits, key: string, before: Time, now: Time, ts: seq<Time>, cs: seq<Time>)
    requires before <= now && SortedUpTo(ts, now) && SortedUpTo(cs, now)
    requires Tracks(l.events, ts, before - limits.overall.window)
    requires Tracks(Chat(l, key), cs, before - limits.perChat.window)
    ensures Allow(l, limits, key, now).1.allowed <==> Fits(ts, limits.overall, now) && Fits(cs, limits.perChat, now)
    ensures Trim(l.events, now - limits.overall.window) == Trim(ts, now - limits.overall.window)
    ensures Trim(Chat(l, key), now - limits.perChat.window) == Trim(cs, now - limits.perChat.window)
  {
    DequeCounts(l.events, ts, limits.overall, before, now);
    DequeCounts(Chat(l, key), cs, limits.perChat, before, now);
    AllowedIff(l, limits, key, now);
  }

  function Added(allowed: bool, now: Time): seq<Time> {
    if allowed then [now] else []
  }

  /** What a call leaves in the deques. */
  lemma AllowShape(l: Limiter, limits: Limits, key: string, now: Time)
    ensures
      var after := Allow(l, limits, key, now).0;
      var added := Added(Allow(l, limits, key, now).1.allowed, now);
      && after.events == Trim(l.events, now - limits.overall.window) + added
      && Chat(after, key) == Trim(Chat(l, key), now - limits.perChat.window) + added
      && (forall other :: other != key ==> Chat(after, other) == Chat(l, other))
  {
    var events, chat := Trim(l.events, now - limits.overall.window), Trim(Chat(l, key), now - limits.perChat.window);
    assert events + [] == events && chat + [] == chat;
  }

  /** What a refused caller is told. */
  lemma RefusedShape(l: Limiter, limits: Limits, key: string, now: Time)
    requires !Allow(l, limits, key, now).1.allowed
    ensures
      var events := Trim(l.events, now - limits.overall.window);
      var chat := Trim(Chat(l, key), now - limits.perChat.window);
      Allow(l, limits, key, now).1.retryAfter == if |events| >= limits.overall.maxEvents
                                                 then RetryAfter(events, limits.overall.window, now)
                                                 else RetryAfter(chat, limits.perChat.window, now)
  {
  }

  /** The history after a call. */
  function Next(limits: Limits, h: seq<Call>, c: Call): seq<Call> {
    if HasRoom(h, limits, c) then h + [c] else h
  }

  lemma RoomIsAllowed(l: Limiter, limits: Limits, h: seq<Call>, before: Time, c: Call)
    requires Represents(l, limits, h, before) && before <= c.at
    requires SortedUpTo(TimesOf(h), c.at) && SortedUpTo(TimesFor(h, c.key), c.at)
    ensures Allow(l, limits, c.key, c.at).1.allowed <==> HasRoom(h, limits, c)
  {
    AllowVerdict(l, limits, c.key, before, c.at, TimesOf(h), TimesFor(h, c.key));
  }

  lemma OverallRepresented(l: Limiter, limits: Limits, h: seq<Call>, before: Time, c: Call, allowed: bool)
    requires Tracks(l.events, TimesOf(h), before - limits.overall.window) && before <= c.at
    requires allowed == Allow(l, limits, c.key, c.at).1.allowed
    ensures Tracks(Allow(l, limits, c.key, c.at).0.events, TimesOf(if allowed then h + [c] else h),
                   c.at - limits.overall.window)
  {
    AllowShape(l, limits, c.key, c.at);
    TimesExtended(h, c, allowed);
    DequeTracks(l.events, TimesOf(h), limits.overall, before, c.at, allowed);
  }

  lemma OwnChatRepresented(l: Limiter, limits: Limits, h: seq<Call>, before: Time, c: Call, allowed: bool)
    requires Tracks(Chat(l, c.key), TimesFor(h, c.key), before - limits.perChat.window) && before <= c.at
    requires allowed == Allow(l, limits, c.key, c.at).1.allowed
    ensures Tracks(Chat(Allow(l, limits, c.key, c.at).0, c.key), TimesFor(if allowed then h + [c] else h, c.key),
                   c.at - limits.perChat.window)
  {
    AllowShape(l, limits, c.key, c.at);
    TimesExtended(h, c, allowed);
    DequeTracks(Chat(l, c.key), TimesFor(h, c.key), limits.perChat, before, c.at, allowed);
  }

  lemma OtherChatRepresented(l: Limiter, limits: Limits, h: seq<Call>, before: Time, c: Call, allowed: bool,
                             key: string)
    requires Tracks(Chat(l, key), TimesFor(h, key), before - limits.perChat.window) && before <= c.at && key != c.key
    ensures Tracks(Chat(Allow(l, limits, c.key, c.at).0, key), TimesFor(if allowed then h + [c] else h, key),
                   c.at - limits.perChat.window)
  {
    AllowShape(l, limits, c.key, c.at);
    TimesExtended(h, c, allowed);
    TracksLater(Chat(l, key), TimesFor(h, key), before - limits.perChat.window, c.at - limits.perChat.window);
  }

  lemma ChatRepresented(l: Limiter, limits: Limits, h: seq<Call>, before: Time, c: Call, allowed: bool, key: string)
    requires Tracks(Chat(l, key), TimesFor(h, key), before - limits.perChat.window) && before <= c.at
    requires allowed == Allow(l, limits, c.key, c.at).1.allowed
    ensures Tracks(Chat(Allow(l, limits, c.key, c.at).0, key), TimesFor(if allowed then h + [c] else h, key),
                   c.at - limits.perChat.window)
  {
    if key == c.key {
      OwnChatRepresented(l, limits, h, before, c, allowed);
    } else {
      OtherChatRepresented(l, limits, h, before, c, allowed, key);
    }
  }

  lemma AllowRepresents(l: Limiter, limits: Limits, h: seq<Call>, before: Time, c: Call)
    requires Represents(l, limits, h, before) && before <= c.at
    requires Allow(l, limits, c.key, c.at).1.allowed <==> HasRoom(h, limits, c)
    ensures Represents(Allow(l, limits, c.key, c.at).0, limits, Next(limits, h, c), c.at)
  {
    OverallRepresented(l, limits, h, before, c, HasRoom(h, limits, c));
    forall key
      ensures Tracks(Chat(Allow(l, limits, c.key, c.at).0, key), TimesFor(Next(limits, h, c), key),
                     c.at - limits.perChat.window)
    {
      ChatRepresented(l, limits, h, before, c, HasRoom(h, limits, c), key);
    }
  }

  lemma TimesExtended(h: seq<Call>, c: Call, allowed: bool)
    ensures
      var h' := if allowed then h + [c] else h;
      && TimesOf(h') == TimesOf(h) + Added(allowed, c.at)
      && TimesFor(h', c.key) == TimesFor(h, c.key) + Added(allowed, c.at)
      && (forall key :: key != c.key ==> TimesFor(h', key) == TimesFor(h, key))
  {
    TimesAppend(h, c, c.key);
    forall key | key != c.key ensures TimesFor(h + [c], key) == TimesFor(h, key) {
      TimesAppend(h, c, key);
    }
    assert TimesOf(h) + [] == TimesOf(h) && TimesFor(h, c.key) + [] == TimesFor(h, c.key);
  }

  lemma RoomAfter(limits: Limits, calls: seq<Call>, c: Call)
    requires UpTo(calls, c.at) && Represents(Run(limits, calls), limits, Admitted(limits, calls), c.at)
    ensures Allow(Run(limits, calls), limits, c.key, c.at).1.allowed <==> HasRoom(Admitted(limits, calls), limits, c)
  {
    AdmittedSorted(limits, calls, c.key, c.at);
    RoomIsAllowed(Run(limits, calls), limits, Admitted(limits, calls), c.at, c);
  }

  lemma {:induction false} RunRepresents(limits: Limits, calls: seq<Call>, now: Time)
    requires UpTo(calls, now)
    ensures Represents(Run(limits, calls), limits, Admitted(limits, calls), now)
    decreases |calls|
  {
    if calls == [] {
    } else {
      var before, c := calls[..|calls| - 1], calls[|calls| - 1];
      RunRepresents(limits, before, c.at);
      RoomAfter(limits, before, c);
      AllowRepresents(Run(limits, before), limits, Admitted(limits, before), c.at, c);
      RepresentsLater(Run(limits, calls), limits, Admitted(limits, calls), c.at, now);
    }
  }

  lemma RepresentsLater(l: Limiter, limits: Limits, h: seq<Call>, now: Time, later: Time)
    requires Represents(l, limits, h, now) && now <= later
    ensures Represents(l, limits, h, later)
  {
    TracksLater(l.events, TimesOf(h), now - limits.overall.window, later - limits.overall.window);
    forall key ensures Tracks(Chat(l, key), TimesFor(h, key), later - limits.perChat.window) {
      TracksLater(Chat(l, key), TimesFor(h, key), now - limits.perChat.window, later - limits.perChat.window);
    }
  }

  /** For calls in time order, a call is admitted exactly when fewer than the maximum of all earlier admissions
      lie in the window that ends now, overall and for its chat. */
  lemma VerdictIsDeclarative(limits: Limits, calls: seq<Call>, c: Call)
    requires UpTo(calls, c.at)
    ensures Allow(Run(limits, calls), limits, c.key, c.at).1.allowed <==> HasRoom(Admitted(limits, calls), limits, c)
  {
    RunRepresents(limits, calls, c.at);
    RoomAfter(limits, calls, c);
  }

  // ---------------------------------------------------------------- every window, anywhere

  lemma {:induction false} CountShrinks(ts: seq<Time>, lo: Time, hi: Time, lo': Time, now: Time)
    requires lo' <= lo && forall i :: 0 <= i < |ts| ==> ts[i] <= now
    ensures CountIn(ts, lo, hi) <= CountIn(ts, lo', now)
    decreases |ts|
  {
    if ts != [] {
      CountShrinks(ts[..|ts| - 1], lo, hi, lo', now);
    }
  }

  /** One more admission into a history whose windows are all within the limit. */
  lemma WindowAfter(ts: seq<Time>, limit: Limit, now: Time, a: Time)
    requires SortedUpTo(ts, now) && CountIn(ts, a, a + limit.window) <= MaxI(0, limit.maxEvents) && Fits(ts, limit, now)
    ensures CountIn(ts + [now], a, a + limit.window) <= MaxI(0, limit.maxEvents)
  {
    assert (ts + [now])[..|ts|] == ts;
    if a <= now <= a + limit.window {
      CountShrinks(ts, a, a + limit.window, now - limit.window, now);
    }
  }

  lemma OverallWindowStep(limits: Limits, calls: seq<Call>, c: Call, a: Time)
    requires UpTo(calls, c.at) && HasRoom(Admitted(limits, calls), limits, c)
    requires CountIn(TimesOf(Admitted(limits, calls)), a, a + limits.overall.window)
             <= MaxI(0, limits.overall.maxEvents)
    ensures CountIn(TimesOf(Admitted(limits, calls) + [c]), a, a + limits.overall.window)
            <= MaxI(0, limits.overall.maxEvents)
  {
    var h := Admitted(limits, calls);
    assert SortedUpTo(TimesOf(h), c.at) by {
      AdmittedSorted(limits, calls, c.key, c.at);
    }
    TimesAppend(h, c, c.key);
    WindowAfter(TimesOf(h), limits.overall, c.at, a);
  }

  lemma {:induction false} OverallWindowIsBounded(limits: Limits, calls: seq<Call>, a: Time)
    requires NonDecreasing(calls)
    ensures CountIn(TimesOf(Admitted(limits, calls)), a, a + limits.overall.window) <= MaxI(0, limits.overall.maxEvents)
    decreases |calls|
  {
    if calls != [] {
      var before, c := calls[..|calls| - 1], calls[|calls| - 1];
      OverallWindowIsBounded(limits, before, a);
      if HasRoom(Admitted(limits, before), limits, c) {
        OverallWindowStep(limits, before, c, a);
      }
    }
  }

  lemma ChatWindowStep(limits: Limits, calls: seq<Call>, c: Call, key: string, a: Time)
    requires UpTo(calls, c.at) && HasRoom(Admitted(limits, calls), limits, c)
    requires CountIn(TimesFor(Admitted(limits, calls), key), a, a + limits.perChat.window)
             <= MaxI(0, limits.perChat.maxEvents)
    ensures CountIn(TimesFor(Admitted(limits, calls) + [c], key), a, a + limits.perChat.window)
            <= MaxI(0, limits.perChat.maxEvents)
  {
    var h := Admitted(limits, calls);
    assert SortedUpTo(TimesFor(h, key), c.at) by {
      AdmittedSorted(limits, calls, key, c.at);
    }
    TimesAppend(h, c, key);
    if c.key == key {
      WindowAfter(TimesFor(h, key), limits.perChat, c.at, a);
    }
  }

  lemma {:induction false} ChatWindowIsBounded(limits: Limits, calls: seq<Call>, key: string, a: Time)
    requires NonDecreasing(calls)
    ensures CountIn(TimesFor(Admitted(limits, calls), key), a, a + limits.perChat.window)
            <= MaxI(0, limits.perChat.maxEvents)
    decreases |calls|
  {
    if calls != [] {
      var before, c := calls[..|calls| - 1], calls[|calls| - 1];
      ChatWindowIsBounded(limits, before, key, a);
      if HasRoom(Admitted(limits, before), limits, c) {
        ChatWindowStep(limits, before, c, key, a);
      }
    }
  }

  /** No closed interval as long as the window, wherever it starts, ever holds more than the maximum. */
  lemma EveryWindowIsBounded(limits: Limits, calls: seq<Call>, key: string, a: Time)
    requires NonDecreasing(calls)
    ensures
      var h := Admitted(limits, calls);
      && CountIn(TimesOf(h), a, a + limits.overall.window) <= MaxI(0, limits.overall.maxEvents)
      && CountIn(TimesFor(h, key), a, a + limits.perChat.window) <= MaxI(0, limits.perChat.maxEvents)
  {
    OverallWindowIsBounded(limits, calls, a);
    ChatWindowIsBounded(limits, calls, key, a);
  }

  // ---------------------------------------------------------------- retrying

  /** A full window lets somebody in again exactly when its oldest entry has left it: strictly after
      first + window. */
  lemma RetryExact(ts: seq<Time>, limit: Limit, now: Time, later: Time)
    requires SortedUpTo(ts, now) && now <= later
    requires limit.maxEvents >= 1 && CountIn(ts, now - limit.window, now) == limit.maxEvents
    ensures Trim(ts, now - limit.window) != []
    ensures Fits(ts, limit, later) <==> later > Trim(ts, now - limit.window)[0] + limit.window
  {
    TrimCounts(ts, now - limit.window, now);
    TrimCounts(ts, later - limit.window, later);
    var k := TrimSplits(ts, now - limit.window);
    var m := TrimSplits(ts, later - limit.window);
    assert |ts| - k == limit.maxEvents;
    assert Fits(ts, limit, later) <==> m > k;
  }

  /** What the refused caller is told, for the limit that refused. */
  lemma RefusalOf(deque: seq<Time>, ts: seq<Time>, limit: Limit, now: Time, later: Time)
    requires limit.maxEvents >= 1 && SortedUpTo(ts, now) && now <= later
    requires deque == Trim(ts, now - limit.window) && !Fits(ts, limit, now)
    requires WithinLimit(ts, limit, now)
    ensures
      var delay := RetryAfter(deque, limit.window, now);
      && (later > now + delay ==> Fits(ts, limit, later))
      && (later == now + delay && delay > MIN_RETRY ==> !Fits(ts, limit, later))
  {
    RetryExact(ts, limit, now, later);
  }

  /** For a caller refused at `now` with `delay`, given the admissions overall and for the chat: at `later` the limit
      that refused lets them through if they waited strictly longer than the delay, and does not if they waited
      exactly that long and it was more than the minimum. */
  ghost predicate RetryPromise(delay: int, limits: Limits, now: Time, later: Time, ts: seq<Time>, cs: seq<Time>) {
    var passes := if !Fits(ts, limits.overall, now) then Fits(ts, limits.overall, later) else Fits(cs, limits.perChat,
                                                                                                   later);
    && (later > now + delay ==> passes)
    && (later == now + delay && delay > MIN_RETRY ==> !passes)
  }

  /** The promise holds for every refused call, nobody else having been admitted in between. */
  lemma RetryAfterDelay(limits: Limits, calls: seq<Call>, c: Call, later: Time)
    requires UpTo(calls, c.at) && limits.overall.maxEvents >= 1 && limits.perChat.maxEvents >= 1
    requires !Allow(Run(limits, calls), limits, c.key, c.at).1.allowed && later >= c.at
    ensures RetryPromise(Allow(Run(limits, calls), limits, c.key, c.at).1.retryAfter, limits, c.at, later,
                         TimesOf(Admitted(limits, calls)), TimesFor(Admitted(limits, calls), c.key))
  {
    var l, h := Run(limits, calls), Admitted(limits, calls);
    AdmittedSorted(limits, calls, c.key, c.at);
    RunRepresents(limits, calls, c.at);
    WindowEndingNow(limits, calls, c.key, c.at, TimesOf(h), TimesFor(h, c.key));
    RetryFor(l, limits, c.key, c.at, later, TimesOf(h), TimesFor(h, c.key));
  }

  /** The bound for the window that ends now. */
  lemma WindowEndingNow(limits: Limits, calls: seq<Call>, key: string, now: Time, ts: seq<Time>, cs: seq<Time>)
    requires NonDecreasing(calls) && limits.overall.maxEvents >= 1 && limits.perChat.maxEvents >= 1
    requires ts == TimesOf(Admitted(limits, calls)) && cs == TimesFor(Admitted(limits, calls), key)
    ensures WithinLimit(ts, limits.overall, now)
    ensures WithinLimit(cs, limits.perChat, now)
  {
    var a, b := now - limits.overall.window, now - limits.perChat.window;
    OverallWindowIsBounded(limits, calls, a);
    ChatWindowIsBounded(limits, calls, key, b);
    assert a + limits.overall.window == now && b + limits.perChat.window == now;
  }

  lemma RetryFor(l: Limiter, limits: Limits, key: string, now: Time, later: Time, ts: seq<Time>, cs: seq<Time>)
    requires limits.overall.maxEvents >= 1 && limits.perChat.maxEvents >= 1
    requires SortedUpTo(ts, now) && SortedUpTo(cs, now) && now <= later
    requires Tracks(l.events, ts, now - limits.overall.window) && Tracks(Chat(l, key), cs, now - limits.perChat.window)
    requires WithinLimit(ts, limits.overall, now)
    requires WithinLimit(cs, limits.perChat, now)
    requires !Allow(l, limits, key, now).1.allowed
    ensures RetryPromise(Allow(l, limits, key, now).1.retryAfter, limits, now, later, ts, cs)
  {
    RefusedShape(l, limits, key, now);
    AllowVerdict(l, limits, key, now, now, ts, cs);
    TrimCounts(ts, now - limits.overall.window, now);
    if !Fits(ts, limits.overall, now) {
      RefusalOf(Trim(ts, now - limits.overall.window), ts, limits.overall, now, later);
    } else {
      RefusalOf(Trim(cs, now - limits.perChat.window), cs, limits.perChat, now, later);
    }
  }

  // ---------------------------------------------------------------- the mutable object

  class InMemorySlidingRateLimiter {
    const limits: Limits
    var globalEvents: seq<Time>
    var chatEvents: map<string, seq<Time>>

    constructor (limits: Limits)
      ensures this.limits == limits && State() == Limiter([], map[])
    {
      this.limits := limits;
      globalEvents, chatEvents := [], map[];
    }

    ghost function State(): Limiter
      reads this
    {
      Limiter(globalEvents, chatEvents)
    }

    static method TrimDeque(data: seq<Time>, window: int, now: Time) returns (kept: seq<Time>)
      ensures kept == Trim(data, now - window)
    {
      var cutoff := now - window;
      kept := data;
      while kept != [] && kept[0] < cutoff
        invariant Trim(kept, cutoff) == Trim(data, cutoff)
        decreases |kept|
      {
        kept := kept[1..];
      }
    }

    method AllowCall(key: string, now: Time) returns (v: Verdict)
      modifies this
      ensures (State(), v) == Allow(old(State()), limits, key, now)
    {
      globalEvents := TrimDeque(globalEvents, limits.overall.window, now);
      if key !in chatEvents {
        chatEvents := chatEvents[key := []];
      }
      var chat := TrimDeque(chatEvents[key], limits.perChat.window, now);
      chatEvents := chatEvents[key := chat];
      assert chatEvents == old(chatEvents)[key := chat];
      if |globalEvents| >= limits.overall.maxEvents {
        return Verdict(false, RetryAfter(globalEvents, limits.overall.window, now));
      }
      if |chat| >= limits.perChat.maxEvents {
        return Verdict(false, RetryAfter(chat, limits.perChat.window, now));
      }
      globalEvents := globalEvents + [now];
      chatEvents := chatEvents[key := chat + [now]];
      assert chatEvents == old(chatEvents)[key := chat + [now]];
      return Verdict(true, 0);
    }
  }
}
