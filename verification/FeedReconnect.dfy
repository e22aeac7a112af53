/** The reconnect state machine of the market-data provider. */
module FeedReconnect {
  import opened Basics

  type Time = int

  datatype Health = Disconnected | Connecting | Ready | Running | Stale | Degraded | Stopped

  /** The configuration refuses fewer than one attempt and a backoff below one second. */
  datatype Settings = Settings(bounded: bool, maxAttempts: nat, maxBackoff: nat, maxStaleness: int)
  {
    predicate Valid() { maxAttempts >= 1 && maxBackoff >= 1 }
  }

  datatype Reason = FeedDisconnected | Auth | FixtureFallback | OtherFailure

  /** What one receive gives: an error, silence, a text, or a decoded frame. `listed` is false when no underlying or
      spot is known, so that nothing can be assembled. */
  datatype Recv = Broken(reason: Reason) | Silence | FixtureText | ErrorText | Control | Heartbeat
                | Ticks(eventTime: Time, listed: bool)

  datatype Reply = Nothing | Message | Snapshot | Raised(reason: Reason)

  /** The index, the call and the put of the selected pair. */
  datatype Tokens = Tokens(index: nat, call: nat, put: nat)

  /** How far a `connect` gets. Only one that gets as far as the subscription knows its tokens. */
  datatype ConnectResult = Accepted(tokens: Tokens) | Unsubscribed(tokens: Tokens) | Denied | Refused

  /** Everything outside the provider, consumed one action at a time. */
  datatype World = World(clock: nat -> Time, recv: nat -> Recv, resubscribed: nat -> bool)

  /** `tried` are the moments of the reconnect attempts since the last successful `connect`; `k` counts actions.
      `desired` is what a reconnect asks for and `subscribed` what the connection carries, none when that is nothing
      or not known. */
  datatype Feed = Feed(health: Health, attempts: nat, retryAt: Option<Time>, lastAt: Option<Time>, k: nat,
                       tried: seq<Time>, desired: Option<Tokens>, subscribed: Option<Tokens>)

  function Pow2(n: nat): (p: nat)
    ensures p >= 1
  {
    if n == 0 then 1 else 2 * Pow2(n - 1)
  }

  function Backoff(settings: Settings, attempts: nat): nat {
    if settings.maxBackoff < Pow2(attempts) then settings.maxBackoff else Pow2(attempts)
  }

  /** The effect of a frame with ticks on the health. */
  function Assemble(settings: Settings, world: World, s: Feed, eventTime: Time): Feed {
    var aged := world.clock(s.k) - eventTime > settings.maxStaleness;
    var started := if s.health.Ready? then Running else s.health;
    s.(health := if aged then Stale else if started.Stale? then Running else started,
       lastAt := Some(eventTime), k := s.k + 1)
  }

  function WhenSilent(settings: Settings, world: World, s: Feed): Feed {
    if s.lastAt.Some? && world.clock(s.k) - s.lastAt.value > settings.maxStaleness && s.health.Running? then
      s.(health := Stale, k := s.k + 1)
    else s.(k := s.k + 1)
  }

  function Poll(settings: Settings, world: World, s: Feed): (r: (Feed, Reply))
    decreases settings.maxAttempts - s.attempts, 2
  {
    if s.health.Disconnected? || s.health.Stopped? || s.health.Connecting? then (s, Nothing)
    else if s.health.Degraded? && settings.bounded then ReconnectPoll(settings, world, s)
    else
      var next := s.(k := s.k + 1);
      match world.recv(s.k)
      case Broken(reason) => OnFeedError(settings, world, next, reason)
      case Silence => (WhenSilent(settings, world, next), Nothing)
      case FixtureText => (next.(health := Degraded), Raised(FixtureFallback))
      case ErrorText => OnFeedError(settings, world, next, Auth)
      case Control => (next, Message)
      case Heartbeat => (next, Message)
      case Ticks(eventTime, listed) =>
        if listed then (Assemble(settings, world, next, eventTime), Snapshot) else (next, Message)
  }

  function OnFeedError(settings: Settings, world: World, s: Feed, reason: Reason): (r: (Feed, Reply))
    decreases settings.maxAttempts - s.attempts, 1
  {
    if reason.Auth? then (s.(health := Stopped), Raised(reason))
    else if reason.FeedDisconnected? && settings.bounded then ReconnectPoll(settings, world, s.(health := Degraded))
    else (s.(health := Degraded), Raised(reason))
  }

  function ReconnectPoll(settings: Settings, world: World, s: Feed): (r: (Feed, Reply))
    decreases settings.maxAttempts - s.attempts, 0
  {
    if s.attempts >= settings.maxAttempts then (s.(health := Stopped), Raised(FeedDisconnected))
    else
      var now := world.clock(s.k);
      var retryAt := if s.retryAt.Some? then s.retryAt.value else now + Backoff(settings, s.attempts);
      if now < retryAt then (s.(retryAt := Some(retryAt), k := s.k + 1), Nothing)
      else
        var tried := s.(attempts := s.attempts + 1, tried := s.tried + [now], k := s.k + 1);
        if world.resubscribed(s.k) then
          Poll(settings, world, tried.(health := Running, retryAt := None, subscribed := s.desired))
        else
          (tried.(health := Degraded, retryAt := Some(now + Backoff(settings, tried.attempts)), subscribed := None),
           Nothing)
  }

  /** A failed `connect` keeps the counters of the reconnect loop. */
  function Connect(s: Feed, result: ConnectResult): Feed {
    match result
    case Accepted(tokens) =>
      s.(health := Ready, attempts := 0, retryAt := None, tried := [], desired := Some(tokens),
         subscribed := Some(tokens))
    case Unsubscribed(tokens) => s.(health := Degraded, desired := Some(tokens), subscribed := None)
    case Denied => s.(health := Stopped, subscribed := None)
    case Refused => s.(health := Degraded, subscribed := None)
  }

  const FRESH := Feed(Disconnected, 0, None, None, 0, [], None, None)

  class Provider {
    const settings: Settings
    const world: World
    var health: Health
    var attempts: nat
    var retryAt: Option<Time>
    var lastAt: Option<Time>
    var k: nat
    var desired: Option<Tokens>
    ghost var tried: seq<Time>
    ghost var subscribed: Option<Tokens>

    ghost function State(): Feed
      reads this
    {
      Feed(health, attempts, retryAt, lastAt, k, tried, desired, subscribed)
    }

    constructor (settings: Settings, world: World)
      requires settings.Valid()
      ensures State() == FRESH && this.settings == settings && this.world == world
    {
      this.settings, this.world := settings, world;
      health, attempts, retryAt, lastAt, k, tried := Disconnected, 0, None, None, 0, [];
      desired, subscribed := None, None;
    }

    method ConnectWith(result: ConnectResult)
      modifies this
      ensures State() == Connect(old(State()), result)
    {
      health, subscribed := Connecting, None;
      match result {
        case Denied => health := Stopped;
        case Refused => health := Degraded;
        case Unsubscribed(tokens) =>
          desired := Some(tokens);
          health := Degraded;
        case Accepted(tokens) =>
          desired, subscribed := Some(tokens), Some(tokens);
          attempts, retryAt, tried := 0, None, [];
          health := Ready;
      }
    }

    method Disconnect()
      modifies this
      ensures State() == old(State()).(health := Stopped, subscribed := None)
    {
      health, subscribed := Stopped, None;
    }

    method PollOnce() returns (reply: Reply)
      modifies this
      ensures (State(), reply) == Poll(settings, world, old(State()))
      decreases settings.maxAttempts - attempts, 2
    {
      if health.Disconnected? || health.Stopped? || health.Connecting? {
        return Nothing;
      }
      if health.Degraded? && settings.bounded {
        reply := Reconnect();
        return;
      }
      var raw := world.recv(k);
      k := k + 1;
      match raw {
        case Broken(reason) => reply := FeedError(reason);
        case ErrorText => reply := FeedError(Auth);
        case FixtureText =>
          health := Degraded;
          reply := Raised(FixtureFallback);
        case Silence =>
          var now := world.clock(k);
          k := k + 1;
          if lastAt.Some? && now - lastAt.value > settings.maxStaleness && health.Running? {
            health := Stale;
          }
          reply := Nothing;
        case Control => reply := Message;
        case Heartbeat => reply := Message;
        case Ticks(eventTime, listed) =>
          reply := Message;
          if listed {
            AssembleTicks(eventTime);
            reply := Snapshot;
          }
      }
    }

    method AssembleTicks(eventTime: Time)
      modifies this
      ensures State() == Assemble(settings, world, old(State()), eventTime)
    {
      if health.Ready? {
        health := Running;
      }
      var age := world.clock(k) - eventTime;
      k := k + 1;
      if age > settings.maxStaleness {
        health := Stale;
      } else if health.Stale? {
        health := Running;
      }
      lastAt := Some(eventTime);
    }

    method FeedError(reason: Reason) returns (reply: Reply)
      modifies this
      ensures (State(), reply) == OnFeedError(settings, world, old(State()), reason)
      decreases settings.maxAttempts - attempts, 1
    {
      if reason.Auth? {
        health := Stopped;
        return Raised(reason);
      }
      health := Degraded;
      if reason.FeedDisconnected? && settings.bounded {
        reply := Reconnect();
        return;
      }
      return Raised(reason);
    }

    method Reconnect() returns (reply: Reply)
      modifies this
      ensures (State(), reply) == ReconnectPoll(settings, world, old(State()))
      decreases settings.maxAttempts - attempts, 0
    {
      if attempts >= settings.maxAttempts {
        health := Stopped;
        return Raised(FeedDisconnected);
      }
      var now := world.clock(k);
      if retryAt.None? {
        retryAt := Some(now + Backoff(settings, attempts));
      }
      if now < retryAt.value {
        k := k + 1;
        return Nothing;
      }
      attempts, tried := attempts + 1, tried + [now];
      var ok := world.resubscribed(k);
      k := k + 1;
      subscribed := if ok then desired else None;
      if !ok {
        retryAt := Some(now + Backoff(settings, attempts));
        health := Degraded;
        return Nothing;
      }
      retryAt := None;
      health := Running;
      reply := PollOnce();
    }
  }

  // Runs.

  datatype Event = Polled | Connected(result: ConnectResult) | Closed

  function Step(settings: Settings, world: World, s: Feed, event: Event): Feed {
    match event
    case Polled => Poll(settings, world, s).0
    case Connected(result) => Connect(s, result)
    case Closed => s.(health := Stopped, subscribed := None)
  }

  function Run(settings: Settings, world: World, events: seq<Event>): Feed {
    if events == [] then FRESH
    else Step(settings, world, Run(settings, world, events[..|events| - 1]), events[|events| - 1])
  }

  ghost predicate Monotone(world: World) {
    forall i: nat, j: nat :: i <= j ==> world.clock(i) <= world.clock(j)
  }

  /** Attempts are numbered from one; number n + 1 comes at least the backoff of n seconds after number n. */
  ghost predicate Spaced(settings: Settings, tried: seq<Time>) {
    forall n :: 1 <= n < |tried| ==> tried[n] >= tried[n - 1] + Backoff(settings, n)
  }

  ghost predicate Inv(settings: Settings, world: World, s: Feed) {
    && s.attempts == |s.tried| <= settings.maxAttempts
    && Spaced(settings, s.tried)
    && (s.tried != [] ==> s.tried[|s.tried| - 1] <= world.clock(s.k))
    && (s.tried != [] && s.retryAt.Some? ==>
          s.retryAt.value >= s.tried[|s.tried| - 1] + Backoff(settings, s.attempts))
  }

  lemma SpacedGrows(settings: Settings, tried: seq<Time>, now: Time)
    requires Spaced(settings, tried)
    requires tried != [] ==> now >= tried[|tried| - 1] + Backoff(settings, |tried|)
    ensures Spaced(settings, tried + [now])
  {
    hide Backoff;
  }

  lemma TimePasses(settings: Settings, world: World, s: Feed, t: Feed)
    requires Monotone(world) && Inv(settings, world, s) && s.k <= t.k
    requires t.attempts == s.attempts && t.tried == s.tried && (t.retryAt == s.retryAt || t.retryAt == None)
    ensures Inv(settings, world, t)
  {
    hide Backoff, Spaced;
    assert world.clock(s.k) <= world.clock(t.k);
  }

  lemma Attempt(settings: Settings, world: World, s: Feed, now: Time, t: Feed)
    requires Monotone(world) && Inv(settings, world, s) && s.attempts < settings.maxAttempts && now == world.clock(s.k)
    requires s.retryAt.Some? ==> now >= s.retryAt.value
    requires s.retryAt.None? ==> now >= now + Backoff(settings, s.attempts)
    requires t.k == s.k + 1 && t.attempts == s.attempts + 1 && t.tried == s.tried + [now]
    requires t.retryAt == None || t.retryAt == Some(now + Backoff(settings, t.attempts))
    ensures Inv(settings, world, t)
  {
    hide Backoff, Spaced;
    SpacedGrows(settings, s.tried, now);
    assert world.clock(s.k) <= world.clock(t.k);
  }

  lemma BackoffIsPositive(settings: Settings, attempts: nat)
    requires settings.Valid()
    ensures Backoff(settings, attempts) >= 1
  {
  }

  lemma {:induction false} PollKeeps(settings: Settings, world: World, s: Feed)
    requires settings.Valid() && Monotone(world) && Inv(settings, world, s)
    ensures Inv(settings, world, Poll(settings, world, s).0)
    decreases settings.maxAttempts - s.attempts, 2
  {
    hide Inv, Monotone, OnFeedError, ReconnectPoll;
    var next := s.(k := s.k + 1);
    TimePasses(settings, world, s, next);
    if s.health.Degraded? && settings.bounded {
      ReconnectKeeps(settings, world, s);
    } else {
      InvIgnoresHealth(settings, world, next);
      match world.recv(s.k)
      case Broken(reason) => ErrorKeeps(settings, world, next, reason);
      case ErrorText => ErrorKeeps(settings, world, next, Auth);
      case Ticks(eventTime, _) => TimePasses(settings, world, next, Assemble(settings, world, next, eventTime));
      case Silence => TimePasses(settings, world, next, WhenSilent(settings, world, next));
      case _ =>
    }
  }

  lemma InvIgnoresHealth(settings: Settings, world: World, s: Feed)
    requires Inv(settings, world, s)
    ensures forall health, desired, subscribed ::
              Inv(settings, world, s.(health := health, desired := desired, subscribed := subscribed))
  {
    hide Spaced, Backoff;
  }

  lemma {:induction false} ErrorKeeps(settings: Settings, world: World, s: Feed, reason: Reason)
    requires settings.Valid() && Monotone(world) && Inv(settings, world, s)
    ensures Inv(settings, world, OnFeedError(settings, world, s, reason).0)
    decreases settings.maxAttempts - s.attempts, 1
  {
    hide Inv, Monotone, ReconnectPoll;
    InvIgnoresHealth(settings, world, s);
    if reason.FeedDisconnected? && settings.bounded {
      ReconnectKeeps(settings, world, s.(health := Degraded));
    }
  }

  lemma {:induction false} ReconnectKeeps(settings: Settings, world: World, s: Feed)
    requires settings.Valid() && Monotone(world) && Inv(settings, world, s)
    ensures Inv(settings, world, ReconnectPoll(settings, world, s).0)
    decreases settings.maxAttempts - s.attempts, 0
  {
    hide Inv, Monotone, Poll, Backoff;
    InvIgnoresHealth(settings, world, s);
    if s.attempts < settings.maxAttempts {
      var now := world.clock(s.k);
      var retryAt := if s.retryAt.Some? then s.retryAt.value else now + Backoff(settings, s.attempts);
      BackoffIsPositive(settings, s.attempts);
      if now < retryAt {
        FirstWait(settings, world, s, now, retryAt);
      } else {
        var tried := s.(attempts := s.attempts + 1, tried := s.tried + [now], k := s.k + 1);
        if world.resubscribed(s.k) {
          var running := tried.(health := Running, retryAt := None, subscribed := s.desired);
          Attempt(settings, world, s, now, running);
          PollKeeps(settings, world, running);
        } else {
          Attempt(settings, world, s, now,
                  tried.(health := Degraded, retryAt := Some(now + Backoff(settings, tried.attempts)),
                         subscribed := None));
        }
      }
    }
  }

  lemma FirstWait(settings: Settings, world: World, s: Feed, now: Time, retryAt: Time)
    requires Monotone(world) && Inv(settings, world, s) && now == world.clock(s.k)
    requires s.retryAt == Some(retryAt) || (s.retryAt.None? && retryAt == now + Backoff(settings, s.attempts))
    ensures Inv(settings, world, s.(retryAt := Some(retryAt), k := s.k + 1))
  {
    hide Spaced, Backoff;
    assert world.clock(s.k) <= world.clock(s.k + 1);
  }

  /** On every run with a monotone clock: since the last successful `connect` at most `maxAttempts` reconnects have been
      tried, and number n + 1 came at least min(maxBackoff, 2^n) seconds after number n. */
  lemma {:induction false} BoundedAndSpaced(settings: Settings, world: World, events: seq<Event>)
    requires settings.Valid() && Monotone(world)
    ensures var s := Run(settings, world, events);
            && |s.tried| == s.attempts <= settings.maxAttempts && Spaced(settings, s.tried)
            && Inv(settings, world, s)
    decreases |events|
  {
    hide Spaced, Poll, Monotone;
    if events == [] {
      FreshSpaced(settings);
    } else {
      var before, event := Run(settings, world, events[..|events| - 1]), events[|events| - 1];
      BoundedAndSpaced(settings, world, events[..|events| - 1]);
      FreshSpaced(settings);
      match event
      case Polled => PollKeeps(settings, world, before);
      case Connected(_) => InvIgnoresHealth(settings, world, before);
      case Closed => InvIgnoresHealth(settings, world, before);
    }
  }

  lemma FreshSpaced(settings: Settings)
    ensures Spaced(settings, [])
  {
  }

  /** One poll makes at most one attempt: after a successful reconnect a new loss always has to wait. */
  lemma OneAttemptPerPoll(settings: Settings, world: World, s: Feed)
    requires settings.Valid()
    ensures Poll(settings, world, s).0.attempts <= s.attempts + 1
  {
    hide Backoff;
    BackoffIsPositive(settings, s.attempts);
    BackoffIsPositive(settings, s.attempts + 1);
    if s.health.Degraded? && settings.bounded {
      ReconnectOnce(settings, world, s);
    } else {
      ReconnectOnce(settings, world, s.(k := s.k + 1, health := Degraded));
    }
  }

  lemma ReconnectOnce(settings: Settings, world: World, s: Feed)
    requires settings.Valid()
    ensures ReconnectPoll(settings, world, s).0.attempts <= s.attempts + 1
  {
    hide Backoff;
    if s.attempts < settings.maxAttempts {
      var now := world.clock(s.k);
      var tried := s.(attempts := s.attempts + 1, tried := s.tried + [now], k := s.k + 1, health := Running,
                      retryAt := None, subscribed := s.desired);
      FreshLossWaits(settings, world, tried);
    }
  }

  /** With no retry time pending, a poll outside the degraded state attempts nothing. */
  lemma FreshLossWaits(settings: Settings, world: World, s: Feed)
    requires settings.Valid() && s.retryAt.None? && !s.health.Degraded?
    ensures Poll(settings, world, s).0.attempts == s.attempts
  {
    hide Backoff, Poll;
    BackoffIsPositive(settings, s.attempts);
    var lost := s.(k := s.k + 1, health := Degraded);
    assert ReconnectPoll(settings, world, lost).0.attempts == s.attempts;
    PollCases(settings, world, s);
  }

  /** A poll outside the degraded state attempts nothing itself; it may hand over to the reconnect loop. */
  lemma PollCases(settings: Settings, world: World, s: Feed)
    requires !s.health.Degraded?
    ensures var r := Poll(settings, world, s).0;
            r.attempts == s.attempts || r == ReconnectPoll(settings, world, s.(k := s.k + 1, health := Degraded)).0
  {
    hide ReconnectPoll;
  }

  /** A degraded provider with every attempt used up stops at the next poll. */
  lemma ExhaustionStops(settings: Settings, world: World, s: Feed)
    requires settings.Valid() && settings.bounded && s.health.Degraded?
    ensures s.attempts >= settings.maxAttempts ==>
              Poll(settings, world, s) == (s.(health := Stopped), Raised(FeedDisconnected))
    ensures s.attempts >= settings.maxAttempts ==>
              Poll(settings, world, Poll(settings, world, s).0) == (Poll(settings, world, s).0, Nothing)
  {
  }

  predicate Down(s: Feed) { s.health.Degraded? || s.health.Stopped? }

  /** A poll with every attempt used up attempts nothing, and leaves a bounded provider that is down stopped. */
  lemma ExhaustedPoll(settings: Settings, world: World, s: Feed)
    requires s.attempts == settings.maxAttempts
    ensures var r := Poll(settings, world, s).0;
            && r.attempts == s.attempts && r.tried == s.tried
            && (settings.bounded && Down(s) ==> r.health.Stopped?)
  {
    hide Backoff, OnFeedError;
    var next := s.(k := s.k + 1);
    ExhaustedError(settings, world, next, Auth);
    if world.recv(s.k).Broken? {
      ExhaustedError(settings, world, next, world.recv(s.k).reason);
    }
  }

  lemma ExhaustedError(settings: Settings, world: World, s: Feed, reason: Reason)
    requires s.attempts == settings.maxAttempts
    ensures var r := OnFeedError(settings, world, s, reason).0; r.attempts == s.attempts && r.tried == s.tried
  {
    hide Backoff;
  }

  /** Exhaustion is final on every run: once every attempt is used up, no further attempt is made whatever happens short
      of a successful `connect`; and a bounded provider that is down then stays down, stopped after every poll. */
  lemma {:induction false} NoMoreAttempts(settings: Settings, world: World, before: seq<Event>, more: seq<Event>)
    requires Run(settings, world, before).attempts == settings.maxAttempts
    requires forall event <- more :: !(event.Connected? && event.result.Accepted?)
    ensures var s, after := Run(settings, world, before), Run(settings, world, before + more);
            && after.attempts == s.attempts && after.tried == s.tried
            && (settings.bounded && Down(s) ==>
                  Down(after) && (more != [] && more[|more| - 1].Polled? ==> after.health.Stopped?))
    decreases |more|
  {
    hide Poll;
    if more == [] {
      assert before + more == before;
    } else {
      var last := |more| - 1;
      NoMoreAttempts(settings, world, before, more[..last]);
      assert (before + more)[..|before + more| - 1] == before + more[..last];
      assert more[last] in more;
      ExhaustedPoll(settings, world, Run(settings, world, before + more[..last]));
    }
  }

  lemma {:induction false} StoppedStays(settings: Settings, world: World, s: Feed, n: nat)
    requires s.health.Stopped?
    ensures PollTimes(settings, world, s, n) == s
    decreases n
  {
    if n > 0 {
      StoppedStays(settings, world, s, n - 1);
    }
  }

  function PollTimes(settings: Settings, world: World, s: Feed, n: nat): Feed
    decreases n
  {
    if n == 0 then s else PollTimes(settings, world, Poll(settings, world, s).0, n - 1)
  }

  /** A loss that no reconnect repairs ends in STOPPED: once the wait is over, with polls at least one longest backoff
      apart, the attempts that are left are used up one by one and the next poll gives up. */
  lemma {:induction false} PersistentLossStops(settings: Settings, world: World, s: Feed)
    requires settings.Valid() && settings.bounded && s.health.Degraded? && s.attempts <= settings.maxAttempts
    requires s.retryAt.Some? && s.retryAt.value <= world.clock(s.k)
    requires forall i: nat :: world.clock(i + 1) >= world.clock(i) + settings.maxBackoff
    requires forall i: nat :: !world.resubscribed(i)
    ensures PollTimes(settings, world, s, settings.maxAttempts - s.attempts + 1).health.Stopped?
    decreases settings.maxAttempts - s.attempts
  {
    if s.attempts == settings.maxAttempts {
      ExhaustionStops(settings, world, s);
    } else {
      var next := Poll(settings, world, s).0;
      FailedAttempt(settings, world, s);
      assert world.clock(s.k + 1) >= world.clock(s.k) + settings.maxBackoff;
      PersistentLossStops(settings, world, next);
    }
  }

  lemma FailedAttempt(settings: Settings, world: World, s: Feed)
    requires settings.Valid() && settings.bounded && s.health.Degraded? && s.attempts < settings.maxAttempts
    requires s.retryAt.Some? && s.retryAt.value <= world.clock(s.k) && !world.resubscribed(s.k)
    ensures var next := Poll(settings, world, s).0;
            && next.health.Degraded? && next.attempts == s.attempts + 1 && next.k == s.k + 1
            && next.retryAt.Some? && next.retryAt.value <= world.clock(s.k) + settings.maxBackoff
  {
  }

  // What a reconnect subscribes to.

  predicate Live(health: Health) { health.Ready? || health.Running? || health.Stale? }

  /** The tokens of the last `connect` that got as far as the subscription. */
  function Offered(events: seq<Event>): Option<Tokens> {
    if events == [] then None
    else
      match events[|events| - 1]
      case Connected(Accepted(tokens)) => Some(tokens)
      case Connected(Unsubscribed(tokens)) => Some(tokens)
      case _ => Offered(events[..|events| - 1])
  }

  ghost predicate Carries(s: Feed) { Live(s.health) ==> s.subscribed == s.desired }

  lemma {:induction false} PollCarries(settings: Settings, world: World, s: Feed)
    requires settings.bounded && Carries(s)
    ensures var next := Poll(settings, world, s).0; Carries(next) && next.desired == s.desired
    decreases settings.maxAttempts - s.attempts, 2
  {
    hide OnFeedError, ReconnectPoll, Backoff;
    var next := s.(k := s.k + 1);
    if s.health.Degraded? && settings.bounded {
      ReconnectCarries(settings, world, s);
    } else {
      match world.recv(s.k)
      case Broken(reason) => ErrorCarries(settings, world, next, reason);
      case ErrorText => ErrorCarries(settings, world, next, Auth);
      case _ =>
    }
  }

  lemma {:induction false} ErrorCarries(settings: Settings, world: World, s: Feed, reason: Reason)
    requires settings.bounded
    ensures var next := OnFeedError(settings, world, s, reason).0; Carries(next) && next.desired == s.desired
    decreases settings.maxAttempts - s.attempts, 1
  {
    hide ReconnectPoll;
    if reason.FeedDisconnected? && settings.bounded {
      ReconnectCarries(settings, world, s.(health := Degraded));
    }
  }

  lemma {:induction false} ReconnectCarries(settings: Settings, world: World, s: Feed)
    requires settings.bounded && s.health.Degraded?
    ensures var next := ReconnectPoll(settings, world, s).0; Carries(next) && next.desired == s.desired
    decreases settings.maxAttempts - s.attempts, 0
  {
    hide Poll, Backoff;
    if s.attempts < settings.maxAttempts && world.resubscribed(s.k) {
      PollCarries(settings, world, s.(attempts := s.attempts + 1, tried := s.tried + [world.clock(s.k)], k := s.k + 1,
                                      health := Running, retryAt := None, subscribed := s.desired));
    }
  }

  /** On every run a bounded provider that is READY, RUNNING or STALE has exactly the tokens subscribed of the last
      `connect` that got as far as the subscription, however many reconnects lie between. */
  lemma {:induction false} LiveMeansSubscribed(settings: Settings, world: World, events: seq<Event>)
    requires settings.bounded
    ensures var s := Run(settings, world, events);
            s.desired == Offered(events) && (Live(s.health) ==> s.subscribed == Offered(events))
    decreases |events|
  {
    hide Poll;
    if events != [] {
      var front := events[..|events| - 1];
      LiveMeansSubscribed(settings, world, front);
      PollCarries(settings, world, Run(settings, world, front));
    }
  }

  // How fresh the feed is.

  /** The wait before the first attempt is a second; each further wait is twice as long, up to the longest. */
  lemma BackoffMeaning(settings: Settings, attempts: nat)
    requires settings.Valid()
    ensures Backoff(settings, 0) == 1
    ensures Backoff(settings, attempts + 1)
         == if 2 * Backoff(settings, attempts) > settings.maxBackoff then settings.maxBackoff
            else 2 * Backoff(settings, attempts)
  {
  }

  /** A bounded provider that is degraded waits one backoff from the poll that finds it so, and one more after each
      attempt; it attempts exactly at the first poll after that. */
  lemma AttemptsExactlyWhen(settings: Settings, world: World, s: Feed)
    requires settings.Valid() && settings.bounded && s.health.Degraded? && s.attempts < settings.maxAttempts
    ensures var now, next := world.clock(s.k), Poll(settings, world, s).0;
            match s.retryAt
            case None => next == s.(retryAt := Some(now + Backoff(settings, s.attempts)), k := s.k + 1)
            case Some(at) =>
              && (next.attempts == s.attempts + 1 <==> now >= at)
              && (now < at ==> next == s.(k := s.k + 1))
              && (now >= at && !world.resubscribed(s.k) ==>
                    next.health.Degraded? && next.retryAt == Some(now + Backoff(settings, s.attempts + 1)))
  {
    hide Backoff, Poll;
    BackoffIsPositive(settings, s.attempts);
    assert Poll(settings, world, s) == ReconnectPoll(settings, world, s) by { DegradedReconnects(settings, world, s); }
    if s.retryAt.Some? && world.clock(s.k) >= s.retryAt.value {
      FreshLossWaits(settings, world,
                     s.(attempts := s.attempts + 1, tried := s.tried + [world.clock(s.k)], k := s.k + 1,
                        health := Running, retryAt := None, subscribed := s.desired));
    }
  }

  lemma DegradedReconnects(settings: Settings, world: World, s: Feed)
    requires settings.bounded && s.health.Degraded?
    ensures Poll(settings, world, s) == ReconnectPoll(settings, world, s)
  {
    hide ReconnectPoll;
  }

  /** A snapshot leaves a provider STALE exactly when its event is older than allowed, and RUNNING otherwise, whatever
      it was before. */
  lemma {:induction false} SnapshotSetsFreshness(settings: Settings, world: World, s: Feed)
    requires settings.bounded || Live(s.health)
    requires Poll(settings, world, s).1.Snapshot?
    ensures var next := Poll(settings, world, s).0;
            && next.k >= 1 && next.lastAt.Some?
            && next.health == (if world.clock(next.k - 1) - next.lastAt.value > settings.maxStaleness then Stale
                               else Running)
    decreases settings.maxAttempts - s.attempts, 2
  {
    hide OnFeedError, ReconnectPoll, Backoff;
    var next := s.(k := s.k + 1);
    if s.health.Degraded? && settings.bounded {
      RepairSetsFreshness(settings, world, s);
    } else {
      match world.recv(s.k)
      case Broken(reason) => ErrorSetsFreshness(settings, world, next, reason);
      case ErrorText => ErrorSetsFreshness(settings, world, next, Auth);
      case _ =>
    }
  }

  lemma {:induction false} ErrorSetsFreshness(settings: Settings, world: World, s: Feed, reason: Reason)
    requires OnFeedError(settings, world, s, reason).1.Snapshot?
    ensures var next := OnFeedError(settings, world, s, reason).0;
            && next.k >= 1 && next.lastAt.Some?
            && next.health == (if world.clock(next.k - 1) - next.lastAt.value > settings.maxStaleness then Stale
                               else Running)
    decreases settings.maxAttempts - s.attempts, 1
  {
    hide ReconnectPoll;
    RepairSetsFreshness(settings, world, s.(health := Degraded));
  }

  lemma {:induction false} RepairSetsFreshness(settings: Settings, world: World, s: Feed)
    requires ReconnectPoll(settings, world, s).1.Snapshot?
    ensures var next := ReconnectPoll(settings, world, s).0;
            && next.k >= 1 && next.lastAt.Some?
            && next.health == (if world.clock(next.k - 1) - next.lastAt.value > settings.maxStaleness then Stale
                               else Running)
    decreases settings.maxAttempts - s.attempts, 0
  {
    hide Poll, Backoff;
    SnapshotSetsFreshness(settings, world,
                          s.(attempts := s.attempts + 1, tried := s.tried + [world.clock(s.k)], k := s.k + 1,
                             health := Running, retryAt := None, subscribed := s.desired));
  }

  /** Silence turns a provider STALE exactly when it was RUNNING and its last event is older than allowed; nothing else
      changes. */
  lemma SilenceKeepsOrStales(settings: Settings, world: World, s: Feed)
    requires Live(s.health) && world.recv(s.k).Silence?
    ensures var next := Poll(settings, world, s).0;
            var aged := s.lastAt.Some? && world.clock(s.k + 1) - s.lastAt.value > settings.maxStaleness;
            next == s.(health := if s.health.Running? && aged then Stale else s.health, k := s.k + 2)
  {
  }

  /** What a live provider makes of what it receives: only listed ticks are an event, a refused login stops it for good,
      any other failure degrades it, and control frames leave it as it is. */
  lemma LivePoll(settings: Settings, world: World, s: Feed)
    requires Live(s.health)
    ensures var (next, reply) := Poll(settings, world, s);
            match world.recv(s.k)
            case Ticks(eventTime, listed) =>
              if listed then reply == Snapshot && next.lastAt == Some(eventTime)
              else reply == Message && next == s.(k := s.k + 1)
            case Control => reply == Message && next == s.(k := s.k + 1)
            case Heartbeat => reply == Message && next == s.(k := s.k + 1)
            case Silence => reply == Nothing && next.lastAt == s.lastAt
            case FixtureText => reply == Raised(FixtureFallback) && next == s.(health := Degraded, k := s.k + 1)
            case ErrorText => reply == Raised(Auth) && next == s.(health := Stopped, k := s.k + 1)
            case Broken(Auth) => reply == Raised(Auth) && next == s.(health := Stopped, k := s.k + 1)
            case Broken(FeedDisconnected) => settings.bounded || next == s.(health := Degraded, k := s.k + 1)
            case Broken(reason) => reply == Raised(reason) && next == s.(health := Degraded, k := s.k + 1)
  {
    hide ReconnectPoll;
  }

  /** The last event is older than allowed. */
  ghost predicate Aged(settings: Settings, world: World, s: Feed) {
    s.lastAt.Some? && world.clock(s.k) - s.lastAt.value > settings.maxStaleness
  }

  lemma {:induction false} PollAges(settings: Settings, world: World, s: Feed)
    requires Monotone(world) && (s.health.Stale? ==> Aged(settings, world, s))
    ensures var next := Poll(settings, world, s).0; next.health.Stale? ==> Aged(settings, world, next)
    decreases settings.maxAttempts - s.attempts, 2
  {
    hide OnFeedError, ReconnectPoll, Backoff, Monotone;
    var next := s.(k := s.k + 1);
    TimeGoesOn(world, s.k);
    if s.health.Degraded? && settings.bounded {
      RepairAges(settings, world, s);
    } else {
      match world.recv(s.k)
      case Broken(reason) => ErrorAges(settings, world, next, reason);
      case ErrorText => ErrorAges(settings, world, next, Auth);
      case _ =>
    }
  }

  lemma TimeGoesOn(world: World, k: nat)
    requires Monotone(world)
    ensures world.clock(k) <= world.clock(k + 1) <= world.clock(k + 2)
  {
  }

  lemma {:induction false} ErrorAges(settings: Settings, world: World, s: Feed, reason: Reason)
    requires Monotone(world)
    ensures var next := OnFeedError(settings, world, s, reason).0; next.health.Stale? ==> Aged(settings, world, next)
    decreases settings.maxAttempts - s.attempts, 1
  {
    hide ReconnectPoll, Monotone;
    if !reason.Auth? {
      RepairAges(settings, world, s.(health := Degraded));
    }
  }

  lemma {:induction false} RepairAges(settings: Settings, world: World, s: Feed)
    requires Monotone(world) && s.health.Degraded?
    ensures var next := ReconnectPoll(settings, world, s).0; next.health.Stale? ==> Aged(settings, world, next)
    decreases settings.maxAttempts - s.attempts, 0
  {
    hide Poll, Backoff, Monotone;
    if s.attempts < settings.maxAttempts && world.resubscribed(s.k) {
      PollAges(settings, world, s.(attempts := s.attempts + 1, tried := s.tried + [world.clock(s.k)], k := s.k + 1,
                                   health := Running, retryAt := None, subscribed := s.desired));
    }
  }

  /** On every run with a monotone clock a STALE provider has had an event, and that is older than allowed. */
  lemma {:induction false} StaleMeansAged(settings: Settings, world: World, events: seq<Event>)
    requires Monotone(world) && Run(settings, world, events).health.Stale?
    ensures Aged(settings, world, Run(settings, world, events))
    decreases |events|
  {
    hide Poll, Monotone;
    if events != [] {
      var before := Run(settings, world, events[..|events| - 1]);
      if before.health.Stale? {
        StaleMeansAged(settings, world, events[..|events| - 1]);
      }
      PollAges(settings, world, before);
    }
  }

  /** So a RUNNING provider listens to nothing exactly when no `connect` ever got that far; that can happen, when a
      first `connect` fails on its catalogue and the reconnect loop then finds the transport working. */
  lemma RunningOnNothing()
    ensures var settings := Settings(true, 1, 1, 1);
            var world := World((i: nat) => 10 * i, (i: nat) => Silence, (i: nat) => true);
            var s := Run(settings, world, [Connected(Refused), Polled, Polled]);
            s.health.Running? && s.subscribed == None
  {
    var settings := Settings(true, 1, 1, 1);
    var world := World((i: nat) => 10 * i, (i: nat) => Silence, (i: nat) => true);
    var refused := FRESH.(health := Degraded);
    var events := [Connected(Refused), Polled, Polled];
    assert events[..2] == [Connected(Refused), Polled];
    assert [Connected(Refused), Polled][..1] == [Connected(Refused)] && [Connected(Refused)][..0] == [];
    assert Run(settings, world, [Connected(Refused)]) == refused;
    var waiting := refused.(retryAt := Some(1), k := 1);
    assert Backoff(settings, 0) == 1;
    assert Poll(settings, world, refused).0 == waiting;
    var running := waiting.(attempts := 1, tried := [10], k := 2, health := Running, retryAt := None);
    assert world.clock(1) == 10 && waiting.tried + [10] == [10];
    assert ReconnectPoll(settings, world, waiting) == Poll(settings, world, running);
    assert Poll(settings, world, waiting) == ReconnectPoll(settings, world, waiting);
    assert Poll(settings, world, running).0 == running.(k := 4);
  }
}
