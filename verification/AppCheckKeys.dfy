/**
 The cached signing keys that client proofs are checked with. A lookup is cut where the source
 awaits: its first part runs up to the download it waits for, its second part answers. Any
 number of lookups may be under way, their parts interleaved with the two parts of a
 download: its end, and the later callback that takes the in-flight marker away.
 */
module AppCheckKeys {
  import opened Common

  type Kid = string
  type Key = int
  type KeyMap = map<Kid, Key>

  const KEYS_LIVE_MS := 6 * 60 * 60 * 1000
  const REFETCH_INTERVAL_MS := 10 * 1000

  datatype Outcome = Found(key: Key) | Unavailable | Unknown

  /** What the first part of a lookup did. */
  datatype First = Answered(key: Key) | Joined | Spared | Started

  datatype Cache = Cache(
    keys: Option<KeyMap>,
    fetchedAt: int,
    lastAttempt: Option<int>,
    lastFailed: bool,
    inFlight: bool)

  const EMPTY := Cache(None, 0, None, false, false)

  // ----- the code, part by part -----

  function FreshKeys(c: Cache, now: int): Option<KeyMap> {
    if c.keys.None? || now - c.fetchedAt >= KEYS_LIVE_MS then None else c.keys
  }

  predicate Holds(keys: Option<KeyMap>, kid: Kid) {
    keys.Some? && kid in keys.value
  }

  function FirstPart(c: Cache, kid: Kid, now: int): First {
    if Holds(FreshKeys(c, now), kid) then
      Answered(FreshKeys(c, now).value[kid])
    else if c.inFlight then
      Joined
    else if c.lastAttempt.Some? && now - c.lastAttempt.value < REFETCH_INTERVAL_MS then
      Spared
    else
      Started
  }

  function AfterFirstPart(c: Cache, kid: Kid, now: int): Cache {
    if FirstPart(c, kid, now).Started? then c.(lastAttempt := Some(now), inFlight := true) else c
  }

  /** A download ends with a key set, or with none when it failed. */
  function AfterDownload(c: Cache, got: Option<KeyMap>, now: int): Cache {
    match got
    case Some(keys) => c.(keys := Some(keys), fetchedAt := now, lastFailed := false)
    case None => c.(lastFailed := true)
  }

  function SecondPart(c: Cache, kid: Kid, now: int): Outcome {
    var keys := FreshKeys(c, now);
    if keys.None? then
      Unavailable
    else if kid in keys.value then
      Found(keys.value[kid])
    else if c.lastFailed then
      Unavailable
    else
      Unknown
  }

  class AppCheckKeySet {
    var keys: Option<KeyMap>
    var fetchedAtMs: int
    var lastAttemptAtMs: Option<int>
    var lastAttemptFailed: bool
    var inFlight: bool

    ghost function State(): Cache
      reads this
    {
      Cache(keys, fetchedAtMs, lastAttemptAtMs, lastAttemptFailed, inFlight)
    }

    constructor ()
      ensures State() == EMPTY
    {
      keys, fetchedAtMs, lastAttemptAtMs, lastAttemptFailed, inFlight := None, 0, None, false, false;
    }

    function Unexpired(now: int): (r: Option<KeyMap>)
      reads this
      ensures r == FreshKeys(State(), now)
    {
      if keys.None? || now - fetchedAtMs >= KEYS_LIVE_MS then None else keys
    }

    /** `keyFor` up to its await, `refetch` included. */
    method Ask(kid: Kid, now: int) returns (first: First)
      modifies this
      ensures first == FirstPart(old(State()), kid, now)
      ensures State() == AfterFirstPart(old(State()), kid, now)
    {
      var cached := Unexpired(now);
      if cached.Some? && kid in cached.value {
        return Answered(cached.value[kid]);
      }
      if inFlight {
        return Joined;
      }
      if lastAttemptAtMs.Some? && now - lastAttemptAtMs.value < REFETCH_INTERVAL_MS {
        return Spared;
      }
      lastAttemptAtMs := Some(now);
      inFlight := true;
      return Started;
    }

    /** `fetchKeys` from the end of its download. */
    method Settle(got: Option<KeyMap>, now: int)
      modifies this
      ensures State() == AfterDownload(old(State()), got, now)
    {
      if got.Some? {
        keys := got;
        fetchedAtMs := now;
        lastAttemptFailed := false;
      } else {
        lastAttemptFailed := true;
      }
    }

    /** The `finally` callback. */
    method ClearMarker()
      modifies this
      ensures State() == old(State()).(inFlight := false)
    {
      inFlight := false;
    }

    /** `keyFor` after its await. */
    method Answer(kid: Kid, now: int) returns (outcome: Outcome)
      ensures outcome == SecondPart(State(), kid, now)
    {
      var current := Unexpired(now);
      if current.None? {
        return Unavailable;
      }
      if kid in current.value {
        return Found(current.value[kid]);
      }
      return if lastAttemptFailed then Unavailable else Unknown;
    }
  }

  // ----- the system -----

  /** A download that ended: when it began and ended, and what it brought. */
  datatype Done = Done(began: int, got: Option<KeyMap>, ended: int)

  /**
   A lookup under way: when it began, how many downloads had ended by then, and the download it
   waits for, if any.
   */
  datatype Lookup = Lookup(kid: Kid, began: int, before: nat, waitsFor: Option<nat>)

  /** An answer: the lookup, the time, and how many downloads had ended by then. */
  datatype Reply = Reply(lookup: Lookup, outcome: Outcome, at: int, ended: nat)

  /** Downloads are numbered as they start; `running` have not ended, `marked` still hold the marker. */
  datatype Sys = Sys(
    cache: Cache,
    starts: seq<int>,
    running: set<nat>,
    marked: set<nat>,
    done: seq<Done>,
    lookups: map<int, Lookup>,
    replies: seq<Reply>)

  const INITIAL := Sys(EMPTY, [], {}, {}, [], map[], [])

  datatype Event =
    | Asks(id: int, kid: Kid, now: int)
    | Ends(download: nat, got: Option<KeyMap>, now: int)
    | Clears(download: nat)
    | Answers(id: int, now: int)

  predicate Enabled(s: Sys, e: Event) {
    match e
    case Asks(id, _, _) => id !in s.lookups
    case Ends(n, _, _) => n in s.running && n < |s.starts|
    case Clears(n) => n in s.marked && n !in s.running
    case Answers(id, _) =>
      id in s.lookups && (s.lookups[id].waitsFor.Some? ==> s.lookups[id].waitsFor.value !in s.marked)
  }

  function Asked(s: Sys, id: int, kid: Kid, now: int): Sys {
    var c := AfterFirstPart(s.cache, kid, now);
    match FirstPart(s.cache, kid, now)
    case Answered(key) =>
      s.(replies := s.replies + [Reply(Lookup(kid, now, |s.done|, None), Found(key), now, |s.done|)])
    case Joined =>
      var newest := if s.starts == [] then None else Some(|s.starts| - 1);
      s.(lookups := s.lookups[id := Lookup(kid, now, |s.done|, newest)])
    case Spared =>
      s.(lookups := s.lookups[id := Lookup(kid, now, |s.done|, None)])
    case Started =>
      var n := |s.starts|;
      s.(cache := c,
         starts := s.starts + [now],
         running := s.running + {n},
         marked := s.marked + {n},
         lookups := s.lookups[id := Lookup(kid, now, |s.done|, Some(n))])
  }

  function Next(s: Sys, e: Event): Sys
    requires Enabled(s, e)
  {
    match e
    case Asks(id, kid, now) => Asked(s, id, kid, now)
    case Ends(n, got, now) =>
      s.(cache := AfterDownload(s.cache, got, now),
         running := s.running - {n},
         done := s.done + [Done(s.starts[n], got, now)])
    case Clears(n) =>
      s.(cache := s.cache.(inFlight := false), marked := s.marked - {n})
    case Answers(id, now) =>
      var l := s.lookups[id];
      s.(lookups := s.lookups - {id},
         replies := s.replies + [Reply(l, SecondPart(s.cache, l.kid, now), now, |s.done|)])
  }

  /** An event that is not enabled does nothing. */
  function Run(s: Sys, events: seq<Event>): Sys
    decreases |events|
  {
    if events == [] then
      s
    else
      Run(if Enabled(s, events[0]) then Next(s, events[0]) else s, events[1..])
  }

  // ----- what the history of downloads says -----

  /** The newest download that brought keys. */
  function NewestSuccess(done: seq<Done>): Option<Done> {
    if done == [] then
      None
    else if done[|done| - 1].got.Some? then
      Some(done[|done| - 1])
    else
      NewestSuccess(done[..|done| - 1])
  }

  predicate LastFailed(done: seq<Done>) {
    done != [] && done[|done| - 1].got.None?
  }

  /** The key set of the newest success, if it ended less than six hours ago. */
  function LiveKeys(done: seq<Done>, now: int): Option<KeyMap> {
    var newest := NewestSuccess(done);
    if newest.Some? && now - newest.value.ended < KEYS_LIVE_MS then newest.value.got else None
  }

  /** The only answers there are, told from the downloads alone. */
  predicate Warranted(r: Reply, done: seq<Done>) {
    var live := LiveKeys(done, r.at);
    match r.outcome
    case Found(key) => Holds(live, r.lookup.kid) && live.value[r.lookup.kid] == key
    case Unavailable => live.None? || (LastFailed(done) && !Holds(live, r.lookup.kid))
    case Unknown => live.Some? && !Holds(live, r.lookup.kid) && !LastFailed(done)
  }

  /** The last download to end did so during the lookup, or began less than ten seconds before it. */
  predicate Current(l: Lookup, done: seq<Done>) {
    && done != []
    && (l.before < |done| || l.began - done[|done| - 1].began < REFETCH_INTERVAL_MS)
  }

  /** The lookup joined a download that had ended, its marker not yet taken away. */
  predicate JoinedEnded(l: Lookup) {
    l.waitsFor.Some? && l.waitsFor.value < l.before
  }
}
