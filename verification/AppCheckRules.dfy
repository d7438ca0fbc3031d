/** What holds of the key cache over every interleaving of lookups and downloads. */
module AppCheckRules {
  import opened Common
  import opened AppCheckKeys

  // ----- the invariant -----

  ghost predicate Flight(s: Sys) {
    && (s.cache.inFlight <==> s.marked != {})
    && s.running <= s.marked
    && (s.marked != {} ==> s.starts != [] && s.marked == {|s.starts| - 1})
    && |s.starts| == |s.done| + (if s.running == {} then 0 else 1)
  }

  ghost predicate Spaced(starts: seq<int>) {
    forall i :: 0 < i < |starts| ==> starts[i] - starts[i - 1] >= REFETCH_INTERVAL_MS
  }

  ghost predicate Timed(s: Sys) {
    && Spaced(s.starts)
    && s.cache.lastAttempt == (if s.starts == [] then None else Some(s.starts[|s.starts| - 1]))
    && |s.done| <= |s.starts|
    && forall i :: 0 <= i < |s.done| ==> s.done[i].began == s.starts[i]
  }

  /** The fields are what the history of downloads says. */
  ghost predicate Faithful(c: Cache, done: seq<Done>) {
    var newest := NewestSuccess(done);
    && c.lastFailed == LastFailed(done)
    && c.keys == (if newest.Some? then newest.value.got else None)
    && (newest.Some? ==> newest.value.got.Some? && c.fetchedAt == newest.value.ended)
  }

  ghost predicate SoonBefore(l: Lookup, done: seq<Done>) {
    0 < l.before <= |done| && l.began - done[l.before - 1].began < REFETCH_INTERVAL_MS
  }

  ghost predicate LookupOk(l: Lookup, starts: nat, done: seq<Done>, timely: bool) {
    && l.before <= |done|
    && (l.waitsFor.None? || (timely && JoinedEnded(l)) ==> SoonBefore(l, done))
    && (l.waitsFor.Some? ==> l.waitsFor.value < starts && l.before <= l.waitsFor.value + 1)
  }

  ghost predicate LookupsOk(s: Sys, timely: bool) {
    forall id :: id in s.lookups ==> LookupOk(s.lookups[id], |s.starts|, s.done, timely)
  }

  ghost predicate ReplyOk(r: Reply, done: seq<Done>, timely: bool) {
    && r.ended <= |done|
    && Warranted(r, done[..r.ended])
    && (r.outcome.Unknown? ==> Current(r.lookup, done[..r.ended]) || (!timely && JoinedEnded(r.lookup)))
  }

  ghost predicate RepliesOk(replies: seq<Reply>, done: seq<Done>, timely: bool) {
    forall i :: 0 <= i < |replies| ==> ReplyOk(replies[i], done, timely)
  }

  ghost predicate Inv(s: Sys, timely: bool) {
    && Flight(s)
    && Timed(s)
    && Faithful(s.cache, s.done)
    && LookupsOk(s, timely)
    && RepliesOk(s.replies, s.done, timely)
  }

  /** A lookup that joins a download between its end and its marker's end comes within ten seconds of its start. */
  ghost predicate TimelyEvent(s: Sys, e: Event) {
    e.Asks? && FirstPart(s.cache, e.kid, e.now).Joined? && s.running == {} && s.starts != [] ==>
      e.now - s.starts[|s.starts| - 1] < REFETCH_INTERVAL_MS
  }

  ghost predicate TimelyRun(s: Sys, events: seq<Event>)
    decreases |events|
  {
    events == [] ||
    (if Enabled(s, events[0]) then
       TimelyEvent(s, events[0]) && TimelyRun(Next(s, events[0]), events[1..])
     else
       TimelyRun(s, events[1..]))
  }

  // ----- replies and lookups outlive more downloads -----

  lemma RepliesStay(replies: seq<Reply>, done: seq<Done>, more: seq<Done>, timely: bool)
    requires RepliesOk(replies, done, timely)
    ensures RepliesOk(replies, done + more, timely)
  {
    forall i | 0 <= i < |replies|
      ensures ReplyOk(replies[i], done + more, timely)
    {
      assert ReplyOk(replies[i], done, timely);
      assert (done + more)[..replies[i].ended] == done[..replies[i].ended];
    }
  }

  lemma RepliesPush(replies: seq<Reply>, r: Reply, done: seq<Done>, timely: bool)
    requires RepliesOk(replies, done, timely) && ReplyOk(r, done, timely)
    ensures RepliesOk(replies + [r], done, timely)
  {
  }

  lemma LookupStays(l: Lookup, n: nat, m: nat, done: seq<Done>, more: seq<Done>, timely: bool)
    requires LookupOk(l, n, done, timely) && n <= m
    ensures LookupOk(l, m, done + more, timely)
  {
  }

  lemma LookupsStay(s: Sys, t: Sys, d: Done, timely: bool)
    requires LookupsOk(s, timely)
    requires t.lookups == s.lookups && t.starts == s.starts && t.done == s.done + [d]
    ensures LookupsOk(t, timely)
  {
    forall id | id in t.lookups
      ensures LookupOk(t.lookups[id], |t.starts|, t.done, timely)
    {
      LookupStays(s.lookups[id], |s.starts|, |t.starts|, s.done, [d], timely);
    }
  }

  // ----- the cache speaks for the history -----

  lemma FreshIsLive(c: Cache, done: seq<Done>, now: int)
    requires Faithful(c, done)
    ensures FreshKeys(c, now) == LiveKeys(done, now)
  {
  }

  lemma FoundIsWarranted(c: Cache, done: seq<Done>, kid: Kid, now: int)
    requires Faithful(c, done) && Holds(FreshKeys(c, now), kid)
    ensures Warranted(Reply(Lookup(kid, now, |done|, None), Found(FreshKeys(c, now).value[kid]), now, |done|), done)
  {
    FreshIsLive(c, done, now);
  }

  lemma SecondPartIsWarranted(c: Cache, done: seq<Done>, l: Lookup, now: int)
    requires Faithful(c, done)
    ensures Warranted(Reply(l, SecondPart(c, l.kid, now), now, |done|), done)
  {
    FreshIsLive(c, done, now);
  }

  lemma DownloadIsRecorded(c: Cache, done: seq<Done>, began: int, got: Option<KeyMap>, now: int)
    requires Faithful(c, done)
    ensures Faithful(AfterDownload(c, got, now), done + [Done(began, got, now)])
  {
    var d := Done(began, got, now);
    assert (done + [d])[..|done|] == done;
    assert (done + [d])[|done|] == d;
  }

  // ----- every event keeps the invariant -----

  lemma StartKeepsInv(s: Sys, id: int, kid: Kid, now: int, timely: bool)
    requires Inv(s, timely) && id !in s.lookups && FirstPart(s.cache, kid, now).Started?
    ensures Inv(Asked(s, id, kid, now), timely)
  {
    var t := Asked(s, id, kid, now);
    assert t.marked == {|t.starts| - 1};
    forall i | 0 < i < |t.starts|
      ensures t.starts[i] - t.starts[i - 1] >= REFETCH_INTERVAL_MS
    {
      assert t.starts[i - 1] == s.starts[i - 1];
    }
    forall other | other in t.lookups
      ensures LookupOk(t.lookups[other], |t.starts|, t.done, timely)
    {
      if other != id {
        LookupStays(s.lookups[other], |s.starts|, |t.starts|, s.done, [], timely);
        assert s.done + [] == s.done;
      }
    }
  }

  lemma WaitKeepsInv(s: Sys, id: int, kid: Kid, now: int, timely: bool)
    requires Inv(s, timely) && id !in s.lookups
    requires timely ==> TimelyEvent(s, Asks(id, kid, now))
    requires FirstPart(s.cache, kid, now).Joined? || FirstPart(s.cache, kid, now).Spared?
    ensures Inv(Asked(s, id, kid, now), timely)
  {
    var t := Asked(s, id, kid, now);
    var l := t.lookups[id];
    assert LookupOk(l, |s.starts|, s.done, timely);
    forall other | other in t.lookups
      ensures LookupOk(t.lookups[other], |t.starts|, t.done, timely)
    {
      assert other != id ==> other in s.lookups;
    }
  }

  lemma FoundKeepsInv(s: Sys, id: int, kid: Kid, now: int, timely: bool)
    requires Inv(s, timely) && FirstPart(s.cache, kid, now).Answered?
    ensures Inv(Asked(s, id, kid, now), timely)
  {
    FoundIsWarranted(s.cache, s.done, kid, now);
    assert s.done[..|s.done|] == s.done;
    RepliesPush(s.replies, Asked(s, id, kid, now).replies[|s.replies|], s.done, timely);
  }

  lemma EndKeepsInv(s: Sys, e: Event, timely: bool)
    requires Inv(s, timely) && e.Ends? && Enabled(s, e)
    ensures Inv(Next(s, e), timely)
  {
    var t := Next(s, e);
    var d := Done(s.starts[e.download], e.got, e.now);
    assert s.running == {|s.starts| - 1};
    assert t.running == {};
    DownloadIsRecorded(s.cache, s.done, s.starts[e.download], e.got, e.now);
    RepliesStay(s.replies, s.done, [d], timely);
    LookupsStay(s, t, d, timely);
  }

  lemma ClearKeepsInv(s: Sys, e: Event, timely: bool)
    requires Inv(s, timely) && e.Clears? && Enabled(s, e)
    ensures Inv(Next(s, e), timely)
  {
    assert s.marked == {e.download};
    assert Next(s, e).marked == {};
    assert s.running == {};
  }

  /** Whatever a lookup waits for has ended once its marker is gone. */
  lemma AwaitedEnded(s: Sys, l: Lookup)
    requires Flight(s) && l.waitsFor.Some? && l.waitsFor.value < |s.starts| && l.waitsFor.value !in s.marked
    ensures l.waitsFor.value < |s.done|
  {
  }

  lemma UnknownIsCurrent(s: Sys, l: Lookup, now: int, timely: bool)
    requires Flight(s) && LookupOk(l, |s.starts|, s.done, timely)
    requires l.waitsFor.Some? ==> l.waitsFor.value !in s.marked
    ensures Current(l, s.done) || (!timely && JoinedEnded(l))
  {
    if l.waitsFor.Some? {
      AwaitedEnded(s, l);
    }
  }

  lemma AnswerKeepsInv(s: Sys, e: Event, timely: bool)
    requires Inv(s, timely) && e.Answers? && Enabled(s, e)
    ensures Inv(Next(s, e), timely)
  {
    var l := s.lookups[e.id];
    UnknownIsCurrent(s, l, e.now, timely);
    SecondPartIsWarranted(s.cache, s.done, l, e.now);
    assert s.done[..|s.done|] == s.done;
    RepliesPush(s.replies, Next(s, e).replies[|s.replies|], s.done, timely);
  }

  lemma StepKeepsInv(s: Sys, e: Event, timely: bool)
    requires Inv(s, timely) && Enabled(s, e) && (timely ==> TimelyEvent(s, e))
    ensures Inv(Next(s, e), timely)
  {
    match e
    case Asks(id, kid, now) =>
      match FirstPart(s.cache, kid, now) {
        case Answered(_) => FoundKeepsInv(s, id, kid, now, timely);
        case Started => StartKeepsInv(s, id, kid, now, timely);
        case Joined => WaitKeepsInv(s, id, kid, now, timely);
        case Spared => WaitKeepsInv(s, id, kid, now, timely);
      }
    case Ends(_, _, _) => EndKeepsInv(s, e, timely);
    case Clears(_) => ClearKeepsInv(s, e, timely);
    case Answers(_, _) => AnswerKeepsInv(s, e, timely);
  }

  lemma {:induction false} RunKeepsInv(s: Sys, events: seq<Event>, timely: bool)
    requires Inv(s, timely) && (timely ==> TimelyRun(s, events))
    ensures Inv(Run(s, events), timely)
    decreases |events|
  {
    if events != [] {
      if Enabled(s, events[0]) {
        StepKeepsInv(s, events[0], timely);
        RunKeepsInv(Next(s, events[0]), events[1..], timely);
      } else {
        RunKeepsInv(s, events[1..], timely);
      }
    }
  }

  // ----- the promises -----

  /** However lookups interleave, one download runs at a time and starts are ten seconds apart. */
  lemma OneFetchAtATime(events: seq<Event>)
    ensures var s := Run(INITIAL, events);
            && |s.running| <= 1
            && forall i :: 0 < i < |s.starts| ==> s.starts[i] - s.starts[i - 1] >= REFETCH_INTERVAL_MS
  {
    RunKeepsInv(INITIAL, events, false);
    var s := Run(INITIAL, events);
    if s.running != {} {
      assert s.running == {|s.starts| - 1};
    }
  }

  /**
   Every answer is the one the downloads that had ended warrant: a key comes from the newest
   successful download, ended less than six hours ago; "unknown" says that the last download
   succeeded and its set lacks the key; after a failed one the answer is "unavailable".
   */
  lemma AnswersAreWarranted(events: seq<Event>, i: nat)
    requires i < |Run(INITIAL, events).replies|
    ensures var s := Run(INITIAL, events);
            var r := s.replies[i];
            && r.ended <= |s.done|
            && Warranted(r, s.done[..r.ended])
            && (r.outcome.Unknown? ==> Current(r.lookup, s.done[..r.ended]) || JoinedEnded(r.lookup))
  {
    RunKeepsInv(INITIAL, events, false);
    assert ReplyOk(Run(INITIAL, events).replies[i], Run(INITIAL, events).done, false);
  }

  /** A download that brings keys makes them the live ones until six hours later, to the millisecond. */
  lemma KeysLiveSixHours(done: seq<Done>, began: int, keys: KeyMap, ended: int, now: int)
    ensures LiveKeys(done + [Done(began, Some(keys), ended)], now) == (if now < ended + 21_600_000 then Some(keys) else None)
    ensures LiveKeys(done + [Done(began, None, ended)], now) == LiveKeys(done, now)
  {
    var failed := done + [Done(began, None, ended)];
    assert failed[..|failed| - 1] == done;
  }

  /**
   What a lookup does first, told from the downloads alone: it answers from the live keys, or
   waits for the download whose marker stands, or starts one, but not within ten seconds of the last start.
   */
  lemma LookupBegins(events: seq<Event>, kid: Kid, now: int)
    ensures var s := Run(INITIAL, events);
            var first, live := FirstPart(s.cache, kid, now), LiveKeys(s.done, now);
            if live.Some? && kid in live.value then first == Answered(live.value[kid])
            else if s.marked != {} then first == Joined
            else if s.starts != [] && now < s.starts[|s.starts| - 1] + 10_000 then first == Spared
            else first == Started
  {
    RunKeepsInv(INITIAL, events, false);
    FreshIsLive(Run(INITIAL, events).cache, Run(INITIAL, events).done, now);
  }

  // ----- "unknown", exactly -----

  /**
   The event answers a lookup that joined a download which had ended, its marker left over: none
   has ended since, that one began ten seconds or more before the lookup, and its set, still
   alive, lacks the key. All of it can be read before the event.
   */
  ghost predicate RestsOnOld(s: Sys, e: Event) {
    && e.Answers? && Enabled(s, e)
    && var l, live := s.lookups[e.id], LiveKeys(s.done, e.now);
    && JoinedEnded(l) && l.before == |s.done|
    && l.began - s.done[|s.done| - 1].began >= REFETCH_INTERVAL_MS
    && live.Some? && l.kid !in live.value && !LastFailed(s.done)
  }

  ghost predicate NeverRestsOnOld(s: Sys, events: seq<Event>)
    decreases |events|
  {
    events == [] ||
    (!RestsOnOld(s, events[0]) &&
     NeverRestsOnOld(if Enabled(s, events[0]) then Next(s, events[0]) else s, events[1..]))
  }

  ghost predicate ReplyCurrent(r: Reply, done: seq<Done>) {
    r.outcome.Unknown? ==> r.ended <= |done| && Current(r.lookup, done[..r.ended])
  }

  /** Every "unknown" was said on a download that ended during its lookup or began less than ten seconds before it. */
  ghost predicate AllCurrent(s: Sys) {
    forall i :: 0 <= i < |s.replies| ==> ReplyCurrent(s.replies[i], s.done)
  }

  lemma AnswerIsCurrentUnlessOld(s: Sys, e: Event)
    requires Inv(s, false) && e.Answers? && Enabled(s, e)
    ensures var r := Next(s, e).replies[|s.replies|];
            ReplyCurrent(r, s.done) <==> !RestsOnOld(s, e)
  {
    var l := s.lookups[e.id];
    assert LookupOk(l, |s.starts|, s.done, false);
    UnknownIsCurrent(s, l, e.now, false);
    FreshIsLive(s.cache, s.done, e.now);
    assert s.done[..|s.done|] == s.done;
  }

  /** Events add replies and downloads, and take none away. */
  lemma RecordsGrow(s: Sys, e: Event)
    requires Enabled(s, e)
    ensures s.replies <= Next(s, e).replies && s.done <= Next(s, e).done
  {
  }

  lemma VerdictStays(r: Reply, done: seq<Done>, done': seq<Done>, timely: bool)
    requires ReplyOk(r, done, timely) && done <= done'
    ensures ReplyCurrent(r, done') <==> ReplyCurrent(r, done)
  {
    assert done'[..r.ended] == done[..r.ended];
  }

  lemma StepIsCurrentUnlessOld(s: Sys, e: Event)
    requires Inv(s, false) && Enabled(s, e)
    ensures AllCurrent(Next(s, e)) <==> AllCurrent(s) && !RestsOnOld(s, e)
  {
    var t := Next(s, e);
    RecordsGrow(s, e);
    forall i | 0 <= i < |s.replies|
      ensures ReplyCurrent(t.replies[i], t.done) <==> ReplyCurrent(s.replies[i], s.done)
    {
      assert t.replies[i] == s.replies[i];
      VerdictStays(s.replies[i], s.done, t.done, false);
    }
    if e.Answers? {
      AnswerIsCurrentUnlessOld(s, e);
    }
    if AllCurrent(t) {
      forall i | 0 <= i < |s.replies|
        ensures ReplyCurrent(s.replies[i], s.done)
      {
        assert ReplyCurrent(t.replies[i], t.done);
      }
    }
  }

  lemma {:induction false} RunIsCurrentUnlessOld(s: Sys, events: seq<Event>)
    requires Inv(s, false)
    ensures AllCurrent(Run(s, events)) <==> AllCurrent(s) && NeverRestsOnOld(s, events)
    decreases |events|
  {
    if events != [] {
      if Enabled(s, events[0]) {
        StepIsCurrentUnlessOld(s, events[0]);
        StepKeepsInv(s, events[0], false);
        RunIsCurrentUnlessOld(Next(s, events[0]), events[1..]);
      } else {
        RunIsCurrentUnlessOld(s, events[1..]);
      }
    }
  }

  /**
   "Unknown", exactly: over every interleaving, every "unknown" rests on a download that ended
   during its lookup or began less than ten seconds before it, if and only if no lookup that
   joined an ended download ten seconds or more after its start is answered from it.
   */
  lemma UnknownIsCurrentExactly(events: seq<Event>)
    ensures AllCurrent(Run(INITIAL, events)) <==> NeverRestsOnOld(INITIAL, events)
  {
    RunIsCurrentUnlessOld(INITIAL, events);
  }

  /** No answer rests on an old download when no lookup joins a leftover marker too late. */
  lemma TimelyNeverRests(events: seq<Event>)
    requires TimelyRun(INITIAL, events)
    ensures NeverRestsOnOld(INITIAL, events)
  {
    RunKeepsInv(INITIAL, events, true);
    var s := Run(INITIAL, events);
    forall i | 0 <= i < |s.replies|
      ensures ReplyCurrent(s.replies[i], s.done)
    {
      assert ReplyOk(s.replies[i], s.done, true);
    }
    UnknownIsCurrentExactly(events);
  }

  /** So then "unknown" is only said on such a download. */
  lemma UnknownIsFresh(events: seq<Event>, i: nat)
    requires NeverRestsOnOld(INITIAL, events) && i < |Run(INITIAL, events).replies|
    requires Run(INITIAL, events).replies[i].outcome.Unknown?
    ensures var s := Run(INITIAL, events);
            var r := s.replies[i];
            r.ended <= |s.done| && Current(r.lookup, s.done[..r.ended])
  {
    UnknownIsCurrentExactly(events);
    assert ReplyCurrent(Run(INITIAL, events).replies[i], Run(INITIAL, events).done);
  }

  // ----- such answers exist -----

  /** A lookup that joins an ended download, and the marker going. */
  function JoinedInTheGap(s: Sys, id: int, kid: Kid, now: int): Sys
    requires s.starts != []
  {
    Run(s, [Asks(id, kid, now), Clears(|s.starts| - 1)])
  }

  /**
   Whoever asks in the gap for a key that is not there, and is answered at any time before another
   download ends, rests on the old one just when the lookup came too late and is told "unknown".
   */
  lemma GapRestsOnOld(s: Sys, id: int, kid: Kid, now: int, at: int)
    requires Inv(s, false) && s.marked != {} && s.running == {}
    requires id !in s.lookups && !Holds(FreshKeys(s.cache, now), kid)
    ensures var t := JoinedInTheGap(s, id, kid, now);
            && Enabled(t, Answers(id, at)) && t.done == s.done
            && (RestsOnOld(t, Answers(id, at)) <==>
                !TimelyEvent(s, Asks(id, kid, now)) && SecondPart(s.cache, kid, at) == Unknown)
  {
    var n := |s.starts| - 1;
    var events := [Asks(id, kid, now), Clears(n)];
    var a := Next(s, events[0]);
    assert a.marked == {n};
    var b := Next(a, events[1]);
    assert events[1..] == [Clears(n)];
    assert events[1..][1..] == [];
    assert Run(a, events[1..]) == b;
    assert b.lookups[id] == Lookup(kid, now, |s.done|, Some(n));
    assert b.marked == {};
    assert s.done[n].began == s.starts[n];
    FreshIsLive(s.cache, s.done, at);
  }

  /** A run in which the first download brings no key of this name and its marker lingers for five seconds. */
  function LingeringMarker(kid: Kid, other: Kid): seq<Event> {
    [Asks(1, kid, 0), Ends(0, Some(map[other := 7]), 5000), Asks(2, kid, 10_000), Clears(0), Answers(2, 10_000)]
  }

  lemma LingeringMarkerRuns(kid: Kid, other: Kid)
    requires kid != other
    ensures var s := Run(INITIAL, LingeringMarker(kid, other));
            s.done == [Done(0, Some(map[other := 7]), 5000)]
            && s.replies == [Reply(Lookup(kid, 10_000, 1, Some(0)), Unknown, 10_000, 1)]
  {
    var events := LingeringMarker(kid, other);
    var a := Next(INITIAL, events[0]);
    assert a.running == {0} && a.marked == {0};
    var b := Next(a, events[1]);
    assert b.running == {};
    var c := Next(b, events[2]);
    assert c.lookups[2] == Lookup(kid, 10_000, 1, Some(0));
    var d := Next(c, events[3]);
    assert d.marked == {};
    var e := Next(d, events[4]);
    assert Run(d, events[4..]) == e by {
      assert events[4..][1..] == [];
    }
    assert Run(c, events[3..]) == e by {
      assert events[3..][1..] == events[4..];
    }
    assert Run(b, events[2..]) == e by {
      assert events[2..][1..] == events[3..];
    }
    assert Run(a, events[1..]) == e by {
      assert events[1..][1..] == events[2..];
    }
  }

  /** That run says "unknown" on a download that ended before the lookup and began ten seconds before it. */
  lemma OldUnknownIsReached(kid: Kid, other: Kid)
    requires kid != other
    ensures !AllCurrent(Run(INITIAL, LingeringMarker(kid, other)))
    ensures !NeverRestsOnOld(INITIAL, LingeringMarker(kid, other))
  {
    LingeringMarkerRuns(kid, other);
    var s := Run(INITIAL, LingeringMarker(kid, other));
    assert s.done[..1] == s.done;
    assert !ReplyCurrent(s.replies[0], s.done);
    UnknownIsCurrentExactly(LingeringMarker(kid, other));
  }
}
