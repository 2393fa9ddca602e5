/** The fresh-location request once it has subscribed: a location listener
    and a timeout runnable, both run one at a time on the main looper,
    share a one-shot `locationReceived` flag. Whatever order updates and
    the timeout arrive in, the request is answered once. */
module FreshLocation {
  import opened Values
  import opened Platform

  /** What the main looper delivers to the request. */
  datatype Event = Update(location: Fix) | Timeout

  /** An update accurate enough for the requested bound. */
  predicate Qualifies(location: Fix, accuracyMeters: real) {
    location.accuracy <= accuracyMeters
  }

  /** An event that answers the request if nothing has answered it yet. */
  predicate Settles(e: Event, accuracyMeters: real) {
    e.Timeout? || Qualifies(e.location, accuracyMeters)
  }

  /** The answer an event gives when it settles the request. */
  function ReplyTo(e: Event): Reply {
    match e
    case Update(location) => Success(LocationMap(LocationToMap(location)))
    case Timeout => TimeoutReply
  }

  /** The position of the first settling event, if any. */
  function FirstSettling(events: seq<Event>, accuracyMeters: real): (r: Option<nat>)
    ensures r.Some? ==> r.value < |events| && Settles(events[r.value], accuracyMeters)
    ensures r.Some? ==> forall j :: 0 <= j < r.value ==> !Settles(events[j], accuracyMeters)
    ensures r.None? <==> forall j :: 0 <= j < |events| ==> !Settles(events[j], accuracyMeters)
  {
    if events == [] then None
    else if Settles(events[0], accuracyMeters) then Some(0)
    else
      match FirstSettling(events[1..], accuracyMeters)
      case None => None
      case Some(i) => Some(i + 1)
  }

  /** The answers a request sends after the given events: the answer of the
      first settling event, or none. */
  function Replies(events: seq<Event>, accuracyMeters: real): (r: seq<Reply>)
    ensures |r| <= 1
    ensures r == [] <==> forall j :: 0 <= j < |events| ==> !Settles(events[j], accuracyMeters)
  {
    match FirstSettling(events, accuracyMeters)
    case None => []
    case Some(i) => [ReplyTo(events[i])]
  }

  /** Once some event has settled the request, later events change
      nothing. */
  lemma SettledIsFinal(events: seq<Event>, later: seq<Event>, accuracyMeters: real)
    requires Replies(events, accuracyMeters) != []
    ensures Replies(events + later, accuracyMeters) == Replies(events, accuracyMeters)
  {
    var i := FirstSettling(events, accuracyMeters).value;
    var all := events + later;
    assert all[i] == events[i];
    assert forall j :: 0 <= j < i ==> all[j] == events[j];
    var k := FirstSettling(all, accuracyMeters);
    assert k == Some(i);
  }

  /** One more event: it answers the request exactly when nothing answered
      it before and it settles. */
  lemma RepliesAfterEvent(events: seq<Event>, e: Event, accuracyMeters: real)
    ensures Replies(events + [e], accuracyMeters) ==
      if Replies(events, accuracyMeters) != [] then Replies(events, accuracyMeters)
      else if Settles(e, accuracyMeters) then [ReplyTo(e)]
      else []
  {
    var all := events + [e];
    if Replies(events, accuracyMeters) != [] {
      SettledIsFinal(events, [e], accuracyMeters);
    } else {
      assert forall j :: 0 <= j < |events| ==> all[j] == events[j];
      assert all[|events|] == e;
      if Settles(e, accuracyMeters) {
        assert FirstSettling(all, accuracyMeters) == Some(|events|);
      }
    }
  }

  /** Events before the first settling one decide nothing: with no settling
      event among them, the answers are those of the rest. */
  lemma UnsettledPrefixIgnored(before: seq<Event>, rest: seq<Event>, accuracyMeters: real)
    requires Replies(before, accuracyMeters) == []
    ensures Replies(before + rest, accuracyMeters) == Replies(rest, accuracyMeters)
  {
    var all := before + rest;
    assert forall j :: 0 <= j < |rest| ==> all[|before| + j] == rest[j];
    assert forall j :: 0 <= j < |before| ==> all[j] == before[j];
    match FirstSettling(rest, accuracyMeters)
    case None =>
      assert forall j :: 0 <= j < |all| ==> !Settles(all[j], accuracyMeters) by {
        forall j | 0 <= j < |all| ensures !Settles(all[j], accuracyMeters) {
          if j >= |before| {
            assert all[j] == rest[j - |before|];
          }
        }
      }
    case Some(k) =>
      forall j | 0 <= j < |before| + k ensures !Settles(all[j], accuracyMeters) {
        if j >= |before| {
          assert all[j] == rest[j - |before|];
        }
      }
      assert all[|before| + k] == rest[k];
      assert FirstSettling(all, accuracyMeters) == Some(|before| + k);
  }

  /** An update less accurate than the bound is ignored, wherever it
      arrives. */
  lemma InaccurateUpdateIgnored(before: seq<Event>, location: Fix, after: seq<Event>, accuracyMeters: real)
    requires !Qualifies(location, accuracyMeters)
    ensures Replies(before + [Update(location)] + after, accuracyMeters) ==
            Replies(before + after, accuracyMeters)
  {
    assert before + [Update(location)] + after == before + ([Update(location)] + after);
    if Replies(before, accuracyMeters) != [] {
      SettledIsFinal(before, [Update(location)] + after, accuracyMeters);
      SettledIsFinal(before, after, accuracyMeters);
    } else {
      UnsettledPrefixIgnored(before, [Update(location)] + after, accuracyMeters);
      UnsettledPrefixIgnored([Update(location)], after, accuracyMeters);
      UnsettledPrefixIgnored(before, after, accuracyMeters);
    }
  }

  /** The first timeout answers TIMEOUT exactly when no accurate update came
      before it; otherwise the first accurate update before it answers. */
  lemma TimeoutUnlessAccurateUpdateFirst(
    before: seq<Event>, after: seq<Event>, accuracyMeters: real)
    requires Timeout !in before
    ensures Replies(before + [Timeout] + after, accuracyMeters) == [TimeoutReply] <==>
      forall j :: 0 <= j < |before| ==> !Qualifies(before[j].location, accuracyMeters)
    ensures Replies(before + [Timeout] + after, accuracyMeters) ==
      if Replies(before, accuracyMeters) == [] then [TimeoutReply] else Replies(before, accuracyMeters)
  {
    var all := before + [Timeout] + after;
    assert all == (before + [Timeout]) + after;
    RepliesAfterEvent(before, Timeout, accuracyMeters);
    SettledIsFinal(before + [Timeout], after, accuracyMeters);
    if Replies(before, accuracyMeters) != [] {
      var i := FirstSettling(before, accuracyMeters).value;
      assert before[i].Update?;
    }
  }

  /** The accuracies 150, 120, 80, 200 against a bound of 100: the third
      update answers and the fourth is ignored. */
  lemma FirstAccurateUpdateWins(a: Fix, b: Fix, c: Fix, d: Fix)
    requires a.accuracy == 150.0 && b.accuracy == 120.0 && c.accuracy == 80.0 && d.accuracy == 200.0
    ensures Replies([Update(a), Update(b), Update(c), Update(d)], 100.0) ==
      [Success(LocationMap(LocationToMap(c)))]
  {
    var events := [Update(a), Update(b), Update(c), Update(d)];
    assert !Settles(events[0], 100.0) && !Settles(events[1], 100.0);
    assert Settles(events[2], 100.0);
    assert FirstSettling(events, 100.0) == Some(2);
  }

  /** One subscribed fresh-location request. The listener and the timeout
      runnable are its two methods; `subscribed` stands for the listener's
      registration with the location manager and `timeoutPending` for the
      runnable posted to the main looper. `replies` is every answer sent. */
  class Session {
    const provider: Provider
    const timeoutMs: int
    const accuracyMeters: real
    var locationReceived: bool
    var subscribed: bool
    var timeoutPending: bool
    var replies: seq<Reply>
    /** The events delivered so far. */
    ghost var history: seq<Event>

    /** The fields are what the delivered events make of them: the answers
        of the first settling event, the flag set once answered, the
        listener registered until then, the runnable pending until it has
        run. */
    ghost predicate Valid()
      reads this
    {
      && replies == Replies(history, accuracyMeters)
      && locationReceived == (replies != [])
      && subscribed == !locationReceived
      && timeoutPending == (Timeout !in history)
    }

    /** Register the listener with the provider and post the timeout. */
    constructor (provider: Provider, timeoutMs: int, accuracyMeters: real)
      ensures Valid() && history == []
      ensures this.provider == provider && this.timeoutMs == timeoutMs
      ensures this.accuracyMeters == accuracyMeters
      ensures subscribed && timeoutPending && !locationReceived && replies == []
    {
      this.provider := provider;
      this.timeoutMs := timeoutMs;
      this.accuracyMeters := accuracyMeters;
      locationReceived := false;
      subscribed := true;
      timeoutPending := true;
      replies := [];
      history := [];
    }

    /** The listener: the first update within the bound answers with its
        map and unregisters the listener; any other update does nothing. */
    method OnLocationChanged(location: Fix)
      requires Valid()
      modifies this
      ensures Valid() && history == old(history) + [Update(location)]
      ensures timeoutPending == old(timeoutPending)
      ensures if !old(locationReceived) && Qualifies(location, accuracyMeters)
              then replies == [Success(LocationMap(LocationToMap(location)))] && !subscribed
              else replies == old(replies) && subscribed == old(subscribed)
    {
      RepliesAfterEvent(history, Update(location), accuracyMeters);
      if !locationReceived && location.accuracy <= accuracyMeters {
        locationReceived := true;
        subscribed := false;
        replies := replies + [Success(LocationMap(LocationToMap(location)))];
      }
      history := history + [Update(location)];
    }

    /** The timeout runnable: unless already answered, it answers TIMEOUT
        and unregisters the listener. */
    method OnTimeout()
      requires Valid()
      modifies this
      ensures Valid() && history == old(history) + [Timeout]
      ensures !timeoutPending && locationReceived && !subscribed
      ensures replies == if old(locationReceived) then old(replies) else [TimeoutReply]
    {
      RepliesAfterEvent(history, Timeout, accuracyMeters);
      timeoutPending := false;
      if !locationReceived {
        locationReceived := true;
        subscribed := false;
        replies := replies + [TimeoutReply];
      }
      history := history + [Timeout];
    }

    /** Run a sequence of looper events, one at a time. */
    method Deliver(events: seq<Event>)
      requires Valid()
      modifies this
      ensures Valid() && history == old(history) + events
      ensures replies == Replies(old(history) + events, accuracyMeters)
      ensures |replies| <= 1
    {
      for i := 0 to |events|
        invariant Valid() && history == old(history) + events[..i]
      {
        assert events[..i + 1] == events[..i] + [events[i]];
        match events[i]
        case Update(location) => OnLocationChanged(location);
        case Timeout => OnTimeout();
      }
      assert events[..|events|] == events;
    }
  }

  /** A new request fed any sequence of events answers at most once, with
      the answer of the first settling event; the listener stays registered
      exactly while it has not answered. */
  method RunSession(provider: Provider, timeoutMs: int, accuracyMeters: real, events: seq<Event>)
    returns (replies: seq<Reply>, subscribed: bool)
    ensures replies == Replies(events, accuracyMeters)
    ensures |replies| <= 1
    ensures subscribed <==> replies == []
  {
    var session := new Session(provider, timeoutMs, accuracyMeters);
    assert [] + events == events;
    session.Deliver(events);
    replies, subscribed := session.replies, session.subscribed;
  }
}
