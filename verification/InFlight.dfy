// Sharing of remote requests (jb/client.go, LoadRemoteRawtx): callers that ask for a url while
// it is being fetched wait for the fetch already under way.  Any number of callers run at once;
// a section under the mutex, and every access to a flight or its wait group, is one step.
module InFlights {
  import opened Common

  type Url = string
  type Bytes = seq<int>
  type Caller = nat

  // What a fetch brings: the bytes, or an error and no bytes.
  datatype Answer = Answer(bytes: Bytes, failed: bool)

  // A caller leads its own flight or follows another caller's.
  datatype Pc =
    | Fetching(f: nat)
    | Answered(f: nat, got: Answer)
    | Published(f: nat, got: Answer)
    | Completed(f: nat, got: Answer)
    | Led(f: nat, got: Answer)
    | Waiting(f: nat)
    | Woken(f: nat)
    | Followed(f: nat, bytes: Bytes)

  // `dones` counts the calls of Wg.Done; the wait group was raised by one.
  datatype Flight = Flight(url: Url, leader: Caller, result: Option<Bytes>, dones: nat)

  datatype State = State(flights: seq<Flight>, current: map<Url, nat>, callers: map<Caller, Pc>)

  datatype Event =
    | Enter(c: Caller, url: Url)
    | Fetch(c: Caller, got: Answer)
    | Publish(c: Caller)
    | Complete(c: Caller)
    | Remove(c: Caller)
    | Wake(c: Caller)
    | Read(c: Caller)

  const START := State([], map[], map[])

  predicate Enabled(s: State, e: Event) {
    match e
    case Enter(c, _) => c !in s.callers
    case Fetch(c, got) => c in s.callers && s.callers[c].Fetching? && (got.failed ==> got.bytes == [])
    case Publish(c) => c in s.callers && s.callers[c].Answered?
    case Complete(c) => c in s.callers && s.callers[c].Published?
    case Remove(c) => c in s.callers && s.callers[c].Completed?
    case Wake(c) =>
      && c in s.callers && s.callers[c].Waiting?
      && s.callers[c].f < |s.flights| && s.flights[s.callers[c].f].dones > 0
    case Read(c) => c in s.callers && s.callers[c].Woken?
  }

  function SetFlight(s: State, f: nat, flight: Flight): State {
    if f < |s.flights| then s.(flights := s.flights[f := flight]) else s
  }

  function At(s: State, c: Caller, pc: Pc): State {
    s.(callers := s.callers[c := pc])
  }

  // An unpublished result reads as no bytes.
  function Bytes0(r: Option<Bytes>): Bytes {
    if r.Some? then r.value else []
  }

  function UrlOf(s: State, f: nat): Url {
    if f < |s.flights| then s.flights[f].url else ""
  }

  function Next(s: State, e: Event): State
    requires Enabled(s, e)
  {
    match e
    case Enter(c, url) =>
      if url in s.current then At(s, c, Waiting(s.current[url]))
      else
        var f := |s.flights|;
        At(s.(flights := s.flights + [Flight(url, c, None, 0)], current := s.current[url := f]), c, Fetching(f))
    case Fetch(c, got) => At(s, c, Answered(s.callers[c].f, got))
    case Publish(c) =>
      var f, got := s.callers[c].f, s.callers[c].got;
      At(if f < |s.flights| then SetFlight(s, f, s.flights[f].(result := Some(got.bytes))) else s, c, Published(f, got))
    case Complete(c) =>
      var f, got := s.callers[c].f, s.callers[c].got;
      At(if f < |s.flights| then SetFlight(s, f, s.flights[f].(dones := s.flights[f].dones + 1)) else s,
         c, Completed(f, got))
    case Remove(c) =>
      var f, got := s.callers[c].f, s.callers[c].got;
      At(s.(current := s.current - {UrlOf(s, f)}), c, Led(f, got))
    case Wake(c) => At(s, c, Woken(s.callers[c].f))
    case Read(c) =>
      var f := s.callers[c].f;
      At(s, c, Followed(f, if f < |s.flights| then Bytes0(s.flights[f].result) else []))
  }

  predicate Possible(es: seq<Event>)
    decreases |es|, 0
  {
    es == [] || (Possible(es[..|es| - 1]) && Enabled(After(es[..|es| - 1]), es[|es| - 1]))
  }

  function After(es: seq<Event>): State
    requires Possible(es)
    decreases |es|, 1
  {
    if es == [] then START else Next(After(es[..|es| - 1]), es[|es| - 1])
  }

  /** What holds at every moment */

  predicate Leads(pc: Pc) {
    pc.Fetching? || pc.Answered? || pc.Published? || pc.Completed?
  }

  predicate Following(pc: Pc) {
    pc.Waiting? || pc.Woken? || pc.Followed?
  }

  // A flight, its leader's place and the result go together.
  predicate FlightFits(s: State, f: nat)
    requires f < |s.flights|
  {
    var flight := s.flights[f];
    && flight.leader in s.callers
    && var pc := s.callers[flight.leader];
       && !Following(pc) && pc.f == f
       && flight.dones == (if pc.Completed? || pc.Led? then 1 else 0)
       && flight.result == (if pc.Fetching? || pc.Answered? then None else Some(pc.got.bytes))
       && (pc.Led? ==> flight.url !in s.current || s.current[flight.url] != f)
       && (!pc.Led? ==> flight.url in s.current && s.current[flight.url] == f)
  }

  predicate CallerFits(s: State, c: Caller)
    requires c in s.callers
  {
    var pc := s.callers[c];
    && pc.f < |s.flights|
    && (!Following(pc) ==> s.flights[pc.f].leader == c)
    && (pc.Woken? || pc.Followed? ==> s.flights[pc.f].dones == 1)
    && (pc.Followed? ==> s.flights[pc.f].result == Some(pc.bytes))
    && ((pc.Answered? || pc.Published? || pc.Completed? || pc.Led?) && pc.got.failed ==> pc.got.bytes == [])
  }

  ghost predicate Inv(s: State) {
    && (forall f: nat :: f < |s.flights| ==> FlightFits(s, f))
    && (forall c :: c in s.callers ==> CallerFits(s, c))
    && (forall url :: url in s.current ==> s.current[url] < |s.flights| && s.flights[s.current[url]].url == url)
  }

  lemma {:induction false} NextKeepsFlights(s: State, e: Event, f: nat)
    requires Inv(s) && Enabled(s, e) && f < |Next(s, e).flights|
    ensures FlightFits(Next(s, e), f)
  {
    if !e.Enter? {
      assert CallerFits(s, e.c);
      assert FlightFits(s, s.callers[e.c].f);
    }
    if f < |s.flights| {
      assert FlightFits(s, f);
    }
  }

  lemma {:induction false} NextKeepsCallers(s: State, e: Event, c: Caller)
    requires Inv(s) && Enabled(s, e) && c in Next(s, e).callers
    ensures CallerFits(Next(s, e), c)
  {
    if c in s.callers {
      assert CallerFits(s, c);
      assert FlightFits(s, s.callers[c].f);
    }
    if !e.Enter? {
      assert CallerFits(s, e.c);
      assert FlightFits(s, s.callers[e.c].f);
    }
  }

  lemma {:induction false} NextKeepsInv(s: State, e: Event)
    requires Inv(s) && Enabled(s, e)
    ensures Inv(Next(s, e))
  {
    forall f: nat | f < |Next(s, e).flights|
      ensures FlightFits(Next(s, e), f)
    {
      NextKeepsFlights(s, e, f);
    }
    forall c | c in Next(s, e).callers
      ensures CallerFits(Next(s, e), c)
    {
      NextKeepsCallers(s, e, c);
    }
  }

  lemma {:induction false} RunsKeepInv(es: seq<Event>)
    requires Possible(es)
    ensures Inv(After(es))
  {
    if es != [] {
      RunsKeepInv(es[..|es| - 1]);
      NextKeepsInv(After(es[..|es| - 1]), es[|es| - 1]);
    }
  }

  // Between inserting and deleting its entry, a leader is the only one for its url.
  lemma {:induction false} OneLeaderPerUrl(es: seq<Event>, a: Caller, b: Caller)
    requires Possible(es) && a in After(es).callers && b in After(es).callers
    requires Leads(After(es).callers[a]) && Leads(After(es).callers[b])
    requires UrlOf(After(es), After(es).callers[a].f) == UrlOf(After(es), After(es).callers[b].f)
    ensures a == b
  {
    RunsKeepInv(es);
    var s := After(es);
    assert CallerFits(s, a) && CallerFits(s, b);
    assert FlightFits(s, s.callers[a].f) && FlightFits(s, s.callers[b].f);
  }

  // A leader that deletes takes out its own flight and no other.
  lemma {:induction false} LeadersDeleteTheirOwn(es: seq<Event>, c: Caller)
    requires Possible(es) && Enabled(After(es), Remove(c))
    ensures var s := After(es);
            var url := UrlOf(s, s.callers[c].f);
            && url in s.current && s.current[url] == s.callers[c].f
            && Next(s, Remove(c)).current == s.current - {url}
  {
    RunsKeepInv(es);
    assert CallerFits(After(es), c);
    assert FlightFits(After(es), After(es).callers[c].f);
  }

  lemma {:induction false} UrlsStay(s: State, e: Event, c: Caller)
    requires Enabled(s, e) && c in s.callers && s.callers[c].f < |s.flights|
    ensures var s' := Next(s, e);
            && c in s'.callers && s'.callers[c].f == s.callers[c].f < |s'.flights|
            && s'.flights[s.callers[c].f].url == s.flights[s.callers[c].f].url
  {
  }

  // Whoever asked for a url is, from then on, with a flight of that url.
  lemma {:induction false} JoinsItsUrl(es: seq<Event>, i: nat, c: Caller, url: Url)
    requires Possible(es) && i < |es| && es[i] == Enter(c, url)
    ensures var s := After(es); c in s.callers && s.callers[c].f < |s.flights| && s.flights[s.callers[c].f].url == url
  {
    var n := |es| - 1;
    RunsKeepInv(es[..n]);
    if i < n {
      JoinsItsUrl(es[..n], i, c, url);
      UrlsStay(After(es[..n]), es[n], c);
    }
  }

  // Every flight is completed once, and never before its result is in place.
  lemma {:induction false} CompletedOnce(es: seq<Event>, f: nat)
    requires Possible(es) && f < |After(es).flights|
    ensures var s := After(es);
            var flight := s.flights[f];
            && flight.dones <= 1 && (flight.dones == 1 ==> flight.result.Some?)
            && flight.leader in s.callers && (s.callers[flight.leader].Led? ==> flight.dones == 1)
  {
    RunsKeepInv(es);
    assert FlightFits(After(es), f);
  }

  // Whoever followed a flight, joining it at any time before its entry is gone, returns the
  // bytes its leader returns; an error of the fetch reaches the leader only.
  lemma {:induction false} FollowersGetTheBytes(es: seq<Event>, c: Caller)
    requires Possible(es) && c in After(es).callers && After(es).callers[c].Followed?
    ensures var s := After(es);
            var pc := s.callers[c];
            && pc.f < |s.flights|
            && var leader := s.flights[pc.f].leader;
               && leader in s.callers && (s.callers[leader].Completed? || s.callers[leader].Led?)
               && s.callers[leader].f == pc.f && s.callers[leader].got.bytes == pc.bytes
               && (s.callers[leader].got.failed ==> pc.bytes == [])
  {
    RunsKeepInv(es);
    var s := After(es);
    assert CallerFits(s, c);
    assert FlightFits(s, s.callers[c].f);
    assert CallerFits(s, s.flights[s.callers[c].f].leader);
  }

  // A published result stays what it is, and flights are never forgotten.
  lemma {:induction false} ResultsStay(es: seq<Event>, more: seq<Event>, f: nat)
    requires Possible(es + more) && Possible(es) && f < |After(es).flights|
    ensures f < |After(es + more).flights|
    ensures After(es).flights[f].result.Some? ==> After(es + more).flights[f].result == After(es).flights[f].result
    decreases |more|
  {
    if more == [] {
      assert es + more == es;
    } else {
      var n := |more| - 1;
      assert (es + more)[..|es + more| - 1] == es + more[..n];
      ResultsStay(es, more[..n], f);
      var s, e := After(es + more[..n]), more[n];
      RunsKeepInv(es + more[..n]);
      assert FlightFits(s, f);
      if !e.Enter? {
        assert CallerFits(s, e.c);
      }
    }
  }

  // How many of its own steps a leader is from completing its flight.
  function StepsLeft(pc: Pc): nat {
    match pc
    case Fetching(_) => 3
    case Answered(_, _) => 2
    case Published(_, _) => 1
    case _ => 0
  }

  function LeaderStep(s: State, c: Caller, got: Answer): Event
    requires c in s.callers
  {
    match s.callers[c]
    case Answered(_, _) => Publish(c)
    case Published(_, _) => Complete(c)
    case _ => Fetch(c, got)
  }

  // A follower that waits is never stuck: it can wake up, or its leader has a step to take
  // (whatever the fetch brings) that brings it nearer to completing the flight.
  lemma {:induction false} WaitersAreServed(es: seq<Event>, c: Caller, got: Answer)
    requires Possible(es) && c in After(es).callers && After(es).callers[c].Waiting? && (got.failed ==> got.bytes == [])
    ensures var s := After(es);
            && s.callers[c].f < |s.flights|
            && var leader := s.flights[s.callers[c].f].leader;
               && leader in s.callers
               && (Enabled(s, Wake(c)) ||
                     (Enabled(s, LeaderStep(s, leader, got)) &&
                      StepsLeft(Next(s, LeaderStep(s, leader, got)).callers[leader]) < StepsLeft(s.callers[leader])))
  {
    RunsKeepInv(es);
    assert CallerFits(After(es), c);
    assert FlightFits(After(es), After(es).callers[c].f);
  }

  /** Served by the leader's steps, whatever the others do */

  function StepsOf(es: seq<Event>, c: Caller): nat {
    if es == [] then 0 else StepsOf(es[..|es| - 1], c) + (if es[|es| - 1].c == c then 1 else 0)
  }

  // Nobody else's step moves a caller.
  lemma {:induction false} OthersDoNotDelay(s: State, e: Event, c: Caller)
    requires Enabled(s, e) && c in s.callers && e.c != c
    ensures c in Next(s, e).callers && Next(s, e).callers[c] == s.callers[c]
  {
  }

  lemma {:induction false} SplitLast(es: seq<Event>, more: seq<Event>)
    requires more != [] && Possible(es + more)
    ensures var init, e := es + more[..|more| - 1], more[|more| - 1];
            && Possible(init) && Enabled(After(init), e) && After(es + more) == Next(After(init), e)
  {
    assert (es + more)[..|es + more| - 1] == es + more[..|more| - 1];
  }

  // A leader stays with its flight, and each of its steps brings it one nearer to completing it.
  lemma {:induction false} LeaderAdvances(es: seq<Event>, more: seq<Event>, c: Caller)
    requires Possible(es) && Possible(es + more) && c in After(es).callers && !Following(After(es).callers[c])
    ensures var s := After(es + more);
            && c in s.callers && !Following(s.callers[c]) && s.callers[c].f == After(es).callers[c].f
            && (StepsLeft(s.callers[c]) == 0 ||
                  StepsLeft(s.callers[c]) + StepsOf(more, c) == StepsLeft(After(es).callers[c]))
  {
    if more == [] {
      assert es + more == es;
    } else {
      SplitLast(es, more);
      var n := |more| - 1;
      LeaderAdvances(es, more[..n], c);
      if more[n].c != c {
        OthersDoNotDelay(After(es + more[..n]), more[n], c);
      }
    }
  }

  lemma {:induction false} FollowerStays(es: seq<Event>, more: seq<Event>, c: Caller)
    requires Possible(es) && Possible(es + more) && c in After(es).callers && Following(After(es).callers[c])
    ensures var s := After(es + more);
            c in s.callers && Following(s.callers[c]) && s.callers[c].f == After(es).callers[c].f
  {
    if more == [] {
      assert es + more == es;
    } else {
      SplitLast(es, more);
      var n := |more| - 1;
      FollowerStays(es, more[..n], c);
      if more[n].c != c {
        OthersDoNotDelay(After(es + more[..n]), more[n], c);
      }
    }
  }

  lemma {:induction false} FlightKeepsLeader(es: seq<Event>, more: seq<Event>, f: nat)
    requires Possible(es) && Possible(es + more) && f < |After(es).flights|
    ensures var s := After(es + more); f < |s.flights| && s.flights[f].leader == After(es).flights[f].leader
  {
    if more == [] {
      assert es + more == es;
    } else {
      SplitLast(es, more);
      FlightKeepsLeader(es, more[..|more| - 1], f);
    }
  }

  // The caller that leads the flight c is in.
  function LeaderOf(s: State, c: Caller): Caller
    requires c in s.callers
  {
    if s.callers[c].f < |s.flights| then s.flights[s.callers[c].f].leader else c
  }

  // Once its leader has taken the steps it had left, at most three, a waiting follower can wake
  // up, or has done so, whatever all the others did in between.
  lemma {:induction false} LeadersServeWaiters(es: seq<Event>, more: seq<Event>, c: Caller)
    requires Possible(es) && Possible(es + more) && c in After(es).callers && After(es).callers[c].Waiting?
    requires var s := After(es);
             LeaderOf(s, c) in s.callers ==> StepsOf(more, LeaderOf(s, c)) >= StepsLeft(s.callers[LeaderOf(s, c)])
    ensures var s := After(es + more);
            && c in s.callers && Following(s.callers[c])
            && (s.callers[c].Waiting? ==> Enabled(s, Wake(c)))
  {
    RunsKeepInv(es);
    RunsKeepInv(es + more);
    var f := After(es).callers[c].f;
    assert CallerFits(After(es), c);
    assert FlightFits(After(es), f);
    FollowerStays(es, more, c);
    FlightKeepsLeader(es, more, f);
    LeaderAdvances(es, more, After(es).flights[f].leader);
    assert FlightFits(After(es + more), f);
  }
}
