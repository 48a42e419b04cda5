// Spend reservation (broadcast/broadcast.go): any number of broadcasts run at once
// against one table of spends, each call to the store being one atomic step.
module Broadcasting {

  import opened Common

  type Txid = nat

  // Where a broadcast stands.  Reserving(|inputs|) is the end of the reservation loop.
  // Failed(n, cleared) failed after reserving its first n inputs; `cleared` tells whether
  // the store calls of the rollback went through.
  datatype Pc =
    | Reserving(vin: nat)
    | Checking(vin: nat)
    | Sent
    | Succeeded
    | Reading(n: nat)
    | Deleting(n: nat, deletes: set<Outpoint>)
    | Delogging(n: nat)
    | Failed(n: nat, cleared: bool)

  // `held` records what the transaction already owned when its broadcast began.
  datatype Proc = Proc(inputs: seq<Outpoint>, pc: Pc, held: set<Outpoint>)

  datatype Mark = Attempted | Announced

  datatype State = State(spends: map<Outpoint, Txid>, log: map<Txid, Mark>, procs: map<Txid, Proc>)

  datatype Event =
    | Start(t: Txid, inputs: seq<Outpoint>)
    | Reserve(t: Txid)
    | ReserveError(t: Txid)
    | Check(t: Txid)
    | CheckError(t: Txid)
    | CallArc(t: Txid)
    | ArcAccepts(t: Txid)
    | ArcRejects(t: Txid)
    | Read(t: Txid, rows: seq<Outpoint>)
    | ReadError(t: Txid)
    | Delete(t: Txid)
    | DeleteError(t: Txid)
    | Delog(t: Txid)
    | DelogError(t: Txid)
    | Observe(o: Outpoint, t: Txid)

  function Owned(s: State, t: Txid): set<Outpoint> {
    set o | o in s.spends && s.spends[o] == t
  }

  // rollbackSpends over the first n inputs; with none it returns at once.
  function BeginRollback(n: nat): Pc {
    if n == 0 then Failed(0, true) else Reading(n)
  }

  function At(s: State, t: Txid, pc: Pc): State
    requires t in s.procs
  {
    s.(procs := s.procs[t := s.procs[t].(pc := pc)])
  }

  // What GetSpends may be answering for: in order on Redis; on Postgres every row once, in any order.
  ghost predicate RowsFor(spends: map<Outpoint, Txid>, asked: seq<Outpoint>, rows: seq<Outpoint>) {
    || rows == asked
    || (Distinct(rows) && Elems(rows) == Elems(asked) * spends.Keys)
  }

  function Lookup(spends: map<Outpoint, Txid>, o: Outpoint, t: Txid): bool {
    o in spends && spends[o] == t
  }

  // The code pairs the i-th answer with the i-th input.
  function ToDelete(spends: map<Outpoint, Txid>, asked: seq<Outpoint>, rows: seq<Outpoint>, t: Txid): set<Outpoint> {
    set i | 0 <= i < |rows| && i < |asked| && Lookup(spends, rows[i], t) :: asked[i]
  }

  predicate Terminal(pc: Pc) {
    pc.Succeeded? || pc.Failed?
  }

  ghost predicate Next(s: State, e: Event, s': State) {
    match e
    case Start(t, inputs) =>
      && (t in s.procs ==> Terminal(s.procs[t].pc))
      && Distinct(inputs)
      && s' == s.(procs := s.procs[t := Proc(inputs, Reserving(0), Owned(s, t))], log := s.log[t := Attempted])
    case Reserve(t) =>
      && t in s.procs && s.procs[t].pc.Reserving? && s.procs[t].pc.vin < |s.procs[t].inputs|
      && var vin := s.procs[t].pc.vin;
         var o := s.procs[t].inputs[vin];
         s' == if o in s.spends then At(s, t, Checking(vin))
               else At(s.(spends := s.spends[o := t]), t, Reserving(vin + 1))
    case ReserveError(t) =>
      && t in s.procs && s.procs[t].pc.Reserving? && s.procs[t].pc.vin < |s.procs[t].inputs|
      && s' == At(s, t, BeginRollback(s.procs[t].pc.vin))
    case Check(t) =>
      && t in s.procs && s.procs[t].pc.Checking? && s.procs[t].pc.vin < |s.procs[t].inputs|
      && var vin := s.procs[t].pc.vin;
         s' == At(s, t, if Lookup(s.spends, s.procs[t].inputs[vin], t) then Reserving(vin + 1) else BeginRollback(vin))
    case CheckError(t) =>
      && t in s.procs && s.procs[t].pc.Checking?
      && s' == At(s, t, BeginRollback(s.procs[t].pc.vin))
    case CallArc(t) =>
      && t in s.procs && s.procs[t].pc == Reserving(|s.procs[t].inputs|)
      && s' == At(s, t, Sent)
    case ArcAccepts(t) =>
      && t in s.procs && s.procs[t].pc.Sent?
      && s' == At(s.(log := s.log[t := Announced]), t, Succeeded)
    case ArcRejects(t) =>
      && t in s.procs && s.procs[t].pc.Sent?
      && s' == At(s, t, BeginRollback(|s.procs[t].inputs|))
    case Read(t, rows) =>
      && t in s.procs && s.procs[t].pc.Reading? && s.procs[t].pc.n <= |s.procs[t].inputs|
      && var n := s.procs[t].pc.n;
         var asked := s.procs[t].inputs[..n];
         var deletes := ToDelete(s.spends, asked, rows, t);
         && RowsFor(s.spends, asked, rows)
         && s' == At(s, t, if deletes == {} then Delogging(n) else Deleting(n, deletes))
    case ReadError(t) =>
      && t in s.procs && s.procs[t].pc.Reading?
      && s' == At(s, t, Failed(s.procs[t].pc.n, false))
    case Delete(t) =>
      && t in s.procs && s.procs[t].pc.Deleting?
      && s' == At(s.(spends := s.spends - s.procs[t].pc.deletes), t, Delogging(s.procs[t].pc.n))
    case DeleteError(t) =>
      && t in s.procs && s.procs[t].pc.Deleting?
      && s' == At(s, t, Failed(s.procs[t].pc.n, false))
    case Delog(t) =>
      && t in s.procs && s.procs[t].pc.Delogging?
      && s' == At(s.(log := s.log - {t}), t, Failed(s.procs[t].pc.n, true))
    case DelogError(t) =>
      && t in s.procs && s.procs[t].pc.Delogging?
      && s' == At(s, t, Failed(s.procs[t].pc.n, true))
    case Observe(o, t) =>
      && t !in s.procs && o !in s.spends
      && s' == s.(spends := s.spends[o := t])
  }

  ghost predicate Initial(s: State) {
    s.procs == map[]
  }

  ghost predicate Execution(states: seq<State>, events: seq<Event>) {
    && |states| == |events| + 1
    && Initial(states[0])
    && forall i: nat :: i < |events| ==> StepAt(states, events, i)
  }

  ghost predicate StepAt(states: seq<State>, events: seq<Event>, i: nat)
    requires i < |events| && |states| == |events| + 1
  {
    Next(states[i], events[i], states[i + 1])
  }

  /** The invariant: exactly what each broadcast owns at each point */

  ghost predicate ProcInv(s: State, t: Txid, p: Proc) {
    && Distinct(p.inputs)
    && match p.pc
       case Reserving(vin) => vin <= |p.inputs| && Owned(s, t) == p.held + Elems(p.inputs[..vin])
       case Checking(vin) => vin < |p.inputs| && Owned(s, t) == p.held + Elems(p.inputs[..vin])
       case Sent => Owned(s, t) == p.held + Elems(p.inputs)
       case Succeeded => Owned(s, t) == p.held + Elems(p.inputs)
       case Reading(n) => 0 < n <= |p.inputs| && Owned(s, t) == p.held + Elems(p.inputs[..n])
       case Deleting(n, deletes) =>
         0 < n <= |p.inputs| && Owned(s, t) == p.held + Elems(p.inputs[..n]) && deletes == Elems(p.inputs[..n])
       case Delogging(n) => 0 < n <= |p.inputs| && Owned(s, t) == p.held - Elems(p.inputs[..n])
       case Failed(n, cleared) =>
         && n <= |p.inputs| && (!cleared ==> n > 0)
         && Owned(s, t) == if cleared then p.held - Elems(p.inputs[..n]) else p.held + Elems(p.inputs[..n])
  }

  ghost predicate Inv(s: State) {
    forall t :: t in s.procs ==> ProcInv(s, t, s.procs[t])
  }

  // The broadcast whose step it is.
  function Actor(e: Event): Txid { e.t }

  // Nobody's step touches what somebody else owns.
  lemma {:induction false} OthersKeepTheirs(s: State, e: Event, s': State, u: Txid)
    requires Inv(s) && Next(s, e, s') && u != Actor(e)
    ensures Owned(s', u) == Owned(s, u)
    ensures u in s.procs <==> u in s'.procs
    ensures u in s.procs ==> s'.procs[u] == s.procs[u]
  {
    if e.Delete? {
      assert ProcInv(s, e.t, s.procs[e.t]);
      assert s.procs[e.t].pc.deletes <= Owned(s, e.t);
    }
  }

  lemma {:induction false} PrefixGrows(s: seq<Outpoint>, i: nat)
    requires i < |s|
    ensures Elems(s[..i + 1]) == Elems(s[..i]) + {s[i]}
  {
    assert s[..i + 1] == s[..i] + [s[i]];
  }

  lemma {:induction false} ElemsCount(s: seq<Outpoint>)
    requires Distinct(s)
    ensures |Elems(s)| == |s|
  {
    if s != [] {
      var n := |s| - 1;
      ElemsCount(s[..n]);
      PrefixGrows(s, n);
      assert s[..n + 1] == s;
    }
  }

  // Answers for owned outpoints only, as many as were asked for, mark every one of them.
  lemma {:induction false} AllAskedAreDeleted(s: State, t: Txid, asked: seq<Outpoint>, rows: seq<Outpoint>)
    requires Distinct(asked) && Elems(asked) <= Owned(s, t) && RowsFor(s.spends, asked, rows)
    ensures ToDelete(s.spends, asked, rows, t) == Elems(asked)
  {
    RowsAreAsked(s, t, asked, rows);
    var deletes := ToDelete(s.spends, asked, rows, t);
    forall o | o in Elems(asked)
      ensures o in deletes
    {
      var i :| 0 <= i < |asked| && asked[i] == o;
      assert Lookup(s.spends, rows[i], t);
    }
  }

  lemma {:induction false} RowsAreAsked(s: State, t: Txid, asked: seq<Outpoint>, rows: seq<Outpoint>)
    requires Distinct(asked) && Elems(asked) <= Owned(s, t) && RowsFor(s.spends, asked, rows)
    ensures |rows| == |asked|
    ensures forall i :: 0 <= i < |rows| ==> Lookup(s.spends, rows[i], t)
  {
    assert Elems(asked) <= s.spends.Keys;
    assert Elems(rows) == Elems(asked);
    if rows != asked {
      ElemsCount(asked);
      ElemsCount(rows);
    }
    forall i | 0 <= i < |rows|
      ensures Lookup(s.spends, rows[i], t)
    {
      assert rows[i] in Elems(rows);
    }
  }

  lemma {:induction false} ReservingKeepsInv(s: State, e: Event, s': State)
    requires Inv(s) && Next(s, e, s') && Actor(e) in s.procs
    requires e.Reserve? || e.ReserveError? || e.Check? || e.CheckError?
    ensures ProcInv(s', Actor(e), s'.procs[Actor(e)])
  {
    var t := e.t;
    var p := s.procs[t];
    assert ProcInv(s, t, p);
    PrefixGrows(p.inputs, p.pc.vin);
    assert p.inputs[..0] == [];
    if e.Reserve? && p.inputs[p.pc.vin] !in s.spends {
      assert Owned(s', t) == Owned(s, t) + {p.inputs[p.pc.vin]};
    } else {
      assert Owned(s', t) == Owned(s, t);
    }
  }

  lemma {:induction false} RollingBackKeepsInv(s: State, e: Event, s': State)
    requires Inv(s) && Next(s, e, s') && Actor(e) in s.procs
    requires e.Read? || e.ReadError? || e.Delete? || e.DeleteError? || e.Delog? || e.DelogError?
    ensures ProcInv(s', Actor(e), s'.procs[Actor(e)])
  {
    var t := e.t;
    var p := s.procs[t];
    assert ProcInv(s, t, p);
    if e.Read? {
      var asked := p.inputs[..p.pc.n];
      AllAskedAreDeleted(s, t, asked, e.rows);
      assert asked[0] in Elems(asked);
      assert Owned(s', t) == Owned(s, t);
    } else if e.Delete? {
      assert Owned(s', t) == Owned(s, t) - p.pc.deletes;
    } else {
      assert Owned(s', t) == Owned(s, t);
    }
  }

  lemma {:induction false} ActorKeepsInv(s: State, e: Event, s': State)
    requires Inv(s) && Next(s, e, s') && Actor(e) in s'.procs
    ensures ProcInv(s', Actor(e), s'.procs[Actor(e)])
  {
    if e.Start? {
      assert e.inputs[..0] == [];
    } else if e.Reserve? || e.ReserveError? || e.Check? || e.CheckError? {
      ReservingKeepsInv(s, e, s');
    } else if e.CallArc? || e.ArcAccepts? || e.ArcRejects? {
      var p := s.procs[e.t];
      assert ProcInv(s, e.t, p);
      assert p.inputs[..|p.inputs|] == p.inputs;
      assert Owned(s', e.t) == Owned(s, e.t);
    } else if e.Observe? {
      assert false;
    } else {
      RollingBackKeepsInv(s, e, s');
    }
  }

  lemma {:induction false} NextKeepsInv(s: State, e: Event, s': State)
    requires Inv(s) && Next(s, e, s')
    ensures Inv(s')
  {
    forall u | u in s'.procs
      ensures ProcInv(s', u, s'.procs[u])
    {
      if u == Actor(e) {
        ActorKeepsInv(s, e, s');
      } else {
        OthersKeepTheirs(s, e, s', u);
        assert ProcInv(s, u, s.procs[u]);
      }
    }
  }

  lemma {:induction false} ExecutionKeepsInv(states: seq<State>, events: seq<Event>, i: nat)
    requires Execution(states, events) && i < |states|
    ensures Inv(states[i])
  {
    if i > 0 {
      ExecutionKeepsInv(states, events, i - 1);
      assert StepAt(states, events, i - 1);
      NextKeepsInv(states[i - 1], events[i - 1], states[i]);
    }
  }

  /** What follows for every execution */

  predicate Reserved(p: Proc) {
    p.pc == Reserving(|p.inputs|) || p.pc.Sent? || p.pc.Succeeded?
  }

  // Past its reservation loop and not rolled back, a broadcast owns all its inputs.
  lemma {:induction false} ReservedOwnsInputs(states: seq<State>, events: seq<Event>, i: nat, t: Txid)
    requires Execution(states, events) && i < |states|
    requires t in states[i].procs && Reserved(states[i].procs[t])
    ensures forall o :: o in states[i].procs[t].inputs ==> Lookup(states[i].spends, o, t)
  {
    ExecutionKeepsInv(states, events, i);
    var p := states[i].procs[t];
    assert ProcInv(states[i], t, p);
    assert p.inputs[..|p.inputs|] == p.inputs;
    forall o | o in p.inputs
      ensures Lookup(states[i].spends, o, t)
    {
      assert o in Elems(p.inputs);
    }
  }

  // No two broadcasts sharing an input are ever both past their loops.
  lemma {:induction false} ReservationsExclude(states: seq<State>, events: seq<Event>, i: nat, t: Txid, u: Txid,
                                               o: Outpoint)
    requires Execution(states, events) && i < |states| && t != u
    requires t in states[i].procs && u in states[i].procs
    requires o in states[i].procs[t].inputs && o in states[i].procs[u].inputs
    ensures !(Reserved(states[i].procs[t]) && Reserved(states[i].procs[u]))
  {
    if Reserved(states[i].procs[t]) && Reserved(states[i].procs[u]) {
      ReservedOwnsInputs(states, events, i, t);
      ReservedOwnsInputs(states, events, i, u);
    }
  }

  // A failed broadcast ends owning what it owned at its start, minus what it rolled back, or, if
  // a store call of the rollback failed, with all it reserved: nothing at all iff the rollback
  // went through and it had owned no input it never reached.
  lemma {:induction false} FailedOwnsNothingNew(states: seq<State>, events: seq<Event>, i: nat, t: Txid)
    requires Execution(states, events) && i < |states|
    requires t in states[i].procs && states[i].procs[t].pc.Failed?
    ensures var p := states[i].procs[t];
            && p.pc.n <= |p.inputs|
            && Owned(states[i], t) == (if p.pc.cleared then p.held - Elems(p.inputs[..p.pc.n])
                                       else p.held + Elems(p.inputs[..p.pc.n]))
            && (Owned(states[i], t) == {} <==> p.pc.cleared && p.held <= Elems(p.inputs[..p.pc.n]))
  {
    ExecutionKeepsInv(states, events, i);
    var p := states[i].procs[t];
    assert ProcInv(states[i], t, p);
    if !p.pc.cleared {
      assert p.inputs[..p.pc.n][0] in Elems(p.inputs[..p.pc.n]);
    } else if p.held - Elems(p.inputs[..p.pc.n]) == {} {
      assert forall o :: o in p.held ==> o !in p.held - Elems(p.inputs[..p.pc.n]);
    }
  }

  function OneBroadcast(spends: map<Outpoint, Txid>, pc: Pc): State {
    State(spends, map[1 := Attempted], map[1 := Proc([Outpoint(0, 0)], pc, {})])
  }

  // A rejected broadcast whose delete fails: the caller is told of the rejection, and the input
  // stays taken.
  lemma {:induction false} FailedDeleteKeepsInput()
    ensures Execution(RejectedStates(), RejectedEvents())
    ensures RejectedStates()[6].procs[1].pc == Failed(1, false) && Owned(RejectedStates()[6], 1) == {Outpoint(0, 0)}
  {
    ReservingSteps();
    RejectingSteps();
    var o := Outpoint(0, 0);
    assert Owned(OneBroadcast(map[o := 1], Failed(1, false)), 1) == {o};
    var states, events := RejectedStates(), RejectedEvents();
    forall i: nat | i < 6
      ensures StepAt(states, events, i)
    {
      assert i in {0, 1, 2, 3, 4, 5};
    }
  }

  function RejectedStates(): (r: seq<State>)
    ensures |r| == 7
  {
    var o := Outpoint(0, 0);
    [State(map[], map[], map[]), OneBroadcast(map[], Reserving(0)), OneBroadcast(map[o := 1], Reserving(1)),
     OneBroadcast(map[o := 1], Sent), OneBroadcast(map[o := 1], Reading(1)),
     OneBroadcast(map[o := 1], Deleting(1, {o})), OneBroadcast(map[o := 1], Failed(1, false))]
  }

  function RejectedEvents(): seq<Event> {
    [Start(1, [Outpoint(0, 0)]), Reserve(1), CallArc(1), ArcRejects(1), Read(1, [Outpoint(0, 0)]), DeleteError(1)]
  }

  lemma {:induction false} ReservingSteps()
    ensures var o := Outpoint(0, 0);
            && Next(State(map[], map[], map[]), Start(1, [o]), OneBroadcast(map[], Reserving(0)))
            && Next(OneBroadcast(map[], Reserving(0)), Reserve(1), OneBroadcast(map[o := 1], Reserving(1)))
            && Next(OneBroadcast(map[o := 1], Reserving(1)), CallArc(1), OneBroadcast(map[o := 1], Sent))
  {
    assert Owned(State(map[], map[], map[]), 1) == {};
  }

  lemma {:induction false} RejectingSteps()
    ensures var o := Outpoint(0, 0);
            && Next(OneBroadcast(map[o := 1], Sent), ArcRejects(1), OneBroadcast(map[o := 1], Reading(1)))
            && Next(OneBroadcast(map[o := 1], Reading(1)), Read(1, [o]), OneBroadcast(map[o := 1], Deleting(1, {o})))
            && Next(OneBroadcast(map[o := 1], Deleting(1, {o})), DeleteError(1),
                    OneBroadcast(map[o := 1], Failed(1, false)))
  {
    var o := Outpoint(0, 0);
    assert [o][..1] == [o];
    var deletes := ToDelete(map[o := 1], [o], [o], 1);
    assert Lookup(map[o := 1], [o][0], 1);
    assert [o][0] in deletes;
    assert deletes == {o};
  }

  // A success stands until the same transaction is broadcast again.
  lemma {:induction false} SuccessIsKept(states: seq<State>, events: seq<Event>, i: nat, j: nat, t: Txid)
    requires Execution(states, events) && i <= j < |states|
    requires t in states[i].procs && states[i].procs[t].pc.Succeeded?
    requires forall k :: i <= k < j ==> !(events[k].Start? && events[k].t == t)
    ensures t in states[j].procs && states[j].procs[t] == states[i].procs[t]
    ensures forall o :: o in states[j].procs[t].inputs ==> Lookup(states[j].spends, o, t)
    decreases j - i
  {
    if i < j {
      SuccessIsKept(states, events, i, j - 1, t);
      ExecutionKeepsInv(states, events, j - 1);
      assert StepAt(states, events, j - 1);
      if Actor(events[j - 1]) != t {
        OthersKeepTheirs(states[j - 1], events[j - 1], states[j], t);
      }
    }
    ReservedOwnsInputs(states, events, j, t);
  }

  /** The log of pending transactions */

  function MarkOf(s: State, t: Txid): Option<Mark> {
    if t in s.log then Some(s.log[t]) else None
  }

  // A broadcast under way is logged as an attempt, a successful one as announced; a failed one that
  // reserved nothing, or could not roll back, stays an attempt.
  predicate LogFits(s: State, t: Txid)
    requires t in s.procs
  {
    match s.procs[t].pc
    case Succeeded => MarkOf(s, t) == Some(Announced)
    case Failed(n, cleared) => MarkOf(s, t) == Some(Attempted) || (MarkOf(s, t) == None && n > 0 && cleared)
    case _ => MarkOf(s, t) == Some(Attempted)
  }

  lemma {:induction false} LogStep(s: State, e: Event, s': State, t: Txid)
    requires Next(s, e, s') && t in s'.procs && (t in s.procs ==> LogFits(s, t))
    requires t in s.procs && s.procs[t].pc.Delogging? ==> s.procs[t].pc.n > 0
    ensures LogFits(s', t)
    ensures e.Delog? && e.t == t ==> MarkOf(s', t) == None
  {
  }

  lemma {:induction false} LogTells(states: seq<State>, events: seq<Event>, i: nat, t: Txid)
    requires Execution(states, events) && i < |states| && t in states[i].procs
    ensures LogFits(states[i], t)
  {
    if i > 0 {
      assert StepAt(states, events, i - 1);
      ExecutionKeepsInv(states, events, i - 1);
      var s := states[i - 1];
      if t in s.procs {
        LogTells(states, events, i - 1, t);
        assert ProcInv(s, t, s.procs[t]);
      }
      LogStep(s, events[i - 1], states[i], t);
    }
  }

  /** Broadcasting again what had succeeded */

  lemma {:induction false} StepKeepsAttempt(s: State, e: Event, s': State, t: Txid)
    requires Next(s, e, s') && t in s.procs && !(e.Start? && e.t == t)
    ensures t in s'.procs && s'.procs[t].inputs == s.procs[t].inputs && s'.procs[t].held == s.procs[t].held
  {
  }

  // Between two starts a broadcast keeps its inputs and the record of what it held.
  lemma {:induction false} AttemptStays(states: seq<State>, events: seq<Event>, i: nat, j: nat, t: Txid)
    requires Execution(states, events) && i <= j < |states| && t in states[i].procs
    requires forall k :: i <= k < j ==> !(events[k].Start? && events[k].t == t)
    ensures t in states[j].procs
    ensures states[j].procs[t].inputs == states[i].procs[t].inputs && states[j].procs[t].held == states[i].procs[t].held
    decreases j - i
  {
    if i < j {
      AttemptStays(states, events, i, j - 1, t);
      assert StepAt(states, events, j - 1);
      StepKeepsAttempt(states[j - 1], events[j - 1], states[j], t);
    }
  }

  // The transaction succeeded by state i, and event k starts it once more.
  ghost predicate StartsAgain(states: seq<State>, events: seq<Event>, i: nat, k: nat, j: nat, t: Txid) {
    && Execution(states, events) && i <= k < j < |states|
    && t in states[i].procs && states[i].procs[t].pc.Succeeded?
    && events[k] == Start(t, states[i].procs[t].inputs)
    && forall h :: i <= h < j && events[h].Start? && events[h].t == t ==> h == k
  }

  lemma {:induction false} AgainHoldsInputs(states: seq<State>, events: seq<Event>, i: nat, k: nat, j: nat, t: Txid)
    requires StartsAgain(states, events, i, k, j, t)
    ensures t in states[j].procs
    ensures var p := states[j].procs[t]; p.inputs == states[i].procs[t].inputs && Elems(p.inputs) <= p.held
  {
    SuccessIsKept(states, events, i, k, t);
    assert StepAt(states, events, k);
    AttemptStays(states, events, k + 1, j, t);
  }

  // When the second attempt ends, the inputs of the first are all still reserved if and only if it
  // succeeded too, or failed before its first input or with a failing rollback.  Otherwise exactly
  // the inputs it had gone through are free, although the first attempt was announced.
  lemma {:induction false} SecondAttemptKeepsIff(states: seq<State>, events: seq<Event>, i: nat, k: nat, j: nat,
                                                 t: Txid)
    requires StartsAgain(states, events, i, k, j, t)
    requires t in states[j].procs && Terminal(states[j].procs[t].pc)
    ensures var p := states[j].procs[t];
            && ((forall o :: o in p.inputs ==> Lookup(states[j].spends, o, t)) <==>
                  p.pc.Succeeded? || p.pc.n == 0 || !p.pc.cleared)
            && (p.pc.Failed? && p.pc.cleared ==>
                  && p.pc.n <= |p.inputs|
                  && forall o :: o in p.inputs ==> (Lookup(states[j].spends, o, t) <==> o !in p.inputs[..p.pc.n]))
  {
    AgainHoldsInputs(states, events, i, k, j, t);
    var s, p := states[j], states[j].procs[t];
    if p.pc.Succeeded? {
      ReservedOwnsInputs(states, events, j, t);
    } else {
      FailedOwnsNothingNew(states, events, j, t);
      assert forall o :: Lookup(s.spends, o, t) <==> o in Owned(s, t);
      assert forall o :: o in p.inputs ==> o in Elems(p.inputs);
      assert forall o :: o in p.inputs[..p.pc.n] <==> o in Elems(p.inputs[..p.pc.n]);
      if p.pc.n > 0 {
        assert p.inputs[0] in p.inputs[..p.pc.n];
      }
    }
  }

  function SecondAttempt(pc: Pc): State {
    State(map[Outpoint(0, 0) := 1], map[1 := Attempted], map[1 := Proc([Outpoint(0, 0)], pc, {Outpoint(0, 0)})])
  }

  // The service accepts the transaction once and rejects it when it comes again.
  function AgainState(i: nat): State {
    var o := Outpoint(0, 0);
    match i
    case 0 => State(map[], map[], map[])
    case 1 => OneBroadcast(map[], Reserving(0))
    case 2 => OneBroadcast(map[o := 1], Reserving(1))
    case 3 => OneBroadcast(map[o := 1], Sent)
    case 4 => OneBroadcast(map[o := 1], Succeeded).(log := map[1 := Announced])
    case 5 => SecondAttempt(Reserving(0))
    case 6 => SecondAttempt(Checking(0))
    case 7 => SecondAttempt(Reserving(1))
    case 8 => SecondAttempt(Sent)
    case 9 => SecondAttempt(Reading(1))
    case 10 => SecondAttempt(Deleting(1, {o}))
    case 11 => SecondAttempt(Delogging(1)).(spends := map[])
    case _ => SecondAttempt(Failed(1, true)).(spends := map[], log := map[])
  }

  function AgainEvent(i: nat): Event {
    match i
    case 0 => Start(1, [Outpoint(0, 0)])
    case 1 => Reserve(1)
    case 2 => CallArc(1)
    case 3 => ArcAccepts(1)
    case 4 => Start(1, [Outpoint(0, 0)])
    case 5 => Reserve(1)
    case 6 => Check(1)
    case 7 => CallArc(1)
    case 8 => ArcRejects(1)
    case 9 => Read(1, [Outpoint(0, 0)])
    case 10 => Delete(1)
    case _ => Delog(1)
  }

  lemma {:induction false} AcceptingSteps()
    ensures var o := Outpoint(0, 0);
            var accepted := OneBroadcast(map[o := 1], Succeeded).(log := map[1 := Announced]);
            && Next(OneBroadcast(map[o := 1], Sent), ArcAccepts(1), accepted)
            && Next(accepted, Start(1, [o]), SecondAttempt(Reserving(0)))
  {
    var o := Outpoint(0, 0);
    var accepted := OneBroadcast(map[o := 1], Succeeded).(log := map[1 := Announced]);
    assert Owned(accepted, 1) == {o};
  }

  lemma {:induction false} ReservingAgainSteps()
    ensures Next(SecondAttempt(Reserving(0)), Reserve(1), SecondAttempt(Checking(0)))
    ensures Next(SecondAttempt(Checking(0)), Check(1), SecondAttempt(Reserving(1)))
  {
  }

  lemma {:induction false} RejectingAgainSteps()
    ensures Next(SecondAttempt(Reserving(1)), CallArc(1), SecondAttempt(Sent))
    ensures Next(SecondAttempt(Sent), ArcRejects(1), SecondAttempt(Reading(1)))
  {
  }

  lemma {:induction false} ReadingAgainStep()
    ensures var o := Outpoint(0, 0); Next(SecondAttempt(Reading(1)), Read(1, [o]), SecondAttempt(Deleting(1, {o})))
  {
    var o := Outpoint(0, 0);
    assert [o][..1] == [o];
    var deletes := ToDelete(map[o := 1], [o], [o], 1);
    assert Lookup(map[o := 1], [o][0], 1);
    assert [o][0] in deletes;
    assert deletes == {o};
  }

  lemma {:induction false} FreeingSteps()
    ensures var o := Outpoint(0, 0);
            var freed := SecondAttempt(Delogging(1)).(spends := map[]);
            && Next(SecondAttempt(Deleting(1, {o})), Delete(1), freed)
            && Next(freed, Delog(1), SecondAttempt(Failed(1, true)).(spends := map[], log := map[]))
  {
    var o := Outpoint(0, 0);
    assert map[o := 1] - {o} == map[];
    assert map[1 := Attempted] - {1} == map[];
  }

  lemma {:induction false} AgainStep(i: nat)
    requires i < 12
    ensures Next(AgainState(i), AgainEvent(i), AgainState(i + 1))
  {
    if i < 3 {
      ReservingSteps();
    } else if i < 5 {
      AcceptingSteps();
    } else if i < 7 {
      ReservingAgainSteps();
    } else if i < 9 {
      RejectingAgainSteps();
    } else if i == 9 {
      ReadingAgainStep();
    } else {
      FreeingSteps();
    }
  }

  // The input of an announced transaction is free again.
  lemma {:induction false} RejectedAgainFreesInput()
    ensures var states := seq(13, i requires 0 <= i < 13 => AgainState(i));
            var events := seq(12, i requires 0 <= i < 12 => AgainEvent(i));
            && Execution(states, events)
            && states[4].procs[1].pc.Succeeded? && states[4].log == map[1 := Announced]
            && states[12].procs[1].pc == Failed(1, true) && states[12].spends == map[]
  {
    var states := seq(13, i requires 0 <= i < 13 => AgainState(i));
    var events := seq(12, i requires 0 <= i < 12 => AgainEvent(i));
    forall i: nat | i < 12
      ensures StepAt(states, events, i)
    {
      AgainStep(i);
    }
  }

  /** One broadcast on its own */

  // The first input from i on that belongs to another transaction, or the end.
  function FirstConflict(spends: map<Outpoint, Txid>, inputs: seq<Outpoint>, t: Txid, i: nat): (r: nat)
    requires i <= |inputs|
    ensures i <= r <= |inputs|
    ensures r < |inputs| ==> inputs[r] in spends && spends[inputs[r]] != t
    ensures forall j :: i <= j < r ==> inputs[j] !in spends || spends[inputs[j]] == t
    decreases |inputs| - i
  {
    if i == |inputs| || (inputs[i] in spends && spends[inputs[i]] != t) then i
    else FirstConflict(spends, inputs, t, i + 1)
  }

  function Without(spends: map<Outpoint, Txid>, inputs: seq<Outpoint>, t: Txid): map<Outpoint, Txid> {
    map o | o in spends && !(o in inputs && spends[o] == t) :: spends[o]
  }

  function With(spends: map<Outpoint, Txid>, inputs: seq<Outpoint>, t: Txid): map<Outpoint, Txid> {
    spends + map o | o in inputs :: t
  }

  lemma {:induction false} RollbackOfReserved(spends: map<Outpoint, Txid>, inputs: seq<Outpoint>, t: Txid)
    requires forall o :: o in inputs && o in spends ==> spends[o] == t
    ensures Without(With(spends, inputs, t), inputs, t) == Without(spends, inputs, t)
  {
  }

  lemma {:induction false} NoConflictIff(spends: map<Outpoint, Txid>, inputs: seq<Outpoint>, t: Txid)
    ensures var n := FirstConflict(spends, inputs, t, 0);
            && (n == |inputs| <==> forall o :: o in inputs && o in spends ==> spends[o] == t)
            && forall o :: o in inputs[..n] && o in spends ==> spends[o] == t
  {
  }

  lemma {:induction false} WithOneMore(spends: map<Outpoint, Txid>, inputs: seq<Outpoint>, vin: nat, t: Txid)
    requires vin < |inputs|
    ensures With(spends, inputs[..vin + 1], t) == With(spends, inputs[..vin], t)[inputs[vin] := t]
    ensures forall o :: o in inputs[..vin + 1] <==> o in inputs[..vin] || o == inputs[vin]
  {
    assert inputs[..vin + 1] == inputs[..vin] + [inputs[vin]];
  }

  class SpendStore {
    var spends: map<Outpoint, Txid>
    var pending: map<Txid, Mark>

    // HSETNX, or INSERT ... ON CONFLICT DO UPDATE ... WHERE spend = ''.
    method SetNewSpend(o: Outpoint, t: Txid) returns (added: bool)
      modifies this`spends
      ensures added == (o !in old(spends))
      ensures spends == if added then old(spends)[o := t] else old(spends)
    {
      added := o !in spends;
      if added {
        spends := spends[o := t];
      }
    }

    method UnsetSpends(outpoints: set<Outpoint>)
      modifies this`spends
      ensures spends == old(spends) - outpoints
    {
      spends := spends - outpoints;
    }

    // With nothing to roll back, the pending entry stays as well.
    method RollbackSpends(outpoints: seq<Outpoint>, t: Txid)
      modifies this
      ensures spends == Without(old(spends), outpoints, t)
      ensures pending == if outpoints == [] then old(pending) else old(pending) - {t}
    {
      if |outpoints| == 0 {
        return;
      }
      var deletes: set<Outpoint> := {};
      for i: nat := 0 to |outpoints|
        invariant deletes == set o | o in outpoints[..i] && Lookup(spends, o, t)
      {
        assert outpoints[..i + 1] == outpoints[..i] + [outpoints[i]];
        if Lookup(spends, outpoints[i], t) {
          deletes := deletes + {outpoints[i]};
        }
      }
      assert outpoints[..|outpoints|] == outpoints;
      assert spends - deletes == Without(spends, outpoints, t);
      if deletes != {} {
        UnsetSpends(deletes);
      }
      pending := pending - {t};
    }

    // The reservation loop: takes the inputs up to the first that belongs to another.
    method ReserveInputs(inputs: seq<Outpoint>, t: Txid) returns (n: nat)
      modifies this`spends
      ensures n == FirstConflict(old(spends), inputs, t, 0)
      ensures spends == With(old(spends), inputs[..n], t)
    {
      ghost var before := spends;
      for vin: nat := 0 to |inputs|
        invariant FirstConflict(before, inputs, t, 0) == FirstConflict(before, inputs, t, vin)
        invariant spends == With(before, inputs[..vin], t)
      {
        WithOneMore(before, inputs, vin, t);
        var added := SetNewSpend(inputs[vin], t);
        if !added && spends[inputs[vin]] != t {
          return vin;
        }
      }
      return |inputs|;
    }

    // Without interference a broadcast succeeds exactly when no input is somebody else's and the
    // service accepts; otherwise the inputs before the first conflict end up owned by nobody it
    // could have owned them for, and nothing else changes.  The pending entry goes with them: it
    // stays as an attempt when there was nothing to roll back.
    method Broadcast(inputs: seq<Outpoint>, t: Txid, accepted: bool) returns (success: bool)
      modifies this
      ensures success <==> accepted && forall o :: o in inputs && o in old(spends) ==> old(spends)[o] == t
      ensures success ==> spends == With(old(spends), inputs, t) && pending == old(pending)[t := Announced]
      ensures !success ==>
                var reached := inputs[..FirstConflict(old(spends), inputs, t, 0)];
                && spends == Without(old(spends), reached, t)
                && pending == if reached == [] then old(pending)[t := Attempted] else old(pending) - {t}
    {
      pending := pending[t := Attempted];
      ghost var before := spends;
      var n := ReserveInputs(inputs, t);
      NoConflictIff(before, inputs, t);
      RollbackOfReserved(before, inputs[..n], t);
      if n < |inputs| || !accepted {
        RollbackSpends(inputs[..n], t);
        return false;
      }
      assert inputs[..n] == inputs;
      pending := pending[t := Announced];
      return true;
    }
  }
}
