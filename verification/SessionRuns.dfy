/** One listener's goroutines as interleaved steps: the packet loop, one response
    pipe per session, idle cleanup and the final close. */
module SessionRuns {
  import opened Sessions

  /** A session's response pipe. */
  datatype Pipe = Unstarted | Reading | Failing | Dropped | Done

  datatype Conn = Conn(client: Address, gateway: string, open: bool, lastActivity: int, pipe: Pipe)

  /** Where the packet loop is. */
  datatype Loop =
    | Idle
    | Got(client: Address)
    | Missed(client: Address)
    | Dialed(client: Address, sid: nat)
    | Inserted(client: Address, sid: nat)
    | Holding(client: Address, sid: nat)
    | Sending(client: Address, sid: nat)
    | WriteFailed(client: Address, sid: nat)
    | Closing(sid: nat)

  datatype State = State(gateway: string, conns: map<nat, Conn>, sessions: map<Address, nat>, loop: Loop)

  datatype Step =
    | Packet(client: Address)
    | LookUp
    | Dial(sid: nat, now: int, ok: bool)
    | Insert
    | StartPipe
    | TouchForSend(now: int)
    | Write(ok: bool)
    | DropForWrite
    | CloseForWrite
    | PipeReads(pid: nat, now: int)
    | PipeFails(pid: nat)
    | PipeDrops(pid: nat)
    | PipeCloses(pid: nat)
    | Cleanup(cutoff: int)
    | CloseAll

  /** The loop has a session whose connection it may use. */
  predicate InHand(l: Loop) {
    l.Holding? || l.Sending? || l.WriteFailed?
  }

  predicate Enabled(s: State, step: Step) {
    match step
    case Packet(_) => s.loop.Idle?
    case LookUp => s.loop.Got?
    case Dial(sid, _, ok) => s.loop.Missed? && sid !in s.conns
    case Insert => s.loop.Dialed?
    case StartPipe => s.loop.Inserted? && s.loop.sid in s.conns
    case TouchForSend(_) => s.loop.Holding? && s.loop.sid in s.conns
    case Write(ok) => s.loop.Sending? && s.loop.sid in s.conns && (ok ==> s.conns[s.loop.sid].open)
    case DropForWrite => s.loop.WriteFailed?
    case CloseForWrite => s.loop.Closing? && s.loop.sid in s.conns
    case PipeReads(pid, _) => pid in s.conns && s.conns[pid].pipe.Reading? && s.conns[pid].open
    case PipeFails(pid) => pid in s.conns && s.conns[pid].pipe.Reading?
    case PipeDrops(pid) => pid in s.conns && s.conns[pid].pipe.Failing?
    case PipeCloses(pid) => pid in s.conns && s.conns[pid].pipe.Dropped?
    case Cleanup(_) => forall a :: a in s.sessions ==> s.sessions[a] in s.conns
    case CloseAll => true
  }

  /** The sessions cleanup closes. */
  function Expired(s: State, cutoff: int): set<nat>
    requires forall a :: a in s.sessions ==> s.sessions[a] in s.conns
  {
    set a | a in s.sessions && s.conns[s.sessions[a]].lastActivity <= cutoff :: s.sessions[a]
  }

  function CloseConns(conns: map<nat, Conn>, sids: set<nat>): map<nat, Conn> {
    map sid | sid in conns :: if sid in sids then conns[sid].(open := false) else conns[sid]
  }

  function Do(s: State, step: Step): State
    requires Enabled(s, step)
  {
    match step
    case Packet(client) => s.(loop := Got(client))
    case LookUp =>
      s.(loop := if s.loop.client in s.sessions then Holding(s.loop.client, s.sessions[s.loop.client]) else Missed(s.loop.client))
    case Dial(sid, now, ok) =>
      if !ok then s.(loop := Idle)
      else s.(conns := s.conns[sid := Conn(s.loop.client, s.gateway, true, now, Unstarted)], loop := Dialed(s.loop.client, sid))
    case Insert => s.(sessions := s.sessions[s.loop.client := s.loop.sid], loop := Inserted(s.loop.client, s.loop.sid))
    case StartPipe =>
      s.(conns := s.conns[s.loop.sid := s.conns[s.loop.sid].(pipe := Reading)], loop := Holding(s.loop.client, s.loop.sid))
    case TouchForSend(now) =>
      s.(conns := s.conns[s.loop.sid := s.conns[s.loop.sid].(lastActivity := now)], loop := Sending(s.loop.client, s.loop.sid))
    case Write(ok) => s.(loop := if ok then Idle else WriteFailed(s.loop.client, s.loop.sid))
    case DropForWrite => s.(sessions := s.sessions - {s.loop.client}, loop := Closing(s.loop.sid))
    case CloseForWrite => s.(conns := s.conns[s.loop.sid := s.conns[s.loop.sid].(open := false)], loop := Idle)
    case PipeReads(pid, now) => s.(conns := s.conns[pid := s.conns[pid].(lastActivity := now)])
    case PipeFails(pid) => s.(conns := s.conns[pid := s.conns[pid].(pipe := Failing)])
    case PipeDrops(pid) =>
      s.(sessions := s.sessions - {s.conns[pid].client}, conns := s.conns[pid := s.conns[pid].(pipe := Dropped)])
    case PipeCloses(pid) => s.(conns := s.conns[pid := s.conns[pid].(open := false, pipe := Done)])
    case Cleanup(cutoff) =>
      var expired := Expired(s, cutoff);
      s.(conns := CloseConns(s.conns, expired),
      sessions := map a | a in s.sessions && s.sessions[a] !in expired :: s.sessions[a])
    case CloseAll => s.(conns := CloseConns(s.conns, s.sessions.Values), sessions := map[])
  }

  // ---------------------------------------------------------------- safety

  /** A session of the map: stored under its own client, connected to the listener's
      gateway, open, and not given up by its pipe. */
  ghost predicate SessionOk(conns: map<nat, Conn>, a: Address, sid: nat) {
    && sid in conns
    && conns[sid].client == a
    && conns[sid].open
    && !conns[sid].pipe.Dropped? && !conns[sid].pipe.Done?
  }

  ghost predicate MapOk(s: State) {
    forall a :: a in s.sessions ==> SessionOk(s.conns, a, s.sessions[a])
  }

  ghost predicate Unlisted(s: State, sid: nat) {
    forall a :: a in s.sessions ==> s.sessions[a] != sid
  }

  ghost predicate LoopOk(s: State) {
    && (s.loop.Dialed? ==>
          && s.loop.sid in s.conns && s.conns[s.loop.sid].client == s.loop.client && Unlisted(s, s.loop.sid)
          && s.conns[s.loop.sid].open && s.conns[s.loop.sid].pipe.Unstarted?)
    && (s.loop.Inserted? ==> s.loop.sid in s.conns && s.conns[s.loop.sid].client == s.loop.client && s.conns[s.loop.sid].pipe.Unstarted?)
    && (InHand(s.loop) ==> s.loop.sid in s.conns && s.conns[s.loop.sid].client == s.loop.client)
    && (s.loop.Closing? ==> s.loop.sid in s.conns && Unlisted(s, s.loop.sid))
  }

  ghost predicate SessionsOk(s: State) {
    && (forall sid :: sid in s.conns ==> s.conns[sid].gateway == s.gateway)
    && MapOk(s)
    && LoopOk(s)
  }

  lemma StepKeepsMap(s: State, step: Step)
    requires SessionsOk(s) && Enabled(s, step)
    ensures MapOk(Do(s, step))
  {
    if step.Cleanup? {
      CleanupKeepsMap(s, step.cutoff);
    }
  }

  lemma CleanupKeepsMap(s: State, cutoff: int)
    requires SessionsOk(s) && Enabled(s, Cleanup(cutoff))
    ensures MapOk(Do(s, Cleanup(cutoff)))
  {
  }

  lemma StepKeepsLoop(s: State, step: Step)
    requires SessionsOk(s) && Enabled(s, step)
    ensures LoopOk(Do(s, step))
  {
    var s' := Do(s, step);
    if s.loop.Dialed? {
      assert s.loop.sid !in s.sessions.Values;
    }
  }

  lemma StepKeepsSessions(s: State, step: Step)
    requires SessionsOk(s) && Enabled(s, step)
    ensures SessionsOk(Do(s, step)) && Do(s, step).gateway == s.gateway
  {
    StepKeepsMap(s, step);
    StepKeepsLoop(s, step);
  }

  /** The steps lead from one state to another. */
  ghost predicate Path(s: State, steps: seq<Step>, t: State)
    decreases |steps|
  {
    if steps == [] then s == t else Enabled(s, steps[0]) && Path(Do(s, steps[0]), steps[1..], t)
  }

  /** A listener that has just started. */
  predicate Init(s: State) {
    s.conns == map[] && s.sessions == map[] && s.loop == Idle
  }

  lemma {:induction false} PathKeepsSessions(s: State, steps: seq<Step>, t: State)
    requires Path(s, steps, t) && SessionsOk(s)
    ensures SessionsOk(t) && t.gateway == s.gateway
    decreases |steps|
  {
    if steps != [] {
      StepKeepsSessions(s, steps[0]);
      PathKeepsSessions(Do(s, steps[0]), steps[1..], t);
    }
  }

  /** Session safety. In every interleaving, each session of the map is stored under
      its own client address with an open connection to the listener's gateway. */
  lemma SessionSafety(s: State, steps: seq<Step>, t: State)
    requires Init(s) && Path(s, steps, t)
    ensures SessionsOk(t)
    ensures forall a :: a in t.sessions ==>
                          var c := t.conns[t.sessions[a]];
                          c.client == a && c.open && c.gateway == s.gateway
  {
    PathKeepsSessions(s, steps, t);
  }

  /** Cleanup removes and closes exactly the sessions of the map at or before the
      cutoff; every other session and connection is as it was. */
  lemma CleanupExact(s: State, cutoff: int)
    requires SessionsOk(s)
    ensures Enabled(s, Cleanup(cutoff))
    ensures var s' := Do(s, Cleanup(cutoff));
            && (forall a :: a in s.sessions && s.conns[s.sessions[a]].lastActivity <= cutoff ==>
                              a !in s'.sessions && !s'.conns[s.sessions[a]].open)
            && (forall a :: a in s.sessions && s.conns[s.sessions[a]].lastActivity > cutoff ==>
                              a in s'.sessions && s'.sessions[a] == s.sessions[a] && s'.conns[s.sessions[a]] == s.conns[s.sessions[a]])
            && (forall sid :: sid in s.conns && sid !in s.sessions.Values ==> s'.conns[sid] == s.conns[sid])
            && (forall a :: a in s'.sessions ==> a in s.sessions)
  {
    var expired := Expired(s, cutoff);
    forall a | a in s.sessions && s.conns[s.sessions[a]].lastActivity > cutoff
      ensures s.sessions[a] !in expired
    {
      assert forall b :: b in s.sessions && s.sessions[b] == s.sessions[a] ==> b == a;
    }
  }

  /** The step's clock shows this time or a later one. */
  predicate NotBefore(step: Step, now: int) {
    (step.TouchForSend? || step.PipeReads? ==> step.now >= now)
  }

  /** The step records activity of the session: a response from its gateway, or a packet of
      its client on the way there. */
  predicate Active(s: State, step: Step, sid: nat, now: int) {
    || step == PipeReads(sid, now)
    || (step == TouchForSend(now) && s.loop.Holding? && s.loop.sid == sid)
  }

  lemma ActivityRecorded(s: State, step: Step, sid: nat, now: int)
    requires Enabled(s, step) && Active(s, step, sid, now)
    ensures sid in Do(s, step).conns && Do(s, step).conns[sid].lastActivity == now
  {
  }

  lemma {:induction false} ActivityKept(s: State, steps: seq<Step>, t: State, sid: nat, now: int)
    requires Path(s, steps, t) && sid in s.conns && s.conns[sid].lastActivity >= now
    requires forall i :: 0 <= i < |steps| ==> NotBefore(steps[i], now)
    ensures sid in t.conns && t.conns[sid].lastActivity >= now
    decreases |steps|
  {
    if steps != [] {
      assert NotBefore(steps[0], now);
      var s' := Do(s, steps[0]);
      assert sid in s'.conns && s'.conns[sid].lastActivity >= now;
      ActivityKept(s', steps[1..], t, sid, now);
    }
  }

  /** A session in use survives cleanup: after a response of its gateway or a packet of its
      client, and whatever happens next, a cleanup with an earlier cutoff leaves its entry
      in the map and its connection open. */
  lemma ActiveSurvivesCleanup(s: State, step: Step, sid: nat, now: int, steps: seq<Step>, t: State, cutoff: int)
    requires SessionsOk(s) && Enabled(s, step) && Active(s, step, sid, now) && Path(Do(s, step), steps, t)
    requires (forall i :: 0 <= i < |steps| ==> NotBefore(steps[i], now)) && cutoff < now
    ensures Enabled(t, Cleanup(cutoff)) && sid in t.conns
    ensures var t' := Do(t, Cleanup(cutoff));
            && t'.conns[sid] == t.conns[sid]
            && forall a :: a in t.sessions && t.sessions[a] == sid ==> a in t'.sessions && t'.sessions[a] == sid
  {
    ActivityRecorded(s, step, sid, now);
    ActivityKept(Do(s, step), steps, t, sid, now);
    StepKeepsSessions(s, step);
    PathKeepsSessions(Do(s, step), steps, t);
    assert sid !in Expired(t, cutoff);
  }

  // ---------------------------------------------------------------- who closes a connection

  /** Someone will close the connection: it is in the map, its pipe has failed, or the
      packet loop has just dialed it or is about to close it. */
  ghost predicate Tracked(s: State, sid: nat) {
    || !Unlisted(s, sid)
    || (sid in s.conns && (s.conns[sid].pipe.Failing? || s.conns[sid].pipe.Dropped?))
    || ((s.loop.Dialed? || s.loop.Closing?) && s.loop.sid == sid)
  }

  ghost predicate AllTracked(s: State) {
    forall sid :: sid in s.conns && s.conns[sid].open ==> Tracked(s, sid)
  }

  /** Only the packet loop inserts: a client it found missing is still missing, and a
      client whose session it has in hand has no other. */
  ghost predicate LoopInserts(s: State) {
    && (s.loop.Missed? || s.loop.Dialed? ==> s.loop.client !in s.sessions)
    && (s.loop.Inserted? || InHand(s.loop) ==> s.loop.client in s.sessions ==> s.sessions[s.loop.client] == s.loop.sid)
  }

  lemma StepKeepsInserts(s: State, step: Step)
    requires SessionsOk(s) && LoopInserts(s) && Enabled(s, step)
    ensures LoopInserts(Do(s, step))
  {
  }

  /** A pipe that has failed deletes by client address, and the client has another
      session by now, whose own pipe has not failed. */
  predicate ForeignDrop(s: State, step: Step) {
    && step.PipeDrops? && step.pid in s.conns
    && var client := s.conns[step.pid].client;
    && client in s.sessions && s.sessions[client] != step.pid && s.sessions[client] in s.conns
    && (s.conns[s.sessions[client]].pipe.Unstarted? || s.conns[s.sessions[client]].pipe.Reading?)
  }

  lemma DropKeepsTrackedIff(s: State, pid: nat)
    requires SessionsOk(s) && AllTracked(s) && Enabled(s, PipeDrops(pid))
    ensures AllTracked(Do(s, PipeDrops(pid))) <==> !ForeignDrop(s, PipeDrops(pid))
  {
    var s' := Do(s, PipeDrops(pid));
    var client := s.conns[pid].client;
    if ForeignDrop(s, PipeDrops(pid)) {
      var sid := s.sessions[client];
      assert SessionOk(s.conns, client, sid);
      assert forall a :: a in s'.sessions ==> SessionOk(s.conns, a, s.sessions[a]);
      assert s'.conns[sid].open && !Tracked(s', sid);
    } else {
      forall sid | sid in s'.conns && s'.conns[sid].open
        ensures Tracked(s', sid)
      {
        assert Tracked(s, sid);
        if a :| a in s.sessions && s.sessions[a] == sid {
          assert SessionOk(s.conns, a, sid);
          assert a != client ==> a in s'.sessions && s'.sessions[a] == sid;
        }
      }
    }
  }

  lemma LoopKeepsTracked(s: State, step: Step)
    requires SessionsOk(s) && LoopInserts(s) && AllTracked(s) && Enabled(s, step)
    requires step.Insert? || step.DropForWrite? || step.Dial?
    ensures AllTracked(Do(s, step))
  {
    var s' := Do(s, step);
    forall sid | sid in s'.conns && s'.conns[sid].open
      ensures Tracked(s', sid)
    {
      if step.Dial? && s'.loop.Dialed? && sid == s'.loop.sid {
      } else {
        assert Tracked(s, sid);
        if step.Insert? && sid == s.loop.sid {
          assert s'.sessions[s.loop.client] == sid;
        } else if a :| a in s.sessions && s.sessions[a] == sid {
          assert step.Insert? ==> a != s.loop.client;
          assert (a in s'.sessions && s'.sessions[a] == sid) || s'.loop == Closing(sid);
        }
      }
    }
  }

  lemma ClosingKeepsTracked(s: State, step: Step)
    requires SessionsOk(s) && AllTracked(s) && Enabled(s, step)
    requires step.Cleanup? || step.CloseAll?
    ensures AllTracked(Do(s, step))
  {
    var s' := Do(s, step);
    forall sid | sid in s'.conns && s'.conns[sid].open
      ensures Tracked(s', sid)
    {
      assert Tracked(s, sid);
      if a :| a in s.sessions && s.sessions[a] == sid {
        assert sid in s.sessions.Values;
        assert a in s'.sessions && s'.sessions[a] == sid;
      }
    }
  }

  lemma OthersKeepTracked(s: State, step: Step)
    requires SessionsOk(s) && AllTracked(s) && Enabled(s, step)
    requires !step.Insert? && !step.DropForWrite? && !step.Dial? && !step.Cleanup? && !step.CloseAll? && !step.PipeDrops?
    ensures AllTracked(Do(s, step))
  {
    var s' := Do(s, step);
    assert s'.sessions == s.sessions;
    forall sid | sid in s'.conns && s'.conns[sid].open
      ensures Tracked(s', sid)
    {
      assert Tracked(s, sid);
    }
  }

  /** Every open connection stays tracked in a step exactly unless the step is a pipe's
      foreign drop. */
  lemma StepKeepsTrackedIff(s: State, step: Step)
    requires SessionsOk(s) && LoopInserts(s) && AllTracked(s) && Enabled(s, step)
    ensures AllTracked(Do(s, step)) <==> !ForeignDrop(s, step)
  {
    if step.PipeDrops? {
      DropKeepsTrackedIff(s, step.pid);
    } else if step.Insert? || step.DropForWrite? || step.Dial? {
      LoopKeepsTracked(s, step);
    } else if step.Cleanup? || step.CloseAll? {
      ClosingKeepsTracked(s, step);
    } else {
      OthersKeepTracked(s, step);
    }
  }

  /** Every open connection is tracked in every state along the steps. */
  ghost predicate TrackedAlong(s: State, steps: seq<Step>)
    decreases |steps|
  {
    AllTracked(s) && (steps != [] && Enabled(s, steps[0]) ==> TrackedAlong(Do(s, steps[0]), steps[1..]))
  }

  /** Some step along the way is a foreign drop. */
  ghost predicate DropsForeign(s: State, steps: seq<Step>)
    decreases |steps|
  {
    steps != [] && Enabled(s, steps[0]) && (ForeignDrop(s, steps[0]) || DropsForeign(Do(s, steps[0]), steps[1..]))
  }

  lemma {:induction false} TrackedAlongIff(s: State, steps: seq<Step>, t: State)
    requires Path(s, steps, t) && SessionsOk(s) && LoopInserts(s) && AllTracked(s)
    ensures TrackedAlong(s, steps) <==> !DropsForeign(s, steps)
    ensures TrackedAlong(s, steps) ==> AllTracked(t)
    decreases |steps|
  {
    if steps != [] {
      var s' := Do(s, steps[0]);
      StepKeepsSessions(s, steps[0]);
      StepKeepsInserts(s, steps[0]);
      StepKeepsTrackedIff(s, steps[0]);
      if AllTracked(s') {
        TrackedAlongIff(s', steps[1..], t);
      }
    }
  }

  /** Nothing is on its way to being closed or inserted. */
  predicate Quiet(s: State) {
    && !s.loop.Dialed? && !s.loop.Closing?
    && forall sid :: sid in s.conns ==> !s.conns[sid].pipe.Failing? && !s.conns[sid].pipe.Dropped?
  }

  /** No connection is forgotten, in every interleaving: all along the way every open
      connection is in the map or someone is about to close or insert it, exactly
      when no pipe drops the entry of another session that still runs. Then, at any
      quiet moment, every open connection is in the map. */
  lemma NoneForgottenIff(s: State, steps: seq<Step>, t: State)
    requires Init(s) && Path(s, steps, t)
    ensures TrackedAlong(s, steps) <==> !DropsForeign(s, steps)
    ensures !DropsForeign(s, steps) && Quiet(t) ==>
              forall sid :: sid in t.conns && t.conns[sid].open ==> exists a :: a in t.sessions && t.sessions[a] == sid
  {
    TrackedAlongIff(s, steps, t);
    if !DropsForeign(s, steps) && Quiet(t) {
      forall sid | sid in t.conns && t.conns[sid].open
        ensures exists a :: a in t.sessions && t.sessions[a] == sid
      {
        assert Tracked(t, sid);
      }
    }
  }

  lemma {:induction false} PathConcat(s: State, steps: seq<Step>, t: State, more: seq<Step>, u: State)
    requires Path(s, steps, t) && Path(t, more, u)
    ensures Path(s, steps + more, u)
    decreases |steps|
  {
    if steps == [] {
      assert steps + more == more;
    } else {
      assert (steps + more)[1..] == steps[1..] + more;
      PathConcat(Do(s, steps[0]), steps[1..], t, more, u);
    }
  }

  lemma PathOfTwo(s: State, a: Step, b: Step)
    requires Enabled(s, a) && Enabled(Do(s, a), b)
    ensures Path(s, [a, b], Do(Do(s, a), b))
  {
    assert [a, b][1..] == [b] && [b][1..] == [];
    assert Path(Do(s, a), [b], Do(Do(s, a), b));
  }

  lemma PathOfFour(s: State, a: Step, b: Step, c: Step, d: Step, s1: State, s2: State, s3: State, t: State)
    requires Enabled(s, a) && s1 == Do(s, a)
    requires Enabled(s1, b) && s2 == Do(s1, b)
    requires Enabled(s2, c) && s3 == Do(s2, c)
    requires Enabled(s3, d) && t == Do(s3, d)
    ensures Path(s, [a, b, c, d], t)
  {
    PathOfTwo(s, a, b);
    PathOfTwo(s2, c, d);
    PathConcat(s, [a, b], s2, [c, d], t);
    assert [a, b] + [c, d] == [a, b, c, d];
  }

  function WithSession(s: State, client: Address, sid: nat, now: int): State {
    s.(conns := s.conns[sid := Conn(client, s.gateway, true, now, Reading)],
    sessions := s.sessions[client := sid], loop := Holding(client, sid))
  }

  /** A packet of an unknown client opens a session. */
  lemma NewSession(s: State, client: Address, sid: nat, now: int)
    requires s.loop == Idle && client !in s.sessions && sid !in s.conns
    ensures exists steps :: Path(s, steps, WithSession(s, client, sid, now))
  {
    var c := Conn(client, s.gateway, true, now, Unstarted);
    var s0 := s.(loop := Got(client));
    var s1 := s.(loop := Missed(client));
    var s2 := s.(conns := s.conns[sid := c], loop := Dialed(client, sid));
    var s3 := s2.(sessions := s.sessions[client := sid], loop := Inserted(client, sid));
    var t := WithSession(s, client, sid, now);
    assert s3.conns[sid := c.(pipe := Reading)] == t.conns;
    PathOfFour(s0, LookUp, Dial(sid, now, true), Insert, StartPipe, s1, s2, s3, t);
    assert [Packet(client)][1..] == [];
    assert Path(s, [Packet(client)], s0);
    PathConcat(s, [Packet(client)], s0, [LookUp, Dial(sid, now, true), Insert, StartPipe], t);
  }

  function AfterFailedWrite(s: State, client: Address, sid: nat, now: int): State
    requires sid in s.conns
  {
    s.(conns := s.conns[sid := s.conns[sid].(lastActivity := now, open := false)],
    sessions := s.sessions - {client}, loop := Idle)
  }

  /** A failed write closes the session in hand and forgets its client. */
  lemma FailedWrite(s: State, client: Address, sid: nat, now: int)
    requires s.loop == Holding(client, sid) && sid in s.conns
    ensures exists steps :: Path(s, steps, AfterFailedWrite(s, client, sid, now))
  {
    var s1 := s.(conns := s.conns[sid := s.conns[sid].(lastActivity := now)], loop := Sending(client, sid));
    var s2 := s1.(loop := WriteFailed(client, sid));
    var s3 := s1.(sessions := s.sessions - {client}, loop := Closing(sid));
    var t := AfterFailedWrite(s, client, sid, now);
    assert s3.conns[sid := s3.conns[sid].(open := false)] == t.conns;
    PathOfFour(s, TouchForSend(now), Write(false), DropForWrite, CloseForWrite, s1, s2, s3, t);
  }

  function AfterForeignDrop(s: State, client: Address, sid: nat, pid: nat, now: int): State
    requires sid in s.conns && pid in s.conns
  {
    s.(conns := s.conns[sid := s.conns[sid].(lastActivity := now)][pid := s.conns[pid].(pipe := Dropped)],
    sessions := s.sessions - {client}, loop := Idle)
  }

  /** A packet goes out, and then the pipe of another session of its client ends. */
  lemma WriteThenForeignDrop(s: State, client: Address, sid: nat, pid: nat, now: int)
    requires s.loop == Holding(client, sid) && sid in s.conns && s.conns[sid].open && pid != sid
    requires pid in s.conns && s.conns[pid].pipe.Reading? && s.conns[pid].client == client
    ensures exists steps :: Path(s, steps, AfterForeignDrop(s, client, sid, pid, now))
  {
    var s1 := s.(conns := s.conns[sid := s.conns[sid].(lastActivity := now)], loop := Sending(client, sid));
    var s2 := s1.(loop := Idle);
    var s3 := s2.(conns := s1.conns[pid := s.conns[pid].(pipe := Failing)]);
    var t := AfterForeignDrop(s, client, sid, pid, now);
    assert s3.conns[pid := s3.conns[pid].(pipe := Dropped)] == t.conns;
    PathOfFour(s, TouchForSend(now), Write(true), PipeFails(pid), PipeDrops(pid), s1, s2, s3, t);
  }

  /** A first session of the client ends with a failed write, its pipe still reading. */
  lemma WriteFailsOnFirst(s: State, client: Address) returns (t: State)
    requires Init(s)
    ensures exists steps :: Path(s, steps, t)
    ensures t.loop == Idle && t.sessions == map[] && t.conns.Keys == {0} && t.conns[0].pipe.Reading? && t.conns[0].client == client
  {
    var s1 := WithSession(s, client, 0, 0);
    NewSession(s, client, 0, 0);
    t := AfterFailedWrite(s1, client, 0, 1);
    FailedWrite(s1, client, 0, 1);
    var a :| Path(s, a, s1);
    var b :| Path(s1, b, t);
    PathConcat(s, a, s1, b, t);
  }

  /** The client reconnects, and only then the first pipe ends. */
  lemma ReconnectThenDrop(s: State, client: Address) returns (t: State)
    requires s.loop == Idle && s.sessions == map[] && s.conns.Keys == {0} && s.conns[0].pipe.Reading? && s.conns[0].client == client
    ensures exists steps :: Path(s, steps, t)
    ensures t.loop == Idle && t.sessions == map[] && 1 in t.conns && t.conns[1].open && t.conns[1].pipe.Reading?
  {
    var s1 := WithSession(s, client, 1, 2);
    NewSession(s, client, 1, 2);
    t := AfterForeignDrop(s1, client, 1, 0, 3);
    WriteThenForeignDrop(s1, client, 1, 0, 3);
    var a :| Path(s, a, s1);
    var b :| Path(s1, b, t);
    PathConcat(s, a, s1, b, t);
    assert t.sessions == map[];
  }

  /** So not every open connection is in the map: after a failed write, a reconnect of
      the same client and only then the end of the first pipe, the second session is
      open, served by its pipe and in no map. */
  lemma OpenButUnlisted(s: State, client: Address)
    requires Init(s)
    ensures exists steps, t :: Path(s, steps, t)
                               && t.loop == Idle && t.sessions == map[]
                               && 1 in t.conns && t.conns[1].open && t.conns[1].pipe.Reading?
  {
    var mid := WriteFailsOnFirst(s, client);
    var t := ReconnectThenDrop(mid, client);
    var a :| Path(s, a, mid);
    var b :| Path(mid, b, t);
    PathConcat(s, a, mid, b, t);
  }

  // ---------------------------------------------------------------- after the close

  /** The packet loop reads no further packet: its socket is closed. */
  predicate NoPacket(steps: seq<Step>) {
    forall i :: 0 <= i < |steps| ==> !steps[i].Packet?
  }

  /** The loop has no session to insert any more. */
  predicate NothingToInsert(l: Loop) {
    !l.Got? && !l.Missed? && !l.Dialed?
  }

  lemma {:induction false} MapStaysEmpty(s: State, steps: seq<Step>, t: State)
    requires Path(s, steps, t) && NoPacket(steps) && NothingToInsert(s.loop) && s.sessions == map[]
    ensures t.sessions == map[]
    decreases |steps|
  {
    if steps != [] {
      assert !steps[0].Packet?;
      var s' := Do(s, steps[0]);
      assert s'.sessions == map[] && NothingToInsert(s'.loop);
      MapStaysEmpty(s', steps[1..], t);
    }
  }

  /** A session the loop has dialed but not inserted yet is inserted after the close. */
  lemma InsertsAfterClose(s: State)
    requires SessionsOk(s) && s.loop.Dialed?
    ensures var t := Do(Do(s, CloseAll), Insert);
            && Path(Do(s, CloseAll), [Insert], t)
            && t.sessions == map[s.loop.client := s.loop.sid] && t.conns[s.loop.sid].open
  {
    assert s.loop.sid !in s.sessions.Values;
    assert [Insert][1..] == [];
  }

  /** So is one it has yet to dial. */
  lemma DialsAfterClose(s: State, sid: nat)
    requires s.loop.Missed? && sid !in s.conns
    ensures var closed := Do(s, CloseAll);
            && Enabled(closed, Dial(sid, 0, true))
            && var t := Do(Do(closed, Dial(sid, 0, true)), Insert);
            && Path(closed, [Dial(sid, 0, true), Insert], t)
            && t.sessions == map[s.loop.client := sid] && t.conns[sid].open
  {
    PathOfTwo(Do(s, CloseAll), Dial(sid, 0, true), Insert);
  }

  /** And one whose client it has read a packet of but not looked up yet. */
  lemma LooksUpAfterClose(s: State, sid: nat)
    requires s.loop.Got? && sid !in s.conns
    ensures var closed := Do(s, CloseAll);
            var missed := Do(closed, LookUp);
            && Enabled(missed, Dial(sid, 0, true))
            && var t := Do(Do(missed, Dial(sid, 0, true)), Insert);
            && Path(closed, [LookUp, Dial(sid, 0, true), Insert], t)
            && t.sessions == map[s.loop.client := sid] && t.conns[sid].open
  {
    var closed := Do(s, CloseAll);
    var missed := Do(closed, LookUp);
    assert missed.loop == Missed(s.loop.client);
    PathOfTwo(missed, Dial(sid, 0, true), Insert);
    assert [LookUp, Dial(sid, 0, true), Insert][1..] == [Dial(sid, 0, true), Insert];
  }

  /** Closing all sessions ends them for good, on every continuation without a further
      packet, exactly if the packet loop is not on its way to insert one: it has no
      packet that is not looked up, has not missed its client in the map, and has not
      dialed for it. */
  lemma ClosedForGoodIff(s: State)
    requires SessionsOk(s)
    ensures (forall steps, t :: Path(Do(s, CloseAll), steps, t) && NoPacket(steps) ==> t.sessions == map[])
       <==> NothingToInsert(s.loop)
  {
    var closed := Do(s, CloseAll);
    if NothingToInsert(s.loop) {
      forall steps, t | Path(closed, steps, t) && NoPacket(steps)
        ensures t.sessions == map[]
      {
        MapStaysEmpty(closed, steps, t);
      }
    } else {
      var steps, t := LateInsert(s);
      assert s.loop.client in t.sessions;
    }
  }

  /** A continuation of the close, without a packet, that inserts a session. */
  lemma LateInsert(s: State) returns (steps: seq<Step>, t: State)
    requires SessionsOk(s) && !NothingToInsert(s.loop)
    ensures Path(Do(s, CloseAll), steps, t) && NoPacket(steps) && s.loop.client in t.sessions
  {
    var closed, sid := Do(s, CloseAll), Unused(s.conns.Keys);
    if s.loop.Dialed? {
      InsertsAfterClose(s);
      steps, t := [Insert], Do(closed, Insert);
    } else if s.loop.Missed? {
      DialsAfterClose(s, sid);
      steps, t := [Dial(sid, 0, true), Insert], Do(Do(closed, Dial(sid, 0, true)), Insert);
    } else {
      LooksUpAfterClose(s, sid);
      steps, t := [LookUp, Dial(sid, 0, true), Insert], Do(Do(Do(closed, LookUp), Dial(sid, 0, true)), Insert);
    }
  }

  /** A number outside a finite set. */
  ghost function Unused(sids: set<nat>): (sid: nat)
    ensures sid !in sids
    ensures forall n :: n in sids ==> n < sid
    decreases |sids|
  {
    if sids == {} then 0
    else
      var n :| n in sids;
      var m := Unused(sids - {n});
      assert forall x :: x in sids ==> x == n || x in sids - {n};
      if m <= n then n + 1 else m
  }
}
