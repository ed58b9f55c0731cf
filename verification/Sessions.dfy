/** The sessions of one listener: a map from client address to upstream session,
    cleaned of idle sessions and emptied when the listener closes. */
module Sessions {

  type Address = string

  /** A client's session; `open` says whether its upstream connection is. */
  class Session {
    const clientAddr: Address
    var open: bool
    var lastActivity: int

    constructor (clientAddr: Address, now: int)
      ensures this.clientAddr == clientAddr && open && lastActivity == now
    {
      this.clientAddr, open, lastActivity := clientAddr, true, now;
    }

    method Touch(now: int)
      modifies this`lastActivity
      ensures lastActivity == now
    {
      lastActivity := now;
    }

    method Close()
      modifies this`open
      ensures !open
    {
      open := false;
    }
  }

  class SessionMap {
    var sessions: map<Address, Session>

    /** Sessions are open and stored under their own client address. */
    ghost predicate Valid()
      reads this, sessions.Values
    {
      forall k :: k in sessions ==> sessions[k].clientAddr == k && sessions[k].open
    }

    constructor ()
      ensures Valid() && sessions == map[]
    {
      sessions := map[];
    }

    method Get(key: Address) returns (session: Session?)
      ensures session == if key in sessions then sessions[key] else null
    {
      session := if key in sessions then sessions[key] else null;
    }

    method Set(key: Address, session: Session)
      modifies this
      ensures sessions == old(sessions)[key := session]
      ensures old(Valid()) && session.open && session.clientAddr == key ==> Valid()
    {
      sessions := sessions[key := session];
    }

    method Delete(key: Address)
      modifies this
      ensures sessions == old(sessions) - {key}
      ensures old(Valid()) ==> Valid()
    {
      sessions := sessions - {key};
    }

    /** Closes and removes exactly the sessions without activity after the cutoff;
        the others are not touched. */
    method CleanupIdle(now: int, timeout: int)
      requires Valid()
      modifies this, sessions.Values`open
      ensures Valid()
      ensures sessions == map k | k in old(sessions) && old(sessions)[k].lastActivity > now - timeout :: old(sessions)[k]
      ensures forall k :: k in old(sessions) ==> (old(sessions)[k].open <==> old(sessions)[k].lastActivity > now - timeout)
    {
      var cutoff := now - timeout;
      var todo := sessions.Keys;
      while todo != {}
        invariant todo <= old(sessions.Keys)
        invariant forall k :: k in sessions <==> k in old(sessions) && (k in todo || old(sessions)[k].lastActivity > cutoff)
        invariant forall k :: k in sessions ==> sessions[k] == old(sessions)[k]
        invariant forall k :: k in old(sessions) ==>
                                old(sessions)[k].clientAddr == k && (old(sessions)[k].open <==> k in sessions)
        decreases todo
      {
        var key :| key in todo;
        todo := todo - {key};
        var session := sessions[key];
        if session.lastActivity > cutoff {
          continue;
        }
        session.Close();
        sessions := sessions - {key};
      }
    }

    method CloseAll()
      requires Valid()
      modifies this, sessions.Values`open
      ensures Valid() && sessions == map[]
      ensures forall k :: k in old(sessions) ==> !old(sessions)[k].open
    {
      var todo := sessions.Keys;
      while todo != {}
        invariant todo <= old(sessions.Keys)
        invariant sessions.Keys == todo
        invariant forall k :: k in sessions ==> sessions[k] == old(sessions)[k]
        invariant forall k :: k in old(sessions) ==>
                                old(sessions)[k].clientAddr == k && (old(sessions)[k].open <==> k in todo)
        decreases todo
      {
        var key :| key in todo;
        todo := todo - {key};
        var session := sessions[key];
        session.Close();
        sessions := sessions - {key};
      }
    }
  }
}
