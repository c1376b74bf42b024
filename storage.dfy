/** The in-memory session store of app/storage.py: for each user id, the
    current step of a deal and a dictionary of the values entered so far. */
module SessionStorage {
  import opened Wrappers

  /** One user's session: `{"step": ..., "data": {...}}`. */
  datatype Session<V> = Session(step: Option<string>, data: map<string, V>)

  /** A fresh session: no step yet and no data. */
  function NewSession<V>(): (s: Session<V>)
    ensures s.step.None? && s.data == map[]
  {
    Session(None, map[])
  }

  class Storage<V> {
    var sessions: map<int, Session<V>>

    constructor ()
      ensures sessions == map[]
    {
      sessions := map[];
    }

    /** `start`: a new, empty session, replacing any existing one. */
    method Start(user: int)
      modifies this
      ensures sessions == old(sessions)[user := NewSession()]
      ensures GetStep(user) == None && GetData(user) == map[]
      ensures forall u :: u != user ==> (u in sessions <==> u in old(sessions))
      ensures forall u :: u != user && u in sessions ==> sessions[u] == old(sessions)[u]
    {
      sessions := sessions[user := NewSession()];
    }

    /** `set_step`: changes the step of an existing session, and only that;
        for a user without a session it does nothing. */
    method SetStep(user: int, step: string)
      modifies this
      ensures user in old(sessions) ==>
        sessions == old(sessions)[user := old(sessions)[user].(step := Some(step))]
      ensures user !in old(sessions) ==> sessions == old(sessions)
      ensures user in old(sessions) ==> GetStep(user) == Some(step) && GetData(user) == old(GetData(user))
      ensures forall u :: u != user ==> (u in sessions <==> u in old(sessions))
      ensures forall u :: u != user && u in sessions ==> sessions[u] == old(sessions)[u]
    {
      if user in sessions {
        sessions := sessions[user := sessions[user].(step := Some(step))];
      }
    }

    /** `get_step`: the step of the user's session, and None for an unknown user. */
    function GetStep(user: int): (s: Option<string>)
      reads this
      ensures user !in sessions ==> s == None
      ensures user in sessions ==> s == sessions[user].step
    {
      if user in sessions then sessions[user].step else None
    }

    /** `set_data`: stores `value` under `key`, first starting a session if the
        user has none; the other keys and the step are kept. */
    method SetData(user: int, key: string, value: V)
      modifies this
      ensures user in sessions && GetData(user) == old(GetData(user))[key := value]
      ensures GetStep(user) == old(GetStep(user))
      ensures user !in old(sessions) ==> sessions[user] == Session(None, map[key := value])
      ensures forall u :: u != user ==> (u in sessions <==> u in old(sessions))
      ensures forall u :: u != user && u in sessions ==> sessions[u] == old(sessions)[u]
    {
      if user !in sessions {
        Start(user);
      }
      var s := sessions[user];
      sessions := sessions[user := s.(data := s.data[key := value])];
    }

    /** `get_data`: the user's data, and an empty dictionary for an unknown user. */
    function GetData(user: int): (d: map<string, V>)
      reads this
      ensures user !in sessions ==> d == map[]
      ensures user in sessions ==> d == sessions[user].data
    {
      if user in sessions then sessions[user].data else map[]
    }

    /** `clear`: removes the user's session, if any. */
    method Clear(user: int)
      modifies this
      ensures sessions == old(sessions) - {user}
      ensures GetStep(user) == None && GetData(user) == map[]
      ensures forall u :: u != user ==> (u in sessions <==> u in old(sessions))
      ensures forall u :: u != user && u in sessions ==> sessions[u] == old(sessions)[u]
    {
      if user in sessions {
        sessions := sessions - {user};
      }
    }
  }
}
