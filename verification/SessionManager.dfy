/** The session manager as an object, called by one thread at a time. */
module SessionManager {
  import opened Common
  import S = Session
  import Calls = SessionCalls

  class ZenohSessionManager {
    var session: Option<S.SessionId>
    var refCount: nat
    /** Zenoh's own count of the sessions it has opened. */
    var opens: nat

    /** A positive count and an open session go together. */
    ghost predicate Valid()
      reads this
    {
      refCount > 0 <==> session.Some?
    }

    function View(): Calls.Shared
      reads this
    {
      Calls.Shared(refCount, session, opens)
    }

    constructor ()
      ensures Valid() && View() == Calls.Shared(0, None, 0)
    {
      session, refCount, opens := None, 0, 0;
    }

    method Init(opening: S.Opening) returns (code: UCode)
      requires Valid()
      modifies this
      ensures Valid() && (View(), code) == Calls.Init(old(View()), opening)
      ensures code == if old(refCount) > 0 || opening.Opened? then OK else INTERNAL
      ensures refCount == old(refCount) + if code == OK then 1 else 0
      ensures old(refCount) > 0 ==> session == old(session) && opens == old(opens)
      ensures old(refCount) == 0 && code == OK ==> session == Some(old(opens)) && opens == old(opens) + 1
    {
      if refCount == 0 {
        if refCount == 0 {
          if opening.ConfigFailed? {
            return INTERNAL;
          }
          if opening.Opened? {
            session, opens := Some(opens), opens + 1;
          } else {
            session := None;
          }
          if session.None? {
            return INTERNAL;
          }
        }
        refCount := refCount + 1;
      } else {
        refCount := refCount + 1;
      }
      return OK;
    }

    method Term()
      requires Valid()
      modifies this
      ensures Valid() && View() == Calls.Term(old(View()))
      ensures refCount == if old(refCount) > 0 then old(refCount) - 1 else 0
      ensures session == (if refCount > 0 then old(session) else None) && opens == old(opens)
    {
      if 0 < refCount {
        refCount := refCount - 1;
        if refCount == 0 {
          session := None;
        }
      }
    }

    method GetSession() returns (r: Option<Option<S.SessionId>>)
      requires Valid()
      ensures r == Calls.GetSession(View())
      ensures r == (if refCount > 0 then Some(session) else None) && (r.Some? ==> r.value.Some?)
    {
      if 0 < refCount {
        return Some(session);
      }
      return None;
    }
  }
}
