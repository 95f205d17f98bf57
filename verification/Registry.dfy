/** The in-memory registry of worker sessions (orchestration/registry.py), as far as routing reads it. */
module Registry {
  import opened Wrappers
  import opened Rows

  datatype SessionRecord = SessionRecord(capabilities: set<string>, lastHeartbeat: Time, acceptingNewWork: bool)

  class WorkerRegistry {
    var sessions: map<SessionId, SessionRecord>
    const livenessTimeout: Time

    constructor (livenessTimeout: Time)
      ensures sessions == map[] && this.livenessTimeout == livenessTimeout
    {
      this.livenessTimeout := livenessTimeout;
      sessions := map[];
    }

    predicate Live(s: SessionId, now: Time)
      reads this
    {
      s in sessions && now - sessions[s].lastHeartbeat <= livenessTimeout
    }

    predicate Eligible(s: SessionId, activity: string, now: Time)
      reads this
    {
      Live(s, now) && sessions[s].acceptingNewWork && activity in sessions[s].capabilities
    }

    predicate NoneEligible(activity: string, now: Time)
      reads this
    {
      forall s | s in sessions :: !Eligible(s, activity, now)
    }

    /** The registered sessions whose heartbeat is overdue. */
    function LostSessions(now: Time): set<SessionId>
      reads this
    {
      set s | s in sessions && !Live(s, now)
    }

    /** A live session that accepts work and has the capability, if there is one. */
    method FindEligibleWorker(activity: string, now: Time) returns (worker: Option<SessionId>)
      ensures worker.Some? ==>
        && worker.value in sessions && Eligible(worker.value, activity, now)
        && var s := sessions[worker.value];
        now - s.lastHeartbeat <= livenessTimeout && s.acceptingNewWork && activity in s.capabilities
      ensures worker.None? ==> forall s | s in sessions ::
        livenessTimeout < now - sessions[s].lastHeartbeat
        || !sessions[s].acceptingNewWork || activity !in sessions[s].capabilities
      ensures worker.None? <==> NoneEligible(activity, now)
    {
      var todo := sessions.Keys;
      while todo != {}
        invariant todo <= sessions.Keys
        invariant forall s | s in sessions && s !in todo :: !Eligible(s, activity, now)
        decreases todo
      {
        var s :| s in todo;
        if Eligible(s, activity, now) {
          return Some(s);
        }
        todo := todo - {s};
      }
      worker := None;
    }

    method FindLostSessions(now: Time) returns (lost: set<SessionId>)
      ensures lost == LostSessions(now)
      ensures forall s :: s in lost <==> s in sessions && livenessTimeout < now - sessions[s].lastHeartbeat
    {
      lost := {};
      var todo := sessions.Keys;
      while todo != {}
        invariant todo <= sessions.Keys
        invariant lost == set s | s in sessions && s !in todo && !Live(s, now)
        decreases todo
      {
        var s :| s in todo;
        if !Live(s, now) {
          lost := lost + {s};
        }
        todo := todo - {s};
      }
    }
  }
}
