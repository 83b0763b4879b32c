/**
 * backend/models/session.py: user sessions with an append-only action log, and the
 * in-memory store that maps each session id to its session. Timestamps are integer
 * readings of the clock in seconds; fresh session ids are passed in.
 */
module Sessions {
  import opened Wrappers
  import opened JsonValue

  /** `UserAction` */
  datatype UserAction = UserAction(actionType: string, timestamp: int, metadata: Fields)

  /** `metadata or {}`: an absent dict (and an empty one) becomes a new empty dict. */
  function MetadataOrEmpty(metadata: Option<Fields>): (r: Fields)
    ensures metadata.None? ==> r == []
    ensures metadata.Some? ==> r == metadata.value
  {
    metadata.GetOr([])
  }

  /** The dict `to_dict` produces for one action; `iso` renders a timestamp. */
  function ActionDict(iso: int -> string, a: UserAction): (r: Json) {
    JObj([("action_type", JStr(a.actionType)), ("timestamp", JStr(iso(a.timestamp))), ("metadata", JObj(a.metadata))])
  }

  function ActionDicts(iso: int -> string, actions: seq<UserAction>): (r: seq<Json>)
    ensures |r| == |actions|
    ensures forall i :: 0 <= i < |actions| ==> r[i] == ActionDict(iso, actions[i])
  {
    seq(|actions|, i requires 0 <= i < |actions| => ActionDict(iso, actions[i]))
  }

  /** The keys of `to_dict`, in order. */
  const SessionDictKeys: seq<string> := ["session_id", "created_at", "last_activity", "user_actions", "metadata"]

  /** `UserSession`; nothing in the code reassigns its id or its creation time. */
  class UserSession {
    const sessionId: string
    const createdAt: int
    var lastActivity: int
    var userActions: seq<UserAction>
    var metadata: Fields

    /** A session made at `now` with no actions yet. */
    constructor(sessionId: string, now: int, metadata: Fields)
      ensures this.sessionId == sessionId && createdAt == now && lastActivity == now
      ensures userActions == [] && this.metadata == metadata
    {
      this.sessionId := sessionId;
      createdAt := now;
      lastActivity := now;
      userActions := [];
      this.metadata := metadata;
    }

    /** `add_action`: exactly one action, at the end; the earlier ones stay as they were. */
    method AddAction(actionType: string, metadata: Option<Fields>, now: int)
      modifies this
      ensures userActions == old(userActions) + [UserAction(actionType, now, MetadataOrEmpty(metadata))]
      ensures lastActivity == now && this.metadata == old(this.metadata)
    {
      userActions := userActions + [UserAction(actionType, now, MetadataOrEmpty(metadata))];
      lastActivity := now;
    }

    /** `update_activity` */
    method UpdateActivity(now: int)
      modifies this
      ensures lastActivity == now
      ensures userActions == old(userActions) && metadata == old(metadata)
    {
      lastActivity := now;
    }

    /** `to_dict`; `iso` stands for `datetime.isoformat`. */
    function ToDict(iso: int -> string): (r: Json)
      reads this
      ensures r.JObj? && |r.fields| == |SessionDictKeys|
      ensures forall i :: 0 <= i < |SessionDictKeys| ==> r.fields[i].0 == SessionDictKeys[i]
      ensures r.fields[3].1 == JList(ActionDicts(iso, userActions))
      ensures r.fields[0].1 == JStr(sessionId) && r.fields[4].1 == JObj(metadata)
    {
      JObj([("session_id", JStr(sessionId)),
            ("created_at", JStr(iso(createdAt))),
            ("last_activity", JStr(iso(lastActivity))),
            ("user_actions", JList(ActionDicts(iso, userActions))),
            ("metadata", JObj(metadata))])
    }

    /** `to_dict` lists the actions in the session's order, one entry each, under `user_actions`. */
    lemma ToDictActions(iso: int -> string)
      ensures Get(ToDict(iso).fields, "user_actions") == Some(JList(ActionDicts(iso, userActions)))
      ensures Get(ToDict(iso).fields, "session_id") == Some(JStr(sessionId))
    {
      var d := ToDict(iso).fields;
      assert DistinctKeys(d) by {
        assert forall i :: 0 <= i < |d| ==> d[i].0 == SessionDictKeys[i];
      }
      GetAt(d, 3);
      GetAt(d, 0);
    }
  }

  /** `SessionStore` */
  class SessionStore {
    var sessions: map<string, UserSession>

    /** Every session is filed under its own id. */
    ghost predicate Valid()
      reads this
    {
      forall id :: id in sessions ==> sessions[id].sessionId == id
    }

    constructor()
      ensures Valid() && sessions == map[]
    {
      sessions := map[];
    }

    /** `get_session` */
    function GetSession(id: string): (r: Option<UserSession>)
      reads this
      ensures r.Some? <==> id in sessions
      ensures r.Some? ==> r.value == sessions[id]
      ensures Valid() && r.Some? ==> r.value.sessionId == id
    {
      if id in sessions then Some(sessions[id]) else None
    }

    /** `get_active_session_count` */
    function ActiveCount(): (n: nat)
      reads this
      ensures n == 0 <==> sessions == map[]
    {
      assert sessions != map[] ==> exists id :: id in sessions;
      |sessions.Keys|
    }

    /** `create_session`; `freshId` stands for the generated UUID. */
    method CreateSession(metadata: Option<Fields>, freshId: string, now: int) returns (s: UserSession)
      requires Valid()
      modifies this
      ensures Valid()
      ensures fresh(s) && s.sessionId == freshId && s.createdAt == now && s.lastActivity == now
      ensures s.userActions == [] && s.metadata == MetadataOrEmpty(metadata)
      ensures sessions == old(sessions)[freshId := s]
      ensures GetSession(freshId) == Some(s)
    {
      s := new UserSession(freshId, now, MetadataOrEmpty(metadata));
      sessions := sessions[s.sessionId := s];
    }

    /** `update_session`: filed under its own id, replacing whatever was there; other ids keep theirs. */
    method UpdateSession(s: UserSession)
      requires Valid()
      modifies this
      ensures Valid()
      ensures sessions == old(sessions)[s.sessionId := s]
      ensures forall id :: id != s.sessionId ==> GetSession(id) == old(GetSession(id))
    {
      sessions := sessions[s.sessionId := s];
    }

    /** `delete_session`: true and the entry removed iff the id was present. */
    method DeleteSession(id: string) returns (deleted: bool)
      requires Valid()
      modifies this
      ensures Valid()
      ensures deleted <==> id in old(sessions)
      ensures sessions == old(sessions) - {id}
      ensures !deleted ==> sessions == old(sessions)
      ensures GetSession(id) == None
    {
      if id in sessions {
        sessions := sessions - {id};
        return true;
      }
      assert sessions - {id} == sessions;
      return false;
    }

    /**
     * `cleanup_expired_sessions`: the cutoff is `max_age_hours` before `now`. Exactly the
     * sessions last active before it go, so every remaining one was active at or after
     * it; the remaining ones are untouched, and the count returned is the drop in the
     * number of sessions.
     */
    method CleanupExpiredSessions(maxAgeHours: int, now: int) returns (removed: nat)
      requires Valid()
      modifies this
      ensures Valid()
      ensures forall id :: id in sessions <==>
        id in old(sessions) && old(sessions[id].lastActivity) >= now - maxAgeHours * 3600
      ensures forall id :: id in sessions ==> sessions[id] == old(sessions)[id]
      ensures removed == old(ActiveCount()) - ActiveCount()
    {
      var cutoff := now - maxAgeHours * 3600;
      var expired := ExpiredIds(sessions, cutoff);
      ghost var all := expired;
      ghost var original := sessions;
      assert forall id :: id in all <==> id in original && old(original[id].lastActivity) < cutoff;
      removed := 0;
      while expired != {}
        invariant expired <= all
        invariant sessions == Without(original, all - expired)
        invariant removed == |all - expired|
        decreases |expired|
      {
        var id :| id in expired;
        RemoveOneMore(original, all, expired, id);
        sessions := sessions - {id};
        expired := expired - {id};
        removed := removed + 1;
      }
      assert all - expired == all;
      WithoutSize(original, all);
    }
  }

  /** `m` without the keys in `s`. */
  function Without<V>(m: map<string, V>, s: set<string>): (r: map<string, V>)
    ensures forall k :: k in r <==> k in m && k !in s
    ensures forall k :: k in r ==> r[k] == m[k]
  {
    map k | k in m && k !in s :: m[k]
  }

  /** One more step of removing `all`: the key `k` still pending moves to the removed part. */
  lemma RemoveOneMore<V>(m: map<string, V>, all: set<string>, pending: set<string>, k: string)
    requires pending <= all && k in pending
    ensures Without(m, all - pending) - {k} == Without(m, all - (pending - {k}))
    ensures |all - (pending - {k})| == |all - pending| + 1
  {
    assert all - (pending - {k}) == (all - pending) + {k};
    assert Without(m, all - pending) - {k} == Without(m, (all - pending) + {k});
  }

  lemma WithoutSize<V>(m: map<string, V>, s: set<string>)
    requires s <= m.Keys
    ensures |Without(m, s).Keys| == |m.Keys| - |s|
  {
    assert Without(m, s).Keys == m.Keys - s;
    SetDifferenceSize(m.Keys, s);
  }

  /** The ids of the sessions in `m` last active before `cutoff`. */
  function ExpiredIds(m: map<string, UserSession>, cutoff: int): (r: set<string>)
    reads m.Values
    ensures r <= m.Keys
  {
    set id | id in m && m[id].lastActivity < cutoff
  }

  /** Removing a subset takes away exactly its size. */
  lemma SetDifferenceSize<T>(a: set<T>, b: set<T>)
    requires b <= a
    ensures |a - b| == |a| - |b|
  {
    assert a == (a - b) + b;
    assert (a - b) * b == {};
  }
}
