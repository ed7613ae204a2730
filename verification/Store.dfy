/** The store of sessions: one writer object per session id, loaded from its file when it has one. */
module Store {
  import opened Wrappers
  import opened Json
  import opened Decide
  import opened Ledger
  import opened GateSpec
  import opened Chain
  import opened Shell

  /** The sessions this process holds, by their views. */
  type Views = map<string, View>

  /** A session's view and the views after a call; a refusal may leave a session opened before it. */
  datatype Outcome<T> = Outcome(views: Views, result: Result<T>)

  type Files = map<string, seq<Record>>

  /** An existing session only. */
  function Existing(files: Files, views: Views, sid: string, c: Config): Result<View> {
    if sid in views then Ok(views[sid]) else if sid in files then LoadFile(c, sid, files[sid]) else Err("unknown_session")
  }

  /** An existing session, or an empty one. */
  function Admitted(files: Files, views: Views, sid: string, c: Config): Result<View> {
    if sid in views then Ok(views[sid]) else LoadFile(c, sid, if sid in files then files[sid] else [])
  }

  /** Opening leaves the session registered even when its opening event is refused. */
  function OpenCall(files: Files, views: Views, sid: string, principal: string, c: Config): Outcome<View> {
    match Admitted(files, views, sid, c)
    case Err(code) => Outcome(views, Err(code))
    case Ok(v) =>
      match OpenStep(v, principal, c)
      case Err(code) => Outcome(views[sid := v], Err(code))
      case Ok(w) => Outcome(views[sid := w], Ok(w))
  }

  class SessionStore {
    const c: Config
    const sign: Sign
    const files: Files
    var sessions: map<string, Session>

    /** The objects a call on some session may write. */
    ghost function Writers(): set<object>
      reads this
    {
      sessions.Values + set id | id in sessions :: sessions[id].log
    }

    ghost function WritersOf(sid: string): set<object>
      reads this
    {
      if sid in sessions then {sessions[sid], sessions[sid].log} else {}
    }

    ghost predicate Owns(id: string)
      requires id in sessions
      reads this, sessions[id], sessions[id].log
    {
      && sessions[id].Valid() && sessions[id].sessionId == id && sessions[id].c == c && sessions[id].log.sign == sign
    }

    /** No two sessions share a writer or a log. */
    ghost predicate Separate()
      reads this
    {
      forall i, j :: i in sessions && j in sessions && i != j ==> sessions[i] != sessions[j] && sessions[i].log != sessions[j].log
    }

    ghost predicate Valid()
      reads this, Writers()
    {
      Separate() && forall id :: id in sessions ==> Owns(id)
    }

    ghost function Views(): Views
      reads this, Writers()
    {
      map id | id in sessions :: sessions[id].View()
    }

    constructor (c: Config, sign: Sign, files: Files)
      ensures Valid() && this.c == c && this.sign == sign && this.files == files && Views() == map[]
    {
      this.c, this.sign, this.files, sessions := c, sign, files, map[];
    }

    /** Reads a file into a session object; nothing is registered yet. */
    method Load(sid: string, records: seq<Record>) returns (r: Result<Session>)
      ensures r.Ok? <==> LoadFile(c, sid, records).Ok?
      ensures r.Err? ==> r == Err(LoadFile(c, sid, records).code)
      ensures r.Ok? ==> fresh(r.value) && fresh(r.value.log) && r.value.Valid() && r.value.sessionId == sid && r.value.c == c
      ensures r.Ok? ==> r.value.log.sign == sign && Ok(r.value.View()) == LoadFile(c, sid, records)
    {
      hide Problems, Fold, Chained;
      var problems := VerifyChain(c.bundle.sha, None, records);
      if problems != [] { return Err("broken_chain"); }
      VerifiedIsChained(c.bundle.sha, records);
      var state := FoldLog(sid, BodiesOf(records), CounterNames(c));
      if state.Err? { return Err(state.code); }
      var log := new EventLog(c.bundle.sha, sign, records);
      var session := new Session(c, sid, log, state.value);
      r := Ok(session);
    }

    /** Adds a session nobody else writes. */
    method Register(session: Session)
      requires Valid() && session.Valid() && session.sessionId !in sessions && session.c == c
               && session.log.sign == sign
      requires forall id :: id in sessions ==> sessions[id] != session && sessions[id].log != session.log
      modifies this
      ensures Valid() && sessions == old(sessions)[session.sessionId := session]
      ensures Views() == old(Views())[session.sessionId := session.View()]
    {
      hide Session.Valid, Session.View;
      ghost var before := sessions;
      sessions := sessions[session.sessionId := session];
      forall id | id in sessions ensures Owns(id) {
        if id in before { assert sessions[id] == before[id]; }
      }
    }

    ghost predicate Holds(session: Session)
      reads this, Writers()
    {
      Valid() && session.sessionId in sessions && sessions[session.sessionId] == session
    }

    /** The registered session under an id, or the one these records make. */
    method Enter(sid: string, records: seq<Record>) returns (r: Result<Session>)
      requires Valid()
      modifies this
      ensures Valid()
      ensures match (if sid in old(Views()) then Ok(old(Views())[sid]) else LoadFile(c, sid, records))
        case Err(code) => r == Err(code) && sessions == old(sessions) && Views() == old(Views())
        case Ok(v) => r.Ok? && Holds(r.value) && r.value.sessionId == sid && r.value.View() == v && Views() == old(Views())[sid := v]
      ensures r.Ok? && sid in old(sessions) ==> r.value == old(sessions)[sid]
      ensures r.Ok? && sid !in old(sessions) ==> fresh(r.value) && fresh(r.value.log)
    {
      hide LoadFile, Session.Valid, Session.View;
      if sid in sessions {
        assert Owns(sid);
        assert Views()[sid := Views()[sid]] == Views();
        return Ok(sessions[sid]);
      }
      r := Load(sid, records);
      if r.Ok? { Register(r.value); }
    }

    /** An existing session only: execution and settlement never create one. */
    method Get(sid: string) returns (r: Result<Session>)
      requires Valid()
      modifies this
      ensures Valid()
      ensures match Existing(files, old(Views()), sid, c)
        case Err(code) => r == Err(code) && sessions == old(sessions) && Views() == old(Views())
        case Ok(v) => r.Ok? && Holds(r.value) && r.value.sessionId == sid && r.value.View() == v && Views() == old(Views())[sid := v]
      ensures r.Ok? && sid in old(sessions) ==> r.value == old(sessions)[sid]
      ensures r.Ok? && sid !in old(sessions) ==> fresh(r.value) && fresh(r.value.log)
    {
      hide LoadFile, Session.Valid, Session.View;
      if sid !in sessions && sid !in files { return Err("unknown_session"); }
      r := Enter(sid, if sid in files then files[sid] else []);
    }

    lemma SameView(session: Session)
      requires Holds(session)
      ensures Views()[session.sessionId := session.View()] == Views() && session.View().state.sessionId == session.sessionId
      ensures |session.View().log| == |session.log.records|
    {
      hide Session.Valid;
      assert Owns(session.sessionId);
      session.StateNamesSession();
    }

    /** One append, seen from the store: only this session's view moves. */
    method Append(session: Session, body: Body) returns (r: Result<nat>)
      requires Holds(session)
      modifies session, session.log
      ensures Holds(session) && sessions == old(sessions)
      ensures match GateSpec.Append(old(session.View()), body, CounterNames(c))
        case Ok(next) => r == Ok(|old(session.View().log)|) && session.View() == next && Views() == old(Views())[session.sessionId := next]
        case Err(code) => r == Err(code) && session.View() == old(session.View()) && Views() == old(Views())
    {
      hide GateSpec.Append, Session.Valid;
      ghost var sid := session.sessionId;
      assert Owns(sid);
      r := session.Append(body);
      forall id | id in sessions ensures Owns(id) && (id != sid ==> sessions[id].View() == old(sessions[id].View())) {
        if id != sid { assert old(Owns(id)); }
      }
    }

    /** The opening event, unless the session is open already. */
    method OpenSession(session: Session, principal: string) returns (r: Result<Session>)
      requires Holds(session)
      modifies session, session.log
      ensures Holds(session) && sessions == old(sessions)
      ensures match OpenStep(old(session.View()), principal, c)
        case Ok(next) => r == Ok(session) && session.View() == next && Views() == old(Views())[session.sessionId := next]
        case Err(code) => r == Err(code) && session.View() == old(session.View()) && Views() == old(Views())
    {
      hide Session.Valid, GateSpec.Append;
      assert Owns(session.sessionId);
      session.StateNamesSession();
      r := Ok(session);
      if session.state.principal.None? {
        var step := Append(session, SessionOpened(principal, session.sessionId));
        if step.Err? { r := Err(step.code); }
      } else {
        assert Views()[session.sessionId := session.View()] == Views();
      }
    }

    /** The session under this id, opened by this principal unless it is open already. */
    method Open(sid: string, principal: string) returns (r: Result<Session>)
      requires Valid()
      modifies this, WritersOf(sid)
      ensures Valid()
      ensures var call := OpenCall(files, old(Views()), sid, principal, c);
        && Views() == call.views
        && (match call.result
            case Err(code) => r == Err(code)
            case Ok(v) => r.Ok? && Holds(r.value) && r.value.sessionId == sid && r.value.View() == v)
      ensures r.Ok? && sid in old(sessions) ==> r.value == old(sessions)[sid]
      ensures r.Ok? && sid !in old(sessions) ==> fresh(r.value) && fresh(r.value.log)
    {
      hide LoadFile, Session.Valid, Session.View, OpenStep, SessionStore.Views, SessionStore.Valid, Separate, Owns;
      r := Enter(sid, if sid in files then files[sid] else []);
      if r.Ok? { r := OpenSession(r.value, principal); }
    }
  }
}
