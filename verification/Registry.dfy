/** The list of sessions, and the file operations that create, attach, detach and destroy them. */
module Registry {
  import opened Bytes
  import opened Hba
  import opened Device
  import Q = Queue

  class Sessions {
    // session_queue: the sessions in the order of creation
    var sessions: seq<Session>

    constructor ()
      ensures Valid() && sessions == []
    {
      sessions := [];
    }

    ghost predicate Valid()
      reads this, sessions, set s, i: int | s in sessions && 0 <= i < |s.queue| :: s.queue[i],
        set s, c | s in sessions && c in s.commands :: c
    {
      && (forall s :: s in sessions ==> s.Valid())
      && (forall i, j :: 0 <= i < j < |sessions| ==> sessions[i] != sessions[j] && sessions[i].devId != sessions[j].devId)
      && (forall s, t :: s in sessions && t in sessions && s != t ==> s.commands !! t.commands)
    }

    /** scsitap_get_session. */
    method GetSession(id: nat) returns (session: Session?)
      ensures session != null ==> session in sessions && session.devId == id
      ensures session == null ==> forall s :: s in sessions ==> s.devId != id
    {
      for i := 0 to |sessions|
        invariant forall j :: 0 <= j < i ==> sessions[j].devId != id
      {
        if sessions[i].devId == id {
          return sessions[i];
        }
      }
      return null;
    }

    /** scsitap_create_session: fails if the mid layer cannot allocate or add the host. */
    method CreateSession(id: nat, hostAdded: bool, ghost base: nat) returns (session: Session?)
      requires Valid() && forall s :: s in sessions ==> s.devId != id
      modifies this
      ensures Valid()
      ensures !hostAdded ==> session == null && sessions == old(sessions)
      ensures hostAdded ==>
                && session != null && fresh(session) && session.devId == id && session.View() == Q.NewSession(base)
                && session.queue == [] && session.next == base && sessions == old(sessions) + [session]
    {
      if !hostAdded {
        return null;
      }
      session := new Session(id, base);
      sessions := sessions + [session];
    }

    /** The stores that count a registration. */
    static method AttachTo(session: Session)
      requires session.Valid()
      modifies session`deviceOpen, session`flags
      ensures session.Valid() && session.View() == Q.Attach(old(session.View()))
    {
      session.deviceOpen := (session.deviceOpen + 1) % 256;
      session.flags := CONNECTION_READY;
      session.Reflagged();
    }

    /** The session of this minor number, created if need be. */
    method FindOrCreate(id: nat, hostAdded: bool, ghost base: nat) returns (session: Session?)
      requires Valid()
      modifies this
      ensures Valid() && (session != null ==> session in sessions)
      ensures forall s :: s in old(sessions) && s.devId == id ==> session == s && sessions == old(sessions)
      ensures (forall s :: s in old(sessions) ==> s.devId != id) ==>
                if !hostAdded then session == null && sessions == old(sessions)
                else && session != null && fresh(session) && session.devId == id && session.View() == Q.NewSession(base)
                     && session.queue == [] && session.next == base && sessions == old(sessions) + [session]
    {
      hide Session.Valid, Session.View;
      session := GetSession(id);
      if session == null {
        session := CreateSession(id, hostAdded, base);
      }
    }

    /** SCSITAP_IOCTL_REGISTER_CLIENT. */
    method Register(file: CtlFile, hostAdded: bool, ghost base: nat) returns (ret: int)
      requires Valid()
      modifies this, file`privateData, sessions`deviceOpen, sessions`flags
      ensures Valid()
      ensures forall s :: s in old(sessions) && s.devId != file.minor ==> s.View() == old(s.View())
      ensures forall s :: s in old(sessions) && s.devId == file.minor ==>
                ret == SUCCESS && file.privateData == s && sessions == old(sessions)
                  && s.View() == Q.Attach(old(s.View()))
      ensures (forall s :: s in old(sessions) ==> s.devId != file.minor) ==>
                if !hostAdded then ret == -1 && file.privateData == old(file.privateData) && sessions == old(sessions)
                else && ret == SUCCESS && file.privateData != null && fresh(file.privateData)
                     && file.privateData.devId == file.minor && sessions == old(sessions) + [file.privateData]
                     && file.privateData.View() == Q.Attach(Q.NewSession(base))
                     && file.privateData.queue == [] && file.privateData.next == base
    {
      hide Session.Valid, Views;
      var session := FindOrCreate(file.minor, hostAdded, base);
      if session == null {
        return -1;
      }
      file.privateData := session;
      AttachTo(session);
      assert forall s :: s in sessions ==> s.Valid();
      return SUCCESS;
    }

    /** scsitap_ctl_release on a file whose session is live. */
    method Release(file: CtlFile)
      requires Valid() && (file.privateData != null ==> file.privateData in sessions)
      modifies (if file.privateData == null then {} else {file.privateData})`deviceOpen,
        (if file.privateData == null then {} else {file.privateData})`flags
      ensures Valid() && sessions == old(sessions)
      ensures file.privateData != null ==> file.privateData.View() == Q.Detach(old(file.privateData.View()))
    {
      var session := file.privateData;
      if session != null {
        session.deviceOpen := if session.deviceOpen == 0 then 255 else session.deviceOpen - 1;
        if session.deviceOpen == 0 {
          session.flags := CONNECTION_NOT_READY;
        }
      }
    }

    lemma CommandsOf(session: Session)
      requires session.Valid()
      ensures forall t :: t in session.queue ==> t.sc in session.commands
    {
    }

    /** Taking one session off the list keeps the others apart. */
    lemma WithoutOne(before: seq<Session>, i: nat)
      requires i < |before| && sessions == Q.Without(before, i) && forall s :: s in before ==> s.Valid()
      requires forall i, j :: 0 <= i < j < |before| ==> before[i] != before[j] && before[i].devId != before[j].devId
      requires forall s, t :: s in before && t in before && s != t ==> s.commands !! t.commands
      ensures Valid() && before[i] !in sessions
    {
      hide Session.Valid;
      assert forall k :: 0 <= k < |sessions| ==> sessions[k] == before[if k < i then k else k + 1];
    }

    /** scsitap_destroy_session. */
    method DestroySession(session: Session) returns (rc: int)
      requires Valid() && session in sessions
      modifies this, session, set t | t in session.queue :: t.sc
      ensures Valid()
      ensures old(session.deviceOpen) != 0 ==>
                rc == 1 && sessions == old(sessions) && session.View() == old(session.View())
                  && session.handed == old(session.handed) && session.queue == old(session.queue)
                  && session.next == old(session.next)
      ensures old(session.deviceOpen) == 0 ==>
                && rc == 0 && session !in sessions
                  && sessions == Q.Without(old(sessions), Position(old(sessions), session))
                && session.queue == [] && session.cmdNumbers == 0
                && session.handed == old(session.handed) + Commands(old(session.queue))
                && forall t :: t in old(session.queue) ==> t.sc.ptr == null && NotConnected(t.sc, old(t.sc.sense))
    {
      if session.deviceOpen != 0 {
        return 1;
      }
      hide Views, Session.Valid, NotConnected;
      CommandsOf(session);
      session.HandBackAll();
      assert forall s :: s in sessions ==> s.Valid();
      ghost var before, i := sessions, Position(sessions, session);
      sessions := Q.Without(sessions, Position(sessions, session));
      WithoutOne(before, i);
      return 0;
    }

    /** SCSITAP_IOCTL_UNREGISTER_CLIENT: destroys the session of this minor number unless registrations are counted. */
    method Unregister(minor: nat) returns (ret: int)
      requires Valid()
      modifies this, sessions, set s, t | s in sessions && t in s.queue :: t.sc
      ensures Valid()
      ensures (forall s :: s in old(sessions) ==> s.devId != minor) ==> ret == -1 && sessions == old(sessions)
      ensures forall s :: s in old(sessions) && s.devId != minor ==>
                s.View() == old(s.View()) && s.handed == old(s.handed)
      ensures forall s :: s in old(sessions) && s.devId == minor ==>
                if old(s.deviceOpen) != 0 then
                  && ret == -1 && sessions == old(sessions) && s.View() == old(s.View()) && s.handed == old(s.handed)
                  && s.queue == old(s.queue) && s.next == old(s.next)
                else
                  && ret == SUCCESS && sessions == Q.Without(old(sessions), Position(old(sessions), s))
                  && s.queue == [] && s.handed == old(s.handed) + Commands(old(s.queue))
                  && forall t :: t in old(s.queue) ==> t.sc.ptr == null && NotConnected(t.sc, old(t.sc.sense))
    {
      hide Session.Valid, Views, NotConnected;
      var session := GetSession(minor);
      if session == null {
        return -1;
      }
      var rc := DestroySession(session);
      return if rc != 0 then -1 else SUCCESS;
    }
  }

  /** SCSITAP_IOCTL_RECEIVE_TASK on a file with a session. */
  method ReceiveTask(file: CtlFile, arg: nat) returns (ret: int)
    requires file.privateData != null ==> file.privateData.Valid()
    modifies if file.privateData == null then {} else set t | t in file.privateData.queue
    ensures file.privateData == null ==> ret == -1
    ensures file.privateData != null ==>
              var s := file.privateData;
              && s.Valid()
              && (old(s.flags) != CONNECTION_READY ==> ret == -1 && s.View() == old(s.View()))
              && (old(s.flags) == CONNECTION_READY ==>
                    s.View() == Q.Claim(old(s.View()), arg % TWO32)
                    && ret == if Q.IndexOfNum(old(s.View()).queue, arg % TWO32) < |s.queue| then SUCCESS else 0)
  {
    var session := file.privateData;
    if session == null {
      return -1;
    }
    if session.flags != CONNECTION_READY {
      // the source returns here with the queue lock held
      return -1;
    }
    var task := session.TaskOfCmd(arg % TWO32);
    if task == null {
      return 0;
    }
    ghost var i := Q.IndexOfNum(session.View().queue, arg % TWO32);
    session.OnlyAt(i);
    ghost var v := session.View();
    task.flags := TASK_RECEIVED;
    session.Reflagged();
    assert Views(session.queue) == v.queue[i := v.queue[i].(flag := Q.Received)];
    return SUCCESS;
  }

  /** SCSITAP_IOCTL_SET_TASK. */
  method SetTask(file: CtlFile, arg: nat) returns (ret: int)
    modifies file`fPos
    ensures ret == SUCCESS && file.fPos == arg
  {
    file.fPos := arg;
    return SUCCESS;
  }
}
