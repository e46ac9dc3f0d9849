/** The server's own form of the support flow: methods that change the tables in place, each proved to take
    steps of the flow. A method here runs without being interrupted; `SupportFlow` interleaves its steps. */
module SupportServer {
  import opened Common
  import opened Entities
  import opened SupportFlow
  import opened SupportRuns

  datatype Outcome = Created | Duplicate | NotFound

  class Server {
    var requests: map<Id, Request>
    var sessions: map<Id, Session>
    var images: set<Id>
    var uploaded: set<Id>
    var reserved: set<Id>
    var creators: map<Id, Creator>
    var cleaners: map<Id, Cleaner>

    ghost function View(): State
      reads this
    {
      State(requests, sessions, images, uploaded, reserved, creators, cleaners)
    }

    constructor ()
      ensures View() == EMPTY
    {
      requests, sessions, images, uploaded, reserved, creators, cleaners := map[], map[], {}, {}, {}, map[], map[];
    }

    method HasActiveSupportRequest(user: Id) returns (found: bool)
      ensures found == HasActiveRequest(View(), user)
      ensures found <==> exists r :: r in requests && requests[r].user == user
                                     && (requests[r].status == Pending || requests[r].status == InSupport)
    {
      found := exists r | r in requests :: requests[r].user == user && requests[r].status in {Pending, InSupport};
    }

    method HasOpenSupportSession(user: Id) returns (found: bool)
      ensures found == HasOpenSession(View(), user)
      ensures found <==> exists n :: n in sessions && sessions[n].user == user && sessions[n].status != Ended
    {
      found := exists n | n in sessions :: sessions[n].user == user && sessions[n].status != Ended;
    }

    method Reached(tx: Id, stage: Stage)
      requires tx in creators
      modifies `creators
      ensures View() == Reach(old(View()), tx, stage)
    {
      creators := creators[tx := creators[tx].(stage := stage)];
    }

    method EndTransaction(tx: Id)
      modifies `creators
      ensures View() == Leave(old(View()), tx)
    {
      creators := creators - {tx};
    }

    method LockUserRow(tx: Id, user: Id, request: Id, screenshot: Id, fromRun: bool)
      requires Inv(View()) && Fair(View(), ELockUser(tx, user, request, screenshot, fromRun))
      requires forall t :: t in creators ==> creators[t].user != user
      modifies `creators
      ensures Inv(View()) && tx !in old(creators)
      ensures View() == LockUser(old(View()), tx, user, request, screenshot, fromRun)
      ensures creators == old(creators)[tx := Creator(user, request, screenshot, fromRun, UserLocked)]
    {
      hide Inv;
      LockUserKeeps(View(), tx, user, request, screenshot, fromRun);
      creators := creators[tx := Creator(user, request, screenshot, fromRun, UserLocked)];
    }

    /** The two duplicate checks under the user lock. */
    method CheckDuplicates(tx: Id) returns (duplicate: bool)
      requires Inv(View()) && At(View(), tx, false, UserLocked)
      modifies `creators
      ensures Inv(View()) && View() == CheckOpen(CheckActive(old(View()), tx), tx)
      ensures var user := old(creators)[tx].user;
              duplicate == (HasActiveRequest(View(), user) || HasOpenSession(View(), user))
      ensures creators == if duplicate then old(creators) - {tx}
                          else old(creators)[tx := old(creators)[tx].(stage := NoOpen)]
    {
      hide Inv;
      var user := creators[tx].user;
      CheckActiveKeeps(View(), tx);
      duplicate := HasActiveSupportRequest(user);
      if !duplicate {
        Reached(tx, NoActive);
        CheckOpenKeeps(View(), tx);
        duplicate := HasOpenSupportSession(user);
      }
      if duplicate {
        LeaveKeeps(View(), tx);
        assert creators - {tx} == old(creators) - {tx};
        EndTransaction(tx);
      } else {
        Reached(tx, NoOpen);
      }
    }

    /** Locks the image row and looks for a deletion task. */
    method LockAvailableImage(tx: Id) returns (found: bool)
      requires Inv(View()) && At(View(), tx, false, NoOpen) && !LockedByOther(View(), tx, creators[tx].screenshot)
      modifies `creators
      ensures Inv(View()) && View() == CheckReserved(LockImage(old(View()), tx), tx)
      ensures found == (old(creators)[tx].screenshot in images && old(creators)[tx].screenshot !in reserved)
      ensures creators == if found then old(creators)[tx := old(creators)[tx].(stage := ImageClear)]
                          else old(creators) - {tx}
    {
      hide Inv, LockedByOther;
      var image := creators[tx].screenshot;
      LockImageKeeps(View(), tx);
      found := image in images;
      if found {
        Reached(tx, ImageLocked);
        CheckReservedKeeps(View(), tx);
        found := image !in reserved;
      }
      if found {
        Reached(tx, ImageClear);
      } else {
        assert creators - {tx} == old(creators) - {tx};
        EndTransaction(tx);
      }
    }

    /** The transaction of one request, statement by statement, when no lock makes it wait: it creates the
        request exactly if the user has no live one and the image is there and not reserved for deletion. */
    method CreateSupportRequest(tx: Id, user: Id, request: Id, screenshot: Id) returns (outcome: Outcome)
      requires Inv(View()) && Fair(View(), ELockUser(tx, user, request, screenshot, false))
      requires forall t :: t in creators ==> creators[t].user != user
      requires !LockedByOther(View(), tx, screenshot)
      modifies `creators, `requests
      ensures Inv(View())
      ensures creators == old(creators)
      ensures requests == if outcome == Created
                          then old(requests)[request := Request(user, screenshot, false, Pending, None, 1)]
                          else old(requests)
      ensures outcome == Duplicate <==> HasActiveRequest(old(View()), user) || HasOpenSession(old(View()), user)
      ensures outcome == NotFound <==> !HasActiveRequest(old(View()), user) && !HasOpenSession(old(View()), user)
                                       && (screenshot !in images || screenshot in reserved)
    {
      hide Inv, HasActiveRequest, HasOpenSession, LockedByOther, Fair, LockUser, CheckActive, CheckOpen, LockImage,
           CheckReserved, InsertRequest;
      LockUserRow(tx, user, request, screenshot, false);
      SameQueries(old(View()), View(), tx, screenshot);
      assert creators - {tx} == old(creators);
      var duplicate := CheckDuplicates(tx);
      if duplicate {
        return Duplicate;
      }
      SameQueries(old(View()), View(), tx, screenshot);
      var found := LockAvailableImage(tx);
      if !found {
        return NotFound;
      }
      InsertPlainRequest(tx);
      return Created;
    }

    method InsertPlainRequest(tx: Id)
      requires Inv(View()) && At(View(), tx, false, ImageClear)
      modifies `creators, `requests
      ensures Inv(View()) && View() == InsertRequest(old(View()), tx)
      ensures var c := old(creators)[tx];
              && requests == old(requests)[c.request := Request(c.user, c.screenshot, false, Pending, None, 1)]
              && creators == old(creators) - {tx}
    {
      hide Inv;
      InsertRequestKeeps(View(), tx);
      var c := creators[tx];
      requests := requests[c.request := Request(c.user, c.screenshot, false, Pending, None, 1)];
      EndTransaction(tx);
    }

    /** The transaction of one request from a guide run, when no lock makes it wait: it creates the request under
        the same conditions, found out by one statement on the user's flow and one unlocked read of the image. */
    method CreateSupportRequestFromGuideRun(tx: Id, user: Id, request: Id, screenshot: Id) returns (outcome: Outcome)
      requires Inv(View()) && Fair(View(), ELockUser(tx, user, request, screenshot, true))
      requires forall t :: t in creators ==> creators[t].user != user
      requires !LockedByOther(View(), tx, screenshot)
      modifies `creators, `requests
      ensures Inv(View())
      ensures creators == old(creators)
      ensures requests == if outcome == Created
                          then old(requests)[request := Request(user, screenshot, true, Pending, None, 1)]
                          else old(requests)
      ensures outcome == Duplicate <==> HasActiveRequest(old(View()), user) || HasOpenSession(old(View()), user)
      ensures outcome == NotFound <==> !HasActiveRequest(old(View()), user) && !HasOpenSession(old(View()), user)
                                       && (screenshot !in images || screenshot in reserved)
    {
      hide Inv, HasActiveRequest, HasOpenSession, LockedByOther, Fair, LockUser, CheckFlow, ReadImage, InsertFromRun;
      LockUserRow(tx, user, request, screenshot, true);
      SameQueries(old(View()), View(), tx, screenshot);
      assert creators - {tx} == old(creators);
      var active := CheckRunFlow(tx);
      if active {
        return Duplicate;
      }
      SameQueries(old(View()), View(), tx, screenshot);
      var found := ReadRunImage(tx);
      if !found {
        return NotFound;
      }
      SameQueries(old(View()), View(), tx, screenshot);
      InsertRunRequest(tx);
      return Created;
    }

    /** One statement looks for a request or a session of the user that is under way. */
    method CheckRunFlow(tx: Id) returns (active: bool)
      requires Inv(View()) && At(View(), tx, true, UserLocked)
      modifies `creators
      ensures Inv(View()) && View() == CheckFlow(old(View()), tx)
      ensures var user := old(creators)[tx].user;
              active == (HasActiveRequest(View(), user) || HasOpenSession(View(), user))
      ensures creators == if active then old(creators) - {tx}
                          else old(creators)[tx := old(creators)[tx].(stage := FlowClear)]
    {
      hide Inv;
      CheckFlowKeeps(View(), tx);
      var user := creators[tx].user;
      var request := HasActiveSupportRequest(user);
      var session := HasOpenSupportSession(user);
      active := request || session;
      if active {
        EndTransaction(tx);
      } else {
        Reached(tx, FlowClear);
      }
    }

    /** Reads the image, if it is there and not reserved, without locking it. */
    method ReadRunImage(tx: Id) returns (found: bool)
      requires Inv(View()) && At(View(), tx, true, FlowClear)
      modifies `creators
      ensures Inv(View()) && View() == ReadImage(old(View()), tx)
      ensures found == (old(creators)[tx].screenshot in images && old(creators)[tx].screenshot !in reserved)
      ensures creators == if found then old(creators)[tx := old(creators)[tx].(stage := ImageRead)]
                          else old(creators) - {tx}
    {
      hide Inv;
      ReadImageKeeps(View(), tx);
      found := creators[tx].screenshot in images && creators[tx].screenshot !in reserved;
      if found {
        Reached(tx, ImageRead);
      } else {
        EndTransaction(tx);
      }
    }

    method InsertRunRequest(tx: Id)
      requires Inv(View()) && Inserts(View(), tx)
      modifies `creators, `requests
      ensures Inv(View()) && View() == InsertFromRun(old(View()), tx)
      ensures var c := old(creators)[tx];
              && requests == old(requests)[c.request := Request(c.user, c.screenshot, true, Pending, None, 1)]
              && creators == old(creators) - {tx}
    {
      hide Inv, LockedByOther;
      InsertFromRunKeeps(View(), tx);
      var c := creators[tx];
      requests := requests[c.request := Request(c.user, c.screenshot, true, Pending, None, 1)];
      EndTransaction(tx);
    }

    method CancelSupportRequest(request: Id, expected: nat) returns (ok: bool)
      modifies `requests
      ensures View() == Cancel(old(View()), request, expected)
      ensures ok <==> request in old(requests) && old(requests)[request].status == Pending
                      && old(requests)[request].session.None? && old(requests)[request].revision == expected
      ensures requests == if !ok then old(requests) else old(requests)[request := old(requests)[request].(
                status := Cancelled, revision := old(requests)[request].revision + 1)]
    {
      ok := request in requests && requests[request].status == Pending && requests[request].session.None?
            && requests[request].revision == expected;
      if ok {
        var r := requests[request];
        requests := requests[request := r.(status := Cancelled, revision := r.revision + 1)];
      }
    }

    method CallUser(request: Id, session: Id, expected: nat) returns (ok: bool)
      modifies `requests, `sessions
      ensures View() == Call(old(View()), request, session, expected)
      ensures ok <==> request in old(requests) && old(requests)[request].status == Pending
                      && old(requests)[request].session.None? && old(requests)[request].revision == expected
      ensures ok ==>
                && requests == old(requests)[request := old(requests)[request].(
                     session := Some(session), revision := old(requests)[request].revision + 1)]
                && sessions == old(sessions)[session := Session(
                     request, old(requests)[request].user, Ringing, false, None, None, None, None, None, None, 1)]
                && Paired(View(), session)
      ensures !ok ==> View() == old(View())
    {
      ok := request in requests && requests[request].revision == expected && requests[request].status == Pending
            && requests[request].session.None?;
      if ok {
        var r := requests[request];
        sessions := sessions[session := NewSession(request, r.user)];
        requests := requests[request := r.(session := Some(session), revision := r.revision + 1)];
      }
    }

    /** Locks the request, then the session, and checks both. */
    method LockPair(session: Id, expected: nat, before: SessionStatus, requestBefore: RequestStatus) returns (ok: bool)
      ensures ok <==> Paired(View(), session) && sessions[session].revision == expected
                      && sessions[session].status == before
                      && requests[sessions[session].request].status == requestBefore
    {
      ok := session in sessions && sessions[session].request in requests
            && requests[sessions[session].request].session == Some(session)
            && sessions[session].revision == expected && sessions[session].status == before
            && requests[sessions[session].request].status == requestBefore;
    }

    method UpdatePair(session: Id, after: Session, requestAfter: RequestStatus)
      requires Paired(View(), session)
      modifies `requests, `sessions
      ensures View() == Advance(old(View()), session, after, requestAfter)
    {
      var n := sessions[session];
      var r := requests[n.request];
      requests := requests[n.request := r.(status := requestAfter, revision := r.revision + 1)];
      sessions := sessions[session := after.(revision := n.revision + 1)];
    }

    method AcceptCall(session: Id, consented: bool, expected: nat) returns (ok: bool)
      modifies `requests, `sessions
      ensures View() == Accept(old(View()), session, consented, expected)
      ensures ok <==> consented && PairIs(old(View()), session, expected, Ringing, Pending)
      ensures ok ==>
                && sessions == old(sessions)[session := old(sessions)[session].(
                     status := Active, consented := true, revision := expected + 1)]
                && RequestMoved(old(View()), View(), old(sessions)[session].request, InSupport)
      ensures !ok ==> View() == old(View())
    {
      ok := LockPair(session, expected, Ringing, Pending);
      ok := ok && consented;
      if ok {
        UpdatePair(session, Accepted(sessions[session]), InSupport);
      }
    }

    /** The problem is solved, and it is decided whether there is to be a guide: with one the session goes on to
        collect material for it, without one it has ended. Either way the request is resolved. */
    method ResolveSession(session: Id, createGuide: bool, expected: nat) returns (ok: bool)
      modifies `requests, `sessions
      ensures View() == Resolve(old(View()), session, createGuide, expected)
      ensures ok <==> PairIs(old(View()), session, expected, Active, InSupport)
      ensures ok && createGuide ==> sessions == old(sessions)[session := old(sessions)[session].(
                status := GeneratingGuide, decision := Some(CreateGuide), revision := expected + 1)]
      ensures ok && !createGuide ==> sessions == old(sessions)[session := old(sessions)[session].(
                status := Ended, decision := Some(SkipGuide), reason := Some(GuideSkipped), revision := expected + 1)]
      ensures ok ==> RequestMoved(old(View()), View(), old(sessions)[session].request, Resolved)
      ensures !ok ==> View() == old(View())
    {
      ok := LockPair(session, expected, Active, InSupport);
      if ok {
        UpdatePair(session, Resolution(sessions[session], createGuide), Resolved);
      }
    }

    /** Ends a session whose guide is given up, under the locks of its request and its row. */
    method EndSessionWithoutGuide(session: Id, role: Role, reason: EndReason, jobFailed: bool, expected: nat)
      returns (ok: bool)
      modifies `sessions
      ensures View() == EndWithoutGuide(old(View()), session, role, reason, jobFailed, expected)
      ensures ok <==>
                && session in old(sessions) && old(sessions)[session].revision == expected
                && var n := old(sessions)[session];
                   || (role == User && reason == NoMaterials && n.status == GeneratingGuide && n.batch.None? && n.job.None?)
                   || (role == Family && reason == GuideCancelled && n.status == GeneratingGuide
                       && (n.job.None? || jobFailed))
                   || (role == Family && reason == GuideCancelled && n.status == ReviewingGuide)
      ensures ok ==> CanEnd(old(sessions)[session].status, reason)
      ensures sessions == if !ok then old(sessions) else old(sessions)[session := old(sessions)[session].(
                status := Ended, reason := Some(reason), batch := None, job := None, draft := None, guide := None,
                revision := expected + 1)]
    {
      ok := session in sessions && sessions[session].revision == expected;
      if ok {
        var n := sessions[session];
        match role {
          case User => ok := reason == NoMaterials && n.status == GeneratingGuide && n.batch.None? && n.job.None?;
          case Family =>
            ok := reason == GuideCancelled
                  && (n.status == ReviewingGuide || (n.status == GeneratingGuide && (n.job.None? || jobFailed)));
        }
      }
      if ok {
        var n := sessions[session];
        sessions := sessions[session := n.(
          status := Ended, reason := Some(reason), batch := None, job := None, draft := None, guide := None,
          revision := n.revision + 1)];
      }
    }

    method EndSavedSession(session: Id, expected: nat) returns (ok: bool)
      modifies `sessions
      ensures View() == EndSaved(old(View()), session, expected)
      ensures ok <==> session in old(sessions) && old(sessions)[session].revision == expected
                      && old(sessions)[session].status == GuideSaved
                      && old(sessions)[session].guide.Some? && old(sessions)[session].draft.Some?
      ensures sessions == if !ok then old(sessions) else old(sessions)[session := old(sessions)[session].(
                status := Ended, reason := Some(GuideKept), revision := expected + 1)]
    {
      ok := session in sessions && sessions[session].revision == expected && sessions[session].status == GuideSaved
            && sessions[session].guide.Some? && sessions[session].draft.Some?;
      if ok {
        var n := sessions[session];
        sessions := sessions[session := n.(status := Ended, reason := Some(GuideKept), revision := n.revision + 1)];
      }
    }
  }

  /** Session and request belong to each other, at this revision and in these states. */
  predicate PairIs(s: State, session: Id, expected: nat, status: SessionStatus, requestStatus: RequestStatus) {
    && session in s.sessions && s.sessions[session].revision == expected && s.sessions[session].status == status
    && s.sessions[session].request in s.requests
    && s.requests[s.sessions[session].request].session == Some(session)
    && s.requests[s.sessions[session].request].status == requestStatus
  }

  /** This request has a new status and a new revision; nothing else about any request changed. */
  predicate RequestMoved(s: State, s': State, request: Id, status: RequestStatus) {
    && request in s.requests
    && s'.requests == s.requests[request := s.requests[request].(
         status := status, revision := s.requests[request].revision + 1)]
  }

  /** What the queries see does not depend on how far this transaction itself has got. */
  lemma SameQueries(s: State, s': State, tx: Id, image: Id)
    requires s' == s.(creators := s'.creators) && tx in s'.creators && s'.creators - {tx} == s.creators - {tx}
    ensures forall user :: HasActiveRequest(s', user) == HasActiveRequest(s, user)
    ensures forall user :: HasOpenSession(s', user) == HasOpenSession(s, user)
    ensures LockedByOther(s', tx, image) == LockedByOther(s, tx, image)
  {
    assert forall t :: t != tx ==>
      (t in s.creators <==> t in s.creators - {tx}) && (t in s'.creators <==> t in s'.creators - {tx});
    assert forall t :: t != tx && t in s.creators ==> s'.creators[t] == (s'.creators - {tx})[t] == s.creators[t];
  }
}
