/** The cloud session: memory and durable token store, changed by logins, logouts and single-flight refreshes. */
module CloudSessions {
  import opened Basics

  datatype CloudTokens = CloudTokens(accessToken: string, refreshToken: string, accessExpiresAt: Option<int>)

  datatype AccountSummary = AccountSummary(userId: string, email: string)

  datatype StoredSession = StoredSession(tokens: CloudTokens, account: AccountSummary)

  datatype SessionState = Active(tokens: CloudTokens, account: AccountSummary) | Expired(account: AccountSummary)

  datatype SessionError = Storage | NotSignedIn | RefreshFailed(code: Option<string>) | AccountChanged

  /** What a refresh captured before releasing the state lock for the remote call. */
  datatype Flight = Flight(refreshToken: string, account: AccountSummary)

  /**
   * `flight` is the refresh that holds the refresh lock. `issued` and `spent` are bookkeeping: every refresh
   * token the server has handed out, and those whose rotation took effect on this side.
   */
  datatype Session = Session(memory: Option<SessionState>, stored: Option<StoredSession>, flight: Option<Flight>,
                             issued: set<string>, spent: set<string>)

  datatype RefreshReply = Rotated(tokens: CloudTokens) | RefreshError(error: SessionError)

  predicate IsTerminalAuthCode(code: string)
  {
    code in {"AUTH_REFRESH_TOKEN_EXPIRED", "AUTH_REFRESH_TOKEN_INVALID", "AUTH_REFRESH_TOKEN_REUSED",
        "AUTH_SESSION_REVOKED"}
  }

  predicate IsTerminal(reply: RefreshReply)
  {
    reply.RefreshError? && reply.error.RefreshFailed? && reply.error.code.Some?
        && IsTerminalAuthCode(reply.error.code.value)
  }

  predicate Blank(s: string) { Trim(s) == "" }

  predicate Acceptable(tokens: CloudTokens, account: AccountSummary)
  {
    !Blank(tokens.accessToken) && !Blank(tokens.refreshToken) && !Blank(account.userId) && !Blank(account.email)
  }

  /** The session still is the one the refresh started from. */
  predicate Unchanged(s: Session, flight: Flight)
  {
    s.memory.Some? && s.memory.value.Active?
    && s.memory.value.account.userId == flight.account.userId
    && s.memory.value.tokens.refreshToken == flight.refreshToken
  }

  // ---- transitions ------------------------------------------------------------------------

  datatype Event =
    | ApplyTokens(tokens: CloudTokens, account: AccountSummary, saves: bool)
    | ClearLocal(clears: bool)
    | BeginRefresh(expectedUser: Option<string>)
    | FinishRefresh(reply: RefreshReply, answers: bool)

  /** `restore`: memory takes what the store holds, if the store can be read. */
  function Restored(s: Session, loads: bool): Session
  {
    if !loads then s
    else s.(memory := match s.stored
                      case Some(saved) => Some(Active(saved.tokens, saved.account))
                      case None => None)
  }

  function Applied(s: Session, tokens: CloudTokens, account: AccountSummary, saves: bool): Session
  {
    var known := s.(issued := s.issued + {tokens.refreshToken});
    if !Acceptable(tokens, account) then s
    else if !saves then known
    else known.(stored := Some(StoredSession(tokens, account)), memory := Some(Active(tokens, account)))
  }

  function Cleared(s: Session, clears: bool): Session
  {
    if clears then s.(stored := None, memory := None) else s
  }

  predicate MayRefresh(s: Session, expectedUser: Option<string>)
  {
    s.memory.Some? && s.memory.value.Active?
        && (expectedUser.Some? ==> s.memory.value.account.userId == expectedUser.value)
  }

  function Begun(s: Session, expectedUser: Option<string>): Session
  {
    if MayRefresh(s, expectedUser)
    then s.(flight := Some(Flight(s.memory.value.tokens.refreshToken, s.memory.value.account)))
    else s
  }

  function Finished(s: Session, flight: Flight, reply: RefreshReply, answers: bool): Session
  {
    var landed := s.(flight := None);
    match reply
    case RefreshError(_) =>
      if IsTerminal(reply) && Unchanged(s, flight) && answers
      then landed.(stored := None, memory := Some(Expired(flight.account)))
      else landed
    case Rotated(tokens) =>
      var known := landed.(issued := s.issued + {tokens.refreshToken});
      if !Unchanged(s, flight) then known.(spent := s.spent + {flight.refreshToken})
      else if !answers then known
      else known.(stored := Some(StoredSession(tokens, flight.account)), memory := Some(Active(tokens, flight.account)),
                  spent := s.spent + {flight.refreshToken})
  }

  function Next(s: Session, e: Event): Session
  {
    match e
    case ApplyTokens(tokens, account, saves) => Applied(s, tokens, account, saves)
    case ClearLocal(clears) => Cleared(s, clears)
    case BeginRefresh(expectedUser) => Begun(s, expectedUser)
    case FinishRefresh(reply, answers) => if s.flight.Some? then Finished(s, s.flight.value, reply, answers) else s
  }

  /** The refresh lock admits one refresh at a time, and the server never hands out the same refresh token twice. */
  predicate Enabled(s: Session, e: Event)
  {
    match e
    case ApplyTokens(tokens, account, _) => Acceptable(tokens, account) ==> tokens.refreshToken !in s.issued
    case ClearLocal(_) => true
    case BeginRefresh(_) => s.flight.None?
    case FinishRefresh(reply, _) => s.flight.Some? && (reply.Rotated? ==> reply.tokens.refreshToken !in s.issued)
  }

  ghost predicate Takes(ss: seq<Session>, es: seq<Event>, i: nat)
    requires i < |es| && |ss| == |es| + 1
  {
    Enabled(ss[i], es[i]) && ss[i + 1] == Next(ss[i], es[i])
  }

  ghost predicate Run(ss: seq<Session>, es: seq<Event>)
  {
    |ss| == |es| + 1 && forall i :: 0 <= i < |es| ==> Takes(ss, es, i)
  }

  // ---- memory and store agree -------------------------------------------------------------

  /** The store holds a session exactly when memory is active with that very session. */
  predicate Agree(s: Session)
  {
    s.stored == if s.memory.Some?
        && s.memory.value.Active? then Some(StoredSession(s.memory.value.tokens, s.memory.value.account)) else None
  }

  /** Tokens in use were handed out and not rotated away, and one token never serves two accounts. */
  predicate TokensOk(s: Session)
  {
    && (s.memory.Some? && s.memory.value.Active? ==> s.memory.value.tokens.refreshToken in s.issued - s.spent)
    && s.spent <= s.issued
    && (s.flight.Some? ==> s.flight.value.refreshToken in s.issued - s.spent)
    && (s.flight.Some? && s.memory.Some? && s.memory.value.Active?
         && s.memory.value.tokens.refreshToken == s.flight.value.refreshToken
        ==> s.memory.value.account == s.flight.value.account)
  }

  predicate SessionOk(s: Session) { Agree(s) && TokensOk(s) }

  /** A fresh process that could read its store. */
  ghost predicate Started(s: Session)
  {
    exists saved: Option<StoredSession> :: s
        == Restored(Session(None, saved, None, if saved.Some? then {saved.value.tokens.refreshToken} else {}, {}), true)
  }

  lemma NextKeepsSession(s: Session, e: Event)
    requires SessionOk(s) && Enabled(s, e)
    ensures SessionOk(Next(s, e)) && s.spent <= Next(s, e).spent
  {
  }

  /**
   * Memory and store agree in every state that any events lead to, even when any store call fails. Nothing is asked
   * of the server's tokens, or of when a refresh begins or returns.
   */
  lemma {:induction false} MemoryAndStoreAgree(ss: seq<Session>, es: seq<Event>, i: nat)
    requires |ss| == |es| + 1 && (forall k :: 0 <= k < |es| ==> ss[k + 1] == Next(ss[k], es[k]))
    requires Started(ss[0]) && i < |ss|
    ensures Agree(ss[i])
  {
    if i > 0 {
      MemoryAndStoreAgree(ss, es, i - 1);
    }
  }

  lemma {:induction false} RunsKeepSession(ss: seq<Session>, es: seq<Event>, i: nat)
    requires Run(ss, es) && Started(ss[0]) && i < |ss|
    ensures SessionOk(ss[i])
  {
    if i > 0 {
      RunsKeepSession(ss, es, i - 1);
      assert Takes(ss, es, i - 1);
      NextKeepsSession(ss[i - 1], es[i - 1]);
    }
  }

  /** The four answers of the server after which a session is over. */
  predicate EndsSession(reply: RefreshReply)
  {
    || reply == RefreshError(RefreshFailed(Some("AUTH_REFRESH_TOKEN_EXPIRED")))
    || reply == RefreshError(RefreshFailed(Some("AUTH_REFRESH_TOKEN_INVALID")))
    || reply == RefreshError(RefreshFailed(Some("AUTH_REFRESH_TOKEN_REUSED")))
    || reply == RefreshError(RefreshFailed(Some("AUTH_SESSION_REVOKED")))
  }

  /**
   * The events that decide what the session is from then on, and what they make it: a login whose four fields are
   * not blank and whose save succeeds, whatever the session was before; a clear that succeeds; and a refresh of the
   * session that is still there, if the store answers, when the server rotates the token or ends the session.
   */
  function Decides(s: Session, e: Event): Option<Option<SessionState>>
  {
    match e
    case ApplyTokens(tokens, account, saves) =>
      if saves && Trim(tokens.accessToken) != "" && Trim(tokens.refreshToken) != "" && Trim(account.userId) != ""
          && Trim(account.email) != ""
      then Some(Some(Active(tokens, account))) else None
    case ClearLocal(clears) => if clears then Some(None) else None
    case BeginRefresh(_) => None
    case FinishRefresh(reply, answers) =>
      match (s.flight, s.memory) {
        case (Some(flight), Some(Active(tokens, account))) =>
          if !answers || account.userId != flight.account.userId || tokens.refreshToken != flight.refreshToken then None
          else if reply.Rotated? then Some(Some(Active(reply.tokens, flight.account)))
          else if EndsSession(reply) then Some(Some(Expired(flight.account)))
          else None
        case _ => None
      }
  }

  lemma DecisionTakesEffect(s: Session, e: Event)
    ensures Next(s, e).memory == if Decides(s, e).Some? then Decides(s, e).value else s.memory
  {
  }

  /**
   * Over any run: from the last event that decides it on, memory holds exactly the session that event made, and the
   * store holds that session if it is active and nothing otherwise, whatever fails and whatever is refused since.
   */
  lemma {:induction false} SessionIsTheLastDecision(ss: seq<Session>, es: seq<Event>, i: nat, j: nat)
    requires Run(ss, es) && Started(ss[0]) && i < j < |ss| && Decides(ss[i], es[i]).Some?
    requires forall k :: i < k < j ==> Decides(ss[k], es[k]).None?
    ensures ss[j].memory == Decides(ss[i], es[i]).value
    ensures ss[j].stored == match Decides(ss[i], es[i]).value
                            case Some(Active(tokens, account)) => Some(StoredSession(tokens, account))
                            case _ => None
  {
    hide Next, Decides;
    assert Takes(ss, es, j - 1);
    DecisionTakesEffect(ss[j - 1], es[j - 1]);
    if i + 1 < j {
      SessionIsTheLastDecision(ss, es, i, j - 1);
    }
    RunsKeepSession(ss, es, j);
  }

  /** A restore that cannot read the store leaves the two in agreement only if the store was empty. */
  lemma UnreadableRestore(s: Session)
    requires s.memory.None?
    ensures Agree(Restored(s, true))
    ensures Agree(Restored(s, false)) <==> s.stored.None?
  {
  }

  // ---- refreshes in flight ----------------------------------------------------------------

  /** A refresh stays in flight, with what it captured, until it returns. */
  lemma {:induction false} FlightStays(ss: seq<Session>, es: seq<Event>, i: nat, j: nat)
    requires Run(ss, es) && i <= j < |ss| && ss[i].flight.Some?
    requires forall k :: i <= k < j ==> !es[k].FinishRefresh?
    ensures ss[j].flight == ss[i].flight
  {
    if i < j {
      FlightStays(ss, es, i, j - 1);
      assert Takes(ss, es, j - 1);
    }
  }

  /**
   * Whatever logins, logouts and further attempts come while a refresh is in flight: its return installs the new
   * tokens, or the expiry, for exactly the account it started from, if and only if user and refresh token are still
   * those it started from and the store answers; in every other case memory and store stay as they are.
   */
  lemma RefreshNeverOverwrites(ss: seq<Session>, es: seq<Event>, i: nat, j: nat)
    requires Run(ss, es) && i < j < |es| && es[i].BeginRefresh? && MayRefresh(ss[i], es[i].expectedUser)
    requires es[j].FinishRefresh? && forall k :: i < k < j ==> !es[k].FinishRefresh?
    ensures ss[i].memory.Some? && ss[i].memory.value.Active?
    ensures var began, s, v, reply := ss[i].memory.value, ss[j], ss[j + 1], es[j].reply;
            var lands := && es[j].answers && s.memory.Some? && s.memory.value.Active?
                         && s.memory.value.account.userId == began.account.userId
                         && s.memory.value.tokens.refreshToken == began.tokens.refreshToken;
            if lands && reply.Rotated? then
              && v.memory == Some(Active(reply.tokens, began.account))
              && v.stored == Some(StoredSession(reply.tokens, began.account))
            else if lands && EndsSession(reply) then v.memory == Some(Expired(began.account)) && v.stored.None?
            else v.memory == s.memory && v.stored == s.stored
  {
    assert Takes(ss, es, i) && Takes(ss, es, j);
    FlightStays(ss, es, i + 1, j);
  }

  /** The refresher calls of a run: the token each one carries. */
  predicate Presents(s: Session, e: Event, token: string)
  {
    e.BeginRefresh? && MayRefresh(s, e.expectedUser) && s.memory.value.tokens.refreshToken == token
  }

  lemma {:induction false} SpentStaysSpent(ss: seq<Session>, es: seq<Event>, i: nat, j: nat)
    requires Run(ss, es) && Started(ss[0]) && i <= j < |ss|
    ensures ss[i].spent <= ss[j].spent
  {
    if i < j {
      SpentStaysSpent(ss, es, i, j - 1);
      RunsKeepSession(ss, es, j - 1);
      assert Takes(ss, es, j - 1);
      NextKeepsSession(ss[j - 1], es[j - 1]);
    }
  }

  /**
   * Once a refresh with a token has succeeded, and its save succeeded or the session had changed meanwhile,
   * no later refresher call carries that token, whatever logins, logouts and refreshes interleave.
   */
  lemma RotatedTokenIsNeverPresentedAgain(ss: seq<Session>, es: seq<Event>, i: nat, j: nat)
    requires Run(ss, es) && Started(ss[0]) && i < j < |es|
    requires es[i].FinishRefresh? && ss[i].flight.Some? && es[i].reply.Rotated?
    requires es[i].answers || !Unchanged(ss[i], ss[i].flight.value)
    ensures !Presents(ss[j], es[j], ss[i].flight.value.refreshToken)
  {
    assert Takes(ss, es, i);
    SpentStaysSpent(ss, es, i + 1, j);
    RunsKeepSession(ss, es, j);
  }

  /**
   * In every run: right after a successful rotation the old token can be presented again if and only if the
   * session was unchanged and the save failed.
   */
  lemma UnsavedRotationIsReplayed(ss: seq<Session>, es: seq<Event>, i: nat)
    requires Run(ss, es) && Started(ss[0]) && i < |es| && es[i].FinishRefresh? && es[i].reply.Rotated?
    ensures ss[i].flight.Some?
    ensures Presents(ss[i + 1], BeginRefresh(None), ss[i].flight.value.refreshToken)
            <==> Unchanged(ss[i], ss[i].flight.value) && !es[i].answers
  {
    assert Takes(ss, es, i);
    RunsKeepSession(ss, es, i);
  }

  /** A run from an empty store in which the failed save makes a refresh present a token that was rotated before. */
  lemma FailedSaveReplaysToken() returns (ss: seq<Session>, es: seq<Event>)
    ensures Run(ss, es) && Started(ss[0]) && |es| == 4
    ensures es[2].FinishRefresh? && es[2].reply.Rotated? && ss[2].flight.Some?
    ensures Presents(ss[1], es[1], ss[2].flight.value.refreshToken)
    ensures Presents(ss[3], es[3], ss[2].flight.value.refreshToken)
  {
    var account, first, second := AccountSummary("u", "e"), CloudTokens("a", "r", None), CloudTokens("b", "s", None);
    assert Acceptable(first, account);
    es := [ApplyTokens(first, account, true), BeginRefresh(None), FinishRefresh(Rotated(second), false),
        BeginRefresh(None)];
    var s0 := Session(None, None, None, {}, {});
    var s1 := Next(s0, es[0]);
    var s2 := Next(s1, es[1]);
    var s3 := Next(s2, es[2]);
    ss := [s0, s1, s2, s3, Next(s3, es[3])];
    assert s0 == Restored(Session(None, None, None, {}, {}), true);
    assert Takes(ss, es, 0) && Takes(ss, es, 1) && Takes(ss, es, 2) && Takes(ss, es, 3);
  }

  // ---- the imperative session -------------------------------------------------------------

  /** The durable token store; `answers` says whether the backend answers a call. */
  class TokenStore {
    var saved: Option<StoredSession>

    constructor (saved: Option<StoredSession>)
      ensures this.saved == saved
    {
      this.saved := saved;
    }

    method Save(session: StoredSession, answers: bool) returns (ok: bool)
      modifies this
      ensures ok == answers && saved == if answers then Some(session) else old(saved)
    {
      if answers { saved := Some(session); }
      return answers;
    }

    method Clear(answers: bool) returns (ok: bool)
      modifies this
      ensures ok == answers && saved == if answers then None else old(saved)
    {
      if answers { saved := None; }
      return answers;
    }
  }

  class CloudSession {
    const store: TokenStore
    var state: Option<SessionState>
    var inFlight: Option<Flight>
    ghost var issued: set<string>
    ghost var spent: set<string>

    ghost function View(): Session
      reads this, store
    {
      Session(state, store.saved, inFlight, issued, spent)
    }

    constructor (store: TokenStore)
      ensures this.store == store && state.None? && inFlight.None? && spent == {}
      ensures issued == if store.saved.Some? then {store.saved.value.tokens.refreshToken} else {}
    {
      this.store := store;
      state, inFlight, spent := None, None, {};
      issued := if store.saved.Some? then {store.saved.value.tokens.refreshToken} else {};
    }

    method Restore(loads: bool) returns (r: Result<Option<AccountSummary>, SessionError>)
      modifies this
      ensures View() == Restored(old(View()), loads)
      ensures store.saved == old(store.saved) && inFlight == old(inFlight)
      ensures state == if !loads then old(state)
                       else if store.saved.None? then None
                       else Some(Active(store.saved.value.tokens, store.saved.value.account))
      ensures r == if loads then Success(if state.Some? then Some(state.value.account) else None) else Failure(Storage)
    {
      if !loads {
        return Failure(Storage);
      }
      match store.saved
      case Some(session) =>
        state := Some(Active(session.tokens, session.account));
        return Success(Some(session.account));
      case None =>
        state := None;
        return Success(None);
    }

    method ApplyTokensAndSave(tokens: CloudTokens, account: AccountSummary, saves: bool)
      returns (r: Result<(), SessionError>)
      modifies this, store
      ensures View() == Applied(old(View()), tokens, account, saves)
      ensures r.Success? <==> && Trim(tokens.accessToken) != "" && Trim(tokens.refreshToken) != ""
                              && Trim(account.userId) != "" && Trim(account.email) != "" && saves
      ensures r.Success? ==>
              state == Some(Active(tokens, account)) && store.saved == Some(StoredSession(tokens, account))
      ensures !r.Success? ==> state == old(state) && store.saved == old(store.saved)
      ensures inFlight == old(inFlight)
    {
      if Blank(tokens.accessToken) || Blank(tokens.refreshToken) {
        return Failure(Storage);
      }
      if Blank(account.userId) || Blank(account.email) {
        return Failure(Storage);
      }
      issued := issued + {tokens.refreshToken};
      var ok := store.Save(StoredSession(tokens, account), saves);
      if !ok {
        return Failure(Storage);
      }
      state := Some(Active(tokens, account));
      return Success(());
    }

    method ClearLocally(clears: bool) returns (r: Result<(), SessionError>)
      modifies this, store
      ensures View() == Cleared(old(View()), clears)
      ensures r.Success? <==> clears
      ensures if clears then state.None? && store.saved.None?
              else state == old(state) && store.saved == old(store.saved)
      ensures inFlight == old(inFlight)
    {
      var ok := store.Clear(clears);
      if !ok {
        return Failure(Storage);
      }
      state := None;
      return Success(());
    }

    /** The first half of a logout, under the state lock: whether to go on, and the token to revoke, if any. */
    method BeginLogout() returns (goesOn: bool, revoke: Option<string>)
      ensures goesOn <==> state.Some?
      ensures revoke.Some? <==> state.Some? && state.value.Active?
      ensures revoke.Some? ==> revoke.value == state.value.tokens.refreshToken
    {
      if state.None? {
        return false, None;
      }
      return true, if state.value.Active? then Some(state.value.tokens.refreshToken) else None;
    }

    /**
     * The second half, after the lock was released in between: local state goes first, whatever session it
     * holds by now, and only then the token of the first half is handed out for revocation.
     */
    method EndLogout(revoke: Option<string>, clears: bool)
      returns (r: Result<(), SessionError>, revoked: Option<string>)
      modifies this, store
      ensures View() == Cleared(old(View()), clears) && (r.Success? <==> clears)
      ensures revoked == if clears then revoke else None
      ensures if clears then state.None? && store.saved.None?
              else state == old(state) && store.saved == old(store.saved)
    {
      r := ClearLocally(clears);
      revoked := if r.Success? then revoke else None;
    }

    /** The part of a refresh under the state lock before the remote call; the refresh lock is held from here on. */
    method StartRefresh(expectedUser: Option<string>) returns (r: Result<string, SessionError>)
      requires inFlight.None?
      modifies this
      ensures View() == Begun(old(View()), expectedUser)
      ensures state == old(state) && store.saved == old(store.saved)
      ensures match state
              case Some(Active(tokens, account)) =>
                if expectedUser.Some? && expectedUser.value != account.userId
                then r == Failure(AccountChanged) && inFlight.None?
                else r == Success(tokens.refreshToken) && inFlight == Some(Flight(tokens.refreshToken, account))
              case _ => r == Failure(NotSignedIn) && inFlight.None?
    {
      if state.None? || state.value.Expired? {
        return Failure(NotSignedIn);
      }
      if expectedUser.Some? && state.value.account.userId != expectedUser.value {
        return Failure(AccountChanged);
      }
      inFlight := Some(Flight(state.value.tokens.refreshToken, state.value.account));
      return Success(state.value.tokens.refreshToken);
    }

    /** The part after the remote call: compare with what was captured, then install or expire. */
    method CompleteRefresh(reply: RefreshReply, answers: bool)
      returns (r: Result<(), SessionError>, notifyExpired: bool)
      requires inFlight.Some?
      modifies this, store
      ensures View() == Next(old(View()), FinishRefresh(reply, answers))
      ensures inFlight.None?
      ensures match Decides(old(View()), FinishRefresh(reply, answers))
              case Some(decided) =>
                && state == decided && notifyExpired == reply.RefreshError?
                && store.saved == (if reply.RefreshError? then None
                                   else Some(StoredSession(reply.tokens, old(inFlight).value.account)))
                && r == (if reply.Rotated? then Success(()) else Failure(reply.error))
              case None =>
                && state == old(state) && store.saved == old(store.saved) && !notifyExpired
                && r == Failure(if reply.Rotated? && !Unchanged(old(View()), old(inFlight).value) then AccountChanged
                                else if reply.Rotated? || (EndsSession(reply)
                                    && Unchanged(old(View()), old(inFlight).value)) then Storage
                                else reply.error)
    {
      notifyExpired := false;
      var flight := inFlight.value;
      inFlight := None;
      var same :=
        state.Some? && state.value.Active?
        && state.value.account.userId == flight.account.userId
        && state.value.tokens.refreshToken == flight.refreshToken;
      match reply
      case RefreshError(error) =>
        if error.RefreshFailed? && error.code.Some? && IsTerminalAuthCode(error.code.value) && same {
          var ok := store.Clear(answers);
          if !ok {
            return Failure(Storage), false;
          }
          state := Some(Expired(flight.account));
          notifyExpired := true;
        }
        return Failure(error), notifyExpired;
      case Rotated(tokens) =>
        issued := issued + {tokens.refreshToken};
        if !same {
          spent := spent + {flight.refreshToken};
          return Failure(AccountChanged), false;
        }
        var ok := store.Save(StoredSession(tokens, flight.account), answers);
        if !ok {
          return Failure(Storage), false;
        }
        state := Some(Active(tokens, flight.account));
        spent := spent + {flight.refreshToken};
        return Success(()), false;
    }
  }
}
