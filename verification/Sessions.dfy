/** Login and Whoami over a cache that evicts on a time-to-live, against a table that
    never deletes anything. Times are the readings of one non-decreasing clock. */
module Sessions {
  import opened Wrappers

  datatype User = User(uuid: string, login: string, passwordHash: string)
  datatype Session = Session(uuid: string, userId: string, createdAt: int, expiresAt: int)

  // A cached session and the time from which the cache may drop it; None when the
  // write carried no time-to-live.
  datatype Entry = Entry(session: Session, evictFrom: Option<int>)

  datatype AuthError =
    | InvalidCredentials | SessionNotFound | SessionExpired
    | StoreFailed | UserSetFailed | DeleteFailed | UserLookupFailed

  // The user accounts, and the given check of a password against a stored hash.
  datatype Accounts = Accounts(byLogin: map<string, User>, byId: map<string, User>, accepts: (string, string) -> bool)

  // How a Whoami meets the outside: when it reads, when it compares, what fails.
  datatype WhoamiEnv = WhoamiEnv(readAt: int, comparedAt: int, getFails: bool, delete: WriteFault, lookupFails: bool)

  // How a Login does; the configured time-to-live is any duration, a negative one included.
  datatype LoginEnv = LoginEnv(
    now: int,
    storedAt: int,
    newUuid: string,
    ttl: int,
    lookupFails: bool,
    store: WriteFault,
    userSetFails: bool)

  /** The cache, and beside it every session ever written. */
  datatype State = State(cache: map<string, Entry>, ever: map<string, Session>, clock: int)

  /** A Redis SET: the client sends a time-to-live only if it is positive. */
  function EntryFor(s: Session, ttl: int, storedAt: int): Entry {
    Entry(s, if ttl <= 0 then None else Some(storedAt + ttl))
  }

  function LoginStep(st: State, a: Accounts, login: string, password: string, env: LoginEnv)
    : (State, Result<Session, AuthError>)
  {
    if env.lookupFails then (st, Failure(UserLookupFailed))
    else if login !in a.byLogin then (st, Failure(InvalidCredentials))
    else
      var user := a.byLogin[login];
      if !a.accepts(user.passwordHash, password) then (st, Failure(InvalidCredentials))
      else
        var s := Session(env.newUuid, user.uuid, env.now, env.now + env.ttl);
        if env.store.FailedBefore? then (st, Failure(StoreFailed))
        else
          var entry := EntryFor(s, env.ttl, env.storedAt);
          var st' := State(st.cache[s.uuid := entry], st.ever[s.uuid := s], env.storedAt);
          if env.store.FailedAfter? then (st', Failure(StoreFailed))
          else if env.userSetFails then (st', Failure(UserSetFailed))
          else (st', Success(s))
  }

  function WhoamiStep(st: State, a: Accounts, uuid: string, env: WhoamiEnv): (State, Result<User, AuthError>) {
    var now := st.(clock := env.comparedAt);
    if env.getFails then (now, Failure(StoreFailed))
    else if uuid !in st.cache then (now, Failure(SessionNotFound))
    else
      var s := st.cache[uuid].session;
      if env.comparedAt > s.expiresAt then
        if env.delete.Clean? then (now.(cache := st.cache - {uuid}), Failure(SessionExpired))
        else (if env.delete.FailedBefore? then now else now.(cache := st.cache - {uuid}), Failure(DeleteFailed))
      else if env.lookupFails || s.userId !in a.byId then (now, Failure(UserLookupFailed))
      else (now, Success(a.byId[s.userId]))
  }

  /** The reference: the same question asked of a table nothing is ever removed from. */
  function NeverDeleting(st: State, a: Accounts, uuid: string, env: WhoamiEnv): Option<User> {
    if env.getFails || env.lookupFails || uuid !in st.ever then None
    else
      var s := st.ever[uuid];
      if env.comparedAt > s.expiresAt || s.userId !in a.byId then None else Some(a.byId[s.userId])
  }

  // Each call meets the accounts as they are by then.
  datatype Step =
    | DoLogin(loginAccounts: Accounts, login: string, password: string, loginEnv: LoginEnv)
    | DoWhoami(accounts: Accounts, uuid: string, whoamiEnv: WhoamiEnv)
    | Evict(key: string, at: int)

  /** The clock does not go back, a new session id is new, and the cache drops a key
      only from its deadline on; it never has to. */
  predicate Possible(st: State, x: Step) {
    match x
    case DoLogin(_, _, _, env) => st.clock <= env.now <= env.storedAt && env.newUuid !in st.ever
    case DoWhoami(_, _, env) => st.clock <= env.readAt <= env.comparedAt
    case Evict(key, at) =>
      st.clock <= at && key in st.cache && st.cache[key].evictFrom.Some? && st.cache[key].evictFrom.value <= at
  }

  function Next(st: State, x: Step): State {
    match x
    case DoLogin(a, login, password, env) => LoginStep(st, a, login, password, env).0
    case DoWhoami(a, uuid, env) => WhoamiStep(st, a, uuid, env).0
    case Evict(key, at) => st.(cache := st.cache - {key}, clock := at)
  }

  const EMPTY := State(map[], map[], 0)

  /** The cache holds only sessions that were written, with a deadline not before their
      expiry; whatever it no longer holds has reached its expiry. */
  ghost predicate Inv(st: State) {
    && (forall k :: k in st.cache ==>
          && k in st.ever && st.cache[k].session == st.ever[k]
          && (st.cache[k].evictFrom.Some? ==> st.ever[k].expiresAt <= st.cache[k].evictFrom.value))
    && (forall k :: k in st.ever && k !in st.cache ==> st.ever[k].expiresAt <= st.clock)
  }

  ghost predicate Grows(st: State, st': State) {
    && st.clock <= st'.clock
    && (forall k :: k in st.ever ==> k in st'.ever && st'.ever[k] == st.ever[k])
  }

  lemma LoginKeepsInv(st: State, x: Step)
    requires Inv(st) && Possible(st, x) && x.DoLogin?
    ensures Inv(Next(st, x)) && Grows(st, Next(st, x))
  {
  }

  /** Dropping a session that has expired by then. */
  lemma DropKeepsInv(st: State, uuid: string, at: int)
    requires Inv(st) && st.clock <= at && (uuid in st.ever ==> st.ever[uuid].expiresAt <= at)
    ensures Inv(st.(cache := st.cache - {uuid}, clock := at)) && Inv(st.(clock := at))
  {
  }

  lemma WhoamiKeepsInv(st: State, x: Step)
    requires Inv(st) && Possible(st, x) && x.DoWhoami?
    ensures Inv(Next(st, x)) && Grows(st, Next(st, x))
  {
    var st', at := Next(st, x), x.whoamiEnv.comparedAt;
    if st'.cache != st.cache {
      assert st' == st.(cache := st.cache - {x.uuid}, clock := at);
      DropKeepsInv(st, x.uuid, at);
    }
  }

  lemma StepKeepsInv(st: State, x: Step)
    requires Inv(st) && Possible(st, x)
    ensures Inv(Next(st, x)) && Grows(st, Next(st, x))
  {
    if x.DoLogin? {
      LoginKeepsInv(st, x);
    } else if x.DoWhoami? {
      WhoamiKeepsInv(st, x);
    } else {
      DropKeepsInv(st, x.key, x.at);
    }
  }

  ghost predicate Run(st: State, xs: seq<Step>)
    decreases |xs|
  {
    xs == [] || (Possible(st, xs[0]) && Run(Next(st, xs[0]), xs[1..]))
  }

  function After(st: State, xs: seq<Step>): State
    decreases |xs|
  {
    if xs == [] then st else After(Next(st, xs[0]), xs[1..])
  }

  lemma {:induction false} InvAlways(st: State, xs: seq<Step>)
    requires Inv(st) && Run(st, xs)
    ensures Inv(After(st, xs)) && Grows(st, After(st, xs))
    decreases |xs|
  {
    if xs != [] {
      StepKeepsInv(st, xs[0]);
      InvAlways(Next(st, xs[0]), xs[1..]);
    }
  }

  /** After any run, Whoami answers like the table that never deletes, except possibly in
      the instant of the expiry itself: a user is never reported that the table would not
      report, and strictly before or after the expiry the answers are the same. */
  lemma DeletionIsUnobservable(xs: seq<Step>, a: Accounts, uuid: string, env: WhoamiEnv)
    requires Run(EMPTY, xs)
    requires Possible(After(EMPTY, xs), DoWhoami(a, uuid, env))
    ensures var st := After(EMPTY, xs);
            var answer, reference := WhoamiStep(st, a, uuid, env).1, NeverDeleting(st, a, uuid, env);
            && (answer.Success? ==> reference == Some(answer.value))
            && (uuid !in st.ever || env.comparedAt != st.ever[uuid].expiresAt ==>
                  (reference.Some? <==> answer.Success?))
  {
    InvAlways(EMPTY, xs);
  }

  /** The session of a successful login, and any later state and accounts: strictly before
      its expiry Whoami gives that user as the accounts then have it, and strictly after it
      refuses, for ever. */
  lemma SessionLivesUntilItExpires(st: State, a: Accounts, login: string, password: string, env: LoginEnv,
                                   xs: seq<Step>, later: Accounts, ask: WhoamiEnv)
    requires Inv(st) && Possible(st, DoLogin(a, login, password, env))
    requires LoginStep(st, a, login, password, env).1.Success?
    requires Run(LoginStep(st, a, login, password, env).0, xs)
    requires Possible(After(LoginStep(st, a, login, password, env).0, xs), DoWhoami(later, env.newUuid, ask))
    requires !ask.getFails && !ask.lookupFails
    ensures var user := a.byLogin[login].uuid;
            var st' := After(LoginStep(st, a, login, password, env).0, xs);
            var answer := WhoamiStep(st', later, env.newUuid, ask).1;
            && (ask.comparedAt < env.now + env.ttl && user in later.byId ==> answer == Success(later.byId[user]))
            && (ask.comparedAt > env.now + env.ttl ==> answer.Failure?)
  {
    StepKeepsInv(st, DoLogin(a, login, password, env));
    InvAlways(LoginStep(st, a, login, password, env).0, xs);
  }

  /** When a login succeeds, and that an unsuccessful check of the credentials leaves
      no session behind. */
  lemma LoginOutcome(st: State, a: Accounts, login: string, password: string, env: LoginEnv)
    ensures var (st', r) := LoginStep(st, a, login, password, env);
            && (r.Success? ==> login in a.byLogin && a.accepts(a.byLogin[login].passwordHash, password)
                               && r.value.uuid in st'.cache && st'.cache[r.value.uuid].session == r.value
                               && r.value.userId == a.byLogin[login].uuid)
            && (r == Failure(InvalidCredentials) ==> st' == st)
            && (st'.ever != st.ever ==> login in a.byLogin && a.accepts(a.byLogin[login].passwordHash, password))
  {
  }

  predicate RightCredentials(a: Accounts, login: string, password: string) {
    login in a.byLogin && a.accepts(a.byLogin[login].passwordHash, password)
  }

  /** Login answers: success if and only if the lookup works, the credentials are right,
      the session was stored and the user's set was written; which refusal each failure
      gets; and what is written, which a later failure does not undo. */
  lemma LoginAnswers(st: State, a: Accounts, login: string, password: string, env: LoginEnv)
    ensures var (st', r) := LoginStep(st, a, login, password, env);
            var known := RightCredentials(a, login, password);
            && (r.Success? <==> !env.lookupFails && known && env.store.Clean? && !env.userSetFails)
            && (r == Failure(UserLookupFailed) <==> env.lookupFails)
            && (r == Failure(InvalidCredentials) <==> !env.lookupFails && !known)
            && (r == Failure(StoreFailed) <==> !env.lookupFails && known && !env.store.Clean?)
            && (r == Failure(UserSetFailed) <==> !env.lookupFails && known && env.store.Clean? && env.userSetFails)
            && (if env.lookupFails || !known || env.store.FailedBefore? then st' == st
                else
                  var s := Session(env.newUuid, a.byLogin[login].uuid, env.now, env.now + env.ttl);
                  && (r.Success? ==> r.value == s)
                  && st'.ever == st.ever[env.newUuid := s]
                  && st'.cache.Keys == st.cache.Keys + {env.newUuid}
                  && st'.cache - {env.newUuid} == st.cache - {env.newUuid}
                  && st'.cache[env.newUuid].session == s
                  && (env.ttl > 0 ==> st'.cache[env.newUuid].evictFrom == Some(env.storedAt + env.ttl))
                  && (env.ttl <= 0 ==> st'.cache[env.newUuid].evictFrom == None))
  {
  }

  /** Whoami answers: the user if and only if the cache has the session, it is not past
      its expiry and the user is found; which refusal each failure gets; and that only an
      expired session is removed. */
  lemma WhoamiAnswers(st: State, a: Accounts, uuid: string, env: WhoamiEnv)
    ensures var (st', r) := WhoamiStep(st, a, uuid, env);
            var there := !env.getFails && uuid in st.cache;
            var expired := there && st.cache[uuid].session.expiresAt < env.comparedAt;
            var found := there && !env.lookupFails && st.cache[uuid].session.userId in a.byId;
            && (r.Success? <==> there && !expired && found)
            && (r.Success? ==> r.value == a.byId[st.cache[uuid].session.userId])
            && (r == Failure(StoreFailed) <==> env.getFails)
            && (r == Failure(SessionNotFound) <==> !env.getFails && uuid !in st.cache)
            && (r == Failure(SessionExpired) <==> expired && env.delete.Clean?)
            && (r == Failure(DeleteFailed) <==> expired && !env.delete.Clean?)
            && (r == Failure(UserLookupFailed) <==> there && !expired && !found)
            && st'.ever == st.ever
            && st'.cache == if expired && !env.delete.FailedBefore? then st.cache - {uuid} else st.cache
  {
  }

  // ---- The service's code -------------------------------------------------------

  class SessionRepository {
    var cache: map<string, Entry>
    ghost var ever: map<string, Session>

    constructor ()
      ensures cache == map[] && ever == map[]
    {
      cache, ever := map[], map[];
    }

    method Create(s: Session, ttl: int, storedAt: int, f: WriteFault) returns (ok: bool)
      modifies this
      ensures ok <==> f.Clean?
      ensures cache == if f.FailedBefore? then old(cache) else old(cache)[s.uuid := EntryFor(s, ttl, storedAt)]
      ensures ever == if f.FailedBefore? then old(ever) else old(ever)[s.uuid := s]
    {
      if f.FailedBefore? {
        return false;
      }
      cache := cache[s.uuid := EntryFor(s, ttl, storedAt)];
      ever := ever[s.uuid := s];
      return f.Clean?;
    }

    method Get(uuid: string) returns (s: Option<Session>)
      ensures s == if uuid in cache then Some(cache[uuid].session) else None
    {
      return if uuid in cache then Some(cache[uuid].session) else None;
    }

    method Delete(uuid: string, f: WriteFault) returns (ok: bool)
      modifies this`cache
      ensures ok <==> f.Clean?
      ensures cache == if f.FailedBefore? then old(cache) else old(cache) - {uuid}
    {
      if f.FailedBefore? {
        return false;
      }
      cache := cache - {uuid};
      return f.Clean?;
    }
  }

  class AuthService {
    var accounts: Accounts
    const sessions: SessionRepository
    ghost var clock: int

    constructor (accounts: Accounts, sessions: SessionRepository)
      ensures this.accounts == accounts && this.sessions == sessions
    {
      this.accounts, this.sessions, clock := accounts, sessions, 0;
    }

    ghost function View(): State
      reads this, sessions
    {
      State(sessions.cache, sessions.ever, clock)
    }

    method Login(login: string, password: string, env: LoginEnv) returns (r: Result<Session, AuthError>)
      modifies this`clock, sessions
      ensures (View(), r) == LoginStep(old(View()), accounts, login, password, env)
    {
      if env.lookupFails {
        return Failure(UserLookupFailed);
      }
      if login !in accounts.byLogin {
        return Failure(InvalidCredentials);
      }
      var user := accounts.byLogin[login];
      if !accounts.accepts(user.passwordHash, password) {
        return Failure(InvalidCredentials);
      }
      var expiresAt := env.now + env.ttl;
      var session := Session(env.newUuid, user.uuid, env.now, expiresAt);
      var ok := sessions.Create(session, env.ttl, env.storedAt, env.store);
      if !env.store.FailedBefore? {
        clock := env.storedAt;
      }
      if !ok {
        return Failure(StoreFailed);
      }
      if env.userSetFails {
        return Failure(UserSetFailed);
      }
      return Success(session);
    }

    method Whoami(uuid: string, env: WhoamiEnv) returns (r: Result<User, AuthError>)
      modifies this`clock, sessions`cache
      ensures (View(), r) == WhoamiStep(old(View()), accounts, uuid, env)
    {
      clock := env.comparedAt;
      if env.getFails {
        return Failure(StoreFailed);
      }
      var got := sessions.Get(uuid);
      if got.None? {
        return Failure(SessionNotFound);
      }
      var session := got.value;
      if env.comparedAt > session.expiresAt {
        var ok := sessions.Delete(uuid, env.delete);
        if !ok {
          return Failure(DeleteFailed);
        }
        return Failure(SessionExpired);
      }
      if env.lookupFails || session.userId !in accounts.byId {
        return Failure(UserLookupFailed);
      }
      return Success(accounts.byId[session.userId]);
    }
  }
}
