/** The database gateway behind `/api/data`: one fresh connection per request,
    driven through connect, sign-in under a timeout, namespace and database
    selection, and one select of the user table, stopping at the first failure. */
module Database {
  import opened Results
  import opened Http

  const Endpoint := "http://127.0.0.1:8008/rpc"
  const RootUsername := "root"
  const RootPassword := "root"
  const SigninTimeoutSecs := 5
  const Namespace := "wasmfrp"
  const DatabaseName := "sdb"
  const UserTable := "user"

  /** One call the gateway makes on the database, with the arguments it passes. */
  datatype Step =
    | Connect(endpoint: string)
    | Signin(username: string, password: string, timeoutSecs: nat)
    | UseNsDb(ns: string, db: string)
    | Select(table: string)

  /** Every call, in the only order the gateway makes them. */
  const Pipeline: seq<Step> := [
    Connect(Endpoint),
    Signin(RootUsername, RootPassword, SigninTimeoutSecs),
    UseNsDb(Namespace, DatabaseName),
    Select(UserTable)
  ]

  datatype ConnectOutcome = ConnectOk | ConnectErr
  /** Sign-in completes within the timeout and is accepted or rejected, or the timeout elapses first. */
  datatype SigninOutcome = SigninOk | SigninRejected | SigninTimedOut
  datatype ScopeOutcome = ScopeOk | ScopeErr
  datatype SelectOutcome = Rows(users: seq<User>) | SelectErr

  /** How the database would answer each call if it were made. */
  datatype Backend = Backend(connect: ConnectOutcome, signin: SigninOutcome, scope: ScopeOutcome, select: SelectOutcome)

  /** The failure kinds the gateway reports. */
  datatype DbError = ConnectFailed | AuthFailed | AuthTimeout | ScopeSelectFailed | QueryFailed

  /** The outcome of one fetch, and the calls it made, in order. */
  datatype Fetch = Fetch(result: Result<seq<User>, DbError>, trace: seq<Step>)

  /** Whether the backend answers the call `s` with success. */
  predicate Succeeds(db: Backend, s: Step) {
    match s
    case Connect(_) => db.connect.ConnectOk?
    case Signin(_, _, _) => db.signin.SigninOk?
    case UseNsDb(_, _) => db.scope.ScopeOk?
    case Select(_) => db.select.Rows?
  }

  /** The failure kind reported when the call `s` fails. */
  function FailureOf(db: Backend, s: Step): DbError {
    match s
    case Connect(_) => ConnectFailed
    case Signin(_, _, _) => if db.signin.SigninTimedOut? then AuthTimeout else AuthFailed
    case UseNsDb(_, _) => ScopeSelectFailed
    case Select(_) => QueryFailed
  }

  /** The gateway's sequence of awaited calls, each returning early on failure. */
  function FetchUsers(db: Backend): (f: Fetch)
    // the calls made are a non-empty prefix of the pipeline, in pipeline order
    ensures 1 <= |f.trace| <= |Pipeline| && f.trace == Pipeline[..|f.trace|]
    // a call is made only after every earlier one succeeded
    ensures forall i :: 0 <= i < |f.trace| - 1 ==> Succeeds(db, f.trace[i])
    // success exactly when all four calls were made and all succeeded
    ensures f.result.Success? <==> f.trace == Pipeline && forall s <- Pipeline :: Succeeds(db, s)
    // a failure is reported by the last call made, with that call's failure kind
    ensures f.result.Failure? ==>
              !Succeeds(db, f.trace[|f.trace| - 1]) && f.result.error == FailureOf(db, f.trace[|f.trace| - 1])
    // the users are returned exactly as the select produced them
    ensures f.result.Success? ==> db.select.Rows? && f.result.value == db.select.users
  {
    if db.connect.ConnectErr? then Fetch(Failure(ConnectFailed), Pipeline[..1])
    else match db.signin
      case SigninRejected => Fetch(Failure(AuthFailed), Pipeline[..2])
      case SigninTimedOut => Fetch(Failure(AuthTimeout), Pipeline[..2])
      case SigninOk =>
        if db.scope.ScopeErr? then Fetch(Failure(ScopeSelectFailed), Pipeline[..3])
        else match db.select
          case SelectErr =>
            assert Pipeline[3] in Pipeline && !Succeeds(db, Pipeline[3]);
            Fetch(Failure(QueryFailed), Pipeline[..4])
          case Rows(users) => Fetch(Success(users), Pipeline)
  }

  /** The select of the user table is only made on a session that is signed in
      and scoped to the namespace and database. */
  lemma QueryOnlyOnScopedSession(db: Backend)
    ensures Select(UserTable) in FetchUsers(db).trace <==>
              db.connect.ConnectOk? && db.signin.SigninOk? && db.scope.ScopeOk?
  {
  }

  /** Rejection and timeout of the sign-in are reported as different failures,
      and neither lets the gateway go on to select a namespace. */
  lemma SigninFailuresDistinct(db: Backend)
    requires db.connect.ConnectOk? && !db.signin.SigninOk?
    ensures FetchUsers(db).result == Failure(if db.signin.SigninTimedOut? then AuthTimeout else AuthFailed)
    ensures UseNsDb(Namespace, DatabaseName) !in FetchUsers(db).trace
  {
  }

  /** The per-request session as a state machine: a live session makes one call,
      and the backend's answer moves it to the next state or closes it with a result. */
  datatype Session = Fresh | Connected | SignedIn | Scoped | Closed(result: Result<seq<User>, DbError>)

  /** How many calls a session in this state has still to make at most. */
  function Rank(s: Session): nat {
    match s
    case Fresh => 4
    case Connected => 3
    case SignedIn => 2
    case Scoped => 1
    case Closed(_) => 0
  }

  /** The call a live session makes next. */
  function NextCall(s: Session): (c: Option<Step>)
    ensures c.Some? <==> !s.Closed?
    ensures c.Some? ==> c.value == Pipeline[|Pipeline| - Rank(s)]
  {
    match s
    case Fresh => Some(Connect(Endpoint))
    case Connected => Some(Signin(RootUsername, RootPassword, SigninTimeoutSecs))
    case SignedIn => Some(UseNsDb(Namespace, DatabaseName))
    case Scoped => Some(Select(UserTable))
    case Closed(_) => None
  }

  /** The state a live session moves to once the backend answers its next call. */
  function Advance(s: Session, db: Backend): (t: Session)
    requires !s.Closed?
    ensures Rank(t) < Rank(s)
    ensures !t.Closed? <==> Succeeds(db, NextCall(s).value) && !s.Scoped?
    ensures t.Closed? && !Succeeds(db, NextCall(s).value) ==> t.result == Failure(FailureOf(db, NextCall(s).value))
    ensures t.Closed? && Succeeds(db, NextCall(s).value) ==> s.Scoped? && t.result == Success(db.select.users)
  {
    match s
    case Fresh => if db.connect.ConnectOk? then Connected else Closed(Failure(ConnectFailed))
    case Connected =>
      (match db.signin
       case SigninOk => SignedIn
       case SigninRejected => Closed(Failure(AuthFailed))
       case SigninTimedOut => Closed(Failure(AuthTimeout)))
    case SignedIn => if db.scope.ScopeOk? then Scoped else Closed(Failure(ScopeSelectFailed))
    case Scoped =>
      (match db.select
       case Rows(users) => Closed(Success(users))
       case SelectErr => Closed(Failure(QueryFailed)))
  }

  /** Runs a session until it closes, recording the calls it makes. */
  function Drive(s: Session, db: Backend): (f: Fetch)
    // the calls made continue the pipeline from the session's current state
    ensures |f.trace| <= Rank(s)
    ensures f.trace == Pipeline[|Pipeline| - Rank(s)..|Pipeline| - Rank(s) + |f.trace|]
    // a closed session makes no call and keeps its result
    ensures s.Closed? ==> f == Fetch(s.result, [])
    // a live session makes at least its next call
    ensures !s.Closed? ==> |f.trace| >= 1 && f.trace[0] == NextCall(s).value
    decreases Rank(s)
  {
    match s
    case Closed(r) => Fetch(r, [])
    case _ =>
      var rest := Drive(Advance(s, db), db);
      Fetch(rest.result, [NextCall(s).value] + rest.trace)
  }

  /** The state machine and the gateway's straight-line code make the same calls
      and reach the same result on every backend. */
  lemma DriveFromFreshIsFetchUsers(db: Backend)
    ensures Drive(Fresh, db) == FetchUsers(db)
  {
  }
}
