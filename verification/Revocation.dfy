/**
 * A revoke must end open connections too, even one whose login is still under way. A sync replaces the cached
 * principals, then the trusted CAs, then walks over the live connections. A login reads the trust, reads the
 * principals, registers as live and then does a walk of its own. Each action is one critical section, so a walk
 * is many: it holds the lock on the live set, but reads the principals and the trust connection by connection
 * while a sync may change them.
 */
module Revocation {
  import opened Prelude
  import opened Access

  type Id = nat

  /** Where handleConn stands. `Offered` has passed the trust test, `Serving` its own walk. */
  datatype Stage = Offered | LoggedIn | Registered | Serving | Gone

  /**
   * A connection with the account it asked for, its certificate's CA and principals, and the matched one. `seen` is
   * the time at which its CA was last found trusted, and `sound` the other checks of its certificate.
   */
  datatype Conn = Conn(user: User, ca: Wire, carried: seq<Principal>, matched: Principal, stage: Stage, open: bool,
                       seen: Time, sound: Principal -> bool)

  datatype Response = Response(grants: seq<Grant>, ca: string, retired: seq<RetiredKey>)

  /** Where syncDaemon stands. Only the control loop syncs, so there is one. */
  datatype Sync = Idle | Replaced | TrustSet | Walking

  /** A walk in progress: who does it, what is left, and the connection whose principal was found listed. */
  datatype Walk = Walk(owner: Option<Id>, todo: set<Id>, half: Option<Id>)

  /**
   * `walk` is Some exactly while the lock on `live` is held for a walk. `last` is the answer of the last sync and
   * `began` the time its walk began, at first the start of the daemon.
   */
  datatype State = State(principals: Principals, trust: Trust, now: Time, began: Time, sync: Sync,
                         last: Option<Response>, conns: map<Id, Conn>, live: set<Id>, walk: Option<Walk>)

  /** The daemon starts from the cache file, whatever it holds. */
  predicate Init(s: State) {
    s.began == s.now && s.sync.Idle? && s.last.None? && s.conns.Keys == {} && s.live == {} && s.walk.None?
  }

  datatype Act =
    | Tick(t: Time)
    | Replace(r: Response)
    | SetTrust
    | SyncLock
    | Offer(id: Id, user: User, cert: Cert)
    | Login(id: Id)
    | Register(id: Id)
    | OwnLock(id: Id)
    | CheckPrincipal(id: Id)
    | CheckTrust
    | Unlock
    | HangUp(id: Id)
    | Leave(id: Id)

  predicate At(s: State, id: Id, stage: Stage) { id in s.conns && s.conns[id].stage == stage }

  /** The clock does not run back. The channel loop of a connection ends when its transport has. */
  predicate Can(s: State, a: Act) {
    match a
    case Tick(t) => s.now <= t
    case Replace(_) => s.sync.Idle?
    case SetTrust => s.sync.Replaced? && s.last.Some?
    case SyncLock => s.sync.TrustSet? && s.walk.None?
    case Offer(id, _, cert) => id !in s.conns && cert.isCert && cert.isUser && Trusted(s.trust, cert.ca, s.now)
    case Login(id) =>
      && At(s, id, Offered)
      && var m := FirstMatch(Listed(s.principals, s.conns[id].user), s.conns[id].carried);
      m != "" && s.conns[id].sound(m)
    case Register(id) => At(s, id, LoggedIn) && s.walk.None?
    case OwnLock(id) => At(s, id, Registered) && s.walk.None?
    case CheckPrincipal(id) => s.walk.Some? && s.walk.value.half.None? && id in s.walk.value.todo && id in s.conns
    case CheckTrust => s.walk.Some? && s.walk.value.half.Some? && s.walk.value.half.value in s.conns
    case Unlock => s.walk.Some? && s.walk.value.half.None? && s.walk.value.todo == {}
                   && (s.walk.value.owner.Some? ==> s.walk.value.owner.value in s.conns)
    case HangUp(id) => id in s.conns
    case Leave(id) => At(s, id, Serving) && !s.conns[id].open && s.walk.None?
  }

  function WithStage(s: State, id: Id, stage: Stage): State
    requires id in s.conns
  {
    s.(conns := s.conns[id := s.conns[id].(stage := stage)])
  }

  function WithClosed(s: State, id: Id): State
    requires id in s.conns
  {
    s.(conns := s.conns[id := s.conns[id].(open := false)])
  }

  function WithSeen(s: State, id: Id): State
    requires id in s.conns
  {
    s.(conns := s.conns[id := s.conns[id].(seen := s.now)])
  }

  predicate IsListed(s: State, c: Conn) { c.matched in Listed(s.principals, c.user) }

  function Do(parse: Parser, s: State, a: Act): State
    requires Can(s, a)
  {
    match a
    case Tick(t) => s.(now := t)
    case Replace(r) => s.(principals := ValidPrincipals(GrantMap(r.grants)), last := Some(r), sync := Replaced)
    case SetTrust => s.(trust := NextTrust(parse, s.trust, s.last.value.ca, s.last.value.retired), sync := TrustSet)
    case SyncLock => s.(walk := Some(Walk(None, s.live, None)), sync := Walking, began := s.now)
    case Offer(id, user, cert) =>
      s.(conns := s.conns[id := Conn(user, cert.ca, cert.principals, "", Offered, true, s.now, cert.sound)])
    case Login(id) =>
      var c := s.conns[id];
      s.(conns := s.conns[id := c.(stage := LoggedIn, matched := FirstMatch(Listed(s.principals, c.user), c.carried))])
    case Register(id) => WithStage(s, id, Registered).(live := s.live + {id})
    case OwnLock(id) => s.(walk := Some(Walk(Some(id), s.live, None)))
    case CheckPrincipal(id) =>
      var w := s.walk.value;
      if IsListed(s, s.conns[id]) then s.(walk := Some(w.(half := Some(id))))
      else WithClosed(s, id).(walk := Some(w.(todo := w.todo - {id})))
    case CheckTrust =>
      var w := s.walk.value;
      var id := w.half.value;
      var kept := if Trusted(s.trust, s.conns[id].ca, s.now) then WithSeen(s, id) else WithClosed(s, id);
      kept.(walk := Some(w.(todo := w.todo - {id}, half := None)))
    case Unlock =>
      var w := s.walk.value;
      var t := if w.owner.None? then s.(sync := Idle) else WithStage(s, w.owner.value, Serving);
      t.(walk := None)
    case HangUp(id) => WithClosed(s, id)
    case Leave(id) => WithStage(s, id, Gone).(live := s.live - {id})
  }

  function Exec(parse: Parser, s: State, run: seq<Act>): Option<State>
    decreases |run|
  {
    if run == [] then Some(s)
    else if Can(s, run[0]) then Exec(parse, Do(parse, s, run[0]), run[1..])
    else None
  }

  // What every run keeps.

  /** The access a connection was opened with is still there, and was when the last walk of a sync began. */
  predicate Good(s: State, c: Conn) {
    IsListed(s, c) && Trusted(s.trust, c.ca, c.seen) && s.began <= c.seen <= s.now
  }

  /** A sync has changed the access and not begun its walk. */
  predicate Dirty(s: State) { s.sync in {Replaced, TrustSet} }

  ghost predicate LiveOk(s: State) {
    && s.live <= s.conns.Keys && s.began <= s.now
    && (forall id :: id in s.conns ==> (id in s.live <==> s.conns[id].stage in {Registered, Serving}))
    && (forall id :: id in s.conns && s.conns[id].stage != Offered ==> s.conns[id].matched in s.conns[id].carried)
  }

  ghost predicate WalkOk(s: State) {
    && (s.sync.Walking? <==> s.walk.Some? && s.walk.value.owner.None?)
    && (s.walk.Some? ==>
          var w := s.walk.value;
          && w.todo <= s.live
          && (w.half.Some? ==> w.half.value in w.todo)
          && (w.owner.Some? ==> At(s, w.owner.value, Registered)))
  }

  /** The sync's walk still has to look at this connection. */
  predicate Due(s: State, id: Id) { s.sync.Walking? && s.walk.Some? && id in s.walk.value.todo }

  ghost predicate AccessOk(s: State) {
    !Dirty(s) ==>
      && (forall id :: At(s, id, Serving) && s.conns[id].open ==> Due(s, id) || Good(s, s.conns[id]))
      && (s.walk.Some? && s.walk.value.owner.Some? ==>
            var id := s.walk.value.owner.value;
            id in s.conns && s.conns[id].open ==> id in s.walk.value.todo || Good(s, s.conns[id]))
      && (s.walk.Some? && s.walk.value.half.Some? ==>
            var id := s.walk.value.half.value;
            id in s.conns ==> IsListed(s, s.conns[id]))
  }

  /** What was synced last is what is in force, up to an active key that could not be read. */
  ghost predicate SyncedOk(parse: Parser, s: State) {
    && (s.sync != Idle ==> s.last.Some?)
    && (s.last.Some? ==>
          var r := s.last.value;
          && s.principals == ValidPrincipals(GrantMap(r.grants))
          && (!s.sync.Replaced? && Readable(parse, r.ca) ==> s.trust == NextTrust(parse, s.trust, r.ca, r.retired)))
  }

  ghost predicate Inv(parse: Parser, s: State) { LiveOk(s) && WalkOk(s) && AccessOk(s) && SyncedOk(parse, s) }

  lemma SyncStep(parse: Parser, s: State, a: Act)
    requires Inv(parse, s) && Can(s, a) && (a.Tick? || a.Replace? || a.SetTrust? || a.SyncLock?)
    ensures Inv(parse, Do(parse, s, a))
  {
  }

  lemma FirstMatchCarried(allowed: seq<Principal>, carried: seq<Principal>)
    ensures FirstMatch(allowed, carried) != "" ==> FirstMatch(allowed, carried) in carried
  {
  }

  lemma OfferStep(parse: Parser, s: State, a: Act)
    requires Inv(parse, s) && Can(s, a) && a.Offer?
    ensures Inv(parse, Do(parse, s, a))
  {
  }

  lemma LoginStep(parse: Parser, s: State, a: Act)
    requires Inv(parse, s) && Can(s, a) && a.Login?
    ensures Inv(parse, Do(parse, s, a))
  {
    FirstMatchCarried(Listed(s.principals, s.conns[a.id].user), s.conns[a.id].carried);
  }

  lemma RegisterStep(parse: Parser, s: State, a: Act)
    requires Inv(parse, s) && Can(s, a) && (a.Register? || a.OwnLock?)
    ensures Inv(parse, Do(parse, s, a))
  {
  }

  lemma LeaveStepAccess(parse: Parser, s: State, a: Act)
    requires LiveOk(s) && WalkOk(s) && AccessOk(s) && Can(s, a) && (a.HangUp? || a.Leave?)
    ensures AccessOk(Do(parse, s, a))
  {
  }

  lemma LeaveStepLive(parse: Parser, s: State, a: Act)
    requires LiveOk(s) && WalkOk(s) && Can(s, a) && (a.HangUp? || a.Leave?)
    ensures LiveOk(Do(parse, s, a)) && WalkOk(Do(parse, s, a))
  {
  }

  lemma LeaveStep(parse: Parser, s: State, a: Act)
    requires Inv(parse, s) && Can(s, a) && (a.HangUp? || a.Leave?)
    ensures Inv(parse, Do(parse, s, a))
  {
    LeaveStepLive(parse, s, a);
    LeaveStepAccess(parse, s, a);
  }

  lemma CheckPrincipalStepAccess(parse: Parser, s: State, a: Act)
    requires LiveOk(s) && WalkOk(s) && AccessOk(s) && Can(s, a) && a.CheckPrincipal?
    ensures AccessOk(Do(parse, s, a))
  {
  }

  lemma CheckPrincipalStepLive(parse: Parser, s: State, a: Act)
    requires LiveOk(s) && WalkOk(s) && Can(s, a) && a.CheckPrincipal?
    ensures LiveOk(Do(parse, s, a)) && WalkOk(Do(parse, s, a))
  {
  }

  lemma CheckPrincipalStep(parse: Parser, s: State, a: Act)
    requires Inv(parse, s) && Can(s, a) && a.CheckPrincipal?
    ensures Inv(parse, Do(parse, s, a))
  {
    CheckPrincipalStepLive(parse, s, a);
    CheckPrincipalStepAccess(parse, s, a);
  }

  lemma CheckTrustStepAccess(parse: Parser, s: State)
    requires LiveOk(s) && WalkOk(s) && AccessOk(s) && Can(s, CheckTrust)
    ensures AccessOk(Do(parse, s, CheckTrust))
  {
  }

  lemma CheckTrustStepLive(parse: Parser, s: State)
    requires LiveOk(s) && WalkOk(s) && Can(s, CheckTrust)
    ensures LiveOk(Do(parse, s, CheckTrust)) && WalkOk(Do(parse, s, CheckTrust))
  {
  }

  lemma CheckTrustStep(parse: Parser, s: State)
    requires Inv(parse, s) && Can(s, CheckTrust)
    ensures Inv(parse, Do(parse, s, CheckTrust))
  {
    CheckTrustStepLive(parse, s);
    CheckTrustStepAccess(parse, s);
  }

  lemma UnlockStep(parse: Parser, s: State)
    requires Inv(parse, s) && Can(s, Unlock)
    ensures Inv(parse, Do(parse, s, Unlock))
  {
  }

  lemma StepKeepsInv(parse: Parser, s: State, a: Act)
    requires Inv(parse, s) && Can(s, a)
    ensures Inv(parse, Do(parse, s, a))
  {
    match a
    case Tick(_) => SyncStep(parse, s, a);
    case Replace(_) => SyncStep(parse, s, a);
    case SetTrust => SyncStep(parse, s, a);
    case SyncLock => SyncStep(parse, s, a);
    case Offer(_, _, _) => OfferStep(parse, s, a);
    case Login(_) => LoginStep(parse, s, a);
    case Register(_) => RegisterStep(parse, s, a);
    case OwnLock(_) => RegisterStep(parse, s, a);
    case CheckPrincipal(_) => CheckPrincipalStep(parse, s, a);
    case CheckTrust => CheckTrustStep(parse, s);
    case Unlock => UnlockStep(parse, s);
    case HangUp(_) => LeaveStep(parse, s, a);
    case Leave(_) => LeaveStep(parse, s, a);
  }

  lemma {:induction false} RunKeepsInv(parse: Parser, s: State, run: seq<Act>)
    requires Inv(parse, s) && Exec(parse, s, run).Some?
    ensures Inv(parse, Exec(parse, s, run).value)
    decreases |run|
  {
    if run != [] {
      StepKeepsInv(parse, s, run[0]);
      RunKeepsInv(parse, Do(parse, s, run[0]), run[1..]);
    }
  }

  /**
   * In every interleaving of logins, walks and syncs: whenever no sync is under way, every open connection that
   * has done its own walk carries a principal that is listed for its account now. Its CA is active now, or retired
   * with a deadline that had not passed when the walk of the last sync began, nor when it was last looked at. All
   * this even if the revoke landed in the middle of its handshake.
   */
  lemma NoRevokedConnection(parse: Parser, s0: State, run: seq<Act>)
    requires Init(s0) && Exec(parse, s0, run).Some?
    ensures var s := Exec(parse, s0, run).value;
            s.sync.Idle? ==>
              forall id :: At(s, id, Serving) && s.conns[id].open ==>
                var c := s.conns[id];
                && c.matched in Listed(s.principals, c.user)
                && c.matched in c.carried
                && Trusted(s.trust, c.ca, c.seen)
                && s.began <= c.seen <= s.now
  {
    RunKeepsInv(parse, s0, run);
  }

  /** What the sync can do next. It waits only for the end of another walk. */
  ghost predicate SyncGoesOn(s: State) {
    match s.sync
    case Idle => forall r :: Can(s, Replace(r))
    case Replaced => Can(s, SetTrust)
    case TrustSet => s.walk.None? ==> Can(s, SyncLock)
    case Walking => s.walk.Some?
  }

  /** What a connection can do next. It too waits only for the end of a walk. */
  ghost predicate ConnGoesOn(s: State, id: Id)
    requires id in s.conns
  {
    && Can(s, HangUp(id))
    && (s.walk.None? ==>
          match s.conns[id].stage
          case LoggedIn => Can(s, Register(id))
          case Registered => Can(s, OwnLock(id))
          case Serving => !s.conns[id].open ==> Can(s, Leave(id))
          case _ => true)
  }

  /** A walk can always go on, with any connection it has not looked at. */
  ghost predicate WalkGoesOn(s: State) {
    s.walk.Some? ==>
      var w := s.walk.value;
      if w.half.Some? then Can(s, CheckTrust)
      else if w.todo == {} then Can(s, Unlock)
      else forall id :: id in w.todo ==> Can(s, CheckPrincipal(id))
  }

  lemma {:induction false} NobodyBlocks(parse: Parser, s0: State, run: seq<Act>)
    requires Init(s0) && Exec(parse, s0, run).Some?
    ensures var s := Exec(parse, s0, run).value;
            && SyncGoesOn(s) && WalkGoesOn(s)
            && (forall id :: id in s.conns ==> ConnGoesOn(s, id))
            && (forall t :: s.now <= t ==> Can(s, Tick(t)))
  {
    RunKeepsInv(parse, s0, run);
    var s := Exec(parse, s0, run).value;
    SyncGoes(s, parse);
    WalkGoes(s);
    forall id | id in s.conns ensures ConnGoesOn(s, id) { ConnGoes(s, id); }
  }

  lemma {:induction false} SyncGoes(s: State, parse: Parser)
    requires WalkOk(s) && SyncedOk(parse, s)
    ensures SyncGoesOn(s)
  {
  }

  lemma {:induction false} ConnGoes(s: State, id: Id)
    requires id in s.conns
    ensures ConnGoesOn(s, id)
  {
  }

  lemma {:induction false} WalkGoes(s: State)
    requires LiveOk(s) && WalkOk(s)
    ensures WalkGoesOn(s)
  {
  }

  /**
   * In terms of the backend: between syncs, the account of every such connection has a valid name and its
   * principal is in the last answer's last entry for it. If that answer's active key was readable, the
   * connection's CA is that key, or one of the retired keys of the same answer with a deadline that had not passed
   * when the walk began.
   */
  lemma LastAnswerIsEnforced(parse: Parser, s0: State, run: seq<Act>, id: Id)
    requires Init(s0) && Exec(parse, s0, run).Some?
    ensures var s := Exec(parse, s0, run).value;
            s.sync.Idle? && s.last.Some? && At(s, id, Serving) && s.conns[id].open ==>
              var c, r := s.conns[id], s.last.value;
              && ValidUser(c.user)
              && (exists i :: LastEntry(r.grants, i, c.user) && c.matched in r.grants[i].principals)
              && (r.ca == "" || parse(r.ca).Some? ==>
                    || (r.ca != "" && parse(r.ca) == Some(c.ca))
                    || exists i :: LastKey(parse, r.retired, i, c.ca) && s.began <= c.seen < r.retired[i].until)
  {
    RunKeepsInv(parse, s0, run);
    var s := Exec(parse, s0, run).value;
    if s.sync.Idle? && s.last.Some? && At(s, id, Serving) && s.conns[id].open {
      AnswerEnforced(parse, s, s.conns[id], s.last.value);
    }
  }

  lemma AnswerEnforced(parse: Parser, s: State, c: Conn, r: Response)
    requires Good(s, c) && s.principals == ValidPrincipals(GrantMap(r.grants))
    requires Readable(parse, r.ca) ==> s.trust == NextTrust(parse, s.trust, r.ca, r.retired)
    ensures ValidUser(c.user) && exists i :: LastEntry(r.grants, i, c.user) && c.matched in r.grants[i].principals
    ensures Readable(parse, r.ca) ==>
              || (r.ca != "" && parse(r.ca) == Some(c.ca))
              || exists i :: LastKey(parse, r.retired, i, c.ca) && s.began <= c.seen < r.retired[i].until
  {
    SyncedPrincipals(r.grants, c.user, c.matched);
    RetiredIsNamed(parse, r.retired, c.ca);
  }

  // One walk nobody interferes with.

  /** The access a walk looks for right now. */
  predicate Allowed(principals: Principals, trust: Trust, now: Time, c: Conn) {
    c.matched in Listed(principals, c.user) && Trusted(trust, c.ca, now)
  }

  /** A connection after the walk has been at it. */
  function Checked(principals: Principals, trust: Trust, now: Time, c: Conn): Conn {
    if Allowed(principals, trust, now, c) then c.(seen := now) else c.(open := false)
  }

  /** The walk leaves open exactly what is listed, and of a CA that is active or retired and before its deadline. */
  lemma CheckedOpen(principals: Principals, trust: Trust, now: Time, c: Conn)
    ensures Checked(principals, trust, now, c).open <==>
            && c.open && c.user in principals && c.matched in principals[c.user]
            && (c.ca in trust.active || (c.ca in trust.retired && now < trust.retired[c.ca]))
    ensures Checked(principals, trust, now, c) == c.(open := Checked(principals, trust, now, c).open,
                                                     seen := Checked(principals, trust, now, c).seen)
  {
  }

  /** From `s` on, exactly the connections no longer to do have been checked. */
  ghost predicate PartlyWalked(s: State, t: State) {
    && s.walk.Some? && t.walk.Some? && t.walk.value.todo <= s.walk.value.todo <= s.conns.Keys
    && t.principals == s.principals && t.trust == s.trust && t.now == s.now && t.conns.Keys == s.conns.Keys
    && (forall id :: id in s.conns ==>
          t.conns[id] == if id in s.walk.value.todo && id !in t.walk.value.todo
                         then Checked(s.principals, s.trust, s.now, s.conns[id]) else s.conns[id])
    && (t.walk.value.half.Some? ==>
          var h := t.walk.value.half.value;
          h in t.walk.value.todo && s.conns[h].matched in Listed(s.principals, s.conns[h].user))
  }

  predicate OnlyChecks(run: seq<Act>) { forall i :: 0 <= i < |run| ==> run[i].CheckPrincipal? || run[i].CheckTrust? }

  lemma {:induction false} WalkAlone(parse: Parser, s: State, t: State, run: seq<Act>)
    requires PartlyWalked(s, t) && OnlyChecks(run) && Exec(parse, t, run).Some?
    ensures PartlyWalked(s, Exec(parse, t, run).value)
    decreases |run|
  {
    if run != [] {
      CheckAlone(parse, s, t, run[0]);
      WalkAlone(parse, s, Do(parse, t, run[0]), run[1..]);
    }
  }

  lemma CheckAlone(parse: Parser, s: State, t: State, a: Act)
    requires PartlyWalked(s, t) && (a.CheckPrincipal? || a.CheckTrust?) && Can(t, a)
    ensures PartlyWalked(s, Do(parse, t, a))
  {
  }

  /** In whatever order it goes, a walk alone closes exactly the live connections whose access is gone. */
  lemma WalkIsDropRevoked(parse: Parser, s: State, run: seq<Act>)
    requires s.walk.Some? && s.walk.value.half.None? && s.walk.value.todo == s.live <= s.conns.Keys
    requires OnlyChecks(run) && Exec(parse, s, run).Some? && Can(Exec(parse, s, run).value, Unlock)
    ensures var t := Exec(parse, s, run).value;
            t.conns == map id | id in s.conns ::
                         if id in s.live then Checked(s.principals, s.trust, s.now, s.conns[id]) else s.conns[id]
  {
    WalkAlone(parse, s, s, run);
  }

  // What a sync and a login decide, on the answer of the backend.

  /** The answer grants the account this principal. */
  ghost predicate Grants(r: Response, u: User, p: Principal) {
    ValidUser(u) && exists i :: LastEntry(r.grants, i, u) && p in r.grants[i].principals
  }

  /** The state of a sync of `r` once the trust is set. */
  function Synced(parse: Parser, s: State, r: Response): State
    requires s.sync.Idle?
  {
    Do(parse, Do(parse, s, Replace(r)), SetTrust)
  }

  /**
   * A sync closes exactly what it should: of the open live connections those stay open whose principal the answer
   * grants their account, and whose CA the answer has as active, or as retired with a deadline still to come.
   */
  lemma SyncClosesExactly(parse: Parser, s: State, r: Response, run: seq<Act>, id: Id)
    requires s.sync.Idle? && s.walk.None? && s.live <= s.conns.Keys && id in s.conns && OnlyChecks(run)
    requires var t := Do(parse, Synced(parse, s, r), SyncLock);
             Exec(parse, t, run).Some? && Can(Exec(parse, t, run).value, Unlock)
    ensures var t := Exec(parse, Do(parse, Synced(parse, s, r), SyncLock), run).value;
            var c := s.conns[id];
            && id in t.conns
            && (t.conns[id].open <==>
                  && c.open
                  && (id in s.live ==>
                        Grants(r, c.user, c.matched) && Vouches(parse, s.trust, r.ca, r.retired, c.ca, s.now)))
  {
    var c := s.conns[id];
    WalkIsDropRevoked(parse, Do(parse, Synced(parse, s, r), SyncLock), run);
    SyncedPrincipals(r.grants, c.user, c.matched);
    TrustedAfterSync(parse, s.trust, r.ca, r.retired, c.ca, s.now);
  }

  /**
   * A login after a sync gets in exactly if it is with a user certificate of a CA that the answer has as active, or
   * as retired with a deadline still to come, if the account has a valid name, and if the first principal of its
   * last entry that the certificate carries is not empty and the certificate sound for it. It is let in as that one.
   */
  lemma LoginAfterSync(parse: Parser, s: State, r: Response, id: Id, user: User, cert: Cert)
    requires s.sync.Idle? && id !in s.conns
    ensures var t := Exec(parse, Synced(parse, s, r), [Offer(id, user, cert), Login(id)]);
            && (t.Some? <==>
                  && cert.isCert && cert.isUser && ValidUser(user)
                  && Vouches(parse, s.trust, r.ca, r.retired, cert.ca, s.now)
                  && exists i, k :: FirstGranted(r, user, cert, i, k) && cert.sound(r.grants[i].principals[k]))
            && (t.Some? ==>
                  && At(t.value, id, LoggedIn) && t.value.conns[id].open
                  && exists i, k :: FirstGranted(r, user, cert, i, k)
                                    && t.value.conns[id].matched == r.grants[i].principals[k])
  {
    LoginSteps(parse, Synced(parse, s, r), id, user, cert);
    TrustedAfterSync(parse, s.trust, r.ca, r.retired, cert.ca, s.now);
    GrantedFirst(r, user, cert);
  }

  lemma LoginSteps(parse: Parser, s: State, id: Id, user: User, cert: Cert)
    requires id !in s.conns
    ensures var t := Exec(parse, s, [Offer(id, user, cert), Login(id)]);
            var m := FirstMatch(Listed(s.principals, user), cert.principals);
            && (t.Some? <==> cert.isCert && cert.isUser && Trusted(s.trust, cert.ca, s.now) && m != "" && cert.sound(m))
            && (t.Some? ==> At(t.value, id, LoggedIn) && t.value.conns[id].open && t.value.conns[id].matched == m)
  {
    var offer, login := Offer(id, user, cert), Login(id);
    assert [offer, login][1..] == [login] && [login][1..] == [];
    if Can(s, offer) {
      var u := Do(parse, s, offer);
      assert Exec(parse, s, [offer, login]) == Exec(parse, u, [login]);
      if Can(u, login) {
        var w := Do(parse, u, login);
        assert Exec(parse, u, [login]) == Exec(parse, w, []) == Some(w);
      }
    }
  }

  /** Of the entry at `i`, the last for the account, the principal at `k` is the first the certificate carries. */
  predicate FirstGranted(r: Response, user: User, cert: Cert, i: int, k: int) {
    && LastEntry(r.grants, i, user) && IsFirst(r.grants[i].principals, cert.principals, k)
    && r.grants[i].principals[k] != ""
  }

  lemma GrantedFirst(r: Response, user: User, cert: Cert)
    ensures var m := FirstMatch(Listed(ValidPrincipals(GrantMap(r.grants)), user), cert.principals);
            && (m != "" ==> ValidUser(user) && exists i, k :: FirstGranted(r, user, cert, i, k))
            && (m != "" ==> m in cert.principals)
            && forall i, k :: ValidUser(user) && FirstGranted(r, user, cert, i, k) ==> m == r.grants[i].principals[k]
  {
    GrantIsLast(r.grants, user);
    var listed := Listed(ValidPrincipals(GrantMap(r.grants)), user);
    FirstMatchIsFirst(listed, cert.principals);
    if FirstMatch(listed, cert.principals) != "" {
      var k :| IsFirst(listed, cert.principals, k);
      var i :| LastEntry(r.grants, i, user);
      assert FirstGranted(r, user, cert, i, k);
    }
    forall i, k | ValidUser(user) && FirstGranted(r, user, cert, i, k)
      ensures FirstMatch(listed, cert.principals) == r.grants[i].principals[k]
    {
      assert listed == r.grants[i].principals;
    }
  }

  /** The server's live connections and the walk over them, as one method. */
  class LiveSet {
    var live: set<Id>
    var conns: map<Id, Conn>

    /** Closes exactly the live connections whose access is gone, and leaves everything else alone. */
    method DropRevoked(principals: Principals, trust: Trust, now: Time)
      requires live <= conns.Keys
      modifies this`conns
      ensures conns == map id | id in old(conns) ::
                         if id in live then Checked(principals, trust, now, old(conns)[id]) else old(conns)[id]
    {
      var todo := live;
      while todo != {}
        invariant todo <= live && conns.Keys == old(conns.Keys)
        invariant forall id :: id in conns ==>
                    conns[id] == if id in live && id !in todo
                                 then Checked(principals, trust, now, old(conns)[id]) else old(conns)[id]
        decreases |todo|
      {
        var id :| id in todo;
        todo := todo - {id};
        CheckOne(id, principals, trust, now);
      }
    }

    /** One round of the walk. */
    method CheckOne(id: Id, principals: Principals, trust: Trust, now: Time)
      requires id in conns
      modifies this`conns
      ensures conns == old(conns)[id := Checked(principals, trust, now, old(conns)[id])]
    {
      var c := conns[id];
      if c.matched in Listed(principals, c.user) && Trusted(trust, c.ca, now) {
        conns := conns[id := c.(seen := now)];
      } else {
        conns := conns[id := c.(open := false)];
      }
    }
  }
}
