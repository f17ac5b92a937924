/** User accounts and sessions: the users table of internal/store/store.go, with every SQL statement
    as one atomic step, and the acceptance decision of `Middleware` in internal/auth/auth.go. */
module Accounts {
  import opened Common

  /** A row id.  AUTOINCREMENT never hands one out twice. */
  datatype UserId = UserId(n: nat)

  const LOCAL := "local"
  const ADMIN := "admin"
  const VIEWER := "viewer"

  /** The columns that decide identity, authority and revocation. */
  datatype Row = Row(username: string, hash: Option<string>, role: string, provider: string,
                     subject: Option<string>, mustChange: bool, version: nat)
  {
    predicate IsLocal() { provider == LOCAL }
    predicate IsLocalAdmin() { provider == LOCAL && role == ADMIN }
    predicate IsExternal(p: string, s: string) { provider == p && subject == Some(s) }
  }

  datatype Db = Db(rows: map<UserId, Row>, nextId: nat)

  /** The statements the store issues against the users table. */
  datatype Stmt =
    | InsertLocal(username: string, hash: string, role: string)
    | UpsertExternal(provider: string, subject: string, username: string, role: string)
    | SetPassword(id: UserId, hash: string)
    | Bump(id: UserId)
    | Delete(id: UserId)
    | Promote(id: UserId)
    | RequireChange(id: UserId)

  predicate ValidRole(role: string) { role == ADMIN || role == VIEWER }

  /** What the Go code checks before it issues the statement. */
  predicate Guarded(s: Stmt) {
    match s
    case InsertLocal(u, _, role) => u != "" && ValidRole(role)
    case UpsertExternal(p, sub, u, role) => p != "" && p != LOCAL && sub != "" && u != "" && ValidRole(role)
    case _ => true
  }

  predicate LocalNameTaken(db: Db, username: string) {
    exists id :: id in db.rows && db.rows[id].IsLocal() && db.rows[id].username == username
  }

  predicate ExternalExists(db: Db, p: string, s: string) {
    exists id :: id in db.rows && db.rows[id].IsExternal(p, s)
  }

  ghost function LocalAdmins(db: Db): set<UserId> {
    set id | id in db.rows && db.rows[id].IsLocalAdmin()
  }

  ghost predicate HasLocalAdmin(db: Db) {
    exists id :: id in db.rows && db.rows[id].IsLocalAdmin()
  }

  /** The conflict clause of the upsert, on one row. */
  function Refreshed(row: Row, username: string, role: string): Row {
    row.(username := username, role := role, version := row.version + if row.role != role then 1 else 0)
  }

  function Insert(db: Db, row: Row): Db {
    Db(db.rows[UserId(db.nextId) := row], db.nextId + 1)
  }

  /** An UPDATE by id: nothing happens when the row is gone. */
  function UpdateRow(db: Db, id: UserId, f: Row -> Row): Db {
    if id in db.rows then db.(rows := db.rows[id := f(db.rows[id])]) else db
  }

  /** The effect of one statement.  A unique-index violation leaves the table as it was. */
  ghost function Exec(db: Db, s: Stmt): Db {
    match s
    case InsertLocal(u, hash, role) =>
      if LocalNameTaken(db, u) then db else Insert(db, Row(u, Some(hash), role, LOCAL, None, false, 0))
    case UpsertExternal(p, sub, u, role) =>
      if ExternalExists(db, p, sub)
      then db.(rows := map id | id in db.rows ::
                 if db.rows[id].IsExternal(p, sub) then Refreshed(db.rows[id], u, role) else db.rows[id])
      else Insert(db, Row(u, None, role, p, Some(sub), false, 0))
    case SetPassword(id, hash) =>
      UpdateRow(db, id, (r: Row) => r.(hash := Some(hash), mustChange := false, version := r.version + 1))
    case Bump(id) => UpdateRow(db, id, (r: Row) => r.(version := r.version + 1))
    case Delete(id) =>
      if id in db.rows && db.rows[id].IsLocalAdmin() && |LocalAdmins(db)| <= 1 then db
      else db.(rows := db.rows - {id})
    case Promote(id) =>
      UpdateRow(db, id, (r: Row) => r.(role := ADMIN, mustChange := true, version := r.version + 1))
    case RequireChange(id) => UpdateRow(db, id, (r: Row) => r.(mustChange := true))
  }

  // ---------------------------------------------------------------------------------------
  // What every statement keeps
  // ---------------------------------------------------------------------------------------

  ghost predicate IdsBelow(db: Db) {
    forall id :: id in db.rows ==> id.n < db.nextId
  }

  ghost predicate NamesUnique(db: Db) {
    forall i, j :: i in db.rows && j in db.rows && i != j && db.rows[i].IsLocal() && db.rows[j].IsLocal() ==>
      db.rows[i].username != db.rows[j].username
  }

  ghost predicate IdentitiesUnique(db: Db) {
    forall i, j :: i in db.rows && j in db.rows && i != j && db.rows[i].subject.Some? ==>
      db.rows[i].provider != db.rows[j].provider || db.rows[i].subject != db.rows[j].subject
  }

  /** Ids below the sequence, local usernames unique, external identities unique. */
  ghost predicate Consistent(db: Db) {
    IdsBelow(db) && NamesUnique(db) && IdentitiesUnique(db)
  }

  lemma ExecIdsBelow(db: Db, s: Stmt)
    requires IdsBelow(db)
    ensures IdsBelow(Exec(db, s)) && db.nextId <= Exec(db, s).nextId
  {
  }

  lemma ExecNamesUnique(db: Db, s: Stmt)
    requires NamesUnique(db) && Guarded(s)
    ensures NamesUnique(Exec(db, s))
  {
  }

  lemma ExecIdentitiesUnique(db: Db, s: Stmt)
    requires IdentitiesUnique(db) && Guarded(s)
    ensures IdentitiesUnique(Exec(db, s))
  {
  }

  lemma ExecConsistent(db: Db, s: Stmt)
    requires Consistent(db) && Guarded(s)
    ensures Consistent(Exec(db, s))
  {
    ExecIdsBelow(db, s);
    ExecNamesUnique(db, s);
    ExecIdentitiesUnique(db, s);
  }

  /** A local row is changed only by the statements that name it, keeps its provider and username,
      and never loses the administrator role. */
  lemma LocalRowStable(db: Db, s: Stmt, id: UserId)
    requires Consistent(db) && Guarded(s) && id in db.rows && db.rows[id].IsLocal()
    ensures id in Exec(db, s).rows ==>
              var r, r' := db.rows[id], Exec(db, s).rows[id];
              && r'.IsLocal() && r'.username == r.username
              && (r.role == ADMIN ==> r'.role == ADMIN)
              && (s.UpsertExternal? ==> r' == r)
    ensures s.UpsertExternal? ==> id in Exec(db, s).rows
  {
  }

  /** No statement can remove the last local administrator. */
  lemma ExecKeepsLocalAdmin(db: Db, s: Stmt)
    requires Consistent(db) && Guarded(s) && HasLocalAdmin(db)
    ensures HasLocalAdmin(Exec(db, s))
  {
    var id :| id in db.rows && db.rows[id].IsLocalAdmin();
    if id in Exec(db, s).rows {
      LocalRowStable(db, s, id);
    } else {
      var others := LocalAdmins(db) - {id};
      assert id in LocalAdmins(db);
      assert |others| >= 1;
      var other :| other in others;
      assert other in Exec(db, s).rows;
    }
  }

  // ---------------------------------------------------------------------------------------
  // Concurrent callers
  // ---------------------------------------------------------------------------------------

  /** A caller of a multi-statement operation, between two of its statements. */
  datatype Pc =
    | EnsureStart(password: string)
    | EnsureNone(password: string)
    | EnsureFound(id: UserId)
    | EnsurePromoted(id: UserId)
    | EnsureAbsent(password: string)
    | EnsureCreated(id: UserId)
    | EnsureDone(ok: bool)
    | PasswordStart(id: UserId, hash: string)
    | PasswordChecked(id: UserId, hash: string)
    | PasswordDone(ok: bool)

  datatype System = System(db: Db, callers: map<nat, Pc>)

  /** `Begin` starts a multi-statement call, `Single` is a one-statement operation, `Continue` is the
      next statement of a running call; `ok` is what comparing or hashing a password says. */
  datatype Event =
    | Begin(caller: nat, pc: Pc)
    | Single(stmt: Stmt)
    | Continue(caller: nat, ok: bool)

  ghost predicate Enabled(s: System, e: Event) {
    match e
    case Begin(t, pc) => t !in s.callers && (pc.EnsureStart? || pc.PasswordStart?)
    case Single(stmt) => Guarded(stmt) && (stmt.InsertLocal? || stmt.UpsertExternal? || stmt.Bump? || stmt.Delete?)
    case Continue(t, _) => t in s.callers && !s.callers[t].EnsureDone? && !s.callers[t].PasswordDone?
  }

  /** The write this event makes, if any. */
  ghost function StmtOf(s: System, e: Event): Option<Stmt>
    requires Enabled(s, e)
  {
    match e
    case Begin(_, _) => None
    case Single(stmt) => Some(stmt)
    case Continue(t, _) =>
      match s.callers[t]
      case EnsureFound(id) => Some(Promote(id))
      case EnsureAbsent(pw) => Some(InsertLocal("admin", pw, ADMIN))
      case EnsureCreated(id) => Some(RequireChange(id))
      case PasswordChecked(id, hash) => Some(SetPassword(id, hash))
      case _ => None
  }

  ghost predicate NamesAdmin(db: Db, id: UserId) {
    id in db.rows && db.rows[id].IsLocal() && db.rows[id].username == "admin"
  }

  /** The program counter after the caller's next statement, which reads `db` before its write. */
  ghost predicate Advances(db: Db, pc: Pc, ok: bool, pc': Pc) {
    match pc
    case EnsureStart(pw) =>
      if HasLocalAdmin(db) then pc' == EnsureDone(true)
      else if |pw| < 12 then pc' == EnsureDone(false)
      else pc' == EnsureNone(pw)
    case EnsureNone(pw) =>
      if LocalNameTaken(db, "admin") then pc'.EnsureFound? && NamesAdmin(db, pc'.id)
      else pc' == if ok then EnsureAbsent(pw) else EnsureDone(false)
    case EnsureFound(id) => pc' == EnsurePromoted(id)
    case EnsurePromoted(id) => pc' == EnsureDone(id in db.rows)
    case EnsureAbsent(pw) =>
      pc' == if LocalNameTaken(db, "admin") then EnsureDone(false) else EnsureCreated(UserId(db.nextId))
    case EnsureCreated(_) => pc' == EnsureDone(true)
    case PasswordStart(id, hash) =>
      pc' == if id in db.rows && db.rows[id].IsLocal() && ok then PasswordChecked(id, hash) else PasswordDone(false)
    case PasswordChecked(_, _) => pc' == PasswordDone(true)
    case _ => false
  }

  ghost predicate Next(s: System, e: Event, s': System) {
    && Enabled(s, e)
    && s'.db == (match StmtOf(s, e) case None => s.db case Some(stmt) => Exec(s.db, stmt))
    && match e
       case Begin(t, pc) => s'.callers == s.callers[t := pc]
       case Single(_) => s'.callers == s.callers
       case Continue(t, ok) =>
         && t in s'.callers && s'.callers == s.callers[t := s'.callers[t]]
         && Advances(s.db, s.callers[t], ok, s'.callers[t])
  }

  ghost predicate Run(ss: seq<System>, es: seq<Event>) {
    && |ss| == |es| + 1
    && forall i :: 0 <= i < |es| ==> Next(ss[i], es[i], ss[i + 1])
  }

  /** What a caller may rely on between its statements. */
  ghost predicate PcInv(db: Db, pc: Pc) {
    match pc
    case EnsureFound(id) => id.n < db.nextId && (id in db.rows ==> db.rows[id].IsLocal())
    case EnsurePromoted(id) => id.n < db.nextId && (id in db.rows ==> db.rows[id].IsLocalAdmin())
    case EnsureCreated(_) => HasLocalAdmin(db)
    case EnsureDone(ok) => ok ==> HasLocalAdmin(db)
    case _ => true
  }

  ghost predicate Inv(s: System) {
    Consistent(s.db) && forall t :: t in s.callers ==> PcInv(s.db, s.callers[t])
  }

  /** A used id that is gone stays gone. */
  lemma NoReuse(db: Db, s: Stmt, id: UserId)
    requires IdsBelow(db) && id.n < db.nextId && id !in db.rows
    ensures id !in Exec(db, s).rows && id.n < Exec(db, s).nextId
  {
  }

  /** Statements of others do not disturb a caller. */
  lemma PcInvStable(db: Db, stmt: Stmt, pc: Pc)
    requires Consistent(db) && Guarded(stmt) && PcInv(db, pc)
    ensures PcInv(Exec(db, stmt), pc)
  {
    ExecIdsBelow(db, stmt);
    if HasLocalAdmin(db) {
      ExecKeepsLocalAdmin(db, stmt);
    }
    if pc.EnsureFound? || pc.EnsurePromoted? {
      if pc.id in db.rows {
        LocalRowStable(db, stmt, pc.id);
      } else {
        NoReuse(db, stmt, pc.id);
      }
    }
  }

  /** A caller's own statement establishes what its next program counter says. */
  lemma OwnStep(s: System, t: nat, ok: bool, s': System)
    requires Inv(s) && Next(s, Continue(t, ok), s')
    ensures PcInv(s'.db, s'.callers[t])
  {
    var pc, db, db' := s.callers[t], s.db, s'.db;
    if pc.EnsureCreated? {
      ExecKeepsLocalAdmin(db, RequireChange(pc.id));
    } else if pc.EnsureAbsent? && !LocalNameTaken(db, "admin") {
      assert db'.rows[UserId(db.nextId)].IsLocalAdmin();
    }
  }

  lemma StmtGuarded(s: System, e: Event)
    requires Enabled(s, e) && StmtOf(s, e).Some?
    ensures Guarded(StmtOf(s, e).value)
  {
  }

  lemma StepInv(s: System, e: Event, s': System)
    requires Inv(s) && Next(s, e, s')
    ensures Inv(s')
  {
    var stmt := StmtOf(s, e);
    if stmt.Some? {
      StmtGuarded(s, e);
      ExecConsistent(s.db, stmt.value);
    }
    forall t | t in s'.callers
      ensures PcInv(s'.db, s'.callers[t])
    {
      if e.Continue? && e.caller == t {
        OwnStep(s, t, e.ok, s');
      } else if t in s.callers && stmt.Some? {
        PcInvStable(s.db, stmt.value, s.callers[t]);
      }
    }
  }

  lemma {:induction false} InvAlways(ss: seq<System>, es: seq<Event>, n: nat)
    requires Run(ss, es) && Inv(ss[0]) && n <= |es|
    ensures Inv(ss[n])
  {
    if n > 0 {
      InvAlways(ss, es, n - 1);
      StepInv(ss[n - 1], es[n - 1], ss[n]);
    }
  }

  /** A table as the migrations leave it, before any call. */
  ghost predicate Fresh(s: System) {
    Consistent(s.db) && s.callers == map[]
  }

  lemma FreshInv(s: System)
    requires Fresh(s)
    ensures Inv(s)
  {
  }

  lemma {:induction false} AdminStays(ss: seq<System>, es: seq<Event>, m: nat, n: nat)
    requires Run(ss, es) && Inv(ss[0]) && m <= n <= |es| && HasLocalAdmin(ss[m].db)
    ensures HasLocalAdmin(ss[n].db)
    decreases n - m
  {
    if m < n {
      AdminStays(ss, es, m, n - 1);
      InvAlways(ss, es, n - 1);
      assert Next(ss[n - 1], es[n - 1], ss[n]);
      var stmt := StmtOf(ss[n - 1], es[n - 1]);
      if stmt.Some? {
        StmtGuarded(ss[n - 1], es[n - 1]);
        ExecKeepsLocalAdmin(ss[n - 1].db, stmt.value);
      }
    }
  }

  /** Once any `EnsureBreakGlassAdmin` call has succeeded, every later state of every interleaving has
      a local administrator, with local usernames and external identities unique throughout. */
  lemma BreakGlassHolds(ss: seq<System>, es: seq<Event>, t: nat, m: nat, n: nat)
    requires Run(ss, es) && Fresh(ss[0]) && m <= n <= |es|
    requires t in ss[m].callers && ss[m].callers[t] == EnsureDone(true)
    ensures HasLocalAdmin(ss[n].db) && Consistent(ss[n].db)
    ensures var rows := ss[n].db.rows;
            exists id :: id in rows && rows[id].provider == "local" && rows[id].role == "admin"
  {
    FreshInv(ss[0]);
    InvAlways(ss, es, m);
    InvAlways(ss, es, n);
    AdminStays(ss, es, m, n);
    LocalAdminMeans(ss[n].db);
  }

  // ---------------------------------------------------------------------------------------
  // Sessions
  // ---------------------------------------------------------------------------------------

  datatype Claims = Claims(userId: UserId, username: string, role: string, provider: string, version: nat)

  /** `IssueToken` copies the user as read from the table. */
  function IssueToken(id: UserId, row: Row): Claims {
    Claims(id, row.username, row.role, row.provider, row.version)
  }

  datatype Path = Me | Logout | UserPassword(id: UserId) | OtherPath(path: string)
  datatype Request = Request(verb: string, path: Path)

  predicate PasswordRotationAllowed(r: Request, id: UserId) {
    || (r.verb == "GET" && r.path == Me)
    || (r.verb == "POST" && r.path == Logout)
    || (r.verb == "PUT" && r.path == UserPassword(id))
  }

  datatype Outcome = Unauthorized | Forbidden | Served(claims: Claims)

  /** The decision of `Middleware`.  `valid` says the cookie carried a well-signed, unexpired token. */
  function Middleware(db: Db, valid: bool, token: Claims, r: Request): Outcome {
    if !valid || token.userId !in db.rows then Unauthorized
    else
      var user := db.rows[token.userId];
      if token.version != user.version then Unauthorized
      else if user.IsLocal() && user.mustChange && !PasswordRotationAllowed(r, token.userId) then Forbidden
      else Served(IssueToken(token.userId, user))
  }

  /** Every outcome, on the row and the request: a session of a missing user or an old version is refused, and
      a local user who must change the password reaches only that, the own account and the logout. */
  lemma OutcomeIff(db: Db, valid: bool, token: Claims, r: Request)
    ensures var out, id := Middleware(db, valid, token, r), token.userId;
            && (out == Unauthorized <==> !valid || id !in db.rows || db.rows[id].version != token.version)
            && (out == Forbidden <==>
                  && valid && id in db.rows && db.rows[id].version == token.version
                  && db.rows[id].provider == "local" && db.rows[id].mustChange
                  && r != Request("GET", Me) && r != Request("POST", Logout) && r != Request("PUT", UserPassword(id)))
            && (out.Served? ==>
                  && out.claims.userId == id && out.claims.username == db.rows[id].username
                  && out.claims.role == db.rows[id].role && out.claims.provider == db.rows[id].provider
                  && out.claims.version == db.rows[id].version)
  {
  }

  /** What having a local administrator means, on the rows. */
  lemma LocalAdminMeans(db: Db)
    ensures HasLocalAdmin(db) <==>
              exists id :: id in db.rows && db.rows[id].provider == "local" && db.rows[id].role == "admin"
  {
    if HasLocalAdmin(db) {
      var id :| id in db.rows && db.rows[id].IsLocalAdmin();
      assert db.rows[id].provider == "local";
    }
  }

  /** The statement ends the sessions of `id`: logout, password change, promotion, an external login
      that changes the role, or a deletion that takes effect. */
  ghost predicate Revokes(db: Db, s: Stmt, id: UserId) {
    match s
    case Bump(i) => i == id
    case SetPassword(i, _) => i == id
    case Promote(i) => i == id
    case Delete(i) => i == id && id !in Exec(db, s).rows
    case UpsertExternal(p, sub, _, role) => id in db.rows && db.rows[id].IsExternal(p, sub) && db.rows[id].role != role
    case _ => false
  }

  /** Versions only increase, and stay put exactly when the statement does not revoke. */
  lemma VersionStep(db: Db, s: Stmt, id: UserId)
    requires IdsBelow(db) && id in db.rows
    ensures id in Exec(db, s).rows ==> db.rows[id].version <= Exec(db, s).rows[id].version
    ensures Revokes(db, s, id) <==> id !in Exec(db, s).rows || Exec(db, s).rows[id].version != db.rows[id].version
  {
  }

  /** The token no longer matches, and never will again. */
  ghost predicate Dead(db: Db, id: UserId, version: nat) {
    id.n < db.nextId && (id in db.rows ==> db.rows[id].version > version)
  }

  lemma DeadStays(db: Db, s: Stmt, id: UserId, version: nat)
    requires IdsBelow(db) && Dead(db, id, version)
    ensures Dead(Exec(db, s), id, version)
  {
    ExecIdsBelow(db, s);
    if id in db.rows {
      VersionStep(db, s, id);
    } else {
      NoReuse(db, s, id);
    }
  }

  /** The event at position `k` revokes the sessions of `id`. */
  ghost predicate RevokedAt(ss: seq<System>, es: seq<Event>, id: UserId, k: nat) {
    && k < |es| && k < |ss| && Enabled(ss[k], es[k]) && StmtOf(ss[k], es[k]).Some?
    && Revokes(ss[k].db, StmtOf(ss[k], es[k]).value, id)
  }

  ghost predicate RevokedBetween(ss: seq<System>, es: seq<Event>, id: UserId, m: nat, n: nat) {
    exists k :: m <= k < n && RevokedAt(ss, es, id, k)
  }

  lemma RevokedOneMore(ss: seq<System>, es: seq<Event>, id: UserId, m: nat, n: nat)
    requires m < n
    ensures RevokedBetween(ss, es, id, m, n) <==> RevokedBetween(ss, es, id, m, n - 1) || RevokedAt(ss, es, id, n - 1)
  {
    if RevokedBetween(ss, es, id, m, n) {
      var k :| m <= k < n && RevokedAt(ss, es, id, k);
      assert k == n - 1 || m <= k < n - 1;
    }
  }

  ghost predicate TokenState(db: Db, id: UserId, version: nat, revoked: bool) {
    if revoked then Dead(db, id, version) else id in db.rows && db.rows[id].version == version
  }

  lemma TokenStep(s: System, e: Event, s': System, id: UserId, version: nat, revoked: bool)
    requires Inv(s) && Next(s, e, s') && TokenState(s.db, id, version, revoked)
    ensures var stmt := StmtOf(s, e);
            TokenState(s'.db, id, version, revoked || (stmt.Some? && Revokes(s.db, stmt.value, id)))
  {
    var stmt := StmtOf(s, e);
    if stmt.Some? {
      ExecIdsBelow(s.db, stmt.value);
      if revoked {
        DeadStays(s.db, stmt.value, id, version);
      } else {
        VersionStep(s.db, stmt.value, id);
      }
    }
  }

  /** Between the read that a token was issued from and any later state, either no event revoked the
      user and the row still carries the token's version, or some event did and the token is dead. */
  lemma {:induction false} TokenAge(ss: seq<System>, es: seq<Event>, id: UserId, m: nat, n: nat)
    requires Run(ss, es) && Inv(ss[0]) && m <= n <= |es| && id in ss[m].db.rows
    ensures TokenState(ss[n].db, id, ss[m].db.rows[id].version, RevokedBetween(ss, es, id, m, n))
    decreases n - m
  {
    if m < n {
      TokenAge(ss, es, id, m, n - 1);
      InvAlways(ss, es, n - 1);
      RevokedOneMore(ss, es, id, m, n);
      TokenStep(ss[n - 1], es[n - 1], ss[n], id, ss[m].db.rows[id].version, RevokedBetween(ss, es, id, m, n - 1));
    }
  }

  /** A token issued from the row read at `m` passes the session check at any later state exactly when
      its user was not logged out, re-roled, promoted, deleted, or given a new password in between; and
      what is served carries the row's current name, role and provider. */
  lemma AcceptedIffNotRevoked(ss: seq<System>, es: seq<Event>, id: UserId, m: nat, n: nat, valid: bool, r: Request)
    requires Run(ss, es) && Inv(ss[0]) && m <= n <= |es| && id in ss[m].db.rows
    ensures var token := IssueToken(id, ss[m].db.rows[id]);
            var out := Middleware(ss[n].db, valid, token, r);
            && (out != Unauthorized <==> valid && !RevokedBetween(ss, es, id, m, n))
            && (out.Served? ==> id in ss[n].db.rows && out.claims == IssueToken(id, ss[n].db.rows[id]))
  {
    TokenAge(ss, es, id, m, n);
  }

  lemma {:induction false} DeadAlways(ss: seq<System>, es: seq<Event>, id: UserId, version: nat, m: nat, n: nat)
    requires Run(ss, es) && Inv(ss[0]) && m <= n <= |es| && Dead(ss[m].db, id, version)
    ensures Dead(ss[n].db, id, version)
    decreases n - m
  {
    if m < n {
      DeadAlways(ss, es, id, version, m, n - 1);
      InvAlways(ss, es, n - 1);
      assert Next(ss[n - 1], es[n - 1], ss[n]);
      var stmt := StmtOf(ss[n - 1], es[n - 1]);
      if stmt.Some? {
        DeadStays(ss[n - 1].db, stmt.value, id, version);
      }
    }
  }

  /** A token refused for its version or a missing user is refused in every later state. */
  lemma RefusedForever(ss: seq<System>, es: seq<Event>, id: UserId, i: nat, m: nat, n: nat, r: Request, r': Request)
    requires Run(ss, es) && Inv(ss[0]) && i <= m <= n <= |es| && id in ss[i].db.rows
    requires Middleware(ss[m].db, true, IssueToken(id, ss[i].db.rows[id]), r) == Unauthorized
    ensures Middleware(ss[n].db, true, IssueToken(id, ss[i].db.rows[id]), r') == Unauthorized
  {
    TokenAge(ss, es, id, i, m);
    DeadAlways(ss, es, id, ss[i].db.rows[id].version, m, n);
  }

  // ---------------------------------------------------------------------------------------
  // The code, one call at a time
  // ---------------------------------------------------------------------------------------

  datatype Error =
    | MissingField | InvalidRole | InvalidProvider | Duplicate | UserNotFound | WrongPassword
    | LastLocalAdmin | WeakBootstrap | HashRefused

  datatype Result<T> = Ok(value: T) | Err(error: Error)

  lemma CountedAdmins(db: Db)
    ensures |LocalAdmins(db)| > 0 <==> HasLocalAdmin(db)
  {
    if |LocalAdmins(db)| > 0 {
      var id :| id in LocalAdmins(db);
    } else {
      assert forall id :: id in db.rows && db.rows[id].IsLocalAdmin() ==> id in LocalAdmins(db);
    }
  }

  lemma OnlyOneExternal(db: Db, p: string, s: string, id: UserId)
    requires Consistent(db) && id in db.rows && db.rows[id].IsExternal(p, s)
    ensures forall i :: i in db.rows && db.rows[i].IsExternal(p, s) ==> i == id
  {
  }

  class UserStore {
    ghost var db: Db
    var rows: map<UserId, Row>
    var nextId: nat

    ghost predicate Valid()
      reads this
    {
      db == Db(rows, nextId) && Consistent(db)
    }

    constructor ()
      ensures Valid() && rows == map[]
    {
      rows, nextId := map[], 0;
      db := Db(map[], 0);
    }

    method FindLocal(username: string) returns (found: Option<UserId>)
      requires Valid()
      ensures found.None? <==> !LocalNameTaken(db, username)
      ensures found.Some? ==>
                found.value in rows && rows[found.value].IsLocal() && rows[found.value].username == username
    {
      var todo := rows.Keys;
      while todo != {}
        invariant todo <= rows.Keys
        invariant forall id :: id in rows && id !in todo ==> !(rows[id].IsLocal() && rows[id].username == username)
      {
        var id :| id in todo;
        if rows[id].IsLocal() && rows[id].username == username {
          return Some(id);
        }
        todo := todo - {id};
      }
      return None;
    }

    /** `hashed` says whether the password could be hashed. */
    method CreateUser(username: string, password: string, role: string, hashed: bool) returns (r: Result<UserId>)
      requires Valid()
      modifies this
      ensures Valid()
      ensures r.Err? ==> db == old(db)
      ensures r.Ok? ==>
                && Guarded(InsertLocal(username, password, role))
                && db == Exec(old(db), InsertLocal(username, password, role))
                && r.value == UserId(old(nextId)) && r.value !in old(rows)
                && rows == old(rows)[r.value := Row(username, Some(password), role, "local", None, false, 0)]
      ensures r == Err(MissingField) <==> username == "" || password == ""
      ensures r == Err(InvalidRole) <==> username != "" && password != "" && !ValidRole(role)
      ensures r == Err(HashRefused) <==> username != "" && password != "" && ValidRole(role) && !hashed
      ensures r == Err(Duplicate) <==>
                username != "" && password != "" && ValidRole(role) && hashed && LocalNameTaken(old(db), username)
      ensures r.Ok? <==>
                username != "" && password != "" && ValidRole(role) && hashed && !LocalNameTaken(old(db), username)
    {
      if username == "" || password == "" {
        return Err(MissingField);
      }
      if role != ADMIN && role != VIEWER {
        return Err(InvalidRole);
      }
      if !hashed {
        return Err(HashRefused);
      }
      var clash := FindLocal(username);
      if clash.Some? {
        return Err(Duplicate);
      }
      ExecConsistent(db, InsertLocal(username, password, role));
      rows := rows[UserId(nextId) := Row(username, Some(password), role, LOCAL, None, false, 0)];
      nextId := nextId + 1;
      db := Db(rows, nextId);
      return Ok(UserId(nextId - 1));
    }

    method FindExternal(provider: string, subject: string) returns (found: Option<UserId>)
      requires Valid()
      ensures found.None? <==> !ExternalExists(db, provider, subject)
      ensures found.Some? ==> found.value in rows && rows[found.value].IsExternal(provider, subject)
    {
      var todo := rows.Keys;
      while todo != {}
        invariant todo <= rows.Keys
        invariant forall id :: id in rows && id !in todo ==> !rows[id].IsExternal(provider, subject)
      {
        var id :| id in todo;
        if rows[id].IsExternal(provider, subject) {
          return Some(id);
        }
        todo := todo - {id};
      }
      return None;
    }

    /** Insert or refresh by external identity; the row read back carries the version for the token. */
    method UpsertExternalUser(provider: string, subject: string, username: string, role: string)
      returns (r: Result<UserId>)
      requires Valid()
      modifies this
      ensures Valid()
      ensures r.Ok? <==> Guarded(UpsertExternal(provider, subject, username, role))
      ensures db == if r.Ok? then Exec(old(db), UpsertExternal(provider, subject, username, role)) else old(db)
      ensures r.Err? ==> rows == old(rows)
      ensures r.Ok? ==> r.value in rows && rows == old(rows)[r.value := rows[r.value]]
      ensures r.Ok? ==> (r.value in old(rows) <==> ExternalExists(old(db), provider, subject))
      ensures r.Ok? && r.value !in old(rows) ==>
                rows[r.value] == Row(username, None, role, provider, Some(subject), false, 0)
      ensures r.Ok? && r.value in old(rows) ==>
                var before, after := old(rows)[r.value], rows[r.value];
                && before.provider == provider && before.subject == Some(subject)
                && after == before.(username := username, role := role, version := after.version)
                && after.version == before.version + if before.role == role then 0 else 1
    {
      if provider == "" || provider == LOCAL {
        return Err(InvalidProvider);
      }
      if subject == "" || username == "" {
        return Err(MissingField);
      }
      if role != ADMIN && role != VIEWER {
        return Err(InvalidRole);
      }
      ghost var stmt := UpsertExternal(provider, subject, username, role);
      ExecConsistent(db, stmt);
      var existing := FindExternal(provider, subject);
      if existing.Some? {
        var id := existing.value;
        OnlyOneExternal(db, provider, subject, id);
        rows := rows[id := Refreshed(rows[id], username, role)];
        assert rows == Exec(old(db), stmt).rows;
        db := Db(rows, nextId);
        return Ok(id);
      }
      rows := rows[UserId(nextId) := Row(username, None, role, provider, Some(subject), false, 0)];
      nextId := nextId + 1;
      db := Db(rows, nextId);
      return Ok(UserId(nextId - 1));
    }

    /** `matches` and `hashed` say what comparing the old and hashing the new password gave. */
    method ChangePassword(id: UserId, newPassword: string, matches: bool, hashed: bool) returns (r: Result<bool>)
      requires Valid()
      modifies this
      ensures Valid()
      ensures r.Ok? <==> newPassword != "" && id in old(rows) && old(rows)[id].IsLocal() && matches && hashed
      ensures r == Err(HashRefused) <==>
                newPassword != "" && id in old(rows) && old(rows)[id].IsLocal() && matches && !hashed
      ensures db == if r.Ok? then Exec(old(db), SetPassword(id, newPassword)) else old(db)
      ensures r.Err? ==> rows == old(rows)
      ensures r.Ok? ==>
                && (forall i :: i in rows <==> i in old(rows))
                && (forall i :: i in rows && i != id ==> rows[i] == old(rows)[i])
                && var v := old(rows)[id].version + 1;
                   rows[id] == old(rows)[id].(hash := Some(newPassword), mustChange := false, version := v)
    {
      if newPassword == "" {
        return Err(MissingField);
      }
      if id !in rows || !rows[id].IsLocal() {
        return Err(UserNotFound);
      }
      if !matches {
        return Err(WrongPassword);
      }
      if !hashed {
        return Err(HashRefused);
      }
      ExecConsistent(db, SetPassword(id, newPassword));
      rows := rows[id := rows[id].(hash := Some(newPassword), mustChange := false, version := rows[id].version + 1)];
      db := Db(rows, nextId);
      return Ok(true);
    }

    method BumpTokenVersion(id: UserId)
      requires Valid()
      modifies this
      ensures Valid() && db == Exec(old(db), Bump(id))
      ensures id !in old(rows) ==> rows == old(rows)
      ensures id in old(rows) ==> rows == old(rows)[id := old(rows)[id].(version := old(rows)[id].version + 1)]
    {
      ExecConsistent(db, Bump(id));
      if id in rows {
        rows := rows[id := rows[id].(version := rows[id].version + 1)];
      }
      db := Db(rows, nextId);
    }

    method CountLocalAdmins() returns (n: nat)
      requires Valid()
      ensures n == |LocalAdmins(db)|
      ensures n > 0 <==> HasLocalAdmin(db)
    {
      n := 0;
      var todo := rows.Keys;
      ghost var seen: set<UserId> := {};
      while todo != {}
        invariant todo <= rows.Keys && n == |seen|
        invariant forall id :: id in seen <==> id in rows && id !in todo && rows[id].IsLocalAdmin()
      {
        var id :| id in todo;
        todo := todo - {id};
        if rows[id].IsLocalAdmin() {
          n := n + 1;
          seen := seen + {id};
        }
      }
      assert seen == LocalAdmins(db);
      CountedAdmins(db);
    }

    method DeleteUser(id: UserId) returns (r: Result<bool>)
      requires Valid()
      modifies this
      ensures Valid() && db == Exec(old(db), Delete(id))
      ensures r == Err(UserNotFound) <==> id !in old(rows)
      ensures r == Err(LastLocalAdmin) <==>
                id in old(rows) && old(rows)[id].IsLocalAdmin() && |LocalAdmins(old(db))| <= 1
      ensures r.Ok? <==> id in old(rows) && id !in rows
      ensures rows == if r.Ok? then old(rows) - {id} else old(rows)
    {
      var count := CountLocalAdmins();
      ExecConsistent(db, Delete(id));
      if id !in rows {
        assert rows - {id} == rows;
        return Err(UserNotFound);
      }
      if rows[id].IsLocalAdmin() && count <= 1 {
        return Err(LastLocalAdmin);
      }
      rows := rows - {id};
      db := Db(rows, nextId);
      return Ok(true);
    }

    /** Success always leaves a local administrator, and never touches a table that has one.  Without one,
        a local user named admin is promoted, which revokes its sessions, or one is created; every other
        row stays. */
    method EnsureBreakGlassAdmin(password: string, hashed: bool) returns (r: Result<Option<UserId>>)
      requires Valid()
      modifies this
      ensures Valid()
      ensures r.Ok? ==> HasLocalAdmin(db)
      ensures r.Err? ==> db == old(db)
      ensures HasLocalAdmin(old(db)) <==> r == Ok(None)
      ensures r == Ok(None) ==> db == old(db)
      ensures r == Err(WeakBootstrap) <==> !HasLocalAdmin(old(db)) && |password| < 12
      ensures r.Ok? <==> HasLocalAdmin(old(db)) || (|password| >= 12 && (LocalNameTaken(old(db), "admin") || hashed))
      ensures r.Ok? && r.value.Some? ==> AdminMade(old(db), r.value.value, password, db)
    {
      var count := CountLocalAdmins();
      if count > 0 {
        return Ok(None);
      }
      if |password| < 12 {
        return Err(WeakBootstrap);
      }
      var existing := FindLocal("admin");
      if existing.Some? {
        PromoteAdmin(existing.value);
        return Ok(Some(existing.value));
      }
      r := CreateAdmin(password, hashed);
    }

    method PromoteAdmin(id: UserId)
      requires Valid() && NamesAdmin(db, id)
      modifies this
      ensures Valid() && db == Exec(old(db), Promote(id))
    {
      ExecConsistent(db, Promote(id));
      rows := rows[id := rows[id].(role := ADMIN, mustChange := true, version := rows[id].version + 1)];
      db := Db(rows, nextId);
    }

    method CreateAdmin(password: string, hashed: bool) returns (r: Result<Option<UserId>>)
      requires Valid() && |password| >= 12 && !LocalNameTaken(db, "admin")
      modifies this
      ensures Valid()
      ensures r == if hashed then Ok(Some(UserId(old(nextId)))) else Err(HashRefused)
      ensures !hashed ==> db == old(db)
      ensures hashed ==>
                db == Exec(Exec(old(db), InsertLocal("admin", password, ADMIN)), RequireChange(UserId(old(nextId))))
    {
      var created := CreateUser("admin", password, ADMIN, hashed);
      if created.Err? {
        return Err(created.error);
      }
      var id := created.value;
      ExecConsistent(db, RequireChange(id));
      rows := rows[id := rows[id].(mustChange := true)];
      db := Db(rows, nextId);
      return Ok(Some(id));
    }
  }

  /** The table after an administrator was promoted or created as `id`. */
  ghost predicate AdminMade(db: Db, id: UserId, password: string, db': Db) {
    && id in db'.rows && db'.rows[id].IsLocalAdmin() && db'.rows[id].username == "admin" && db'.rows[id].mustChange
    && (forall i :: i != id ==> (i in db.rows <==> i in db'.rows))
    && (forall i :: i != id && i in db.rows && i in db'.rows ==> db'.rows[i] == db.rows[i])
    && (if id in db.rows
        then db'.rows[id].hash == db.rows[id].hash && db'.rows[id].version == db.rows[id].version + 1
        else db'.rows[id].hash == Some(password) && db'.rows[id].version == 0)
  }
}
