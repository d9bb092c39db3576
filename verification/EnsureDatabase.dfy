/**
 * Creating the missing target database, by any number of concurrent callers over
 * one server catalog in which other sessions may create things but drop nothing.
 * Every check and every statement is one step; between two steps of a caller
 * anything may happen.
 */
module EnsureDatabase {
  import opened Wrappers

  datatype Engine = Postgres | MySQL | SQLite | Unsupported

  // A PostgreSQL role has no host; the MySQL accounts created here have host "%".
  datatype Account = Account(user: string, host: string)

  datatype Grant = Grant(database: string, account: Account)

  datatype Catalog = Catalog(databases: set<string>, accounts: set<Account>, grants: set<Grant>)

  // What the two connection strings say. `admin` is whether an admin DSN is given.
  datatype Request = Request(parsed: bool, name: string, user: string, admin: bool, adminParsed: bool,
      maintUser: string)

  datatype Pc =
    | Start
    // ensurePostgres
    | CheckRole | CreateRole | CheckDatabase | CreateDatabase
    // ensureMySQL
    | CreateIfMissing | CheckUser | CreateUser | GrantAll
    | Finished(failed: bool)

  datatype Report = Report(databaseCreated: bool, roleCreated: bool, name: string)

  datatype Caller = Caller(req: Request, pc: Pc, res: Report)

  datatype State = State(engine: Engine, cat: Catalog, callers: seq<Caller>)

  // What became of one statement: the server's own answer, an unrelated error, or
  // an effect whose answer was lost.
  datatype Outcome = Answered | Refused | Lost

  datatype Label =
    | Arrive(req: Request)
    | Move(i: nat, out: Outcome)
    | Interfere(databases: set<string>, accounts: set<Account>, grants: set<Grant>)

  // The admin connection has to provide the role that the target DSN names.
  predicate NeedsRole(r: Request) {
    r.admin && r.user != "" && r.user != r.maintUser
  }

  function AccountOf(engine: Engine, user: string): Account {
    Account(user, if engine.MySQL? then "%" else "")
  }

  predicate Named(cat: Catalog, user: string) {
    exists a :: a in cat.accounts && a.user == user
  }

  function Ends(c: Caller, failed: bool): Caller {
    c.(pc := Finished(failed))
  }

  // === One step of a caller ==================================================

  function Begin(engine: Engine, c: Caller): Caller {
    var r := c.req;
    match engine
    case Unsupported => Ends(c, true)
    case SQLite => Ends(c, false)
    case _ =>
      if !r.parsed then Ends(c, true)
      else if r.name == "" then Ends(c, true)
      else
        var d := c.(res := c.res.(name := r.name));
        if r.admin && !r.adminParsed then Ends(d, true)
        else if engine.MySQL? then d.(pc := CreateIfMissing)
        else d.(pc := if NeedsRole(r) then CheckRole else CheckDatabase)
  }

  function StepCaller(engine: Engine, cat: Catalog, c: Caller): Caller {
    var r := c.req;
    match c.pc
    case Start => Begin(engine, c)
    case CheckRole => c.(pc := if AccountOf(engine, r.user) in cat.accounts then CheckDatabase else CreateRole)
    case CreateRole =>
      if AccountOf(engine, r.user) in cat.accounts then c.(pc := CheckDatabase)  // 42710
      else c.(pc := CheckDatabase, res := c.res.(roleCreated := true))
    case CheckDatabase => if r.name in cat.databases then Ends(c, false) else c.(pc := CreateDatabase)
    case CreateDatabase =>
      if OwnerMissing(engine, cat, r) then Ends(c, true)
      else if r.name in cat.databases then Ends(c, false)                        // 42P04
      else Ends(c.(res := c.res.(databaseCreated := true)), false)
    case CreateIfMissing =>
      var d := c.(res := c.res.(databaseCreated := r.name !in cat.databases));
      if NeedsRole(r) then d.(pc := CheckUser) else Ends(d, false)
    case CheckUser => c.(pc := if Named(cat, r.user) then GrantAll else CreateUser)
    case CreateUser => c.(pc := GrantAll, res := c.res.(roleCreated := true))
    case GrantAll => Ends(c, AccountOf(engine, r.user) !in cat.accounts)
    case Finished(_) => c
  }

  // CREATE DATABASE ... OWNER needs the role.
  predicate OwnerMissing(engine: Engine, cat: Catalog, r: Request) {
    r.admin && r.user != "" && AccountOf(engine, r.user) !in cat.accounts
  }

  // What the statement at c.pc does to the catalog.
  function StepCatalog(engine: Engine, cat: Catalog, c: Caller): Catalog {
    var r := c.req;
    match c.pc
    case CreateRole => cat.(accounts := cat.accounts + {AccountOf(engine, r.user)})
    case CreateUser => cat.(accounts := cat.accounts + {AccountOf(engine, r.user)})
    case CreateDatabase => if OwnerMissing(engine, cat, r) then cat else cat.(databases := cat.databases + {r.name})
    case CreateIfMissing => cat.(databases := cat.databases + {r.name})
    case GrantAll =>
      if AccountOf(engine, r.user) in cat.accounts
      then cat.(grants := cat.grants + {Grant(r.name, AccountOf(engine, r.user))}) else cat
    case _ => cat
  }

  predicate Enabled(l: Label, s: State) {
    l.Move? ==> l.i < |s.callers| && !s.callers[l.i].pc.Finished? && (s.callers[l.i].pc.Start? ==> l.out.Answered?)
  }

  function Do(l: Label, s: State): State
    requires Enabled(l, s)
  {
    match l
    case Arrive(req) => s.(callers := s.callers + [Caller(req, Start, Report(false, false, ""))])
    case Interfere(ds, acs, gs) =>
      s.(cat := Catalog(s.cat.databases + ds, s.cat.accounts + acs, s.cat.grants + gs))
    case Move(i, out) =>
      var c := s.callers[i];
      s.(cat := if out.Refused? then s.cat else StepCatalog(s.engine, s.cat, c),
         callers := s.callers[i := if out.Answered? then StepCaller(s.engine, s.cat, c) else Ends(c, true)])
  }

  function After(s: State, run: seq<Label>): Option<State> {
    if run == [] then Some(s)
    else
      match After(s, run[..|run| - 1])
      case None => None
      case Some(t) => if Enabled(run[|run| - 1], t) then Some(Do(run[|run| - 1], t)) else None
  }

  // === What every run keeps ==================================================

  predicate Grown(a: Catalog, b: Catalog) {
    a.databases <= b.databases && a.accounts <= b.accounts && a.grants <= b.grants
  }

  // A caller's progress, against the catalog `was` of the start and the current one.
  ghost predicate Sound(engine: Engine, was: Catalog, cat: Catalog, c: Caller) {
    var r := c.req;
    var a := AccountOf(engine, r.user);
    && (c.pc.CheckRole? || c.pc.CreateRole? || c.pc.CheckDatabase? || c.pc.CreateDatabase? ==> engine.Postgres?)
    && (c.pc.CreateIfMissing? || c.pc.CheckUser? || c.pc.CreateUser? || c.pc.GrantAll? ==> engine.MySQL?)
    && (c.pc.CheckRole? || c.pc.CreateRole? || c.pc.CheckUser? || c.pc.CreateUser? || c.pc.GrantAll? ==> NeedsRole(r))
    && (c.pc.CheckDatabase? || c.pc.CreateDatabase? ==> NeedsRole(r) ==> a in cat.accounts)
    && (c.pc.CheckUser? || c.pc.CreateUser? || c.pc.GrantAll? ==> r.name in cat.databases)
    && (c.pc.CreateRole? ==> a !in was.accounts)
    && (c.pc.CreateUser? ==> !Named(was, r.user))
    && (!c.pc.Start? && !c.pc.Finished? ==> c.res.name == r.name)
    && (c.pc.Start? || c.pc.CheckRole? || c.pc.CreateRole? ==> !c.res.databaseCreated && !c.res.roleCreated)
    && (c.pc.CheckDatabase? || c.pc.CreateDatabase? || c.pc.CreateIfMissing? ==> !c.res.databaseCreated)
    && (c.pc == Finished(false) && (engine.Postgres? || engine.MySQL?) ==>
          && r.name in cat.databases && c.res.name == r.name
          && (NeedsRole(r) ==> a in cat.accounts)
          && (NeedsRole(r) && engine.MySQL? ==> Grant(r.name, a) in cat.grants))
    && (c.res.databaseCreated ==> r.name in cat.databases && r.name !in was.databases)
    && (c.res.roleCreated ==>
          NeedsRole(r) && a in cat.accounts && a !in was.accounts && (engine.MySQL? ==> !Named(was, r.user)))
  }

  ghost predicate Inv(was: Catalog, s: State) {
    && Grown(was, s.cat)
    && (forall i :: 0 <= i < |s.callers| ==> Sound(s.engine, was, s.cat, s.callers[i]))
    && (forall i, j :: 0 <= i < j < |s.callers| && s.callers[i].req.name == s.callers[j].req.name ==>
          !(s.callers[i].res.databaseCreated && s.callers[j].res.databaseCreated))
    && (s.engine.Postgres? ==>
        forall i, j :: 0 <= i < j < |s.callers| && s.callers[i].req.user == s.callers[j].req.user ==>
          !(s.callers[i].res.roleCreated && s.callers[j].res.roleCreated))
  }

  lemma SoundGrows(engine: Engine, was: Catalog, a: Catalog, b: Catalog, c: Caller)
    requires Sound(engine, was, a, c) && Grown(a, b)
    ensures Sound(engine, was, b, c)
  {
  }

  lemma CatalogGrows(engine: Engine, cat: Catalog, c: Caller)
    ensures Grown(cat, StepCatalog(engine, cat, c))
  {
  }

  lemma SoundFails(engine: Engine, was: Catalog, cat: Catalog, c: Caller)
    requires Sound(engine, was, cat, c)
    ensures Sound(engine, was, cat, Ends(c, true))
  {
  }

  lemma SoundStep(engine: Engine, was: Catalog, cat: Catalog, c: Caller)
    requires Grown(was, cat) && Sound(engine, was, cat, c)
    ensures Sound(engine, was, StepCatalog(engine, cat, c), StepCaller(engine, cat, c))
  {
    match c.pc
    case Start =>
    case CheckRole =>
    case CreateRole =>
    case CheckDatabase =>
    case CreateDatabase =>
    case CreateIfMissing =>
    case CheckUser =>
    case CreateUser =>
    case GrantAll =>
    case Finished(_) =>
  }

  // A step that reports a creation found the name free.
  lemma NewlyReported(engine: Engine, was: Catalog, cat: Catalog, c: Caller)
    requires Sound(engine, was, cat, c)
    ensures StepCaller(engine, cat, c).req == c.req
    ensures StepCaller(engine, cat, c).res.databaseCreated ==> c.res.databaseCreated || c.req.name !in cat.databases
    ensures engine.Postgres? && StepCaller(engine, cat, c).res.roleCreated ==>
              c.res.roleCreated || AccountOf(engine, c.req.user) !in cat.accounts
  {
  }

  lemma InvStep(was: Catalog, l: Label, s: State)
    requires Inv(was, s) && Enabled(l, s)
    ensures Inv(was, Do(l, s))
  {
    var t := Do(l, s);
    match l
    case Arrive(req) =>
    case Interfere(_, _, _) =>
      forall i | 0 <= i < |s.callers|
        ensures Sound(t.engine, was, t.cat, t.callers[i])
      {
        SoundGrows(s.engine, was, s.cat, t.cat, s.callers[i]);
      }
    case Move(i, out) =>
      CatalogGrows(s.engine, s.cat, s.callers[i]);
      assert Grown(s.cat, t.cat);
      MoveSound(was, s, i, out);
      MoveUnique(was, s, i, out);
  }

  lemma MoveSound(was: Catalog, s: State, i: nat, out: Outcome)
    requires Inv(was, s) && Enabled(Move(i, out), s)
    ensures var t := Do(Move(i, out), s);
            forall j :: 0 <= j < |t.callers| ==> Sound(t.engine, was, t.cat, t.callers[j])
  {
    var t := Do(Move(i, out), s);
    CatalogGrows(s.engine, s.cat, s.callers[i]);
    forall j | 0 <= j < |t.callers|
      ensures Sound(t.engine, was, t.cat, t.callers[j])
    {
      if j != i {
        SoundGrows(s.engine, was, s.cat, t.cat, s.callers[j]);
      } else if out.Answered? {
        SoundStep(s.engine, was, s.cat, s.callers[i]);
      } else {
        SoundGrows(s.engine, was, s.cat, t.cat, s.callers[i]);
        SoundFails(s.engine, was, t.cat, s.callers[i]);
      }
    }
  }

  lemma MoveUnique(was: Catalog, s: State, i: nat, out: Outcome)
    requires Inv(was, s) && Enabled(Move(i, out), s)
    ensures var t := Do(Move(i, out), s);
            && (forall j, k :: 0 <= j < k < |t.callers| && t.callers[j].req.name == t.callers[k].req.name ==>
                  !(t.callers[j].res.databaseCreated && t.callers[k].res.databaseCreated))
            && (t.engine.Postgres? ==>
                forall j, k :: 0 <= j < k < |t.callers| && t.callers[j].req.user == t.callers[k].req.user ==>
                  !(t.callers[j].res.roleCreated && t.callers[k].res.roleCreated))
  {
    NewlyReported(s.engine, was, s.cat, s.callers[i]);
    var t := Do(Move(i, out), s);
    assert t.callers[i].res.databaseCreated ==>
        s.callers[i].res.databaseCreated || s.callers[i].req.name !in s.cat.databases;
    assert forall j :: 0 <= j < |s.callers| && s.callers[j].res.databaseCreated ==>
        s.callers[j].req.name in s.cat.databases;
    assert forall j :: 0 <= j < |s.callers| && s.callers[j].res.roleCreated ==>
        AccountOf(s.engine, s.callers[j].req.user) in s.cat.accounts;
  }

  lemma {:induction false} InvRun(s: State, run: seq<Label>)
    requires s.callers == [] && After(s, run).Some?
    ensures Inv(s.cat, After(s, run).value)
    ensures After(s, run).value.engine == s.engine
  {
    if run != [] {
      var m := |run| - 1;
      InvRun(s, run[..m]);
      InvStep(s.cat, run[m], After(s, run[..m]).value);
    }
  }

  // === Main results ==========================================================

  // A call that returned no error left its goal behind: the database, and with a
  // separate admin connection the account and, on MySQL, its grant.
  lemma EnsuredExists(s: State, run: seq<Label>, i: nat)
    requires s.callers == [] && After(s, run).Some? && (s.engine.Postgres? || s.engine.MySQL?)
    requires i < |After(s, run).value.callers| && After(s, run).value.callers[i].pc == Finished(false)
    ensures var t := After(s, run).value;
            var c := t.callers[i];
            && c.res.name == c.req.name && c.req.name in t.cat.databases
            && (c.req.admin && c.req.user != "" && c.req.user != c.req.maintUser ==>
                 && AccountOf(s.engine, c.req.user) in t.cat.accounts
                 && (s.engine.MySQL? ==> Grant(c.req.name, Account(c.req.user, "%")) in t.cat.grants))
  {
    InvRun(s, run);
  }

  // At most one of any number of racing calls reports creating a database, and on
  // PostgreSQL at most one reports creating a role; what is reported was missing
  // when the run began.
  lemma CreatedOnce(s: State, run: seq<Label>, i: nat, j: nat)
    requires s.callers == [] && After(s, run).Some? && i < |After(s, run).value.callers| &&
        j < |After(s, run).value.callers|
    ensures var t := After(s, run).value;
            var c, d := t.callers[i], t.callers[j];
            && (c.res.databaseCreated ==> c.req.name in t.cat.databases && c.req.name !in s.cat.databases)
            && (c.res.roleCreated ==>
                AccountOf(s.engine, c.req.user) in t.cat.accounts && AccountOf(s.engine, c.req.user) !in s.cat.accounts)
            && (i != j && c.req.name == d.req.name ==> !(c.res.databaseCreated && d.res.databaseCreated))
            && (i != j && c.req.user == d.req.user && s.engine.Postgres? ==> !(c.res.roleCreated && d.res.roleCreated))
  {
    InvRun(s, run);
    if j < i {
      assert Inv(s.cat, After(s, run).value);
    }
  }

  // A call that starts when its database and account exist reports neither,
  // whatever happens around it.
  ghost predicate Quiet(engine: Engine, cat: Catalog, c: Caller) {
    && c.req.name in cat.databases && (NeedsRole(c.req) ==> AccountOf(engine, c.req.user) in cat.accounts)
    && !c.pc.CreateRole? && !c.pc.CreateUser? && !c.res.databaseCreated && !c.res.roleCreated
    && (c.pc.CheckRole? || c.pc.CheckUser? ==> NeedsRole(c.req))
  }

  lemma QuietStep(l: Label, s: State, i: nat)
    requires Enabled(l, s) && i < |s.callers| && Quiet(s.engine, s.cat, s.callers[i])
    ensures i < |Do(l, s).callers| && Quiet(s.engine, Do(l, s).cat, Do(l, s).callers[i]) && Do(l, s).engine == s.engine
  {
    if l.Move? {
      CatalogGrows(s.engine, s.cat, s.callers[l.i]);
    }
  }

  lemma {:induction false} RerunIsQuiet(s: State, run: seq<Label>, i: nat)
    requires i < |s.callers| && s.callers[i].pc.Start? && s.callers[i].res == Report(false, false, "")
    requires s.callers[i].req.name in s.cat.databases
    requires NeedsRole(s.callers[i].req) ==> AccountOf(s.engine, s.callers[i].req.user) in s.cat.accounts
    requires After(s, run).Some?
    ensures i < |After(s, run).value.callers| && After(s, run).value.engine == s.engine
    ensures Quiet(s.engine, After(s, run).value.cat, After(s, run).value.callers[i])
  {
    if run != [] {
      var m := |run| - 1;
      RerunIsQuiet(s, run[..m], i);
      QuietStep(run[m], After(s, run[..m]).value, i);
    }
  }

  // === MySQL: who created the account ========================================

  // Caller i found the account's name missing and is about to create the account.
  predicate Creating(s: State, i: nat) {
    i < |s.callers| && s.callers[i].pc.CreateUser?
  }

  predicate Reported(s: State, i: nat) {
    i < |s.callers| && s.callers[i].res.roleCreated
  }

  predicate SameUser(s: State, i: nat, j: nat) {
    i < |s.callers| && j < |s.callers| && s.callers[i].req.user == s.callers[j].req.user
  }

  predicate Legal(s: State, run: seq<Label>) {
    After(s, run).Some?
  }

  function At(s: State, run: seq<Label>): State
    requires Legal(s, run)
  {
    After(s, run).value
  }

  lemma {:induction false} PrefixLegal(s: State, run: seq<Label>, n: nat)
    requires Legal(s, run) && n <= |run|
    ensures Legal(s, run[..n])
    ensures n < |run| ==>
        Enabled(run[n], At(s, run[..n])) && After(s, run[..n + 1]) == Some(Do(run[n], At(s, run[..n])))
  {
    var m := |run| - 1;
    if n == |run| {
      assert run[..n] == run;
    } else if n == m {
      assert run[..m + 1] == run;
    } else {
      PrefixLegal(s, run[..m], n);
      assert run[..m][..n] == run[..n] && run[..m][..n + 1] == run[..n + 1];
    }
  }

  // Both callers were about to create at the same moment of the run.
  predicate Raced(s: State, run: seq<Label>, i: nat, j: nat)
    requires Legal(s, run)
  {
    exists n: nat :: n <= |run| && RacingAt(s, run, n, i, j)
  }

  predicate RacingAt(s: State, run: seq<Label>, n: nat, i: nat, j: nat)
    requires Legal(s, run) && n <= |run|
  {
    PrefixLegal(s, run, n);
    Creating(At(s, run[..n]), i) && Creating(At(s, run[..n]), j)
  }

  lemma RacedLonger(s: State, run: seq<Label>, m: nat, i: nat, j: nat)
    requires Legal(s, run) && m <= |run| && Legal(s, run[..m]) && Raced(s, run[..m], i, j)
    ensures Raced(s, run, i, j)
  {
    var n: nat :| n <= m && RacingAt(s, run[..m], n, i, j);
    assert run[..m][..n] == run[..n];
    assert RacingAt(s, run, n, i, j);
  }

  // A step by which a second caller comes to stand beside the first: both were
  // about to create before it, or it changes nothing about that.
  lemma RaceStep(was: Catalog, l: Label, s: State, i: nat, j: nat)
    requires Inv(was, s) && s.engine.MySQL? && Enabled(l, s) && i != j && SameUser(Do(l, s), i, j)
    requires Reported(Do(l, s), i) && (Reported(Do(l, s), j) || Creating(Do(l, s), j))
    ensures SameUser(s, i, j)
    ensures || (Creating(s, i) && Creating(s, j))
            || (Reported(s, i) && (Reported(s, j) || Creating(s, j)))
            || (Reported(s, j) && Creating(s, i))
  {
    if l.Move? {
      assert forall k :: 0 <= k < |s.callers| && k != l.i ==> Do(l, s).callers[k] == s.callers[k];
    }
  }

  lemma {:induction false} StoodTogether(s: State, run: seq<Label>, i: nat, j: nat)
    requires s.callers == [] && s.engine.MySQL? && Legal(s, run) && i != j && SameUser(At(s, run), i, j)
    requires Reported(At(s, run), i) && (Reported(At(s, run), j) || Creating(At(s, run), j))
    ensures Raced(s, run, i, j)
  {
    var m := |run| - 1;
    InvRun(s, run[..m]);
    RaceStep(s.cat, run[m], At(s, run[..m]), i, j);
    var t := At(s, run[..m]);
    if Creating(t, i) && Creating(t, j) {
      assert RacingAt(s, run, m, i, j);
    } else if Reported(t, i) {
      StoodTogether(s, run[..m], i, j);
      RacedLonger(s, run, m, i, j);
    } else {
      StoodTogether(s, run[..m], j, i);
      var n: nat :| n <= m && RacingAt(s, run[..m], n, j, i);
      assert RacingAt(s, run[..m], n, i, j);
      RacedLonger(s, run, m, i, j);
    }
  }

  // CREATE USER IF NOT EXISTS also succeeds for the call that comes second. Two
  // calls that both report the account were about to create it at the same moment;
  // and from every such moment both can come to report it.
  lemma BothReportOnlyIf(s: State, run: seq<Label>, i: nat, j: nat)
    requires s.callers == [] && s.engine.MySQL? && Legal(s, run) && i != j && SameUser(At(s, run), i, j)
    requires Reported(At(s, run), i) && Reported(At(s, run), j)
    ensures Raced(s, run, i, j)
  {
    StoodTogether(s, run, i, j);
  }

  lemma BothReportIf(s: State, run: seq<Label>, i: nat, j: nat)
    requires s.engine.MySQL? && Legal(s, run) && i != j && Creating(At(s, run), i) && Creating(At(s, run), j)
    ensures Legal(s, run + [Move(i, Answered), Move(j, Answered)])
    ensures var t := At(s, run + [Move(i, Answered), Move(j, Answered)]);
            && Reported(t, i) && Reported(t, j)
            && |t.callers| == |At(s, run).callers|
            && forall k :: 0 <= k < |t.callers| ==> t.callers[k].req == At(s, run).callers[k].req
  {
    var t := At(s, run);
    var once := Extend(s, run, t, Move(i, Answered));
    var u := Do(Move(i, Answered), t);
    var twice := Extend(s, once, u, Move(j, Answered));
    assert twice == run + [Move(i, Answered), Move(j, Answered)];
  }

  // Step q is caller i's CREATE USER, refused or with its answer lost.
  predicate CreateFails(s: State, run: seq<Label>, q: nat, i: nat)
    requires Legal(s, run) && q < |run|
  {
    PrefixLegal(s, run, q);
    run[q].Move? && run[q].i == i && !run[q].out.Answered? && Creating(At(s, run[..q]), i)
  }

  // Caller i's CREATE USER, if it came to that, has been answered.
  predicate Answers(s: State, run: seq<Label>, i: nat)
    requires Legal(s, run)
  {
    !Creating(At(s, run), i) && forall q: nat :: q < |run| ==> !CreateFails(s, run, q, i)
  }

  lemma {:induction false} CreatingReports(s: State, run: seq<Label>, n: nat, i: nat)
    requires Legal(s, run) && n <= |run| && Legal(s, run[..n]) && Creating(At(s, run[..n]), i)
    requires forall q: nat :: q < |run| ==> !CreateFails(s, run, q, i)
    ensures Creating(At(s, run), i) || Reported(At(s, run), i)
  {
    if n == |run| {
      assert run[..n] == run;
    } else {
      var m := |run| - 1;
      assert run[..m][..n] == run[..n];
      forall q: nat | q < m
        ensures !CreateFails(s, run[..m], q, i)
      {
        assert run[..m][..q] == run[..q];
        assert !CreateFails(s, run, q, i);
      }
      CreatingReports(s, run[..m], n, i);
      assert !CreateFails(s, run, m, i);
      ReportStays(run[m], At(s, run[..m]), i);
    }
  }

  lemma ReportStays(l: Label, s: State, i: nat)
    requires Enabled(l, s)
    requires Reported(s, i) || (Creating(s, i) && (l.Move? && l.i == i ==> l.out.Answered?))
    ensures Creating(Do(l, s), i) || Reported(Do(l, s), i)
  {
  }

  // The exact condition for a double report, in every run: of two calls for one user
  // whose CREATE USER statements, if any, have been answered, both report the account
  // if and only if both were about to create it at the same moment.
  lemma MySQLReportsTwice(s: State, run: seq<Label>, i: nat, j: nat)
    requires s.callers == [] && s.engine.MySQL? && Legal(s, run) && i != j && SameUser(At(s, run), i, j)
    requires Answers(s, run, i) && Answers(s, run, j)
    ensures Reported(At(s, run), i) && Reported(At(s, run), j) <==> Raced(s, run, i, j)
  {
    if Reported(At(s, run), i) && Reported(At(s, run), j) {
      BothReportOnlyIf(s, run, i, j);
    }
    if Raced(s, run, i, j) {
      var n: nat :| n <= |run| && RacingAt(s, run, n, i, j);
      PrefixLegal(s, run, n);
      CreatingReports(s, run, n, i);
      CreatingReports(s, run, n, j);
    }
  }

  predicate BothCreate(s: State, run: seq<Label>, i: nat, j: nat) {
    Legal(s, run) && SameUser(At(s, run), i, j) && Creating(At(s, run), i) && Creating(At(s, run), j)
  }

  lemma {:induction false} RequestsStay(s: State, run: seq<Label>, n: nat, i: nat)
    requires Legal(s, run) && n <= |run| && Legal(s, run[..n]) && i < |At(s, run[..n]).callers|
    ensures i < |At(s, run).callers| && At(s, run).callers[i].req == At(s, run[..n]).callers[i].req
  {
    if n == |run| {
      assert run[..n] == run;
    } else {
      var m := |run| - 1;
      assert run[..m][..n] == run[..n];
      RequestsStay(s, run[..m], n, i);
      RequestStays(run[m], At(s, run[..m]), i);
    }
  }

  lemma RequestStays(l: Label, s: State, i: nat)
    requires Enabled(l, s) && i < |s.callers|
    ensures i < |Do(l, s).callers| && Do(l, s).callers[i].req == s.callers[i].req
  {
  }

  // Such runs exist for every request whose account is missing.
  lemma MySQLCanRace(s: State, r: Request)
    requires s.engine.MySQL? && s.callers == [] && NeedsRole(r) && !Named(s.cat, r.user)
    requires r.parsed && r.name != "" && r.adminParsed
    ensures exists run :: BothCreate(s, run, 0, 1) && At(s, run).callers[0].req == r
  {
    var run1, s1 := ToCreateUser(s, [], s, r);
    NamedIn(s, s1);
    var run2, s2 := ToCreateUser(s, run1, s1, r);
    assert s2.callers[0] == s1.callers[0] by {
      assert s2.callers[..1][0] == s1.callers[0];
    }
    assert BothCreate(s, run2, 0, 1);
  }

  lemma NamedIn(s: State, t: State)
    requires t.cat.accounts == s.cat.accounts
    ensures forall u :: Named(t.cat, u) == Named(s.cat, u)
  {
  }

  // A new call that finds the account missing gets as far as creating it.
  lemma ToCreateUser(s: State, run: seq<Label>, t: State, r: Request) returns (longer: seq<Label>, u: State)
    requires After(s, run) == Some(t) && t.engine.MySQL? && NeedsRole(r) && !Named(t.cat, r.user)
    requires r.parsed && r.name != "" && r.adminParsed
    ensures After(s, longer) == Some(u) && u.engine == t.engine && u.cat.accounts == t.cat.accounts
    ensures |u.callers| == |t.callers| + 1 && u.callers[..|t.callers|] == t.callers
    ensures u.callers[|t.callers|].req == r && u.callers[|t.callers|].pc.CreateUser?
  {
    var i := |t.callers|;
    longer := Extend(s, run, t, Arrive(r));
    var t0 := Do(Arrive(r), t);
    longer := Extend(s, longer, t0, Move(i, Answered));
    var t1 := Do(Move(i, Answered), t0);
    longer := Extend(s, longer, t1, Move(i, Answered));
    var t2 := Do(Move(i, Answered), t1);
    NamedIn(t, t2);
    longer := Extend(s, longer, t2, Move(i, Answered));
    u := Do(Move(i, Answered), t2);
  }

  lemma Extend(s: State, run: seq<Label>, t: State, l: Label) returns (longer: seq<Label>)
    requires After(s, run) == Some(t) && Enabled(l, t)
    ensures longer == run + [l] && After(s, longer) == Some(Do(l, t))
  {
    longer := run + [l];
    assert longer[..|run|] == run;
  }

  // === MySQL: whose statement it was =========================================

  // Step q of the run added the account.
  predicate AddsAccount(s: State, run: seq<Label>, q: nat, a: Account)
    requires Legal(s, run) && q < |run|
  {
    PrefixLegal(s, run, q);
    PrefixLegal(s, run, q + 1);
    a !in At(s, run[..q]).cat.accounts && a in At(s, run[..q + 1]).cat.accounts
  }

  // Step c is caller i's check, and it found no account of that name.
  predicate FindsNone(s: State, run: seq<Label>, c: nat, i: nat)
    requires Legal(s, run) && c < |run|
  {
    PrefixLegal(s, run, c);
    var t := At(s, run[..c]);
    && run[c] == Move(i, Answered) && i < |t.callers| && t.callers[i].pc.CheckUser?
    && !Named(t.cat, t.callers[i].req.user)
  }

  // Step m is caller i's CREATE USER, answered.
  predicate Creates(s: State, run: seq<Label>, m: nat, i: nat)
    requires Legal(s, run) && m < |run|
  {
    PrefixLegal(s, run, m);
    run[m] == Move(i, Answered) && Creating(At(s, run[..m]), i)
  }

  // No step between c and m added the account.
  predicate NobodyElse(s: State, run: seq<Label>, c: nat, m: nat, a: Account)
    requires Legal(s, run) && m <= |run|
  {
    forall q: nat :: c < q < m ==> !AddsAccount(s, run, q, a)
  }

  lemma {:induction false} CheckedBefore(s: State, run: seq<Label>, i: nat) returns (c: nat)
    requires s.callers == [] && Legal(s, run) && Creating(At(s, run), i)
    ensures c < |run| && FindsNone(s, run, c, i)
  {
    var m := |run| - 1;
    var t := At(s, run[..m]);
    if Creating(t, i) {
      c := CheckedBefore(s, run[..m], i);
      assert run[..m][..c] == run[..c];
    } else {
      c := m;
    }
  }

  lemma {:induction false} CreatedBefore(s: State, run: seq<Label>, i: nat) returns (m: nat)
    requires s.callers == [] && s.engine.MySQL? && Legal(s, run) && Reported(At(s, run), i)
    ensures m < |run| && Creates(s, run, m, i)
  {
    var n := |run| - 1;
    InvRun(s, run[..n]);
    var t := At(s, run[..n]);
    if Reported(t, i) {
      m := CreatedBefore(s, run[..n], i);
      assert run[..n][..m] == run[..m];
    } else {
      m := n;
    }
  }

  lemma AccountsGrow(s: State, run: seq<Label>, p: nat, q: nat)
    requires Legal(s, run) && p <= q <= |run| && Legal(s, run[..p]) && Legal(s, run[..q])
    ensures At(s, run[..p]).cat.accounts <= At(s, run[..q]).cat.accounts
    decreases q - p
  {
    if p < q {
      PrefixLegal(s, run, p);
      var t := At(s, run[..p]);
      if run[p].Move? {
        CatalogGrows(t.engine, t.cat, t.callers[run[p].i]);
      }
      AccountsGrow(s, run, p + 1, q);
    }
  }

  lemma {:induction false} StaysAbsent(s: State, run: seq<Label>, c: nat, m: nat, a: Account)
    requires Legal(s, run) && c < m <= |run| && Legal(s, run[..c + 1]) && Legal(s, run[..m])
    requires a !in At(s, run[..c + 1]).cat.accounts && NobodyElse(s, run, c, m, a)
    ensures a !in At(s, run[..m]).cat.accounts
    decreases m
  {
    if c + 1 < m {
      PrefixLegal(s, run, m - 1);
      StaysAbsent(s, run, c, m - 1, a);
      assert !AddsAccount(s, run, m - 1, a);
    }
  }

  // A reported creation has a check that found no account and a later statement of
  // the same call; and it was that statement that added the account if and only if
  // no other call or session added it in between.
  lemma ReportIsRightExactly(s: State, run: seq<Label>, i: nat) returns (c: nat, m: nat)
    requires s.callers == [] && s.engine.MySQL? && Legal(s, run) && Reported(At(s, run), i)
    ensures c < m < |run| && FindsNone(s, run, c, i) && Creates(s, run, m, i)
    ensures var a := Account(At(s, run).callers[i].req.user, "%");
            AddsAccount(s, run, m, a) <==> NobodyElse(s, run, c, m, a)
  {
    m := CreatedBefore(s, run, i);
    PrefixLegal(s, run, m);
    InvRun(s, run[..m]);
    c := CheckedBefore(s, run[..m], i);
    assert run[..m][..c] == run[..c];
    RequestsStay(s, run, m, i);
    PrefixLegal(s, run, c);
    assert run[..m][..c + 1] == run[..c + 1];
    RequestsStay(s, run[..m], c, i);
    OwnStatement(s, run, c, m, i, Account(At(s, run).callers[i].req.user, "%"));
  }

  lemma OwnStatement(s: State, run: seq<Label>, c: nat, m: nat, i: nat, a: Account)
    requires s.engine.MySQL? && Legal(s, run) && c < m < |run| && FindsNone(s, run, c, i) && Creates(s, run, m, i)
    requires Legal(s, run[..m]) && At(s, run[..m]).engine.MySQL?
    requires a == Account(At(s, run[..m]).callers[i].req.user, "%")
    requires Legal(s, run[..c]) && At(s, run[..c]).callers[i].req.user == a.user
    ensures AddsAccount(s, run, m, a) <==> NobodyElse(s, run, c, m, a)
  {
    PrefixLegal(s, run, c);
    PrefixLegal(s, run, m);
    assert a !in At(s, run[..c]).cat.accounts;
    assert At(s, run[..c + 1]).cat == At(s, run[..c]).cat;
    assert a in At(s, run[..m + 1]).cat.accounts;
    if NobodyElse(s, run, c, m, a) {
      StaysAbsent(s, run, c, m, a);
    } else {
      var q: nat :| c < q < m && AddsAccount(s, run, q, a);
      PrefixLegal(s, run, q + 1);
      AccountsGrow(s, run, q + 1, m);
      assert a in At(s, run[..m]).cat.accounts;
    }
    assert AddsAccount(s, run, m, a) <==> a !in At(s, run[..m]).cat.accounts;
  }

  // === What a call reports ===================================================

  // Step q is caller i's, answered, and it added the database.
  predicate AddsOwnDatabase(s: State, run: seq<Label>, q: nat, i: nat, name: string)
    requires Legal(s, run) && q < |run|
  {
    PrefixLegal(s, run, q);
    PrefixLegal(s, run, q + 1);
    run[q] == Move(i, Answered) && name !in At(s, run[..q]).cat.databases && name in At(s, run[..q + 1]).cat.databases
  }

  predicate AddsOwnAccount(s: State, run: seq<Label>, q: nat, i: nat, a: Account)
    requires Legal(s, run) && q < |run|
  {
    run[q] == Move(i, Answered) && AddsAccount(s, run, q, a)
  }

  // A call reports the database if and only if one of its own statements added it and
  // was answered.
  lemma {:induction false} ReportsDatabaseExactly(s: State, run: seq<Label>, i: nat)
    requires s.callers == [] && Legal(s, run) && i < |At(s, run).callers|
    ensures var c := At(s, run).callers[i];
            c.res.databaseCreated <==> exists q: nat :: q < |run| && AddsOwnDatabase(s, run, q, i, c.req.name)
  {
    if run != [] {
      var m := |run| - 1;
      var t, c := At(s, run[..m]), At(s, run).callers[i];
      InvRun(s, run[..m]);
      PrefixLegal(s, run, m);
      assert run[..m + 1] == run;
      forall q: nat | q < m
        ensures AddsOwnDatabase(s, run, q, i, c.req.name) <==> AddsOwnDatabase(s, run[..m], q, i, c.req.name)
      {
        assert run[..m][..q] == run[..q] && run[..m][..q + 1] == run[..q + 1];
      }
      if i < |t.callers| {
        ReportsDatabaseExactly(s, run[..m], i);
        DatabaseStep(s.cat, run[m], t, i);
        assert AddsOwnDatabase(s, run, m, i, c.req.name) <==>
            run[m] == Move(i, Answered) && c.req.name !in t.cat.databases && c.req.name in At(s, run).cat.databases;
      } else {
        NoneBefore(s, run[..m], i);
        assert forall q: nat :: q < m ==> run[..m][q] == run[q];
      }
    }
  }

  // A caller that has not arrived has made no statement.
  lemma NoneBefore(s: State, run: seq<Label>, i: nat)
    requires s.callers == [] && Legal(s, run) && i >= |At(s, run).callers|
    ensures forall q: nat :: q < |run| ==> !(run[q].Move? && run[q].i == i)
  {
    forall q: nat | q < |run|
      ensures !(run[q].Move? && run[q].i == i)
    {
      PrefixLegal(s, run, q);
      if run[q].Move? && run[q].i == i {
        RequestsStay(s, run, q, i);
      }
    }
  }

  lemma DatabaseStep(was: Catalog, l: Label, s: State, i: nat)
    requires Inv(was, s) && Enabled(l, s) && i < |s.callers|
    ensures var t := Do(l, s);
            var name := s.callers[i].req.name;
            && i < |t.callers| && t.callers[i].req == s.callers[i].req
            && (t.callers[i].res.databaseCreated <==>
                  || s.callers[i].res.databaseCreated
                  || (l == Move(i, Answered) && name !in s.cat.databases && name in t.cat.databases))
  {
  }

  lemma RoleStep(was: Catalog, l: Label, s: State, i: nat)
    requires Inv(was, s) && Enabled(l, s) && i < |s.callers|
    ensures var t := Do(l, s);
            var a := AccountOf(s.engine, s.callers[i].req.user);
            var adds := l == Move(i, Answered) && a !in s.cat.accounts && a in t.cat.accounts;
            && i < |t.callers| && t.callers[i].req == s.callers[i].req
            && (s.callers[i].res.roleCreated || adds ==> t.callers[i].res.roleCreated)
            && (s.engine.Postgres? && t.callers[i].res.roleCreated ==> s.callers[i].res.roleCreated || adds)
  {
  }

  // An account that one of the call's own statements added is reported; on PostgreSQL
  // nothing else is.
  lemma {:induction false} ReportsRole(s: State, run: seq<Label>, i: nat)
    requires s.callers == [] && Legal(s, run) && i < |At(s, run).callers|
    ensures var c := At(s, run).callers[i];
            var a := AccountOf(s.engine, c.req.user);
            var adds := exists q: nat :: q < |run| && AddsOwnAccount(s, run, q, i, a);
            (adds ==> c.res.roleCreated) && (s.engine.Postgres? ==> c.res.roleCreated ==> adds)
  {
    if run != [] {
      var m := |run| - 1;
      var t, c := At(s, run[..m]), At(s, run).callers[i];
      var a := AccountOf(s.engine, c.req.user);
      InvRun(s, run[..m]);
      PrefixLegal(s, run, m);
      assert run[..m + 1] == run;
      forall q: nat | q < m
        ensures AddsOwnAccount(s, run, q, i, a) <==> AddsOwnAccount(s, run[..m], q, i, a)
      {
        assert run[..m][..q] == run[..q] && run[..m][..q + 1] == run[..q + 1];
      }
      if i < |t.callers| {
        ReportsRole(s, run[..m], i);
        RoleStep(s.cat, run[m], t, i);
        assert AddsOwnAccount(s, run, m, i, a) <==>
            run[m] == Move(i, Answered) && a !in t.cat.accounts && a in At(s, run).cat.accounts;
      } else {
        NoneBefore(s, run[..m], i);
        assert forall q: nat :: q < m ==> run[..m][q] == run[q];
      }
    }
  }

  // Without an admin connection of another user a call adds no account.
  lemma NoRoleWithoutAdmin(s: State, run: seq<Label>, i: nat)
    requires s.callers == [] && Legal(s, run) && i < |At(s, run).callers|
    requires var r := At(s, run).callers[i].req; !r.admin || r.user == "" || r.user == r.maintUser
    ensures !At(s, run).callers[i].res.roleCreated
    ensures forall q: nat, a :: q < |run| && run[q].Move? && run[q].i == i ==> !AddsAccount(s, run, q, a)
  {
    InvRun(s, run);
    forall q: nat, a | q < |run| && run[q].Move? && run[q].i == i
      ensures !AddsAccount(s, run, q, a)
    {
      PrefixLegal(s, run, q);
      InvRun(s, run[..q]);
      RequestsStay(s, run, q, i);
    }
  }

  // === When a call fails =====================================================

  // The dialect or a connection string is unusable.
  predicate Unusable(engine: Engine, r: Request) {
    || engine.Unsupported?
    || (!engine.SQLite? && (!r.parsed || r.name == "" || (r.admin && !r.adminParsed)))
  }

  // The statement names an account that is not there: as owner, or in the GRANT.
  predicate Blocked(s: State, i: nat) {
    && i < |s.callers|
    && ((s.callers[i].pc.CreateDatabase? && OwnerMissing(s.engine, s.cat, s.callers[i].req))
        || (s.callers[i].pc.GrantAll? && AccountOf(s.engine, s.callers[i].req.user) !in s.cat.accounts))
  }

  // Step q is a statement of caller i that was refused, or lost its answer, or named a
  // missing account.
  predicate StopsAt(s: State, run: seq<Label>, q: nat, i: nat)
    requires Legal(s, run) && q < |run|
  {
    PrefixLegal(s, run, q);
    run[q].Move? && run[q].i == i && (!run[q].out.Answered? || Blocked(At(s, run[..q]), i))
  }

  lemma FailStep(l: Label, s: State, i: nat)
    requires Enabled(l, s) && i < |s.callers|
    requires !s.callers[i].pc.Start? && Unusable(s.engine, s.callers[i].req) ==> s.callers[i].pc == Finished(true)
    ensures var c, d := s.callers[i], Do(l, s).callers[i];
            var stops := l.Move? && l.i == i && (!l.out.Answered? || Blocked(s, i));
            && d.req == c.req && Do(l, s).engine == s.engine
            && (d.pc == Finished(true) <==>
                  c.pc == Finished(true) || stops || (!d.pc.Start? && Unusable(s.engine, c.req)))
  {
  }

  // A call fails if and only if it cannot begin, or one of its statements is refused,
  // loses its answer, or names an account that is not there. In particular finding the
  // database or the role already there, or created meanwhile, is no failure.
  lemma {:induction false} FailsExactly(s: State, run: seq<Label>, i: nat)
    requires s.callers == [] && Legal(s, run) && i < |At(s, run).callers|
    ensures var c := At(s, run).callers[i];
            c.pc == Finished(true) <==>
              || (!c.pc.Start? && Unusable(s.engine, c.req))
              || exists q: nat :: q < |run| && StopsAt(s, run, q, i)
  {
    if run != [] {
      var m := |run| - 1;
      var t := At(s, run[..m]);
      InvRun(s, run[..m]);
      PrefixLegal(s, run, m);
      forall q: nat | q < m
        ensures StopsAt(s, run, q, i) <==> StopsAt(s, run[..m], q, i)
      {
        assert run[..m][..q] == run[..q];
      }
      if i < |t.callers| {
        FailsExactly(s, run[..m], i);
        FailStep(run[m], t, i);
        assert StopsAt(s, run, m, i) <==> run[m].Move? && run[m].i == i && (!run[m].out.Answered? || Blocked(t, i));
      } else {
        NoneBefore(s, run[..m], i);
        assert forall q: nat :: q < m ==> run[..m][q] == run[q];
      }
    }
  }

  // === MySQL: an account at another host =====================================

  // The account is looked up by name only, but created and granted to at host "%":
  // while the name exists at other hosts only, no call that needs it succeeds.
  ghost predicate Misplaced(s: State, user: string) {
    && s.engine.MySQL? && Named(s.cat, user) && Account(user, "%") !in s.cat.accounts
    && (forall i :: 0 <= i < |s.callers| && NeedsRole(s.callers[i].req) && s.callers[i].req.user == user ==>
          s.callers[i].pc != Finished(false) && !s.callers[i].pc.CreateUser?)
    && (forall i :: 0 <= i < |s.callers| ==>
          && (s.callers[i].pc.CreateUser? || s.callers[i].pc.CheckUser? || s.callers[i].pc.GrantAll? ==>
              NeedsRole(s.callers[i].req))
          && !s.callers[i].pc.CheckRole? && !s.callers[i].pc.CreateRole? && !s.callers[i].pc.CheckDatabase? &&
              !s.callers[i].pc.CreateDatabase?)
  }

  // A session that does not create that very account.
  predicate Spares(l: Label, user: string) {
    l.Interfere? ==> Account(user, "%") !in l.accounts
  }

  lemma MisplacedStep(l: Label, s: State, user: string)
    requires Misplaced(s, user) && Enabled(l, s) && Spares(l, user)
    ensures Misplaced(Do(l, s), user)
  {
    var t := Do(l, s);
    var a :| a in s.cat.accounts && a.user == user;
    if l.Move? {
      CatalogGrows(s.engine, s.cat, s.callers[l.i]);
    }
    assert a in t.cat.accounts;
  }

  lemma {:induction false} MisplacedRun(s: State, run: seq<Label>, user: string)
    requires s.engine.MySQL? && s.callers == [] && Named(s.cat, user) && Account(user, "%") !in s.cat.accounts
    requires Legal(s, run) && forall l :: l in run ==> Spares(l, user)
    ensures Misplaced(At(s, run), user)
  {
    if run != [] {
      var m := |run| - 1;
      assert forall l :: l in run[..m] ==> l in run;
      MisplacedRun(s, run[..m], user);
      assert run[m] in run;
      MisplacedStep(run[m], At(s, run[..m]), user);
    }
  }

  lemma OtherHostBlocks(s: State, run: seq<Label>, user: string, i: nat)
    requires s.engine.MySQL? && s.callers == [] && Named(s.cat, user) && Account(user, "%") !in s.cat.accounts
    requires Legal(s, run) && forall l :: l in run ==> Spares(l, user)
    requires i < |At(s, run).callers|
    requires NeedsRole(At(s, run).callers[i].req) && At(s, run).callers[i].req.user == user
    ensures At(s, run).callers[i].pc != Finished(false)
  {
    MisplacedRun(s, run, user);
  }

  // A call that runs alone, with every statement answered.
  function Alone(engine: Engine, cat: Catalog, c: Caller, steps: nat): (Catalog, Caller)
    decreases steps
  {
    if steps == 0 then (cat, c) else Alone(engine, StepCatalog(engine, cat, c), StepCaller(engine, cat, c), steps - 1)
  }

  lemma AloneStep(engine: Engine, cat: Catalog, c: Caller, steps: nat)
    requires steps > 0
    ensures Alone(engine, cat, c, steps) ==
        Alone(engine, StepCatalog(engine, cat, c), StepCaller(engine, cat, c), steps - 1)
  {
  }

  // Such a call fails exactly when the name exists, but not at host "%".
  lemma AloneFailsExactly(cat: Catalog, r: Request)
    requires r.parsed && r.name != "" && r.adminParsed && NeedsRole(r)
    ensures Alone(MySQL, cat, Caller(r, Start, Report(false, false, "")), 5).1.pc ==
            Finished(Named(cat, r.user) && Account(r.user, "%") !in cat.accounts)
  {
    var c0 := Caller(r, Start, Report(false, false, ""));
    AloneStep(MySQL, cat, c0, 5);
    var c1 := StepCaller(MySQL, cat, c0);
    AloneStep(MySQL, cat, c1, 4);
    var cat2 := StepCatalog(MySQL, cat, c1);
    assert Named(cat2, r.user) == Named(cat, r.user);
    AloneFromCheck(cat2, StepCaller(MySQL, cat, c1));
  }

  lemma AloneFromCheck(cat: Catalog, c: Caller)
    requires c.pc.CheckUser?
    ensures Alone(MySQL, cat, c, 3).1.pc ==
        Finished(Named(cat, c.req.user) && Account(c.req.user, "%") !in cat.accounts)
  {
    var a := Account(c.req.user, "%");
    AloneStep(MySQL, cat, c, 3);
    var d := StepCaller(MySQL, cat, c);
    AloneStep(MySQL, cat, d, 2);
    var cat2 := StepCatalog(MySQL, cat, d);
    AloneStep(MySQL, cat2, StepCaller(MySQL, cat, d), 1);
    assert a in cat.accounts ==> Named(cat, c.req.user);
  }

  // === The calls themselves ==================================================

  lemma LeavesOthers(l: Label, s: State, i: nat)
    requires Enabled(l, s) && i < |s.callers| && (l.Move? ==> l.i != i)
    ensures i < |Do(l, s).callers| && Do(l, s).callers[i] == s.callers[i] && Do(l, s).engine == s.engine
  {
  }

  class Server {
    ghost const init: State
    var s: State
    ghost var run: seq<Label>

    ghost predicate Valid()
      reads this
    {
      init.callers == [] && After(init, run) == Some(s)
    }

    constructor (s: State)
      requires s.callers == []
      ensures Valid() && this.s == s
    {
      init, this.s, run := s, s, [];
    }

    method Step(l: Label)
      requires Valid() && Enabled(l, s)
      modifies this`s, this`run
      ensures Valid() && s == Do(l, old(s))
    {
      assert (run + [l])[..|run|] == run;
      s := Do(l, s);
      run := run + [l];
    }

    // Everybody but caller i.
    method Others(i: nat)
      requires Valid() && i < |s.callers|
      modifies this`s, this`run
      ensures Valid() && s.engine == old(s.engine) && i < |s.callers| && s.callers[i] == old(s.callers[i])
    {
      var n: nat := *;
      while n > 0
        invariant Valid() && s.engine == old(s.engine) && i < |s.callers| && s.callers[i] == old(s.callers[i])
      {
        var l: Label := *;
        if Enabled(l, s) && (l.Move? ==> l.i != i) {
          LeavesOthers(l, s, i);
          Step(l);
        }
        n := n - 1;
      }
    }

    // One query or statement of caller i; `failed` is an error other than "exists".
    method Ask(i: nat) returns (failed: bool)
      requires Valid() && i < |s.callers| && !s.callers[i].pc.Start? && !s.callers[i].pc.Finished?
      modifies this`s, this`run
      ensures Valid() && s.engine == old(s.engine) && i < |s.callers|
      ensures failed ==> s.callers[i] == Ends(old(s.callers[i]), true)
      ensures !failed ==> exists cat :: s.callers[i] == StepCaller(s.engine, cat, old(s.callers[i]))
    {
      Others(i);
      var out: Outcome := *;
      failed := !out.Answered?;
      ghost var cat := s.cat;
      Step(Move(i, out));
      assert !failed ==> s.callers[i] == StepCaller(s.engine, cat, old(s.callers[i]));
    }

    // ensurePostgres, for a caller whose request has arrived.
    method EnsurePostgres(i: nat) returns (res: Report, failed: bool)
      requires Valid() && s.engine.Postgres? && i < |s.callers| && s.callers[i].pc.Start?
      modifies this`s, this`run
      ensures Valid() && i < |s.callers| && s.callers[i].req == old(s.callers[i].req)
      ensures s.callers[i].pc == Finished(failed) && res == s.callers[i].res
      ensures !failed ==> s.callers[i].req.name in s.cat.databases
      ensures !failed && NeedsRole(s.callers[i].req) ==> Account(s.callers[i].req.user, "") in s.cat.accounts
    {
      var r := s.callers[i].req;
      Step(Move(i, Answered));
      if s.callers[i].pc.Finished? {
        return s.callers[i].res, true;
      }
      if NeedsRole(r) {
        failed := EnsureRole(i);
        if failed {
          return s.callers[i].res, true;
        }
      }
      failed := Ask(i);
      if !failed && s.callers[i].pc.CreateDatabase? {
        var refused := Ask(i);
        failed := s.callers[i].pc.failed;
      }
      res := s.callers[i].res;
      if !failed {
        Returned(i);
      }
    }

    // The target role, created unless it is there.
    method EnsureRole(i: nat) returns (failed: bool)
      requires Valid() && i < |s.callers| && s.callers[i].pc.CheckRole?
      modifies this`s, this`run
      ensures Valid() && s.engine == old(s.engine) && i < |s.callers| && s.callers[i].req == old(s.callers[i].req)
      ensures s.callers[i].pc == if failed then Finished(true) else CheckDatabase
    {
      failed := Ask(i);
      if !failed && s.callers[i].pc.CreateRole? {
        failed := Ask(i);
      }
    }

    lemma Returned(i: nat)
      requires Valid() && i < |s.callers| && s.callers[i].pc == Finished(false) &&
          (s.engine.Postgres? || s.engine.MySQL?)
      ensures s.callers[i].req.name in s.cat.databases
      ensures NeedsRole(s.callers[i].req) ==> AccountOf(s.engine, s.callers[i].req.user) in s.cat.accounts
      ensures NeedsRole(s.callers[i].req) && s.engine.MySQL? ==>
                Grant(s.callers[i].req.name, Account(s.callers[i].req.user, "%")) in s.cat.grants
    {
      InvRun(init, run);
    }

    // ensureMySQL.
    method EnsureMySQL(i: nat) returns (res: Report, failed: bool)
      requires Valid() && s.engine.MySQL? && i < |s.callers| && s.callers[i].pc.Start?
      modifies this`s, this`run
      ensures Valid() && i < |s.callers| && s.callers[i].req == old(s.callers[i].req)
      ensures s.callers[i].pc == Finished(failed) && res == s.callers[i].res
      ensures !failed ==> s.callers[i].req.name in s.cat.databases
      ensures !failed && NeedsRole(s.callers[i].req) ==>
                Grant(s.callers[i].req.name, Account(s.callers[i].req.user, "%")) in s.cat.grants
    {
      var r := s.callers[i].req;
      Step(Move(i, Answered));
      if s.callers[i].pc.Finished? {
        return s.callers[i].res, true;
      }
      failed := Ask(i);
      if failed {
        return s.callers[i].res, true;
      }
      if NeedsRole(r) {
        failed := Ask(i);
        if failed {
          return s.callers[i].res, true;
        }
        if s.callers[i].pc.CreateUser? {
          failed := Ask(i);
          if failed {
            return s.callers[i].res, true;
          }
        }
        failed := Ask(i);
        failed := s.callers[i].pc.failed;
      }
      res := s.callers[i].res;
      if !failed {
        Returned(i);
      }
    }
  }
}
