/** Versioned SQLite migrations run by several processes (gateway/database.py).  Every process knows a
  prefix of one list of migrations, numbered from 1; a migration runs in one write transaction, and
  a crash or an error throws away what the transaction has written. */
module Migrations {
  type Stmt(==, !new)
  type Proc = nat

  /** What is committed: the schema version and the statements executed so far. */
  datatype Db = Db(version: nat, content: seq<Stmt>)

  /** A migration is the list of its statements, its hook included. */
  type Migration = seq<Stmt>

  datatype Pc =
    | Starting                                // has not read the version yet
    | Waiting(next: nat)                      // wants to begin the transaction of migration next
    | InTxn(next: nat, begun: Db, done: nat)  // holds the write lock; done statements were executed
    | Finished | TooNew | Failed

  /** known: how many migrations the code of the process has. */
  datatype Process = Process(known: nat, pc: Pc)

  datatype Sys = Sys(db: Db, lock: Option<Proc>, procs: map<Proc, Process>, applied: seq<nat>)

  datatype Option<+T> = None | Some(value: T)

  datatype Step =
    | Arrive(p: Proc, known: nat)
    | ReadVersion(p: Proc)
    | Begin(p: Proc)          // BEGIN IMMEDIATE
    | Recheck(p: Proc)        // the version is read again under the write lock
    | Execute(p: Proc)        // one statement
    | Commit(p: Proc)         // the version is written and the transaction committed
    | Abort(p: Proc)          // any error, a failed foreign key check, a cancellation
    | Crash(p: Proc)          // the process dies

  predicate At(s: Sys, p: Proc) { p in s.procs }

  function SetPc(s: Sys, p: Proc, pc: Pc): Sys
    requires p in s.procs
  {
    s.(procs := s.procs[p := s.procs[p].(pc := pc)])
  }

  predicate Enabled(s: Sys, all: seq<Migration>, st: Step) {
    match st
    case Arrive(p, known) => p !in s.procs && known <= |all|
    case ReadVersion(p) => At(s, p) && s.procs[p].pc == Starting
    case Begin(p) => At(s, p) && s.procs[p].pc.Waiting? && s.procs[p].pc.next <= s.procs[p].known && s.lock == None
    case Recheck(p) => At(s, p) && s.procs[p].pc.InTxn? && s.procs[p].pc.done == 0 && s.db.version >= s.procs[p].pc.next
    case Execute(p) =>
      && At(s, p) && s.procs[p].pc.InTxn? && s.db.version < s.procs[p].pc.next && 0 < s.procs[p].pc.next <= |all|
      && s.procs[p].pc.done < |all[s.procs[p].pc.next - 1]|
    case Commit(p) =>
      && At(s, p) && s.procs[p].pc.InTxn? && s.db.version < s.procs[p].pc.next && 0 < s.procs[p].pc.next <= |all|
      && s.procs[p].pc.done == |all[s.procs[p].pc.next - 1]|
    case Abort(p) => At(s, p) && s.procs[p].pc.InTxn?
    case Crash(p) => At(s, p)
  }

  function Release(lock: Option<Proc>, p: Proc): Option<Proc> { if lock == Some(p) then None else lock }

  /** After migration i: the next one, or the end. */
  function Next(known: nat, i: nat): Pc { if i + 1 > known then Finished else Waiting(i + 1) }

  function Apply(s: Sys, all: seq<Migration>, st: Step): Sys
    requires Enabled(s, all, st)
  {
    match st
    case Arrive(p, known) => s.(procs := s.procs[p := Process(known, Starting)])
    case ReadVersion(p) =>
      SetPc(s, p, if s.db.version > s.procs[p].known then TooNew else Next(s.procs[p].known, s.db.version))
    case Begin(p) => SetPc(s.(lock := Some(p)), p, InTxn(s.procs[p].pc.next, s.db, 0))
    case Recheck(p) => SetPc(s.(lock := Release(s.lock, p)), p, Next(s.procs[p].known, s.procs[p].pc.next))
    case Execute(p) => SetPc(s, p, s.procs[p].pc.(done := s.procs[p].pc.done + 1))
    case Commit(p) =>
      var pc := s.procs[p].pc;
      SetPc(s.(db := Db(pc.next, s.db.content + all[pc.next - 1][..pc.done]), lock := Release(s.lock, p),
               applied := s.applied + [pc.next]),
            p, Next(s.procs[p].known, pc.next))
    case Abort(p) => SetPc(s.(lock := Release(s.lock, p)), p, Failed)
    case Crash(p) => s.(lock := Release(s.lock, p), procs := s.procs - {p})
  }

  // ---------------------------------------------------------------- what every step keeps

  /** The content that the first migrations make. */
  function Flat(all: seq<Migration>): seq<Stmt> {
    if all == [] then [] else Flat(all[..|all| - 1]) + all[|all| - 1]
  }

  ghost predicate Schema(db: Db, all: seq<Migration>) { db.version <= |all| && db.content == Flat(all[..db.version]) }

  /** A process about to apply migration next has nothing missing below it; inside its transaction the
      committed state is still the one it began with. */
  ghost predicate ProcOk(s: Sys, all: seq<Migration>, p: Proc) {
    p in s.procs ==>
      && s.procs[p].known <= |all|
      && (match s.procs[p].pc
          case Waiting(next) => 1 <= next <= s.db.version + 1 && next <= s.procs[p].known
          case InTxn(next, begun, done) =>
            && 1 <= next <= s.db.version + 1 && next <= s.procs[p].known && s.lock == Some(p) && begun == s.db
            && done <= |all[next - 1]| && (done > 0 ==> s.db.version < next)
          case _ => true)
  }

  ghost predicate Counted(applied: seq<nat>) { forall i :: 0 <= i < |applied| ==> applied[i] == i + 1 }

  ghost predicate Inv(s: Sys, all: seq<Migration>) {
    && Schema(s.db, all) && Counted(s.applied) && |s.applied| == s.db.version
    && (forall p :: ProcOk(s, all, p))
    && (s.lock.Some? ==> At(s, s.lock.value) && s.procs[s.lock.value].pc.InTxn?)
  }

  lemma FlatStep(all: seq<Migration>, v: nat)
    requires v < |all|
    ensures Flat(all[..v + 1]) == Flat(all[..v]) + all[v]
  {
    assert all[..v + 1][..v] == all[..v];
  }

  lemma StepKeepsInv(s: Sys, all: seq<Migration>, st: Step)
    requires Inv(s, all) && Enabled(s, all, st)
    ensures Inv(Apply(s, all, st), all)
    ensures s.db.version <= Apply(s, all, st).db.version <= s.db.version + 1
  {
    assert ProcOk(s, all, st.p);
    if st.Commit? {
      var pc := s.procs[st.p].pc;
      FlatStep(all, pc.next - 1);
      assert all[pc.next - 1][..pc.done] == all[pc.next - 1];
    }
    forall q ensures ProcOk(Apply(s, all, st), all, q) {
      assert ProcOk(s, all, q);
    }
    hide ProcOk;
  }

  ghost predicate Init(s: Sys) { s.db == Db(0, []) && s.lock == None && s.procs == map[] && s.applied == [] }

  ghost predicate Run(trace: seq<Sys>, all: seq<Migration>, steps: seq<Step>) {
    && |trace| == |steps| + 1 && Init(trace[0])
    && forall i :: 0 <= i < |steps| ==> Enabled(trace[i], all, steps[i]) && trace[i + 1] == Apply(trace[i], all, steps[i])
  }

  lemma {:induction false} RunKeepsInv(trace: seq<Sys>, all: seq<Migration>, steps: seq<Step>, k: nat)
    requires Run(trace, all, steps) && k <= |steps|
    ensures Inv(trace[k], all)
  {
    hide Inv, Apply, Enabled;
    if k == 0 {
      InitHasInv(trace[0], all);
    } else {
      RunKeepsInv(trace, all, steps, k - 1);
      StepKeepsInv(trace[k - 1], all, steps[k - 1]);
      assert trace[k - 1 + 1] == Apply(trace[k - 1], all, steps[k - 1]);
    }
  }

  lemma InitHasInv(s: Sys, all: seq<Migration>)
    requires Init(s)
    ensures Inv(s, all)
  {
  }

  /** For any interleaving of processes, errors and crashes: what is committed is exactly the migrations up
      to the stored version; each of them was applied once, and in order. */
  lemma {:induction false} ContentIsMigrationsUpToVersion(trace: seq<Sys>, all: seq<Migration>, steps: seq<Step>, k: nat)
    requires Run(trace, all, steps) && k <= |steps|
    ensures trace[k].db.version <= |all| && trace[k].db.content == Flat(all[..trace[k].db.version])
    ensures |trace[k].applied| == trace[k].db.version && forall i :: 0 <= i < |trace[k].applied| ==> trace[k].applied[i] == i + 1
  {
    RunKeepsInv(trace, all, steps, k);
  }

  /** The version never decreases, and the applied migrations only grow. */
  lemma {:induction false} VersionNeverDecreases(trace: seq<Sys>, all: seq<Migration>, steps: seq<Step>, i: nat, j: nat)
    requires Run(trace, all, steps) && i <= j <= |steps|
    ensures trace[i].db.version <= trace[j].db.version && trace[i].applied <= trace[j].applied
  {
    hide Inv;
    if i < j {
      VersionNeverDecreases(trace, all, steps, i, j - 1);
      RunKeepsInv(trace, all, steps, j - 1);
      StepKeepsInv(trace[j - 1], all, steps[j - 1]);
      assert trace[j - 1 + 1] == Apply(trace[j - 1], all, steps[j - 1]);
    }
  }

  /** A process that reads a database newer than its code changes nothing, ever. */
  lemma {:induction false} NewerDatabaseUntouched(trace: seq<Sys>, all: seq<Migration>, steps: seq<Step>, i: nat, j: nat, p: Proc)
    requires Run(trace, all, steps) && i < j < |steps|
    requires steps[i] == ReadVersion(p) && trace[i].db.version > trace[i].procs[p].known
    requires forall k :: i < k < j ==> steps[k] != Crash(p)
    ensures p in trace[j].procs && trace[j].procs[p].pc == TooNew
    ensures steps[j].p == p ==> trace[j + 1].db == trace[j].db && trace[j + 1].lock == Release(trace[j].lock, p)
  {
    if i + 1 == j {
      assert trace[i + 1] == Apply(trace[i], all, steps[i]);
    } else {
      NewerDatabaseUntouched(trace, all, steps, i, j - 1, p);
      assert trace[j - 1 + 1] == Apply(trace[j - 1], all, steps[j - 1]);
    }
    assert Enabled(trace[j], all, steps[j]) && trace[j + 1] == Apply(trace[j], all, steps[j]);
  }

  /** A process that finishes leaves a database at least as new as its code. */
  ghost predicate FinishedOk(s: Sys) {
    forall p :: p in s.procs && s.procs[p].pc == Finished ==> s.procs[p].known <= s.db.version
  }

  lemma {:induction false} FinishedMeansMigrated(trace: seq<Sys>, all: seq<Migration>, steps: seq<Step>, k: nat)
    requires Run(trace, all, steps) && k <= |steps|
    ensures FinishedOk(trace[k])
  {
    hide Inv;
    if k > 0 {
      FinishedMeansMigrated(trace, all, steps, k - 1);
      RunKeepsInv(trace, all, steps, k - 1);
      FinishedStep(trace[k - 1], all, steps[k - 1]);
      assert trace[k - 1 + 1] == Apply(trace[k - 1], all, steps[k - 1]);
    }
  }

  lemma FinishedStep(s: Sys, all: seq<Migration>, st: Step)
    requires Inv(s, all) && Enabled(s, all, st) && FinishedOk(s)
    ensures FinishedOk(Apply(s, all, st))
  {
    assert ProcOk(s, all, st.p);
    hide Inv;
  }

  /** Some process has committed a migration with a number above n. */
  ghost predicate CommittedBeyond(trace: seq<Sys>, steps: seq<Step>, k: nat, n: nat)
    requires |trace| == |steps| + 1 && k <= |steps|
  {
    exists i :: 0 <= i < k && CommitsBeyond(trace[i], steps[i], n)
  }

  predicate CommitsBeyond(s: Sys, st: Step, n: nat) {
    st.Commit? && At(s, st.p) && s.procs[st.p].pc.InTxn? && s.procs[st.p].pc.next > n
  }

  lemma BeyondStep(s: Sys, all: seq<Migration>, st: Step, n: nat)
    requires Inv(s, all) && Enabled(s, all, st)
    ensures Apply(s, all, st).db.version > n <==> s.db.version > n || CommitsBeyond(s, st, n)
  {
  }

  lemma {:induction false} BeyondIffCommitted(trace: seq<Sys>, all: seq<Migration>, steps: seq<Step>, k: nat, n: nat)
    requires Run(trace, all, steps) && k <= |steps|
    ensures trace[k].db.version > n <==> CommittedBeyond(trace, steps, k, n)
  {
    hide Inv, CommitsBeyond, Enabled, Apply;
    if k > 0 {
      BeyondIffCommitted(trace, all, steps, k - 1, n);
      RunKeepsInv(trace, all, steps, k - 1);
      BeyondStep(trace[k - 1], all, steps[k - 1], n);
      assert trace[k - 1 + 1] == Apply(trace[k - 1], all, steps[k - 1]);
    }
  }

  /** A process may well finish on a database newer than its code: exactly when another one has committed a
      migration that it does not know; otherwise it finds its own version. */
  lemma FinishedOnOwnVersionIff(trace: seq<Sys>, all: seq<Migration>, steps: seq<Step>, k: nat, p: Proc)
    requires Run(trace, all, steps) && k <= |steps| && p in trace[k].procs && trace[k].procs[p].pc == Finished
    ensures trace[k].db.version == trace[k].procs[p].known <==> !CommittedBeyond(trace, steps, k, trace[k].procs[p].known)
  {
    FinishedMeansMigrated(trace, all, steps, k);
    BeyondIffCommitted(trace, all, steps, k, trace[k].procs[p].known);
  }

  // ---------------------------------------------------------------- migrations come to an end

  /** What a process does when nothing goes wrong. */
  predicate OwnWork(st: Step) { st.ReadVersion? || st.Begin? || st.Recheck? || st.Execute? || st.Commit? }

  predicate Busy(pc: Pc) { pc.Starting? || pc.Waiting? || pc.InTxn? }

  /** How many steps the migrations from number i to number known may take. */
  function Work(all: seq<Migration>, i: nat, known: nat): nat
    requires 1 <= i && known <= |all|
    decreases known + 1 - i
  {
    if i > known then 0 else |all[i - 1]| + 2 + Work(all, i + 1, known)
  }

  lemma {:induction false} WorkShrinks(all: seq<Migration>, i: nat, j: nat, known: nat)
    requires 1 <= i <= j && known <= |all|
    ensures Work(all, j, known) <= Work(all, i, known)
    decreases j - i
  {
    if i < j { WorkShrinks(all, i + 1, j, known); }
  }

  /** How many a process has before it. */
  function Left(all: seq<Migration>, k: Process): nat
    requires k.known <= |all|
  {
    match k.pc
    case Starting => 1 + Work(all, 1, k.known)
    case Waiting(next) => if next == 0 then 0 else Work(all, next, k.known)
    case InTxn(next, _, done) =>
      if next == 0 || next > |all| || done > |all[next - 1]| then 0 else |all[next - 1]| - done + 1 + Work(all, next + 1, k.known)
    case _ => 0
  }

  /** The next step of a busy process. */
  function NextStep(s: Sys, p: Proc): Step
    requires At(s, p)
  {
    match s.procs[p].pc
    case Starting => ReadVersion(p)
    case Waiting(_) => Begin(p)
    case InTxn(next, _, done) => if s.db.version >= next then Recheck(p) else Execute(p)
    case _ => Crash(p)
  }

  /** A busy process is never stuck, in any reachable state: it has a step of its own, unless it waits for the lock,
      and whoever holds the lock is at work under it.  Every such step leaves it less to do. */
  lemma MigrationProceeds(s: Sys, all: seq<Migration>, p: Proc)
    requires Inv(s, all) && At(s, p) && Busy(s.procs[p].pc)
    ensures s.procs[p].known <= |all|
    ensures s.procs[p].pc.Waiting? ==> (Enabled(s, all, Begin(p)) <==> s.lock == None)
    ensures s.lock.Some? ==> At(s, s.lock.value) && s.procs[s.lock.value].pc.InTxn?
    ensures !s.procs[p].pc.Waiting? ==> Enabled(s, all, NextStep(s, p)) || Enabled(s, all, Commit(p))
    ensures forall st: Step :: st.p == p && OwnWork(st) && Enabled(s, all, st) ==>
              var s' := Apply(s, all, st); At(s', p) && s'.procs[p].known == s.procs[p].known && Left(all, s'.procs[p]) < Left(all, s.procs[p])
  {
    assert ProcOk(s, all, p);
    if s.procs[p].pc.Starting? { WorkShrinks(all, 1, s.db.version + 1, s.procs[p].known); }
  }

  /** What a process makes of the version it reads, exactly: newer than its code is refused, its own is the end, and
      anything older is brought up to date from the first migration that is missing. */
  lemma VersionDecides(s: Sys, all: seq<Migration>, p: Proc)
    requires Inv(s, all) && Enabled(s, all, ReadVersion(p))
    ensures var s', known, v := Apply(s, all, ReadVersion(p)), s.procs[p].known, s.db.version;
            && s'.db == s.db && s'.lock == s.lock && s'.applied == s.applied && At(s', p)
            && (s'.procs[p].pc == TooNew <==> v > known) && (s'.procs[p].pc == Finished <==> v == known)
            && (s'.procs[p].pc == Waiting(v + 1) <==> v < known)
  {
    assert ProcOk(s, all, p);
  }

  /** The steps are possible one after the other and lead from s to t. */
  ghost predicate Leads(s: Sys, all: seq<Migration>, sts: seq<Step>, t: Sys)
    decreases |sts|
  {
    if sts == [] then t == s else Enabled(s, all, sts[0]) && Leads(Apply(s, all, sts[0]), all, sts[1..], t)
  }

  /** A process that nobody disturbs, from any reachable state in which it is busy and no other one has the lock:
      by its own work alone it finishes, with every migration that it knows applied, or finds the database newer
      than its code and refuses it. */
  lemma {:induction false} AloneFinishes(s: Sys, all: seq<Migration>, p: Proc) returns (sts: seq<Step>, t: Sys)
    requires Inv(s, all) && At(s, p) && Busy(s.procs[p].pc) && (s.lock == None || s.lock == Some(p))
    ensures Leads(s, all, sts, t) && forall i :: 0 <= i < |sts| ==> sts[i].p == p && OwnWork(sts[i])
    ensures At(t, p) && Inv(t, all)
    ensures if s.procs[p].pc == Starting && s.db.version > s.procs[p].known
            then t.procs[p].pc == TooNew && t.db == s.db
            else t.procs[p].pc == Finished && t.db.version == if s.db.version < s.procs[p].known then s.procs[p].known else s.db.version
    decreases Left(all, (assert ProcOk(s, all, p); s.procs[p]))
  {
    MigrationProceeds(s, all, p);
    var st := if Enabled(s, all, NextStep(s, p)) then NextStep(s, p) else Commit(p);
    var s1 := Apply(s, all, st);
    StepKeepsInv(s, all, st);
    Alone(s, all, p, st);
    var rest := [];
    t := s1;
    if Busy(s1.procs[p].pc) { rest, t := AloneFinishes(s1, all, p); }
    sts := [st] + rest;
    assert sts[1..] == rest;
  }

  /** One step of it. */
  lemma Alone(s: Sys, all: seq<Migration>, p: Proc, st: Step)
    requires Inv(s, all) && At(s, p) && (s.lock == None || s.lock == Some(p)) && st.p == p && OwnWork(st) && Enabled(s, all, st)
    ensures var s1 := Apply(s, all, st); var k, k1 := s.procs[p], s1.procs[p];
            && At(s1, p) && (s1.lock == None || s1.lock == Some(p)) && k1.known == k.known && s.db.version <= s1.db.version
            && (s1.db.version > s.db.version ==> s1.db.version <= k.known) && k1.pc != Starting
            && (k1.pc == TooNew <==> k.pc == Starting && s.db.version > k.known) && (k1.pc == TooNew ==> s1.db == s.db)
            && (k1.pc == Finished ==> s1.db.version >= k.known)
  {
    assert ProcOk(s, all, p);
  }

  // ---------------------------------------------------------------- one process, on the mutable database

  class Database {
    var userVersion: nat
    var content: seq<Stmt>
    ghost const all: seq<Migration>

    ghost predicate Valid()
      reads this
    {
      Schema(Db(userVersion, content), all)
    }

    constructor (ghost all: seq<Migration>)
      ensures Valid() && userVersion == 0 && this.all == all
    {
      userVersion, content := 0, [];
      this.all := all;
    }

    /** _apply_migration in a transaction begun on the committed state; failing tells at which statement an
        error strikes. */
    method ApplyMigration(next: nat, migration: Migration, failing: Option<nat>) returns (ok: bool)
      requires Valid() && 1 <= next <= |all| && migration == all[next - 1] && next <= userVersion + 1
      modifies this
      ensures Valid() && old(userVersion) <= userVersion
      ensures old(userVersion) >= next ==> ok && userVersion == old(userVersion) && content == old(content)
      ensures ok ==> userVersion >= next
      ensures !ok ==> userVersion == old(userVersion) && content == old(content)
      ensures ok <==> old(userVersion) >= next || failing.None? || failing.value >= |migration|
    {
      if userVersion >= next { return true; }
      var dirty := content;
      for k := 0 to |migration|
        invariant dirty == content + migration[..k]
        invariant userVersion == old(userVersion) && content == old(content)
        invariant failing.Some? ==> failing.value >= k
      {
        if failing == Some(k) { return false; }
        dirty := dirty + [migration[k]];
      }
      FlatStep(all, next - 1);
      assert migration[..|migration|] == migration;
      content := dirty;
      userVersion := next;
      return true;
    }

    /** _migrate.  Between two transactions of this process the others may bring the database from one
        version to a later one: others[i] is the database found when transaction i begins, if it moved. */
    method Migrate(migrations: seq<Migration>, failing: seq<Option<nat>>, others: seq<Option<Db>>) returns (ok: bool)
      requires Valid() && migrations <= all && |failing| == |others| == |migrations|
      requires forall i :: 0 <= i < |others| && others[i].Some? ==> Schema(others[i].value, all)
      modifies this
      ensures Valid() && old(userVersion) <= userVersion
      ensures ok ==> userVersion >= |migrations|
      // Without an error in a pending migration, and on a database not newer than the code, it succeeds.
      ensures (&& old(userVersion) <= |migrations|
               && forall i :: old(userVersion) <= i < |migrations| ==> failing[i].None? || failing[i].value >= |migrations[i]|)
              ==> ok
      // Newer than the code: refused, and nothing is modified.
      ensures old(userVersion) > |migrations| ==> !ok && userVersion == old(userVersion) && content == old(content)
      // Up to date: nothing is modified.
      ensures old(userVersion) == |migrations| ==> ok && userVersion == old(userVersion) && content == old(content)
    {
      var current := userVersion;
      if current > |migrations| { return false; }
      var i := current;
      while i < |migrations|
        invariant current <= i <= |migrations| && Valid() && i <= userVersion && old(userVersion) <= userVersion
        invariant i == current ==> userVersion == old(userVersion) && content == old(content)
      {
        if others[i].Some? && others[i].value.version >= userVersion {
          userVersion, content := others[i].value.version, others[i].value.content;
        }
        var applied := ApplyMigration(i + 1, migrations[i], failing[i]);
        if !applied { return false; }
        i := i + 1;
      }
      return true;
    }
  }
}
