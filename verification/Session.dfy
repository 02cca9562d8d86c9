/**
 A PostgreSQL session inside a transaction, and the handlers of db.ts that wrap work in
 savepoints, roles and transactions. Work is a small program of statements; a statement in an
 aborted transaction fails, and a failing statement aborts the transaction.
 */
module Session {
  import opened Common

  /** What a savepoint restores: the tables, and the role, whose setting is transactional too. */
  datatype Savepoint<D> = Savepoint(name: string, data: D, role: string)

  /** `permitted` are the roles the login may assume. */
  datatype Tx<D> = Tx(data: D, role: string, permitted: set<string>, stack: seq<Savepoint<D>>, aborted: bool)

  /** A statement's effect, given the role; None is an error. */
  type Effect<!D> = (D, string) -> Option<D>

  // ---- statements: the new state, and whether the statement succeeded

  function Query<D>(t: Tx<D>, effect: Effect<D>): (Tx<D>, bool) {
    if t.aborted then (t, false) else
      match effect(t.data, t.role)
      case Some(d) => (t.(data := d), true)
      case None => (t.(aborted := true), false)
  }

  function SetSavepoint<D>(t: Tx<D>, name: string): (Tx<D>, bool) {
    if t.aborted then (t, false) else (t.(stack := t.stack + [Savepoint(name, t.data, t.role)]), true)
  }

  /** The depth of the most recent savepoint of that name, or -1. */
  function Find<D>(stack: seq<Savepoint<D>>, name: string): (i: int)
    ensures -1 <= i < |stack|
    ensures i >= 0 ==> stack[i].name == name
    ensures forall j | i < j < |stack| :: stack[j].name != name
  {
    if stack == [] then -1
    else if stack[|stack| - 1].name == name then |stack| - 1
    else Find(stack[..|stack| - 1], name)
  }

  /** Restores what the savepoint holds, keeps the savepoint, and ends the aborted state. */
  function RollbackTo<D>(t: Tx<D>, name: string): (Tx<D>, bool) {
    var i := Find(t.stack, name);
    if i < 0 then (t.(aborted := true), false) else
      (t.(data := t.stack[i].data, role := t.stack[i].role, stack := t.stack[..i + 1], aborted := false), true)
  }

  function Release<D>(t: Tx<D>, name: string): (Tx<D>, bool) {
    if t.aborted then (t, false) else
      var i := Find(t.stack, name);
      if i < 0 then (t.(aborted := true), false) else (t.(stack := t.stack[..i]), true)
  }

  function SetRole<D>(t: Tx<D>, role: string): (Tx<D>, bool) {
    if t.aborted then (t, false)
    else if role in t.permitted then (t.(role := role), true)
    else (t.(aborted := true), false)
  }

  // ---- programs

  datatype Prog<!D> =
    | Skip
    | Throw
    | Statement(effect: Effect<D>)
    | If(test: D -> bool, yes: Prog<D>, no: Prog<D>)
    | Then(first: Prog<D>, second: Prog<D>)
    | WithSavepoint(name: string, body: Prog<D>)
    | WithRole(becomes: string, body: Prog<D>)
    | Catch(body: Prog<D>, handler: Prog<D>)

  function AsOutcome(ok: bool): Outcome {
    if ok then Done else Thrown
  }

  function Exec<D>(p: Prog<D>, t: Tx<D>): (Tx<D>, Outcome) {
    match p
    case Skip => (t, Done)
    case Throw => (t, Thrown)
    case Statement(effect) =>
      var (t', ok) := Query(t, effect);
      (t', AsOutcome(ok))
    case If(test, yes, no) =>
      if t.aborted then (t, Thrown) else if test(t.data) then Exec(yes, t) else Exec(no, t)
    case Then(first, second) =>
      var (t', out) := Exec(first, t);
      if out == Thrown then (t', Thrown) else Exec(second, t')
    case Catch(body, handler) =>
      var (t', out) := Exec(body, t);
      if out == Thrown then Exec(handler, t') else (t', Done)
    case WithSavepoint(name, body) =>
      var (t1, set1) := SetSavepoint(t, name);
      if !set1 then (t1, Thrown) else
        var (t2, out) := Exec(body, t1);
        CloseSavepoint(t2, name, out)
    case WithRole(becomes, body) =>
      var (t1, set1) := SetRole(t, becomes);
      if !set1 then (t1, Thrown) else
        var (t2, out) := Exec(body, t1);
        var (t3, reset) := SetRole(t2, t.role);
        (t3, if reset then out else Thrown)
  }

  /** What happens once withSavepoint's handler is done: roll back if it threw, release either way. */
  function CloseSavepoint<D>(t: Tx<D>, name: string, out: Outcome): (Tx<D>, Outcome) {
    var t' := if out == Thrown then RollbackTo(t, name).0 else t;
    var (t'', released) := Release(t', name);
    (t'', if released then out else Thrown)
  }

  /** The program never swallows an error. */
  predicate Straight<D>(p: Prog<D>) {
    match p
    case Skip => true
    case Throw => true
    case Statement(_) => true
    case If(_, yes, no) => Straight(yes) && Straight(no)
    case Then(first, second) => Straight(first) && Straight(second)
    case WithSavepoint(_, body) => Straight(body)
    case WithRole(_, body) => Straight(body)
    case Catch(_, _) => false
  }

  /** Whatever happens, the savepoints and the permitted roles are those of the start; a normal end
      means the transaction is no more aborted than before; and unless it ends aborted, the role is
      the one it started with. */
  ghost predicate Bracketed<D(!new)>(t: Tx<D>, t': Tx<D>, out: Outcome) {
    && t'.stack == t.stack && t'.permitted == t.permitted
    && (out == Done ==> t'.aborted == t.aborted)
    && (t.aborted ==> t' == t)
    && (!t'.aborted ==> t'.role == t.role)
    && t'.role in t.permitted
  }

  lemma FindTop<D>(stack: seq<Savepoint<D>>, sp: Savepoint<D>)
    ensures Find(stack + [sp], sp.name) == |stack|
    ensures (stack + [sp])[..|stack|] == stack && (stack + [sp])[..|stack| + 1] == stack + [sp]
  {
  }

  /** Closing the savepoint that is on top of the stack. */
  lemma CloseTop<D>(t: Tx<D>, name: string, t2: Tx<D>, out: Outcome)
    requires !t.aborted && t2.stack == t.stack + [Savepoint(name, t.data, t.role)] && t2.permitted == t.permitted
    requires out == Done ==> !t2.aborted
    ensures CloseSavepoint(t2, name, out)
            == (if out == Thrown then (t, Thrown) else (t2.(stack := t.stack), Done))
  {
    FindTop(t.stack, Savepoint(name, t.data, t.role));
  }

  lemma {:induction false} ExecBracketed<D(!new)>(p: Prog<D>, t: Tx<D>)
    requires Straight(p) && t.role in t.permitted
    ensures Bracketed(t, Exec(p, t).0, Exec(p, t).1)
  {
    match p
    case Skip =>
    case Throw =>
    case Statement(effect) =>
    case If(test, yes, no) =>
      ExecBracketed(yes, t);
      ExecBracketed(no, t);
    case Then(first, second) =>
      ExecBracketed(first, t);
      ExecBracketed(second, Exec(first, t).0);
    case WithSavepoint(name, body) =>
      var t1 := SetSavepoint(t, name).0;
      ExecBracketed(body, t1);
      if !t.aborted {
        CloseTop(t, name, Exec(body, t1).0, Exec(body, t1).1);
      }
    case WithRole(becomes, body) =>
      var t1 := SetRole(t, becomes).0;
      ExecBracketed(body, t1);
  }

  /** withSavepoint around any work that swallows no error is all or nothing: if it throws, tables,
      role, savepoints and transaction state are exactly those of the start. */
  lemma SavepointIsAtomic<D(!new)>(name: string, body: Prog<D>, t: Tx<D>)
    requires Straight(body) && !t.aborted && t.role in t.permitted
    ensures var (t', out) := Exec(WithSavepoint(name, body), t);
            && (out == Thrown ==> t' == t)
            && (out == Done ==> !t'.aborted && t'.stack == t.stack && t'.role == t.role)
            && (out == Done ==> t' == Exec(body, SetSavepoint(t, name).0).0.(stack := t.stack))
            && out == Exec(body, SetSavepoint(t, name).0).1
  {
    var t1 := SetSavepoint(t, name).0;
    ExecBracketed(body, t1);
    CloseTop(t, name, Exec(body, t1).0, Exec(body, t1).1);
  }

  /** The savepoint that was found is still the most recent one once those above it are gone. */
  lemma FindInPrefix<D>(stack: seq<Savepoint<D>>, name: string, i: nat)
    requires i < |stack| && Find(stack, name) == i
    ensures Find(stack[..i + 1], name) == i && stack[..i + 1][..i] == stack[..i]
  {
    assert stack[..i + 1][i] == stack[i];
  }

  /** Closing takes the stack down to the most recent savepoint of the name, that one included, unless the
      handler ended normally in an aborted transaction. */
  lemma CloseStack<D>(t: Tx<D>, name: string, out: Outcome, i: nat)
    requires i < |t.stack| && Find(t.stack, name) == i
    ensures CloseSavepoint(t, name, out).0.stack == if out == Done && t.aborted then t.stack else t.stack[..i]
  {
    if out == Thrown {
      FindInPrefix(t.stack, name, i);
    }
  }

  lemma FindAbove<D>(stack: seq<Savepoint<D>>, name: string, base: nat)
    requires base < |stack| && stack[base].name == name
    ensures Find(stack, name) >= base
    ensures Find(stack, name) == base <==> forall i | base < i < |stack| :: stack[i].name != name
  {
  }

  ghost predicate NoneAbove<D>(stack: seq<Savepoint<D>>, base: nat, name: string) {
    forall i | base < i < |stack| :: stack[i].name != name
  }

  lemma CloseReturnsExactly<D>(stack: seq<Savepoint<D>>, sp: Savepoint<D>, t2: Tx<D>, out: Outcome)
    requires stack + [sp] <= t2.stack
    ensures CloseSavepoint(t2, sp.name, out).0.stack == stack
            <==> !(out == Done && t2.aborted) && NoneAbove(t2.stack, |stack|, sp.name)
  {
    var base := |stack|;
    assert t2.stack[base] == (stack + [sp])[base] == sp;
    assert t2.stack[..base] == stack;
    FindAbove(t2.stack, sp.name, base);
    CloseStack(t2, sp.name, out, Find(t2.stack, sp.name));
  }

  lemma WithSavepointCloses<D>(name: string, body: Prog<D>, t: Tx<D>)
    requires !t.aborted
    ensures var (t2, out) := Exec(body, SetSavepoint(t, name).0);
            Exec(WithSavepoint(name, body), t) == CloseSavepoint(t2, name, out)
  {
  }

  /** With work that may swallow errors and leave savepoints of its own, withSavepoint gives the stack
      back if and only if its handler does not end normally in an aborted transaction, and has left no
      savepoint of the same name. */
  lemma SavepointReturnedExactly<D>(name: string, body: Prog<D>, t: Tx<D>)
    requires !t.aborted
    requires var t1 := SetSavepoint(t, name).0; t1.stack <= Exec(body, t1).0.stack
    ensures var (t2, out) := Exec(body, SetSavepoint(t, name).0);
            Exec(WithSavepoint(name, body), t).0.stack == t.stack
            <==> !(out == Done && t2.aborted) && NoneAbove(t2.stack, |t.stack|, name)
  {
    var (t2, out) := Exec(body, SetSavepoint(t, name).0);
    CloseReturnsExactly(t.stack, Savepoint(name, t.data, t.role), t2, out);
    WithSavepointCloses(name, body, t);
  }

  /** Such a handler: a failing statement whose error is caught. */
  lemma SavepointCanBeLeft(t: Tx<int>)
    requires !t.aborted
    ensures var failing := Statement((d: int, r: string) => None);
            |Exec(WithSavepoint("s", Catch(failing, Skip)), t).0.stack| == |t.stack| + 1
  {
    var failing := Statement((d: int, r: string) => None);
    var t1 := SetSavepoint(t, "s").0;
    assert Exec(failing, t1) == (t1.(aborted := true), Thrown);
    assert Exec(Catch(failing, Skip), t1) == (t1.(aborted := true), Done);
  }

  // ---- withinTransaction

  /** A connection between transactions. */
  datatype Connection<D> = Connection(committed: D, role: string, permitted: set<string>)

  function Begin<D>(c: Connection<D>): Tx<D> {
    Tx(c.committed, c.role, c.permitted, [], false)
  }

  /** begin, run, commit or roll back; commit in an aborted transaction rolls back without an error. */
  function WithinTransaction<D>(c: Connection<D>, p: Prog<D>): (Connection<D>, Outcome) {
    var (t, out) := Exec(p, Begin(c));
    if out == Thrown || t.aborted then (c, out) else (c.(committed := t.data, role := t.role), Done)
  }

  /** A transaction that throws leaves the tables as they were, and so, although it ends normally, does one
      whose work swallowed an error and left it aborted. */
  lemma ThrownCommitsNothing<D>(c: Connection<D>, p: Prog<D>)
    ensures var (t, ended) := Exec(p, Begin(c));
            WithinTransaction(c, p) == if ended == Thrown || t.aborted then (c, ended)
                                       else (Connection(t.data, t.role, c.permitted), Done)
  {
  }

  /** Only a statement that fails is caught, and its handler finds the transaction aborted. */
  lemma CaughtExactly<D>(t: Tx<D>, effect: Effect<D>, handler: Prog<D>)
    requires !t.aborted
    ensures Exec(Catch(Statement(effect), handler), t)
            == match effect(t.data, t.role)
               case Some(d) => (t.(data := d), Done)
               case None => Exec(handler, t.(aborted := true))
  {
    assert Exec(Statement(effect), t) == (Query(t, effect).0, AsOutcome(Query(t, effect).1));
  }

  /** A transaction whose failed statement was swallowed ends normally and commits nothing. */
  lemma SwallowedCommitsNothing<D>(c: Connection<D>, body: Prog<D>, failing: Effect<D>)
    requires var t := Exec(body, Begin(c)).0;
             Exec(body, Begin(c)).1 == Done && !t.aborted && failing(t.data, t.role) == None
    ensures WithinTransaction(c, Then(body, Catch(Statement(failing), Skip))) == (c, Done)
  {
    CaughtExactly(Exec(body, Begin(c)).0, failing, Skip);
  }

  /** A statement that fails changes neither data, role nor savepoints, and leaves the transaction aborted. */
  lemma FailedStatementAborts<D>(t: Tx<D>, effect: Effect<D>, name: string)
    ensures forall r | r in [Query(t, effect), SetSavepoint(t, name), RollbackTo(t, name), Release(t, name),
                             SetRole(t, name)] && !r.1 :: r.0 == t.(aborted := true)
    ensures t.aborted ==> !Query(t, effect).1 && !SetSavepoint(t, name).1 && !Release(t, name).1 && !SetRole(t, name).1
  {
  }

  /** In an aborted transaction every read, statement and wrapper fails and changes nothing. */
  lemma AbortedFails<D>(p: Prog<D>, t: Tx<D>)
    requires t.aborted && (p.Statement? || p.If? || p.WithSavepoint? || p.WithRole?)
    ensures Exec(p, t) == (t, Thrown)
  {
  }

  /** One that ends normally has committed all its work if it swallowed no error. */
  lemma DoneCommitsAll<D(!new)>(c: Connection<D>, p: Prog<D>)
    requires Straight(p) && c.role in c.permitted
    ensures var (c', out) := WithinTransaction(c, p);
            out == Done ==> c' == c.(committed := Exec(p, Begin(c)).0.data)
  {
    ExecBracketed(p, Begin(c));
  }

  // ---- the session as it is used

  class Client<D> {
    var data: D
    var role: string
    const permitted: set<string>
    var stack: seq<Savepoint<D>>
    var aborted: bool

    constructor (data: D, role: string, permitted: set<string>)
      ensures Model() == Tx(data, role, permitted, [], false)
    {
      this.data, this.role, this.permitted, stack, aborted := data, role, permitted, [], false;
    }

    ghost function Model(): Tx<D>
      reads this
    {
      Tx(data, role, permitted, stack, aborted)
    }

    method RunQuery(effect: Effect<D>) returns (ok: bool)
      modifies this
      ensures (Model(), ok) == Query(old(Model()), effect)
    {
      if aborted {
        return false;
      }
      match effect(data, role)
      case Some(d) =>
        data := d;
        return true;
      case None =>
        aborted := true;
        return false;
    }

    method RunSavepoint(name: string) returns (ok: bool)
      modifies this
      ensures (Model(), ok) == SetSavepoint(old(Model()), name)
    {
      if aborted {
        return false;
      }
      stack := stack + [Savepoint(name, data, role)];
      return true;
    }

    method RunRollbackTo(name: string) returns (ok: bool)
      modifies this
      ensures (Model(), ok) == RollbackTo(old(Model()), name)
    {
      var i := Find(stack, name);
      if i < 0 {
        aborted := true;
        return false;
      }
      data, role, stack, aborted := stack[i].data, stack[i].role, stack[..i + 1], false;
      return true;
    }

    method RunRelease(name: string) returns (ok: bool)
      modifies this
      ensures (Model(), ok) == Release(old(Model()), name)
    {
      if aborted {
        return false;
      }
      var i := Find(stack, name);
      if i < 0 {
        aborted := true;
        return false;
      }
      stack := stack[..i];
      return true;
    }

    method RunSetRole(newRole: string) returns (ok: bool)
      modifies this
      ensures (Model(), ok) == SetRole(old(Model()), newRole)
    {
      if aborted {
        return false;
      }
      if newRole in permitted {
        role := newRole;
        return true;
      }
      aborted := true;
      return false;
    }
  }
}
