/** The typing of expressions in the resolution pass (`ResolutionPassVisitor`), as
    functions.  `Resolve` reads a context (the hierarchy, the names the current scope
    resolves, the class `self` denotes, the symbols attached to identifiers) and a store:
    the type each identifier symbol holds.  It yields the type (`None` for the source's
    `null`), the diagnostics in order, and the new store, since resolution writes the
    declared types of let locals and case variables into their symbols. */
module ExprTyping {
  import opened Base
  import opened Structures
  import opened Ast
  import opened Hierarchy
  import opened SymbolTables
  import opened RulesChecker

  /** What resolving an expression sees: the hierarchy, the names the current scope
      resolves, the class that encloses the scope, and `Id.getSymbol()` by node. */
  datatype Ctx = Ctx(g: Globals, vis: map<Name, Symbol>, self: Option<Name>, ids: map<Uid, IdSymbol>)

  /** The static type of an expression, the diagnostics it reports, and the store after it. */
  datatype Res = Res(t: Option<Name>, msgs: seq<string>, st: Store)

  /** The names visible after some `let` locals, with the diagnostics and the store. */
  datatype Scoped = Scoped(vis: map<Name, Symbol>, msgs: seq<string>, st: Store)

  /** `currentScope.lookup(n) instanceof IdSymbol`. */
  predicate IsVariable(vis: map<Name, Symbol>, n: Name) {
    n in vis && vis[n].IdSym?
  }

  const ArithmeticOps: set<string> := {"+", "-", "*", "/"}
  const ComparisonOps: set<string> := {"<", "<="}
  const BasicTypes: set<Name> := {"Int", "Bool", "String"}

  /** `isBasic`: the type is Int, Bool or String. */
  predicate IsBasic(t: Option<Name>) {
    t.Some? && t.value in BasicTypes
  }

  function UndefinedIdMsg(n: Name): string {
    "Undefined identifier " + n
  }

  const SelfAssignMsg := "Cannot assign to self"

  function AssignMismatchMsg(rhs: Name, declared: Name, x: Name): string {
    "Type " + rhs + " of assigned expression is incompatible with declared type " + declared + " of identifier " + x
  }

  /** The diagnostic for an operand of `op` whose type is known and is not `expected`. */
  function OperandMsgs(op: string, t: Option<Name>, expected: Name): seq<string> {
    if t.Some? && t.value != expected then ["Operand of " + op + " has type " + t.value + " instead of " + expected] else []
  }

  /** `=` with a basic operand needs both operands of that same basic type; a missing
      type prints as Object. */
  function EqualityMsgs(lt: Option<Name>, rt: Option<Name>): seq<string> {
    if !(IsBasic(lt) || IsBasic(rt)) then []
    else if (lt == Some("Int") && rt == Some("Int")) || (lt == Some("Bool") && rt == Some("Bool"))
      || (lt == Some("String") && rt == Some("String")) then []
    else ["Cannot compare " + (if lt.None? then "Object" else lt.value) + " with " + (if rt.None? then "Object" else rt.value)]
  }

  function LetTypeMsg(l: Local): string {
    "Let variable " + l.name + " has undefined type " + l.typ
  }

  function CaseSelfTypeMsg(b: CaseBranch): string {
    "Case variable " + b.name + " has illegal type SELF_TYPE"
  }

  function CaseTypeMsg(b: CaseBranch): string {
    "Case variable " + b.name + " has undefined type " + b.typ
  }

  /** The static type of `e`, resolved in context `c` from store `st`. */
  function Resolve(c: Ctx, st: Store, e: Expr): Res
    decreases e, 1
  {
    match e
    case Id(n) => ResolveId(c, st, n)
    case IntLit(_) => Res(Find(c.g, Some("Int")), [], st)
    case StrLit(_) => Res(Find(c.g, Some("String")), [], st)
    case BoolLit(_) => Res(Find(c.g, Some("Bool")), [], st)
    case Assign(x, rhs) => ResolveAssign(c, st, x, rhs)
    case BinaryOp(op, left, right) => ResolveBinaryOp(c, st, op, left, right)
    case Not(operand) => ResolveUnary(c, st, "not", operand, "Bool", "Bool")
    case Neg(operand) => ResolveUnary(c, st, "~", operand, "Int", "Int")
    case IsVoid(operand) => ResolveIsVoid(c, st, operand)
    case Paren(inner) => Resolve(c, st, inner)
    case Block(exprs) => ResolveSeq(c, st, exprs)
    case Let(locals, body) => ResolveLet(c, st, locals, body)
    case Case(scrutinee, branches) => ResolveCase(c, st, scrutinee, branches)
    case _ => Res(None, [], st)
  }

  /** `self` has the enclosing class's type, a variable its symbol's type, and any other
      name is undefined. */
  function ResolveId(c: Ctx, st: Store, n: Name): Res {
    if n == "self" then Res(c.self, [], st)
    else if IsVariable(c.vis, n) then Res(TypeOf(st, c.vis[n].id), [], st)
    else Res(None, [UndefinedIdMsg(n)], st)
  }

  /** `x <- rhs` has the right-hand side's type; the variable's declared type is read
      before the right-hand side is resolved. */
  function ResolveAssign(c: Ctx, st: Store, x: Name, rhs: Expr): Res
    decreases rhs, 2
  {
    if x == "self" then
      var r := Resolve(c, st, rhs);
      Res(r.t, [SelfAssignMsg] + r.msgs, r.st)
    else if !IsVariable(c.vis, x) then
      var r := Resolve(c, st, rhs);
      Res(None, [UndefinedIdMsg(x)] + r.msgs, r.st)
    else
      var declared := TypeOf(st, c.vis[x].id);
      var r := Resolve(c, st, rhs);
      Res(r.t, r.msgs + AssignMsgs(c.g, c.self, x, declared, r.t), r.st)
  }

  /** A known right-hand side type whose join with the variable's known declared type
      is not the declared type is reported. */
  function AssignMsgs(g: Globals, self: Option<Name>, x: Name, declared: Option<Name>, t: Option<Name>): seq<string> {
    if declared.None? || t.None? then []
    else if Join(g, declared, t, self) != declared then [AssignMismatchMsg(t.value, declared.value, x)]
    else []
  }

  /** Both operands are resolved, left first; then the operator's rule gives the type
      and the diagnostics. */
  function ResolveBinaryOp(c: Ctx, st: Store, op: string, left: Expr, right: Expr): Res
    decreases BinaryOp(op, left, right), 0
  {
    var rl := Resolve(c, st, left);
    var rr := Resolve(c, rl.st, right);
    Res(BinaryType(c.g, op), rl.msgs + rr.msgs + BinaryMsgs(op, rl.t, rr.t), rr.st)
  }

  /** Arithmetic yields Int, comparison and equality yield Bool, and any other operator
      falls back to Int. */
  function BinaryType(g: Globals, op: string): Option<Name> {
    if op in ComparisonOps || op == "=" then Find(g, Some("Bool")) else Find(g, Some("Int"))
  }

  /** Arithmetic and comparison report each known operand type that is not Int, left
      first; equality reports a basic operand compared with a different type. */
  function BinaryMsgs(op: string, lt: Option<Name>, rt: Option<Name>): seq<string> {
    if op in ArithmeticOps || op in ComparisonOps then OperandMsgs(op, lt, "Int") + OperandMsgs(op, rt, "Int")
    else if op == "=" then EqualityMsgs(lt, rt)
    else []
  }

  /** `not` and `~`: the operand must have type `expected`; the result is `result`. */
  function ResolveUnary(c: Ctx, st: Store, op: string, operand: Expr, expected: Name, result: Name): Res
    decreases operand, 2
  {
    var r := Resolve(c, st, operand);
    Res(Find(c.g, Some(result)), r.msgs + OperandMsgs(op, r.t, expected), r.st)
  }

  function ResolveIsVoid(c: Ctx, st: Store, operand: Expr): Res
    decreases operand, 2
  {
    var r := Resolve(c, st, operand);
    Res(Find(c.g, Some("Bool")), r.msgs, r.st)
  }

  /** A `let` has its body's type; the body sees every local. */
  function ResolveLet(c: Ctx, st: Store, locals: seq<Local>, body: Expr): Res
    decreases Let(locals, body), 0
  {
    var rl := ResolveLocals(c, st, locals);
    var rb := Resolve(c.(vis := rl.vis), rl.st, body);
    Res(rb.t, rl.msgs + rb.msgs, rb.st)
  }

  /** A `case` resolves its scrutinee, then its branches. */
  function ResolveCase(c: Ctx, st: Store, scrutinee: Expr, branches: seq<CaseBranch>): Res
    decreases Case(scrutinee, branches), 0
  {
    var rs := Resolve(c, st, scrutinee);
    var rb := ResolveBranches(c, rs.st, branches);
    Res(rb.t, rs.msgs + rb.msgs, rb.st)
  }

  /** The expressions of a block in order; the block has the last one's type. */
  function ResolveSeq(c: Ctx, st: Store, es: seq<Expr>): Res
    decreases es, 0
  {
    if es == [] then Res(None, [], st)
    else
      var r := ResolveSeq(c, st, es[..|es| - 1]);
      var rl := Resolve(c, r.st, es[|es| - 1]);
      Res(rl.t, r.msgs + rl.msgs, rl.st)
  }

  /** One `let` local, seen from the names `c.vis` of the scope before it: the
      initializer is resolved there, an undefined type is reported, and the local's
      symbol (if the definition pass attached one) becomes visible, with the declared
      type when that type is defined. */
  function ResolveLocal(c: Ctx, st: Store, l: Local): Scoped
    decreases l, 1
  {
    var ri := LocalInit(c, st, l);
    var um := if l.typ in c.g then [] else [LetTypeMsg(l)];
    Scoped(LocalVis(c, l), ri.msgs + um, LocalStore(c, ri.st, l))
  }

  /** A local's initializer, if it has one. */
  function LocalInit(c: Ctx, st: Store, l: Local): Res
    decreases l, 0
  {
    if l.init.Some? then Resolve(c, st, l.init.value) else Res(None, [], st)
  }

  /** The names seen after a local: its symbol, if one is attached, under its name. */
  function LocalVis(c: Ctx, l: Local): map<Name, Symbol> {
    if l.uid in c.ids then c.vis[c.ids[l.uid].name := IdSym(c.ids[l.uid])] else c.vis
  }

  /** The types after a local: its symbol receives the declared type when it is defined. */
  function LocalStore(c: Ctx, st: Store, l: Local): Store {
    if l.uid in c.ids && l.typ in c.g then st[c.ids[l.uid] := Some(l.typ)] else st
  }

  /** The locals of a `let` in order, each one seeing the ones before it. */
  function ResolveLocals(c: Ctx, st: Store, ls: seq<Local>): Scoped
    decreases ls, 0
  {
    if ls == [] then Scoped(c.vis, [], st)
    else
      var r := ResolveLocals(c, st, ls[..|ls| - 1]);
      var rl := ResolveLocal(c.(vis := r.vis), r.st, ls[|ls| - 1]);
      Scoped(rl.vis, r.msgs + rl.msgs, rl.st)
  }

  /** One branch of a `case`.  The branch is resolved in a fresh empty scope over the
      enclosing one, so its name is looked up among the enclosing scope's names: the
      symbol found there, if it is a variable, receives the branch's declared type. */
  function ResolveBranch(c: Ctx, st: Store, b: CaseBranch): Res
    decreases b, 1
  {
    if !IsVariable(c.vis, b.name) then Resolve(c, st, b.body)
    else if b.typ == "SELF_TYPE" then
      var r := Resolve(c, st, b.body);
      Res(r.t, [CaseSelfTypeMsg(b)] + r.msgs, r.st)
    else if b.typ !in c.g then
      var r := Resolve(c, st, b.body);
      Res(r.t, [CaseTypeMsg(b)] + r.msgs, r.st)
    else Resolve(c, st[c.vis[b.name].id := Some(b.typ)], b.body)
  }

  /** One step of the fold over branch types: a missing type is skipped, the first type
      is taken as it is, and later ones are joined in. */
  function Lub(c: Ctx, acc: Option<Name>, t: Option<Name>): Option<Name> {
    if t.None? then acc
    else if acc.None? then t
    else Join(c.g, acc, t, c.self)
  }

  /** The branches of a `case` in order, folding their types with `Lub`. */
  function ResolveBranches(c: Ctx, st: Store, bs: seq<CaseBranch>): Res
    decreases bs, 0
  {
    if bs == [] then Res(None, [], st)
    else
      var r := ResolveBranches(c, st, bs[..|bs| - 1]);
      var rb := ResolveBranch(c, r.st, bs[|bs| - 1]);
      Res(Lub(c, r.t, rb.t), r.msgs + rb.msgs, rb.st)
  }

  /** One more branch extends the fold by that branch, resolved in the store the
      earlier branches leave. */
  lemma LemmaBranchesSnoc(c: Ctx, st: Store, bs: seq<CaseBranch>, i: nat)
    requires i < |bs|
    ensures var r := ResolveBranches(c, st, bs[..i]);
      var rb := ResolveBranch(c, r.st, bs[i]);
      ResolveBranches(c, st, bs[..i + 1]) == Res(Lub(c, r.t, rb.t), r.msgs + rb.msgs, rb.st)
  {
    assert bs[..i + 1][..i] == bs[..i];
  }

  // ----- properties of the typing rules -----

  /** The result type of each operator does not depend on its operands: arithmetic and
      `~` give Int, comparison, equality, `not` and `isvoid` give Bool, each literal its
      own class, and the kinds the pass does not type give no result and no diagnostic. */
  lemma LemmaOperatorTypes(c: Ctx, st: Store, e: Expr)
    requires "Int" in c.g && "Bool" in c.g && "String" in c.g
    ensures e.BinaryOp? && e.op in ArithmeticOps ==> Resolve(c, st, e).t == Some("Int")
    ensures e.BinaryOp? && (e.op in ComparisonOps || e.op == "=") ==> Resolve(c, st, e).t == Some("Bool")
    ensures e.Not? || e.IsVoid? || e.BoolLit? ==> Resolve(c, st, e).t == Some("Bool")
    ensures e.Neg? || e.IntLit? ==> Resolve(c, st, e).t == Some("Int")
    ensures e.StrLit? ==> Resolve(c, st, e).t == Some("String")
    ensures e.If? || e.While? || e.Dispatch? || e.StaticDispatch? || e.New? ==>
      Resolve(c, st, e) == Res(None, [], st)
  {
  }

  /** Arithmetic and comparison report one diagnostic for each operand whose type is
      known and is not Int. */
  lemma LemmaIntOperandMsgs(op: string, lt: Option<Name>, rt: Option<Name>)
    requires op in ArithmeticOps || op in ComparisonOps
    ensures |BinaryMsgs(op, lt, rt)| ==
      (if lt.Some? && lt != Some("Int") then 1 else 0) + (if rt.Some? && rt != Some("Int") then 1 else 0)
  {
  }

  /** Equality reports at most once, and reports exactly when a basic operand meets an
      operand of another type. */
  lemma LemmaEqualityMsgs(lt: Option<Name>, rt: Option<Name>)
    ensures |EqualityMsgs(lt, rt)| <= 1
    ensures EqualityMsgs(lt, rt) == [] <==> !(IsBasic(lt) || IsBasic(rt)) || (IsBasic(lt) && lt == rt)
  {
  }

  /** An assignment whose right-hand side lies below the variable's declared type draws
      no diagnostic, and on a hierarchy with no cycle above the declared type only such
      an assignment (or one to a variable of type Object) is accepted. */
  lemma LemmaAssignConforms(g: Globals, e: Name, x: Name, declared: Name, t: Name)
    requires declared != "SELF_TYPE" && t != "SELF_TYPE" && Ends(g, Some(declared))
    ensures Reach(g, Some(t), declared) ==> AssignMsgs(g, Some(e), x, Some(declared), Some(t)) == []
    ensures AssignMsgs(g, Some(e), x, Some(declared), Some(t)) == [] ==> Reach(g, Some(t), declared) || declared == "Object"
  {
    LemmaJoinConforms(g, declared, t, e);
  }

  /** Inside a class, and with Object registered, folding one more branch type gives a
      type exactly when the fold so far or the branch has one. */
  lemma LemmaLubTyped(c: Ctx, acc: Option<Name>, t: Option<Name>)
    requires c.self.Some? && "Object" in c.g
    ensures Lub(c, acc, t).Some? <==> acc.Some? || t.Some?
  {
    if acc.Some? && t.Some? && acc.value != t.value {
      var a := ResolveSelf(acc.value, c.self.value);
      var b := ResolveSelf(t.value, c.self.value);
      if FirstIn(c.g, Some(b), AncestorSet(c.g, Some(a)), |c.g| + 1).None? {
        assert Find(c.g, Some("Object")).Some?;
      }
    }
  }

  /** The type of branch `i` of a `case`, resolved in the store the earlier branches leave. */
  function BranchType(c: Ctx, st: Store, bs: seq<CaseBranch>, i: nat): Option<Name>
    requires i < |bs|
  {
    ResolveBranch(c, ResolveBranches(c, st, bs[..i]).st, bs[i]).t
  }

  /** Inside a class, and with Object registered, a `case` has a type exactly when one
      of its branches has one. */
  lemma {:induction false} LemmaCaseTyped(c: Ctx, st: Store, bs: seq<CaseBranch>)
    requires c.self.Some? && "Object" in c.g
    ensures ResolveBranches(c, st, bs).t.Some? <==> exists i :: 0 <= i < |bs| && BranchType(c, st, bs, i).Some?
    decreases |bs|
  {
    if bs != [] {
      var n := |bs| - 1;
      var pre := bs[..n];
      LemmaCaseTyped(c, st, pre);
      LemmaBranchesSnoc(c, st, bs, n);
      assert bs[..n + 1] == bs;
      var r := ResolveBranches(c, st, pre);
      var tb := BranchType(c, st, bs, n);
      assert ResolveBranches(c, st, bs).t == Lub(c, r.t, tb);
      LemmaLubTyped(c, r.t, tb);
      forall i | 0 <= i < n
        ensures BranchType(c, st, bs, i) == BranchType(c, st, pre, i)
      {
        assert bs[..i] == pre[..i];
      }
      if ResolveBranches(c, st, bs).t.Some? {
        if tb.None? {
          var i :| 0 <= i < |pre| && BranchType(c, st, pre, i).Some?;
          assert BranchType(c, st, bs, i).Some?;
        }
      }
      if exists i :: 0 <= i < |bs| && BranchType(c, st, bs, i).Some? {
        var i :| 0 <= i < |bs| && BranchType(c, st, bs, i).Some?;
        if i < n {
          assert BranchType(c, st, pre, i).Some?;
        }
      }
    }
  }
}
