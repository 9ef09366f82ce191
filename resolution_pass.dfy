/** The resolution pass (`ResolutionPassVisitor`): the visitor mutates the current
    scope, the symbols' types and the diagnostics in place, and is proved to agree with
    the typing functions of `ExprTyping` and `FeatureTyping`. */
module ResolutionPasses {
  import opened Base
  import opened Structures
  import opened Ast
  import opened Hierarchy
  import opened SymbolTables
  import opened RulesChecker
  import opened ExprTyping
  import opened FeatureTyping

  /** `ResolutionPassVisitor`: the current scope, over a symbol table the definition pass
      has filled.  The hierarchy is kept as the snapshot taken when the pass starts:
      resolution changes no parent name and no attribute table. */
  class ResolutionPass {
    const table: SymbolTable
    const hier: Globals
    var currentScope: Scope
    /** The source has thrown (a failed cast or a null dereference): nothing more runs. */
    var aborted: bool

    /** The pass starts in the global scope. */
    constructor (table: SymbolTable)
      requires table.Valid()
      ensures this.table == table && hier == table.Hier() && currentScope == Default(table.globals)
      ensures ChainOk(currentScope) && !aborted
    {
      this.table := table;
      hier := table.Hier();
      currentScope := Default(table.globals);
      aborted := false;
    }

    /** What an expression resolved in the current scope sees. */
    ghost function Here(): (c: Ctx)
      requires ChainOk(currentScope)
      reads this, table, ChainScopes(currentScope), ChainClasses(currentScope), ChainMethods(currentScope)
    {
      Ctx(hier, Visible(currentScope), EnclosingName(Some(currentScope)), table.idSymbols)
    }

    /** `c` is what the current scope sees. */
    ghost predicate Sees(c: Ctx)
      requires ChainOk(currentScope)
      reads this, table, ChainScopes(currentScope), ChainClasses(currentScope), ChainMethods(currentScope)
    {
      && Visible(currentScope) == c.vis && EnclosingName(Some(currentScope)) == c.self
      && c.g == hier && c.ids == table.idSymbols
    }

    /** `accept(this)` on an expression: its type as `Resolve` gives it, its diagnostics
        appended in order, the new types of the symbols it declares, and the current
        scope as it was. */
    method VisitExpr(e: Expr, ghost c: Ctx) returns (t: Option<Name>)
      requires ChainOk(currentScope) && Sees(c)
      requires table.FlagOk()
      modifies this`currentScope, table`messages, table`semanticErrors, table`types, table`scopes
      ensures currentScope == old(currentScope) && table.FlagOk()
      ensures var r := Resolve(c, old(table.types), e);
        t == r.t && table.messages == old(table.messages) + r.msgs && table.types == r.st
      decreases e, 3
    {
      match e
      case Id(_) => t := VisitId(e, c);
      case IntLit(_) => t := Find(hier, Some("Int"));
      case StrLit(_) => t := Find(hier, Some("String"));
      case BoolLit(_) => t := Find(hier, Some("Bool"));
      case Assign(_, _) => t := VisitAssign(e, c);
      case BinaryOp(_, _, _) => t := VisitBinaryOp(e, c);
      case Not(_) => t := VisitNot(e, c);
      case Neg(_) => t := VisitNeg(e, c);
      case _ => t := VisitCompound(e, c);
    }

    /** The rest of `accept(this)`: `isvoid`, parentheses, blocks, `let` and `case`; the
        other nodes (`if`, `while`, dispatch, `new`) have no typing rule and give null. */
    method VisitCompound(e: Expr, ghost c: Ctx) returns (t: Option<Name>)
      requires !(e.Id? || e.IntLit? || e.StrLit? || e.BoolLit? || e.Assign? || e.BinaryOp? || e.Not? || e.Neg?)
      requires ChainOk(currentScope) && Sees(c)
      requires table.FlagOk()
      modifies this`currentScope, table`messages, table`semanticErrors, table`types, table`scopes
      ensures currentScope == old(currentScope) && table.FlagOk()
      ensures var r := Resolve(c, old(table.types), e);
        t == r.t && table.messages == old(table.messages) + r.msgs && table.types == r.st
      decreases e, 2
    {
      match e
      case IsVoid(_) =>
        var _ := VisitExpr(e.operand, c);
        t := Find(hier, Some("Bool"));
      case Paren(_) => t := VisitExpr(e.inner, c);
      case Block(_) => t := VisitBlock(e, c);
      case Let(_, _) => t := VisitLet(e, c);
      case Case(_, _) => t := VisitCase(e, c);
      case _ => t := None;
    }

    /** `visit(Id)`: `self` has the enclosing class's type, a variable its symbol's type,
        and any other name is undefined. */
    method VisitId(e: Expr, ghost c: Ctx) returns (t: Option<Name>)
      requires e.Id?
      requires ChainOk(currentScope) && Sees(c)
      requires table.FlagOk()
      modifies table`messages, table`semanticErrors
      ensures table.FlagOk()
      ensures var r := ResolveId(c, old(table.types), e.name);
        t == r.t && table.messages == old(table.messages) + r.msgs
    {
      if e.name == "self" {
        var s := Some(currentScope);
        while s.Some? && !s.value.InClass?
          invariant s.Some? ==> ChainOk(s.value)
          invariant EnclosingName(s) == EnclosingName(Some(currentScope))
          decreases if s.Some? then Depth(s.value) + 1 else 0
        {
          s := GetParentScope(s.value);
        }
        return if s.Some? then Some(s.value.c.name) else None;
      }
      var sym := LookupIn(currentScope, e.name);
      LemmaLookupVisible(currentScope, e.name);
      if !(sym.Some? && sym.value.IdSym?) {
        table.Error(UndefinedIdMsg(e.name));
        return None;
      }
      return TypeOf(table.types, sym.value.id);
    }

    /** `visit(Assign)`. */
    method VisitAssign(e: Expr, ghost c: Ctx) returns (t: Option<Name>)
      requires e.Assign?
      requires ChainOk(currentScope) && Sees(c)
      requires table.FlagOk()
      modifies this`currentScope, table`messages, table`semanticErrors, table`types, table`scopes
      ensures currentScope == old(currentScope) && table.FlagOk()
      ensures var r := ResolveAssign(c, old(table.types), e.lhs, e.rhs);
        t == r.t && table.messages == old(table.messages) + r.msgs && table.types == r.st
      decreases e, 1
    {
      if e.lhs == "self" {
        t := ReportThenVisit(SelfAssignMsg, e.rhs, c);
        return;
      }
      var sym := LookupIn(currentScope, e.lhs);
      LemmaLookupVisible(currentScope, e.lhs);
      if !(sym.Some? && sym.value.IdSym?) {
        var _ := ReportThenVisit(UndefinedIdMsg(e.lhs), e.rhs, c);
        return None;
      }
      t := AssignVariable(e, c, sym.value.id);
    }

    /** Reports `msg`, then visits `e` for the diagnostics inside it. */
    method ReportThenVisit(msg: string, e: Expr, ghost c: Ctx) returns (t: Option<Name>)
      requires ChainOk(currentScope) && Sees(c)
      requires table.FlagOk()
      modifies this`currentScope, table`messages, table`semanticErrors, table`types, table`scopes
      ensures currentScope == old(currentScope) && table.FlagOk()
      ensures var r := Resolve(c, old(table.types), e);
        t == r.t && table.messages == old(table.messages) + ([msg] + r.msgs) && table.types == r.st
      decreases e, 4
    {
      ghost var m0 := table.messages;
      table.Error(msg);
      t := VisitExpr(e, c);
      LemmaAppendAssoc(m0, [msg], table.messages[|m0| + 1..]);
    }

    /** `visit(Assign)` to a variable: the right-hand side's type, checked against the
        type the variable had before the right-hand side was visited. */
    method AssignVariable(e: Expr, ghost c: Ctx, x: IdSymbol) returns (t: Option<Name>)
      requires e.Assign?
      requires ChainOk(currentScope) && Sees(c)
      requires table.FlagOk()
      modifies this`currentScope, table`messages, table`semanticErrors, table`types, table`scopes
      ensures currentScope == old(currentScope) && table.FlagOk()
      ensures var r := Resolve(c, old(table.types), e.rhs);
        && t == r.t && table.types == r.st
        && table.messages == old(table.messages) + (r.msgs + AssignMsgs(c.g, c.self, e.lhs, TypeOf(old(table.types), x), r.t))
      decreases e, 0
    {
      ghost var m0 := table.messages;
      var declared := TypeOf(table.types, x);
      t := VisitExpr(e.rhs, c);
      ghost var m1 := table.messages;
      CheckAssign(e.lhs, declared, t);
      LemmaAppendAssoc(m0, m1[|m0|..], AssignMsgs(c.g, c.self, e.lhs, declared, t));
    }

    /** The compatibility check of `visit(Assign)`, once both types are known. */
    method CheckAssign(x: Name, declared: Option<Name>, t: Option<Name>)
      requires ChainOk(currentScope) && table.FlagOk()
      modifies table`messages, table`semanticErrors
      ensures table.FlagOk()
      ensures table.messages == old(table.messages) + AssignMsgs(hier, EnclosingName(Some(currentScope)), x, declared, t)
    {
      if declared.None? || t.None? {
        return;
      }
      var lca := GetCommonParent(hier, declared, t, Some(currentScope));
      if lca.None? || lca.value != declared.value {
        table.Error(AssignMismatchMsg(t.value, declared.value, x));
      }
    }

    /** Reports an operand of `op` whose known type is not `expected`. */
    method ReportOperand(op: string, t: Option<Name>, expected: Name)
      requires table.FlagOk()
      modifies table`messages, table`semanticErrors
      ensures table.FlagOk() && table.messages == old(table.messages) + OperandMsgs(op, t, expected)
    {
      if t.Some? && t.value != expected {
        table.Error("Operand of " + op + " has type " + t.value + " instead of " + expected);
      }
    }

    /** `visit(BinaryOp)`: both operands are visited, then the operator's rule applies. */
    method VisitBinaryOp(e: Expr, ghost c: Ctx) returns (t: Option<Name>)
      requires e.BinaryOp?
      requires ChainOk(currentScope) && Sees(c)
      requires table.FlagOk()
      modifies this`currentScope, table`messages, table`semanticErrors, table`types, table`scopes
      ensures currentScope == old(currentScope) && table.FlagOk()
      ensures var r := ResolveBinaryOp(c, old(table.types), e.op, e.left, e.right);
        t == r.t && table.messages == old(table.messages) + r.msgs && table.types == r.st
      decreases e, 1
    {
      ghost var m0 := table.messages;
      var lt := VisitExpr(e.left, c);
      ghost var m1 := table.messages;
      var rt := VisitExpr(e.right, c);
      ghost var m2 := table.messages;
      t := ApplyBinaryRule(e.op, lt, rt);
      LemmaAppendAssoc(m0, m1[|m0|..], m2[|m1|..]);
      LemmaAppendAssoc(m0, m1[|m0|..] + m2[|m1|..], BinaryMsgs(e.op, lt, rt));
    }

    /** The operator rules of `visit(BinaryOp)`, once both operand types are known. */
    method ApplyBinaryRule(op: string, lt: Option<Name>, rt: Option<Name>) returns (t: Option<Name>)
      requires table.FlagOk()
      modifies table`messages, table`semanticErrors
      ensures table.FlagOk()
      ensures t == BinaryType(hier, op) && table.messages == old(table.messages) + BinaryMsgs(op, lt, rt)
    {
      if op == "+" || op == "-" || op == "*" || op == "/" {
        ReportOperands(op, lt, rt);
        return Find(hier, Some("Int"));
      }
      if op == "<" || op == "<=" {
        ReportOperands(op, lt, rt);
        return Find(hier, Some("Bool"));
      }
      if op == "=" {
        ReportEquality(lt, rt);
        return Find(hier, Some("Bool"));
      }
      return Find(hier, Some("Int"));
    }

    /** Both operands of an arithmetic or comparison operator must be Int, left first. */
    method ReportOperands(op: string, lt: Option<Name>, rt: Option<Name>)
      requires table.FlagOk()
      modifies table`messages, table`semanticErrors
      ensures table.FlagOk()
      ensures table.messages == old(table.messages) + (OperandMsgs(op, lt, "Int") + OperandMsgs(op, rt, "Int"))
    {
      ReportOperand(op, lt, "Int");
      ReportOperand(op, rt, "Int");
    }

    /** `=` with a basic operand: both must be that same basic type. */
    method ReportEquality(lt: Option<Name>, rt: Option<Name>)
      requires table.FlagOk()
      modifies table`messages, table`semanticErrors
      ensures table.FlagOk() && table.messages == old(table.messages) + EqualityMsgs(lt, rt)
    {
      if IsBasic(lt) || IsBasic(rt) {
        var ok := (lt == Some("Int") && rt == Some("Int")) || (lt == Some("Bool") && rt == Some("Bool"))
          || (lt == Some("String") && rt == Some("String"));
        if !ok {
          table.Error("Cannot compare " + (if lt.None? then "Object" else lt.value) + " with " + (if rt.None? then "Object" else rt.value));
        }
      }
    }

    /** `visit(Not)`. */
    method VisitNot(e: Expr, ghost c: Ctx) returns (t: Option<Name>)
      requires e.Not?
      requires ChainOk(currentScope) && Sees(c)
      requires table.FlagOk()
      modifies this`currentScope, table`messages, table`semanticErrors, table`types, table`scopes
      ensures currentScope == old(currentScope) && table.FlagOk()
      ensures var r := ResolveUnary(c, old(table.types), "not", e.operand, "Bool", "Bool");
        t == r.t && table.messages == old(table.messages) + r.msgs && table.types == r.st
      decreases e, 1
    {
      var operand := VisitExpr(e.operand, c);
      ReportOperand("not", operand, "Bool");
      return Find(hier, Some("Bool"));
    }

    /** `visit(Neg)`: the operator `~`. */
    method VisitNeg(e: Expr, ghost c: Ctx) returns (t: Option<Name>)
      requires e.Neg?
      requires ChainOk(currentScope) && Sees(c)
      requires table.FlagOk()
      modifies this`currentScope, table`messages, table`semanticErrors, table`types, table`scopes
      ensures currentScope == old(currentScope) && table.FlagOk()
      ensures var r := ResolveUnary(c, old(table.types), "~", e.operand, "Int", "Int");
        t == r.t && table.messages == old(table.messages) + r.msgs && table.types == r.st
      decreases e, 1
    {
      var operand := VisitExpr(e.operand, c);
      ReportOperand("~", operand, "Int");
      return Find(hier, Some("Int"));
    }

    /** `visit(Block)`: the expressions in order; the last one's type. */
    method VisitBlock(e: Expr, ghost c: Ctx) returns (t: Option<Name>)
      requires e.Block?
      requires ChainOk(currentScope) && Sees(c)
      requires table.FlagOk()
      modifies this`currentScope, table`messages, table`semanticErrors, table`types, table`scopes
      ensures currentScope == old(currentScope) && table.FlagOk()
      ensures var r := ResolveSeq(c, old(table.types), e.exprs);
        t == r.t && table.messages == old(table.messages) + r.msgs && table.types == r.st
      decreases e, 1
    {
      ghost var st0, m0 := table.types, table.messages;
      var last: Option<Name> := None;
      var i := 0;
      while i < |e.exprs|
        invariant 0 <= i <= |e.exprs|
        invariant currentScope == old(currentScope) && Sees(c) && table.FlagOk()
        invariant var r := ResolveSeq(c, st0, e.exprs[..i]);
          last == r.t && table.messages == m0 + r.msgs && table.types == r.st
      {
        ghost var r := ResolveSeq(c, st0, e.exprs[..i]);
        last := VisitExpr(e.exprs[i], c);
        assert e.exprs[..i + 1][..i] == e.exprs[..i];
        LemmaAppendAssoc(m0, r.msgs, Resolve(c, r.st, e.exprs[i]).msgs);
        i := i + 1;
      }
      assert e.exprs[..i] == e.exprs;
      return last;
    }

    /** `visit(Let)`: each local is visited in the scope the previous one opened, the
        body in the last one, and the scope the `let` started in is restored. */
    method VisitLet(e: Expr, ghost c: Ctx) returns (t: Option<Name>)
      requires e.Let?
      requires ChainOk(currentScope) && Sees(c)
      requires table.FlagOk()
      modifies this`currentScope, table`messages, table`semanticErrors, table`types, table`scopes
      ensures currentScope == old(currentScope) && table.FlagOk()
      ensures var r := ResolveLet(c, old(table.types), e.locals, e.body);
        t == r.t && table.messages == old(table.messages) + r.msgs && table.types == r.st
      decreases e, 1
    {
      ghost var m0 := table.messages;
      ghost var rl := ResolveLocals(c, table.types, e.locals);
      var saved := currentScope;
      VisitLocals(e.locals, c);
      ghost var m1 := table.messages;
      t := VisitExpr(e.body, c.(vis := rl.vis));
      LemmaAppendAssoc(m0, rl.msgs, table.messages[|m1|..]);
      currentScope := saved;
    }

    /** The locals of a `let` in order, each visited in the scope the previous one
        opened; the last scope opened stays current. */
    method VisitLocals(ls: seq<Local>, ghost c: Ctx)
      requires ChainOk(currentScope) && Sees(c)
      requires table.FlagOk()
      modifies this`currentScope, table`messages, table`semanticErrors, table`types, table`scopes
      ensures ChainOk(currentScope) && table.FlagOk()
      ensures var r := ResolveLocals(c, old(table.types), ls);
        && Sees(c.(vis := r.vis))
        && table.messages == old(table.messages) + r.msgs && table.types == r.st
      decreases ls, 3
    {
      ghost var st0 := table.types;
      ghost var m0 := table.messages;
      var i := 0;
      while i < |ls|
        invariant 0 <= i <= |ls|
        invariant ChainOk(currentScope) && table.FlagOk()
        invariant var r := ResolveLocals(c, st0, ls[..i]);
          && Sees(c.(vis := r.vis))
          && table.messages == m0 + r.msgs && table.types == r.st
        decreases |ls| - i
      {
        ghost var r := ResolveLocals(c, st0, ls[..i]);
        ghost var m1 := table.messages;
        VisitLocal(ls[i], c.(vis := r.vis));
        assert ls[..i + 1][..i] == ls[..i];
        LemmaAppendAssoc(m0, r.msgs, table.messages[|m1|..]);
        i := i + 1;
      }
      assert ls[..i] == ls;
    }

    /** One local of a `let`, seen from `c`: its initializer and its declared type are
        checked in the current scope, then a new scope holding its symbol is entered. */
    method VisitLocal(l: Local, ghost c: Ctx)
      requires ChainOk(currentScope) && Sees(c)
      requires table.FlagOk()
      modifies this`currentScope, table`messages, table`semanticErrors, table`types, table`scopes
      ensures ChainOk(currentScope) && table.FlagOk()
      ensures var r := ResolveLocal(c, old(table.types), l);
        && Sees(c.(vis := r.vis))
        && table.messages == old(table.messages) + r.msgs && table.types == r.st
      decreases l, 2
    {
      ghost var m0 := table.messages;
      var declared := VisitLocalHead(l, c);
      ghost var m1 := table.messages;
      OpenLocal(l, declared, c);
    }

    /** The initializer of a local, then its declared type, in the current scope. */
    method VisitLocalHead(l: Local, ghost c: Ctx) returns (declared: Option<Name>)
      requires ChainOk(currentScope) && Sees(c)
      requires table.FlagOk()
      modifies this`currentScope, table`messages, table`semanticErrors, table`types, table`scopes
      ensures currentScope == old(currentScope) && table.FlagOk()
      ensures declared == Find(hier, Some(l.typ))
      ensures var r := LocalInit(c, old(table.types), l);
        && table.messages == old(table.messages) + (r.msgs + if l.typ in c.g then [] else [LetTypeMsg(l)])
        && table.types == r.st
      decreases l, 1
    {
      ghost var m0 := table.messages;
      if l.init.Some? {
        var _ := VisitExpr(l.init.value, c);
      }
      ghost var m1 := table.messages;
      declared := Find(hier, Some(l.typ));
      if declared.None? {
        table.Error(LetTypeMsg(l));
        LemmaAppendAssoc(m0, m1[|m0|..], [LetTypeMsg(l)]);
      }
    }

    /** `new DefaultScope(s)` becomes the current scope; the local's symbol, if one is
        attached, is moved into it and receives the declared type when that is defined. */
    method OpenLocal(l: Local, declared: Option<Name>, ghost c: Ctx)
      requires declared == Find(hier, Some(l.typ))
      requires ChainOk(currentScope) && Sees(c)
      modifies this`currentScope, table`types, table`scopes
      ensures ChainOk(currentScope)
      ensures Sees(c.(vis := LocalVis(c, l)))
      ensures table.types == LocalStore(c, old(table.types), l)
    {
      ghost var v0 := Visible(currentScope);
      var d := EnterScope(currentScope);
      if l.uid in table.idSymbols {
        BindLocal(table.idSymbols[l.uid], d, declared);
      }
    }

    /** A let local's symbol `x` joins the new scope `d`, taking the declared type `t`
        when that is defined. */
    method BindLocal(x: IdSymbol, d: DefaultScope, t: Option<Name>)
      requires ChainOk(Default(d)) && d !in d.outerScopes && d.symbols == map[]
      modifies table`scopes, table`types, d`symbols
      ensures Visible(Default(d)) == old(Visible(Default(d)))[x.name := IdSym(x)]
      ensures table.types == if t.Some? then old(table.types)[x := t] else old(table.types)
      ensures table.scopes == old(table.scopes)[x := Some(Default(d))]
    {
      ghost var v0 := Visible(Default(d));
      table.SetIdScope(x, Default(d));
      assert Visible(Default(d)) == v0;
      DeclareIn(d, IdSym(x));
      if t.Some? {
        ghost var v1 := Visible(Default(d));
        table.SetIdType(x, t.value);
        assert Visible(Default(d)) == v1;
      }
    }

    /** `currentScope = new DefaultScope(p)`: the new scope sees what its parent sees
        and lies in the same class. */
    method EnterScope(p: Scope) returns (d: DefaultScope)
      requires ChainOk(p)
      modifies this`currentScope
      ensures fresh(d) && currentScope == Default(d) && d.parent == Some(p)
      ensures ChainOk(currentScope) && d.symbols == map[] && d !in d.outerScopes
      ensures Visible(currentScope) == old(Visible(p))
      ensures EnclosingName(Some(currentScope)) == EnclosingName(Some(p))
    {
      d := new DefaultScope(Some(p));
      currentScope := Default(d);
    }

    /** `add(sym)` on a scope that does not hold the name yet: the name now denotes
        `sym` in everything the scope sees. */
    method DeclareIn(d: DefaultScope, sym: Symbol)
      requires ChainOk(Default(d)) && d !in d.outerScopes && sym.GetName() !in d.symbols
      modifies d`symbols
      ensures Visible(Default(d)) == old(Visible(Default(d)))[sym.GetName() := sym]
    {
      var _ := d.Add(sym);
    }

    method VisitCase(e: Expr, ghost c: Ctx) returns (t: Option<Name>)
      requires e.Case?
      requires ChainOk(currentScope) && Sees(c)
      requires table.FlagOk()
      modifies this`currentScope, table`messages, table`semanticErrors, table`types, table`scopes
      ensures currentScope == old(currentScope) && table.FlagOk()
      ensures var r := ResolveCase(c, old(table.types), e.scrutinee, e.branches);
        t == r.t && table.messages == old(table.messages) + r.msgs && table.types == r.st
      decreases e, 1
    {
      ghost var m0 := table.messages;
      ghost var rs := Resolve(c, table.types, e.scrutinee);
      var _ := VisitExpr(e.scrutinee, c);
      ghost var m1 := table.messages;
      var saved := currentScope;
      t := VisitBranches(e.branches, c);
      LemmaAppendAssoc(m0, rs.msgs, table.messages[|m1|..]);
      currentScope := saved;
    }

    /** The branches of a `case`, each in a fresh scope over the current one `saved`;
        known branch types are joined as `getCommonParrent(resultType, t, saved)`. */
    method VisitBranches(bs: seq<CaseBranch>, ghost c: Ctx) returns (t: Option<Name>)
      requires ChainOk(currentScope) && Sees(c)
      requires table.FlagOk()
      modifies this`currentScope, table`messages, table`semanticErrors, table`types, table`scopes
      ensures table.FlagOk()
      ensures var r := ResolveBranches(c, old(table.types), bs);
        t == r.t && table.messages == old(table.messages) + r.msgs && table.types == r.st
      decreases bs, 3
    {
      ghost var st0 := table.types;
      ghost var m0 := table.messages;
      var saved := currentScope;
      t := None;
      var i := 0;
      while i < |bs|
        invariant 0 <= i <= |bs|
        invariant ChainOk(saved) && Visible(saved) == c.vis && EnclosingName(Some(saved)) == c.self
        invariant c.g == hier && c.ids == table.idSymbols
        invariant table.FlagOk()
        invariant var r := ResolveBranches(c, st0, bs[..i]);
          t == r.t && table.messages == m0 + r.msgs && table.types == r.st
        decreases |bs| - i
      {
        t := BranchStep(bs, i, saved, t, c, st0, m0);
        i := i + 1;
      }
      assert bs[..i] == bs;
    }

    /** One iteration of the branch loop: the branch, then the join of its type into
        the result so far, which extends the fold over the earlier branches by one. */
    method BranchStep(bs: seq<CaseBranch>, i: nat, saved: Scope, acc: Option<Name>, ghost c: Ctx, ghost st0: Store,
                      ghost m0: seq<string>) returns (t: Option<Name>)
      requires i < |bs|
      requires ChainOk(saved) && Visible(saved) == c.vis && EnclosingName(Some(saved)) == c.self
      requires c.g == hier && c.ids == table.idSymbols
      requires table.FlagOk()
      requires var r := ResolveBranches(c, st0, bs[..i]);
        acc == r.t && table.messages == m0 + r.msgs && table.types == r.st
      modifies this`currentScope, table`messages, table`semanticErrors, table`types, table`scopes
      ensures Visible(saved) == c.vis && table.FlagOk()
      ensures var r := ResolveBranches(c, st0, bs[..i + 1]);
        t == r.t && table.messages == m0 + r.msgs && table.types == r.st
      decreases bs, 2
    {
      ghost var r := ResolveBranches(c, st0, bs[..i]);
      ghost var rb := ResolveBranch(c, r.st, bs[i]);
      var bt := VisitBranchIn(bs[i], saved, c);
      label Joining:
      t := JoinBranch(acc, bt, saved, c);
      LemmaVisibleKept@Joining(saved);
      LemmaBranchesSnoc(c, st0, bs, i);
      LemmaAppendAssoc(m0, r.msgs, rb.msgs);
    }

    /** `currentScope = new DefaultScope(saved)`, then the branch. */
    method VisitBranchIn(b: CaseBranch, saved: Scope, ghost c: Ctx) returns (t: Option<Name>)
      requires ChainOk(saved) && Visible(saved) == c.vis && EnclosingName(Some(saved)) == c.self
      requires c.g == hier && c.ids == table.idSymbols
      requires table.FlagOk()
      modifies this`currentScope, table`messages, table`semanticErrors, table`types, table`scopes
      ensures Visible(saved) == c.vis && table.FlagOk()
      ensures var r := ResolveBranch(c, old(table.types), b);
        t == r.t && table.messages == old(table.messages) + r.msgs && table.types == r.st
      decreases b, 3
    {
      EnterBranchScope(saved, c);
      t := VisitBranch(b, c);
      LemmaVisibleKept(saved);
    }

    /** `currentScope = new DefaultScope(saved)`: the fresh scope sees exactly what
        `saved` sees. */
    method EnterBranchScope(saved: Scope, ghost c: Ctx)
      requires ChainOk(saved) && Visible(saved) == c.vis && EnclosingName(Some(saved)) == c.self
      requires c.g == hier && c.ids == table.idSymbols
      modifies this`currentScope
      ensures ChainOk(currentScope) && Sees(c) && Visible(saved) == c.vis
    {
      var _ := EnterScope(saved);
    }

    /** `resultType = (resultType == null) ? t : getCommonParrent(resultType, t, saved)`
        for a known branch type `t`. */
    method JoinBranch(acc: Option<Name>, t: Option<Name>, saved: Scope, ghost c: Ctx) returns (r: Option<Name>)
      requires ChainOk(saved) && EnclosingName(Some(saved)) == c.self && c.g == hier
      ensures r == Lub(c, acc, t)
    {
      if t.None? {
        return acc;
      }
      if acc.None? {
        return t;
      }
      r := GetCommonParent(hier, acc, t, Some(saved));
    }

    /** `visit(CaseBranch)` in a fresh scope that sees `c`: a branch name that is a
        variable receives the branch's type when that type is legal and defined. */
    method VisitBranch(b: CaseBranch, ghost c: Ctx) returns (t: Option<Name>)
      requires ChainOk(currentScope) && Sees(c)
      requires table.FlagOk()
      modifies this`currentScope, table`messages, table`semanticErrors, table`types, table`scopes
      ensures currentScope == old(currentScope) && table.FlagOk()
      ensures var r := ResolveBranch(c, old(table.types), b);
        t == r.t && table.messages == old(table.messages) + r.msgs && table.types == r.st
      decreases b, 2
    {
      var sym := LookupIn(currentScope, b.name);
      LemmaLookupVisible(currentScope, b.name);
      if !(sym.Some? && sym.value.IdSym?) {
        t := VisitExpr(b.body, c);
        return;
      }
      if b.typ == "SELF_TYPE" {
        t := ReportThenVisit(CaseSelfTypeMsg(b), b.body, c);
        return;
      }
      var declared := Find(hier, Some(b.typ));
      if declared.None? {
        t := ReportThenVisit(CaseTypeMsg(b), b.body, c);
        return;
      }
      table.SetIdType(sym.value.id, b.typ);
      t := VisitExpr(b.body, c);
    }
  
    // ----- formals, attributes, methods, classes -----

    /** `visit(Formal)`: no formal visit writes a scope. */
    method VisitFormal(f: Formal) returns (t: Option<Name>)
      requires !aborted && table.FlagOk()
      modifies this`aborted, table`messages, table`semanticErrors, table`types
      ensures table.FlagOk() && table.scopes == old(table.scopes)
      ensures var x := Attached(table.idSymbols, f.uid);
        var o := FormalOutcome(hier, old(table.types), f, x, ScopeOf(old(table.scopes), x));
        t == o.t && table.messages == old(table.messages) + o.msgs && table.types == o.st && aborted == o.crashed
    {
      if f.uid !in table.idSymbols {
        return None;
      }
      var x := table.idSymbols[f.uid];
      var xs := ScopeOf(table.scopes, Some(x));
      if xs.None? {
        return None;
      }
      if !xs.value.InMethod? {
        aborted := true;
        return None;
      }
      var m := xs.value.m;
      var v := CheckFormalResolution(hier, m.name, m.parent.name, f.name, f.typ);
      if !v.ok {
        table.Report(v.msgs);
        return None;
      }
      table.SetIdType(x, f.typ);
      t := Find(hier, Some(f.typ));
    }

    /** The formals of a method in order, until one of them throws. */
    method VisitFormals(fs: seq<Formal>)
      requires !aborted && table.FlagOk()
      modifies this`aborted, table`messages, table`semanticErrors, table`types
      ensures table.FlagOk() && table.scopes == old(table.scopes)
      ensures var o := FormalsOutcome(hier, old(table.types), fs, table.idSymbols, old(table.scopes));
        table.messages == old(table.messages) + o.msgs && table.types == o.st && aborted == o.crashed
    {
      ghost var st0, sc0, m0 := table.types, table.scopes, table.messages;
      var i := 0;
      while i < |fs| && !aborted
        invariant 0 <= i <= |fs| && table.FlagOk() && table.scopes == sc0
        invariant var o := FormalsOutcome(hier, st0, fs[..i], table.idSymbols, sc0);
          table.messages == m0 + o.msgs && table.types == o.st && aborted == o.crashed
        decreases |fs| - i
      {
        ghost var r := FormalsOutcome(hier, st0, fs[..i], table.idSymbols, sc0);
        ghost var m1 := table.messages;
        var _ := VisitFormal(fs[i]);
        assert fs[..i + 1][..i] == fs[..i];
        LemmaAppendAssoc(m0, r.msgs, table.messages[|m1|..]);
        i := i + 1;
      }
      if i < |fs| {
        LemmaFormalsStop(hier, st0, fs, i, table.idSymbols, sc0);
      }
      assert fs[..|fs|] == fs;
    }

    /** `visit(Attr)` in the current scope. */
    method VisitAttr(a: Feature, ghost c: Ctx) returns (t: Option<Name>)
      requires a.Attr? && !aborted
      requires ChainOk(currentScope) && Sees(c)
      requires table.FlagOk()
      modifies this`currentScope, this`aborted, table`messages, table`semanticErrors, table`types, table`scopes
      ensures currentScope == old(currentScope) && table.FlagOk()
      ensures var x := Attached(table.idSymbols, a.uid);
        var xs := ScopeOf(old(table.scopes), x);
        var o := AttrOutcome(c, old(currentScope), old(table.types), a, x, xs, old(OwnerParent(xs)));
        t == o.t && table.messages == old(table.messages) + o.msgs && table.types == o.st && aborted == o.crashed
    {
      if a.uid !in table.idSymbols {
        return None;
      }
      var x := table.idSymbols[a.uid];
      var xs := ScopeOf(table.scopes, Some(x));
      if !(xs.Some? && xs.value.InClass?) {
        aborted := true;
        return None;
      }
      t := VisitAttrChecked(a, x, xs.value.c, c);
    }

    /** `visit(Attr)` once the symbol's scope is known to be the class `k`. */
    method VisitAttrChecked(a: Feature, x: IdSymbol, k: ClassSymbol, ghost c: Ctx) returns (t: Option<Name>)
      requires a.Attr? && !aborted
      requires ChainOk(currentScope) && Sees(c)
      requires table.FlagOk()
      modifies this`currentScope, this`aborted, table`messages, table`semanticErrors, table`types, table`scopes
      ensures currentScope == old(currentScope) && table.FlagOk()
      ensures var o := AttrChecked(c, old(currentScope), old(table.types), a, x, k.name, k.parentName);
        t == o.t && table.messages == old(table.messages) + o.msgs && table.types == o.st && aborted == o.crashed
    {
      // `checkAttributeResolution`, through the verdict `RulesChecker.CheckAttributeResolution`
      // is proved to compute.
      var v := AttributeVerdict(hier, k.name, k.parentName, a.name);
      if !v.ok {
        table.Report(v.msgs);
        return None;
      }
      t := VisitAttrTyped(a, x, c);
    }

    /** The part of `visit(Attr)` after the inheritance check. */
    method VisitAttrTyped(a: Feature, x: IdSymbol, ghost c: Ctx) returns (t: Option<Name>)
      requires a.Attr? && !aborted
      requires ChainOk(currentScope) && Sees(c)
      requires table.FlagOk()
      modifies this`currentScope, this`aborted, table`messages, table`semanticErrors, table`types, table`scopes
      ensures currentScope == old(currentScope) && table.FlagOk()
      ensures var o := AttrTyped(c, old(currentScope), old(table.types), a, x);
        t == o.t && table.messages == old(table.messages) + o.msgs && table.types == o.st && aborted == o.crashed
    {
      var declared := Find(hier, Some(a.typ));
      if declared.None? {
        if !currentScope.InClass? {
          aborted := true;
          return None;
        }
        table.Error(AttrTypeMsg(currentScope.c.name, a.name, a.typ));
        return None;
      }
      table.SetIdType(x, a.typ);
      if a.init.Some? {
        CheckInit(a, c);
      }
      return declared;
    }

    /** An attribute's initializer, resolved in the current scope and checked against
        the declared type. */
    method CheckInit(a: Feature, ghost c: Ctx)
      requires a.Attr? && a.init.Some?
      requires ChainOk(currentScope) && Sees(c)
      requires table.FlagOk()
      modifies this`currentScope, table`messages, table`semanticErrors, table`types, table`scopes
      ensures currentScope == old(currentScope) && table.FlagOk()
      ensures var r := Resolve(c, old(table.types), a.init.value);
        table.messages == old(table.messages) + (r.msgs + InitMsgs(c.g, c.self, a.name, a.typ, r.t)) && table.types == r.st
    {
      ghost var m0 := table.messages;
      var it := VisitExpr(a.init.value, c);
      ghost var m1 := table.messages;
      if it.Some? {
        var lca := GetCommonParent(hier, Some(a.typ), it, Some(currentScope));
        if lca != Some(a.typ) {
          table.Error(AttrInitMsg(it.value, a.name, a.typ));
        }
      }
      LemmaAppendAssoc(m0, m1[|m0|..], InitMsgs(c.g, c.self, a.name, a.typ, it));
    }

    /** `visit(Method)`: the symbol's class is looked up for the method of that name,
        which becomes the current scope. */
    method VisitMethod(f: Feature) returns (t: Option<Name>)
      requires f.Method? && !aborted && table.Valid() && table.FlagOk()
      modifies this`currentScope, this`aborted, table`messages, table`semanticErrors, table`types, table`scopes
      ensures table.FlagOk()
      ensures f.uid !in table.methodSymbols ==> (t.None? && !aborted && currentScope == old(currentScope)
        && table.messages == old(table.messages) && table.types == old(table.types))
      ensures f.uid in table.methodSymbols && old(MethodOf(f)).None? ==>
        (t.None? && aborted && table.types == old(table.types) && currentScope == old(currentScope)
         && table.messages == old(table.messages)
              + if f.returnType in hier then [] else [UndefinedReturnMsg(table.methodSymbols[f.uid].parent.name, f.name, f.returnType)])
      ensures old(MethodOf(f)).Some? ==>
        var m := old(MethodOf(f)).value;
        var o := MethodOutcome(hier, table.idSymbols, old(Visible(InMethod(m))), old(table.types), old(table.scopes), f, m,
                               old(table.MethodLayouts()), old(table.LayoutOf(m)));
        (t == o.t && table.messages == old(table.messages) + o.msgs && table.types == o.st && aborted == o.crashed
         && currentScope == if o.t.Some? then InClass(m.parent) else InMethod(m))
    {
      if f.uid !in table.methodSymbols {
        return None;
      }
      var owner := table.methodSymbols[f.uid].parent;
      var found := owner.LookupMethod(f.name);
      if found.None? {
        // The source goes on with no current scope; the model stops here.
        if Find(hier, Some(f.returnType)).None? {
          table.Error(UndefinedReturnMsg(owner.name, f.name, f.returnType));
        }
        aborted := true;
        return None;
      }
      var m := found.value;
      ghost var vis, layouts, layout := Visible(InMethod(m)), table.MethodLayouts(), table.LayoutOf(m);
      ghost var st0, sc0 := table.types, table.scopes;
      t := VisitMethodIn(f, m, vis, layouts);
      assert table.messages == old(table.messages)
        + MethodOutcome(hier, table.idSymbols, vis, st0, sc0, f, m, layouts, layout).msgs;
    }

    /** The method a method definition's symbol names: the one its class holds under
        the definition's name. */
    ghost function MethodOf(f: Feature): (r: Option<MethodSymbol>)
      requires f.Method?
      reads table, if f.uid in table.methodSymbols then {table.methodSymbols[f.uid].parent} else {}
      ensures r.Some? ==> f.uid in table.methodSymbols && f.name in table.methodSymbols[f.uid].parent.methods
    {
      if f.uid in table.methodSymbols then table.methodSymbols[f.uid].parent.LookupMethod(f.name) else None
    }

    /** `visit(Method)` once `m` is known: the return type, the formals, then the rest.
        `vis` is what the method's scope sees and `layouts` the method tables. */
    method VisitMethodIn(f: Feature, m: MethodSymbol, ghost vis: map<Name, Symbol>, ghost layouts: Layouts)
      returns (t: Option<Name>)
      requires f.Method? && !aborted && table.Valid() && table.FlagOk() && m in table.Methods
      requires vis == Visible(InMethod(m)) && layouts == table.MethodLayouts()
      modifies this`currentScope, this`aborted, table`messages, table`semanticErrors, table`types, table`scopes
      ensures table.FlagOk()
      ensures var o := MethodOutcome(hier, table.idSymbols, vis, old(table.types), old(table.scopes), f, m,
                                     layouts, old(table.LayoutOf(m)));
        (t == o.t && table.messages == old(table.messages) + o.msgs && table.types == o.st && aborted == o.crashed
         && currentScope == if o.t.Some? then InClass(m.parent) else InMethod(m))
    {
      var declared := Find(hier, Some(f.returnType));
      if declared.None? {
        // The source enters the method's scope before this check.
        currentScope := InMethod(m);
        table.Error(UndefinedReturnMsg(m.parent.name, f.name, f.returnType));
        return None;
      }
      t := MethodSteps(f, m, vis, layouts, table.LayoutOf(m));
    }

    /** A method whose return type is defined: its formals, then the override check
        and its body. */
    method MethodSteps(f: Feature, m: MethodSymbol, ghost vis: map<Name, Symbol>, ghost layouts: Layouts,
                       ghost layout: MethodLayout)
      returns (t: Option<Name>)
      requires f.Method? && !aborted && table.Valid() && table.FlagOk() && m in table.Methods
      requires vis == Visible(InMethod(m)) && layouts == table.MethodLayouts() && layout == table.LayoutOf(m)
      modifies this`currentScope, this`aborted, table`messages, table`semanticErrors, table`types, table`scopes
      ensures table.FlagOk()
      ensures var o := FeatureTyping.MethodSteps(hier, table.idSymbols, vis, old(table.types), old(table.scopes), f, m,
                                                 layouts, layout);
        (t == o.t && table.messages == old(table.messages) + o.msgs && table.types == o.st && aborted == o.crashed
         && currentScope == if o.t.Some? then InClass(m.parent) else InMethod(m))
    {
      ghost var m0, stA, scA, ids := table.messages, table.types, table.scopes, table.idSymbols;
      ghost var o := FeatureTyping.MethodSteps(hier, ids, vis, stA, scA, f, m, layouts, layout);
      ghost var rf := FormalsOutcome(hier, stA, f.formals, ids, scA);
      var sigs, current := VisitMethodFormals(f, m, vis, layouts, layout, ids, stA, scA);
      if aborted {
        assert o == rf;
        return None;
      }
      // `checkMethodOverride`.
      var v := CheckMethodOverride(hier, sigs, m.parent.name, m.parent.name, f.name, current, FormalNames(f.formals));
      ghost var c := Ctx(hier, vis, Some(m.parent.name), ids);
      ghost var rt := MethodTail(c, rf.st, f, v);
      assert o == Outcome(rt.t, rf.msgs + rt.msgs, rt.st, rt.crashed);
      t := MethodRest(f, m, v, c, rf.st);
      LemmaAppendAssoc(m0, rf.msgs, rt.msgs);
    }

    /** The formals of method `m`, then the method tables and the method's signature as
        the formals' new types make them.  The formals write only identifier symbols, so
        what the method's scope sees stays as it was. */
    method VisitMethodFormals(f: Feature, m: MethodSymbol, ghost vis: map<Name, Symbol>, ghost layouts: Layouts,
                              ghost layout: MethodLayout, ghost ids: map<Uid, IdSymbol>, ghost st: Store, ghost sc: ScopeStore)
      returns (sigs: MethodTables, current: MethodSig)
      requires f.Method? && !aborted && table.Valid() && table.FlagOk() && m in table.Methods
      requires vis == Visible(InMethod(m)) && layouts == table.MethodLayouts() && layout == table.LayoutOf(m)
      requires ids == table.idSymbols && st == table.types && sc == table.scopes
      modifies this`currentScope, this`aborted, table`messages, table`semanticErrors, table`types, table`scopes
      ensures currentScope == InMethod(m)
      ensures table.FlagOk()
      ensures Visible(InMethod(m)) == vis && table.idSymbols == ids
      ensures var o := FormalsOutcome(hier, st, f.formals, ids, sc);
        table.messages == old(table.messages) + o.msgs && table.types == o.st && aborted == o.crashed
        && sigs == SigsFrom(layouts, o.st) && current == SigFrom(layout, o.st)
    {
      ghost var t0 := table.types;
      ghost var s0 := table.scopes;
      currentScope := InMethod(m);
      assert table.types == t0 && table.scopes == s0;  // the state the formals start from
      VisitFormals(f.formals);
      table.LemmaLayoutsKept();
      LemmaVisibleKept(InMethod(m));
      table.LemmaSigsFromLayouts();
      table.LemmaSigOfLayout(m);
      sigs := table.Sigs();
      current := table.SigOf(m);
    }

    /** The rest of `visit(Method)` after the formals, in the method's scope: the
        override check's verdict `v` is reported, or the body follows. */
    method MethodRest(f: Feature, m: MethodSymbol, v: Verdict, ghost c: Ctx, ghost st: Store)
      returns (t: Option<Name>)
      requires f.Method? && !aborted && table.FlagOk()
      requires currentScope == InMethod(m) && c == Ctx(hier, Visible(InMethod(m)), Some(m.parent.name), table.idSymbols)
      requires st == table.types
      modifies this`currentScope, this`aborted, table`messages, table`semanticErrors, table`types, table`scopes
      ensures table.FlagOk()
      ensures var o := MethodTail(c, st, f, v);
        (t == o.t && table.messages == old(table.messages) + o.msgs && table.types == o.st && aborted == o.crashed
         && currentScope == if o.t.Some? then InClass(m.parent) else InMethod(m))
    {
      if !v.ok {
        table.Report(v.msgs);
        return None;
      }
      t := MethodBody(f, m, c);
    }

    /** The body of method `m`, then its type against the declared return type; on
        success the class becomes the current scope again. */
    method MethodBody(f: Feature, m: MethodSymbol, ghost c: Ctx) returns (t: Option<Name>)
      requires f.Method? && !aborted && table.FlagOk()
      requires currentScope == InMethod(m) && c == Ctx(hier, Visible(InMethod(m)), Some(m.parent.name), table.idSymbols)
      modifies this`currentScope, this`aborted, table`messages, table`semanticErrors, table`types, table`scopes
      ensures table.FlagOk()
      ensures var o := BodyOutcome(c, old(table.types), f);
        (t == o.t && table.messages == old(table.messages) + o.msgs && table.types == o.st && aborted == o.crashed
         && currentScope == if o.t.Some? then InClass(m.parent) else InMethod(m))
    {
      ghost var m0 := table.messages;
      var bt := VisitExpr(f.body, c);
      if bt.None? {
        return None;
      }
      ghost var m1 := table.messages;
      t := CheckReturn(f, m, bt.value);
      LemmaAppendAssoc(m0, m1[|m0|..], table.messages[|m1|..]);
    }

    /** `isCompatibleReturnType` on the body's type `bt`; on success the class becomes
        the current scope again. */
    method CheckReturn(f: Feature, m: MethodSymbol, bt: Name) returns (t: Option<Name>)
      requires f.Method? && !aborted && table.FlagOk()
      modifies this`currentScope, this`aborted, table`messages, table`semanticErrors
      ensures table.FlagOk()
      ensures var o := ReturnCheck(hier, f, Some(m.parent.name), bt, map[]);
        (t == o.t && table.messages == old(table.messages) + o.msgs && aborted == o.crashed
         && currentScope == if o.t.Some? then InClass(m.parent) else old(currentScope))
    {
      var j := GetCommonParent(hier, Some(f.returnType), Some(bt), Some(InClass(m.parent)));
      if j.None? {
        aborted := true;
        return None;
      }
      var w := IsCompatibleReturnType(hier, f.returnType, bt, Some(m.parent.name), f.name);
      table.Report(w.msgs);
      if !w.ok {
        return None;
      }
      currentScope := InClass(m.parent);
      t := Some(bt);
    }

    // ----- classes and the program -----

    /** `f.accept(this)` on a feature, in whatever scope the previous feature left. */
    method VisitFeature(f: Feature)
      requires !aborted && table.Valid() && table.FlagOk() && ChainOk(currentScope)
      modifies this`currentScope, this`aborted, table`messages, table`semanticErrors, table`types, table`scopes
      ensures table.FlagOk() && ChainOk(currentScope)
      ensures old(table.messages) <= table.messages
      ensures f.Attr? ==>
        var x := Attached(table.idSymbols, f.uid);
        var xs := ScopeOf(old(table.scopes), x);
        var o := AttrOutcome(old(Here()), old(currentScope), old(table.types), f, x, xs, old(OwnerParent(xs)));
        table.messages == old(table.messages) + o.msgs && table.types == o.st && aborted == o.crashed
        && currentScope == old(currentScope)
      ensures f.Method? && f.uid !in table.methodSymbols ==> (!aborted && currentScope == old(currentScope)
        && table.messages == old(table.messages) && table.types == old(table.types))
      ensures f.Method? && f.uid in table.methodSymbols && old(MethodOf(f)).None? ==>
        (aborted && table.types == old(table.types) && currentScope == old(currentScope)
         && table.messages == old(table.messages)
              + if f.returnType in hier then [] else [UndefinedReturnMsg(table.methodSymbols[f.uid].parent.name, f.name, f.returnType)])
      ensures f.Method? && old(MethodOf(f)).Some? ==>
        var m := old(MethodOf(f)).value;
        var o := MethodOutcome(hier, table.idSymbols, old(Visible(InMethod(m))), old(table.types), old(table.scopes), f, m,
                               old(table.MethodLayouts()), old(table.LayoutOf(m)));
        (table.messages == old(table.messages) + o.msgs && table.types == o.st && aborted == o.crashed
         && currentScope == if o.t.Some? then InClass(m.parent) else InMethod(m))
    {
      if f.Attr? {
        var _ := VisitAttr(f, Here());
      } else {
        var _ := VisitMethod(f);
      }
    }

    /** The loop of `visit(Class)` over its features; a feature that throws ends it. */
    method VisitFeatures(fs: seq<Feature>)
      requires !aborted && table.Valid() && table.FlagOk() && ChainOk(currentScope)
      modifies this`currentScope, this`aborted, table`messages, table`semanticErrors, table`types, table`scopes
      ensures table.FlagOk() && ChainOk(currentScope)
      ensures old(table.messages) <= table.messages
    {
      var i := 0;
      while i < |fs| && !aborted
        invariant i <= |fs| && table.FlagOk() && ChainOk(currentScope)
        invariant old(table.messages) <= table.messages
      {
        VisitFeature(fs[i]);
        i := i + 1;
      }
    }

    /** The checks `visit(Class)` makes before its features: the parent's
        inheritability, the cycle check and the parent's definition, each skipping the
        class, and its registration under its name. */
    method CheckClassHeader(cl: Class) returns (visit: bool)
      requires table.FlagOk()
      modifies table`messages, table`semanticErrors
      ensures table.FlagOk()
      ensures table.messages == old(table.messages) + ClassGate(hier, cl).msgs
      ensures visit == ClassGate(hier, cl).visit
    {
      if cl.inherit.Some? {
        var p := cl.inherit.value;
        if p in NonInheritable {
          return false;
        }
        var v := CheckInheritanceCycle(hier, cl.name, p);
        if !v.ok {
          table.Report(v.msgs);
          return false;
        }
        var w := IsParentClassDefined(hier, cl.name, p);
        if !w.ok {
          table.Report(w.msgs);
          return false;
        }
      }
      return cl.name in hier;
    }

    /** `visit(Class)`: the class is skipped as `ClassGate` says, with its diagnostic;
        otherwise its features are visited in the class's scope, which is left again
        unless a feature throws. */
    method VisitClass(cl: Class)
      requires !aborted && table.Valid() && table.FlagOk() && ChainOk(currentScope) && hier == table.Hier()
      modifies this`currentScope, this`aborted, table`messages, table`semanticErrors, table`types, table`scopes
      ensures table.FlagOk() && ChainOk(currentScope)
      ensures old(table.messages) + ClassGate(hier, cl).msgs <= table.messages
      ensures !ClassGate(hier, cl).visit ==>
        table.messages == old(table.messages) + ClassGate(hier, cl).msgs && table.types == old(table.types) && !aborted
      ensures !aborted ==> currentScope == old(currentScope)
    {
      var visit := CheckClassHeader(cl);
      if !visit {
        return;
      }
      var k := table.globals.symbols[cl.name].cls;
      var saved := currentScope;
      currentScope := InClass(k);
      VisitFeatures(cl.features);
      if !aborted {
        currentScope := saved;
      }
    }

    /** `visit(Program)`: the classes in order; a class whose visit throws ends it. */
    method VisitProgram(p: Program)
      requires !aborted && table.Valid() && table.FlagOk() && ChainOk(currentScope) && hier == table.Hier()
      modifies this`currentScope, this`aborted, table`messages, table`semanticErrors, table`types, table`scopes
      ensures table.FlagOk() && old(table.messages) <= table.messages
      ensures !aborted ==> currentScope == old(currentScope)
    {
      var i := 0;
      while i < |p.classes| && !aborted
        invariant i <= |p.classes| && table.FlagOk() && ChainOk(currentScope)
        invariant old(table.messages) <= table.messages
        invariant !aborted ==> currentScope == old(currentScope)
      {
        VisitClass(p.classes[i]);
        i := i + 1;
      }
    }
  }
}
