/** The definition pass (`DefinitionPassVisitor`): registers every class in the global
    scope, fills each class's attribute and method tables and each method's table of
    formals, attaches symbols to the identifiers it declares, and reports the errors
    that can be seen without types.

    The functions at the top of the module state, as functions of the syntax tree, what
    the pass reports and what it attaches; the visit methods are proved against them. */
module DefinitionPasses {
  import opened Base
  import opened Structures
  import opened Ast
  import opened SymbolTables
  import opened RulesChecker

  const LetSelfMsg: string := "Let variable has illegal name self"
  const CaseSelfMsg: string := "Case variable has illegal name self"

  // ----- expressions: only `let` and `case` are entered -----

  /** The errors the pass reports inside an expression, in visiting order.  Of all
      expressions only `let` and `case` are entered, and only a local or branch of
      those named self is an error. */
  function ExprDefMsgs(e: Expr): seq<string>
    decreases e, 1
  {
    match e
    case Let(locals, body) => LocalsDefMsgs(locals) + ExprDefMsgs(body)
    case Case(scrutinee, branches) => ExprDefMsgs(scrutinee) + BranchesDefMsgs(branches)
    case _ => []
  }

  function InitDefMsgs(init: Option<Expr>): seq<string>
    decreases init, 0
  {
    if init.None? then [] else ExprDefMsgs(init.value)
  }

  /** A local named self is reported and its initializer is not visited. */
  function LocalDefMsgs(l: Local): seq<string>
    decreases l, 1
  {
    if l.name == "self" then [LetSelfMsg] else InitDefMsgs(l.init)
  }

  function LocalsDefMsgs(ls: seq<Local>): seq<string>
    decreases ls, 0
  {
    if ls == [] then [] else LocalsDefMsgs(ls[..|ls| - 1]) + LocalDefMsgs(ls[|ls| - 1])
  }

  /** A branch named self is reported and its body is not visited. */
  function BranchDefMsgs(b: CaseBranch): seq<string>
    decreases b, 1
  {
    if b.name == "self" then [CaseSelfMsg] else ExprDefMsgs(b.body)
  }

  function BranchesDefMsgs(bs: seq<CaseBranch>): seq<string>
    decreases bs, 0
  {
    if bs == [] then [] else BranchesDefMsgs(bs[..|bs| - 1]) + BranchDefMsgs(bs[|bs| - 1])
  }

  /** The let locals the pass attaches a symbol to, by uid, with their names; a later
      attachment to the same uid replaces an earlier one. */
  function ExprLocalIds(e: Expr): map<Uid, Name>
    decreases e, 1
  {
    match e
    case Let(locals, body) => LocalsIds(locals) + ExprLocalIds(body)
    case Case(scrutinee, branches) => ExprLocalIds(scrutinee) + BranchesIds(branches)
    case _ => map[]
  }

  function InitIds(init: Option<Expr>): map<Uid, Name>
    decreases init, 0
  {
    if init.None? then map[] else ExprLocalIds(init.value)
  }

  /** A local gets its symbol before its initializer is visited. */
  function LocalIds(l: Local): map<Uid, Name>
    decreases l, 1
  {
    if l.name == "self" then map[] else map[l.uid := l.name] + InitIds(l.init)
  }

  function LocalsIds(ls: seq<Local>): map<Uid, Name>
    decreases ls, 0
  {
    if ls == [] then map[] else LocalsIds(ls[..|ls| - 1]) + LocalIds(ls[|ls| - 1])
  }

  /** A case variable gets no symbol attached. */
  function BranchIds(b: CaseBranch): map<Uid, Name>
    decreases b, 1
  {
    if b.name == "self" then map[] else ExprLocalIds(b.body)
  }

  function BranchesIds(bs: seq<CaseBranch>): map<Uid, Name>
    decreases bs, 0
  {
    if bs == [] then map[] else BranchesIds(bs[..|bs| - 1]) + BranchIds(bs[|bs| - 1])
  }

  // ----- formals -----

  /** `checkFormalDefinition` on `f` in a method whose table holds the formals `declared`. */
  function FormalVerdict(methodName: Name, className: Name, declared: seq<Name>, f: Formal): Verdict {
    CheckFormalDefinition(methodName, className, (set n | n in declared), f.name, f.typ)
  }

  /** The formals `checkFormalDefinition` accepts, by name, in declaration order. */
  function AcceptedFormals(methodName: Name, className: Name, fs: seq<Formal>): seq<Name>
  {
    if fs == [] then []
    else
      var acc := AcceptedFormals(methodName, className, fs[..|fs| - 1]);
      if FormalVerdict(methodName, className, acc, fs[|fs| - 1]).ok then acc + [fs[|fs| - 1].name] else acc
  }

  function FormalsDefMsgs(methodName: Name, className: Name, fs: seq<Formal>): seq<string>
  {
    if fs == [] then []
    else
      var acc := AcceptedFormals(methodName, className, fs[..|fs| - 1]);
      FormalsDefMsgs(methodName, className, fs[..|fs| - 1]) + FormalVerdict(methodName, className, acc, fs[|fs| - 1]).msgs
  }

  function FormalIds(methodName: Name, className: Name, fs: seq<Formal>): map<Uid, Name>
  {
    if fs == [] then map[]
    else
      var acc := AcceptedFormals(methodName, className, fs[..|fs| - 1]);
      var f := fs[|fs| - 1];
      FormalIds(methodName, className, fs[..|fs| - 1]) + if FormalVerdict(methodName, className, acc, f).ok then map[f.uid := f.name] else map[]
  }

  /** Visiting one more formal. */
  lemma LemmaFormalsSnoc(methodName: Name, className: Name, fs: seq<Formal>, i: nat)
    requires i < |fs|
    ensures var acc := AcceptedFormals(methodName, className, fs[..i]);
      var v := FormalVerdict(methodName, className, acc, fs[i]);
      && AcceptedFormals(methodName, className, fs[..i + 1]) == (if v.ok then acc + [fs[i].name] else acc)
      && FormalsDefMsgs(methodName, className, fs[..i + 1]) == FormalsDefMsgs(methodName, className, fs[..i]) + v.msgs
      && FormalIds(methodName, className, fs[..i + 1])
         == FormalIds(methodName, className, fs[..i]) + if v.ok then map[fs[i].uid := fs[i].name] else map[]
  {
    assert fs[..i + 1][..i] == fs[..i];
  }

  // ----- features -----

  /** The attribute names a class ends up with: every one but self (a repeated name is
      refused, but the name is already there). */
  function AttrNames(fs: seq<Feature>): set<Name> {
    set i | 0 <= i < |fs| && fs[i].Attr? && fs[i].name != "self" :: fs[i].name
  }

  /** The method names a class ends up with. */
  function MethodNames(fs: seq<Feature>): set<Name> {
    set i | 0 <= i < |fs| && fs[i].Method? :: fs[i].name
  }

  function AttrSelfMsg(className: Name): string {
    "Class " + className + " has attribute with illegal name self"
  }

  function AttrRedefinedMsg(className: Name, attr: Name): string {
    "Class " + className + " redefines attribute " + attr
  }

  /** An attribute is refused if named self or already present. */
  predicate AttrAccepted(attrs: set<Name>, f: Feature)
    requires f.Attr?
  {
    f.name != "self" && f.name !in attrs
  }

  /** What visiting one feature reports, given the attribute and method names the class
      already has. */
  function FeatureDefMsgs(className: Name, attrs: set<Name>, meths: set<Name>, f: Feature): seq<string> {
    match f
    case Attr(_, name, _, init) =>
      if name == "self" then [AttrSelfMsg(className)]
      else if name in attrs then [AttrRedefinedMsg(className, name)]
      else InitDefMsgs(init)
    case Method(_, name, formals, _, body) =>
      var v := CheckMethodDefinition(className, meths, name);
      if !v.ok then v.msgs else FormalsDefMsgs(name, className, formals) + ExprDefMsgs(body)
  }

  /** What visiting one feature attaches. */
  function FeatureIds(className: Name, attrs: set<Name>, meths: set<Name>, f: Feature): map<Uid, Name> {
    match f
    case Attr(uid, name, _, init) =>
      if AttrAccepted(attrs, f) then map[uid := name] + InitIds(init) else map[]
    case Method(_, name, formals, _, body) =>
      if name in meths then map[] else FormalIds(name, className, formals) + ExprLocalIds(body)
  }

  function FeaturesDefMsgs(className: Name, fs: seq<Feature>): seq<string> {
    if fs == [] then []
    else
      var pre := fs[..|fs| - 1];
      FeaturesDefMsgs(className, pre) + FeatureDefMsgs(className, AttrNames(pre), MethodNames(pre), fs[|fs| - 1])
  }

  function FeaturesIds(className: Name, fs: seq<Feature>): map<Uid, Name> {
    if fs == [] then map[]
    else
      var pre := fs[..|fs| - 1];
      FeaturesIds(className, pre) + FeatureIds(className, AttrNames(pre), MethodNames(pre), fs[|fs| - 1])
  }

  /** A method as the definition pass leaves it: its return type and the names its
      table of formals gets, in order. */
  datatype MethodShape = MethodShape(returnType: Name, formals: seq<Name>)

  /** For each method a class keeps (the first of each name), its shape. */
  function KeptMethods(className: Name, fs: seq<Feature>): map<Name, MethodShape> {
    if fs == [] then map[]
    else
      var pre := fs[..|fs| - 1];
      var f := fs[|fs| - 1];
      var k := KeptMethods(className, pre);
      if f.Method? && f.name !in MethodNames(pre)
      then k[f.name := MethodShape(f.returnType, AcceptedFormals(f.name, className, f.formals))]
      else k
  }

  /** The step equations of the feature-list functions. */
  lemma LemmaFeaturesSnoc(className: Name, fs: seq<Feature>, i: nat)
    requires i < |fs|
    ensures FeaturesDefMsgs(className, fs[..i + 1])
      == FeaturesDefMsgs(className, fs[..i]) + FeatureDefMsgs(className, AttrNames(fs[..i]), MethodNames(fs[..i]), fs[i])
    ensures FeaturesIds(className, fs[..i + 1])
      == FeaturesIds(className, fs[..i]) + FeatureIds(className, AttrNames(fs[..i]), MethodNames(fs[..i]), fs[i])
    ensures fs[i].Attr? ==> KeptMethods(className, fs[..i + 1]) == KeptMethods(className, fs[..i])
    ensures fs[i].Method? ==>
      KeptMethods(className, fs[..i + 1])
        == if fs[i].name !in MethodNames(fs[..i])
           then KeptMethods(className, fs[..i])[fs[i].name := MethodShape(fs[i].returnType, AcceptedFormals(fs[i].name, className, fs[i].formals))]
           else KeptMethods(className, fs[..i])
  {
    assert fs[..i + 1][..i] == fs[..i];
  }

  /** The methods a class keeps are exactly the method names its features declare. */
  lemma {:induction false} LemmaKeptKeys(className: Name, fs: seq<Feature>)
    ensures KeptMethods(className, fs).Keys == MethodNames(fs)
    decreases |fs|
  {
    if fs != [] {
      var i := |fs| - 1;
      LemmaKeptKeys(className, fs[..i]);
      LemmaNamesSnoc(fs, i);
      LemmaFeaturesSnoc(className, fs, i);
      assert fs[..i + 1] == fs;
    }
  }

  // ----- classes -----

  /** The parent a registered class records: the declared one, or Object. */
  function ParentOf(cls: Class): Name {
    if cls.inherit.Some? then cls.inherit.value else "Object"
  }

  /** What visiting a class reports, given the classes already registered: the name
      check, then (for an accepted class) the parent check and the features. */
  function ClassDefMsgs(known: set<Name>, cls: Class): seq<string> {
    var v := CheckClassName(known, cls.name);
    if !v.ok then v.msgs
    else
      var parentMsgs := if cls.inherit.Some? then CheckParentName(cls.name, cls.inherit.value).msgs else [];
      parentMsgs + FeaturesDefMsgs(cls.name, cls.features)
  }

  function ClassIds(known: set<Name>, cls: Class): map<Uid, Name> {
    if CheckClassName(known, cls.name).ok then FeaturesIds(cls.name, cls.features) else map[]
  }

  /** The classes registered after visiting `cs`. */
  function Known(known: set<Name>, cs: seq<Class>): set<Name> {
    if cs == [] then known
    else
      var k := Known(known, cs[..|cs| - 1]);
      var cls := cs[|cs| - 1];
      if CheckClassName(k, cls.name).ok then k + {cls.name} else k
  }

  function ProgramDefMsgs(known: set<Name>, cs: seq<Class>): seq<string> {
    if cs == [] then []
    else
      var pre := cs[..|cs| - 1];
      ProgramDefMsgs(known, pre) + ClassDefMsgs(Known(known, pre), cs[|cs| - 1])
  }

  function ProgramIds(known: set<Name>, cs: seq<Class>): map<Uid, Name> {
    if cs == [] then map[]
    else
      var pre := cs[..|cs| - 1];
      ProgramIds(known, pre) + ClassIds(Known(known, pre), cs[|cs| - 1])
  }

  /** The declaration registered under each name the classes `cs` add: the first one
      of that name that passes the name check. */
  function Registered(known: set<Name>, cs: seq<Class>): map<Name, Class> {
    if cs == [] then map[]
    else
      var pre := cs[..|cs| - 1];
      var cls := cs[|cs| - 1];
      var r := Registered(known, pre);
      if CheckClassName(Known(known, pre), cls.name).ok then r[cls.name := cls] else r
  }

  /** The names the classes add are exactly those registered, none of them known
      before. */
  lemma {:induction false} LemmaRegisteredKnown(known: set<Name>, cs: seq<Class>)
    ensures Known(known, cs) == known + Registered(known, cs).Keys
    ensures forall n :: n in Registered(known, cs) ==> n !in known && Registered(known, cs)[n].name == n
  {
    if cs != [] {
      LemmaRegisteredKnown(known, cs[..|cs| - 1]);
    }
  }

  /** The step equations of the class-list functions. */
  lemma LemmaProgramSnoc(known: set<Name>, cs: seq<Class>, i: nat)
    requires i < |cs|
    ensures Known(known, cs[..i + 1])
      == if CheckClassName(Known(known, cs[..i]), cs[i].name).ok then Known(known, cs[..i]) + {cs[i].name} else Known(known, cs[..i])
    ensures Registered(known, cs[..i + 1])
      == if CheckClassName(Known(known, cs[..i]), cs[i].name).ok then Registered(known, cs[..i])[cs[i].name := cs[i]] else Registered(known, cs[..i])
    ensures ProgramDefMsgs(known, cs[..i + 1]) == ProgramDefMsgs(known, cs[..i]) + ClassDefMsgs(Known(known, cs[..i]), cs[i])
    ensures ProgramIds(known, cs[..i + 1]) == ProgramIds(known, cs[..i]) + ClassIds(Known(known, cs[..i]), cs[i])
  {
    assert cs[..i + 1][..i] == cs[..i];
  }

  /** `after` is `before` with a new identifier symbol attached under every uid of
      `names`, carrying that name; none of them is a symbol of `known`. */
  ghost predicate Attached(before: map<Uid, IdSymbol>, after: map<Uid, IdSymbol>, names: map<Uid, Name>, known: set<IdSymbol>) {
    && after.Keys == before.Keys + names.Keys
    && (forall u :: u in before && u !in names ==> after[u] == before[u])
    && (forall u :: u in names ==> after[u].name == names[u] && after[u] !in known)
  }

  /** Appending a feature adds its name, if any, to the names a class ends up with. */
  lemma LemmaNamesSnoc(fs: seq<Feature>, i: nat)
    requires i < |fs|
    ensures fs[i].Attr? ==>
      && AttrNames(fs[..i + 1]) == AttrNames(fs[..i]) + (if fs[i].name != "self" then {fs[i].name} else {})
      && MethodNames(fs[..i + 1]) == MethodNames(fs[..i])
    ensures fs[i].Method? ==>
      && AttrNames(fs[..i + 1]) == AttrNames(fs[..i])
      && MethodNames(fs[..i + 1]) == MethodNames(fs[..i]) + {fs[i].name}
  {
    var a, b := fs[..i + 1], fs[..i];
    assert forall j :: 0 <= j < i ==> a[j] == b[j];
    assert a[i] == fs[i];
  }

  lemma LemmaAttachedNone(m: map<Uid, IdSymbol>, known: set<IdSymbol>)
    ensures Attached(m, m, map[], known)
  {
  }

  /** Attaching one symbol that is not in `known`. */
  lemma LemmaAttachedOne(before: map<Uid, IdSymbol>, u: Uid, sym: IdSymbol, known: set<IdSymbol>)
    requires sym !in known
    ensures Attached(before, before[u := sym], map[u := sym.name], known)
  {
  }

  lemma LemmaAttachedCompose(a: map<Uid, IdSymbol>, b: map<Uid, IdSymbol>, c: map<Uid, IdSymbol>,
                             n1: map<Uid, Name>, n2: map<Uid, Name>, k1: set<IdSymbol>, k2: set<IdSymbol>)
    requires Attached(a, b, n1, k1) && Attached(b, c, n2, k2) && k1 <= k2
    ensures Attached(a, c, n1 + n2, k1)
  {
  }

  /** Every symbol in `e` is filed under its own name. */
  predicate NamedEntries(e: map<Name, IdSymbol>) {
    forall n :: n in e ==> e[n].name == n
  }

  lemma LemmaNamedUpdate(e: map<Name, IdSymbol>, n: Name, sym: IdSymbol)
    requires NamedEntries(e) && sym.name == n
    ensures NamedEntries(e[n := sym])
  {
  }

  /** Every formal in the table of `m` is a symbol of its own name. */
  ghost predicate NamedFormals(m: MethodSymbol)
    reads m
  {
    NamedEntries(m.parameters.entries)
  }

  /** The method symbol `visit(Method)` leaves for the declaration `f` in class `c`. */
  ghost predicate MethodBuilt(m: MethodSymbol, c: ClassSymbol, f: Feature)
    requires f.Method?
    reads m
  {
    && m.name == f.name && m.parent == c && m.returnType == f.returnType
    && m.parameters.keys == AcceptedFormals(f.name, c.name, f.formals)
    && NamedFormals(m)
  }

  /** The shape of every method class `c` holds. */
  ghost function ShapesOf(c: ClassSymbol): (r: map<Name, MethodShape>)
    reads c`methods, c.methods.Values
    ensures r.Keys == c.methods.Keys
  {
    map n | n in c.methods :: MethodShape(c.methods[n].returnType, c.methods[n].parameters.keys)
  }

  /** A step that leaves a class's method table and its methods alone keeps its shapes. */
  twostate lemma LemmaShapesKept(c: ClassSymbol)
    requires c.methods == old(c.methods) && unchanged(c.methods.Values)
    ensures ShapesOf(c) == old(ShapesOf(c))
  {
  }

  /** A step that adds one method and leaves the others alone adds its shape. */
  twostate lemma LemmaShapesAdded(c: ClassSymbol, new n: Name)
    requires n !in old(c.methods) && n in c.methods && c.methods == old(c.methods)[n := c.methods[n]]
    requires unchanged(old(c.methods.Values))
    ensures ShapesOf(c) == old(ShapesOf(c))[n := MethodShape(c.methods[n].returnType, c.methods[n].parameters.keys)]
  {
  }

  /** The class symbol `visit(Class)` leaves for the declaration `cls`. */
  ghost predicate ClassBuilt(c: ClassSymbol, cls: Class)
    reads c, c.methods.Values
  {
    && c.name == cls.name && c.parentName == Some(ParentOf(cls))
    && c.attributes.Keys == AttrNames(cls.features) && c.methods.Keys == MethodNames(cls.features)
    && ShapesOf(c) == KeptMethods(cls.name, cls.features)
  }

  /** A step that touches none of the class and method symbols of a valid table keeps
      what every class registered under the names of `reg` was built from. */
  twostate lemma LemmaAllBuiltKept(t: SymbolTable, new reg: map<Name, Class>)
    requires old(t.Valid())
    requires forall n :: n in reg ==> n in old(t.globals.symbols) && old(ClassBuilt(t.globals.symbols[n].cls, reg[n]))
    requires unchanged(old(t.Classes)) && unchanged(old(t.Methods))
    ensures forall n :: n in reg ==> ClassBuilt(old(t.globals.symbols[n].cls), reg[n])
  {
  }

  /** A step that touches none of the class and method symbols of a valid table and
      keeps the scopes of its identifier symbols keeps every class registered under
      the names of `reg` scoped. */
  twostate lemma LemmaAllScopedKept(t: SymbolTable, new reg: map<Name, Class>)
    requires old(t.Valid())
    requires forall n :: n in reg ==> n in old(t.globals.symbols) && old(t.ClassScoped(t.globals.symbols[n].cls))
    requires unchanged(old(t.Classes)) && unchanged(old(t.Methods))
    requires ScopesKept(old(t.scopes), t.scopes, old(t.Ids))
    ensures forall n :: n in reg ==> t.ClassScoped(old(t.globals.symbols[n].cls))
  {
    forall n | n in reg ensures t.ClassScoped(old(t.globals.symbols[n].cls)) {
      var c := old(t.globals.symbols[n].cls);
      forall k | k in c.methods ensures t.FormalsScoped(c.methods[k]) {
        assert old(t.FormalsScoped(c.methods[k]));
      }
    }
  }

  /** The visitor.  `currentScope` starts as the global scope and is restored by every
      visit that changes it. */
  class DefinitionPass {
    const table: SymbolTable
    var currentScope: Scope

    constructor (table: SymbolTable)
      ensures this.table == table && currentScope == Default(table.globals)
    {
      this.table := table;
      currentScope := Default(table.globals);
    }

    /** `visit` on an expression: only `let` and `case` do anything. */
    method VisitExpr(e: Expr)
      requires table.AttachmentsOk() && table.FlagOk() && ChainOk(currentScope)
      modifies this`currentScope, table`messages, table`semanticErrors, table`idSymbols, table`Ids, table`scopes
      ensures table.AttachmentsOk() && table.FlagOk() && currentScope == old(currentScope)
      ensures table.messages == old(table.messages) + ExprDefMsgs(e)
      ensures old(table.Ids) <= table.Ids
      ensures ScopesKept(old(table.scopes), table.scopes, old(table.Ids))
      ensures Attached(old(table.idSymbols), table.idSymbols, ExprLocalIds(e), old(table.Ids))
      decreases e, 2
    {
      match e
      case Let(_, _) =>
        VisitLet(e);
      case Case(_, _) =>
        VisitCase(e);
      case _ =>
        LemmaAttachedNone(table.idSymbols, table.Ids);
    }

    /** `visit(Let)`: a chain of fresh scopes, one per local, each inside the previous
        one; the body is visited in the innermost. */
    method VisitLet(e: Expr)
      requires e.Let?
      requires table.AttachmentsOk() && table.FlagOk() && ChainOk(currentScope)
      modifies this`currentScope, table`messages, table`semanticErrors, table`idSymbols, table`Ids, table`scopes
      ensures table.AttachmentsOk() && table.FlagOk() && currentScope == old(currentScope)
      ensures table.messages == old(table.messages) + ExprDefMsgs(e)
      ensures old(table.Ids) <= table.Ids
      ensures ScopesKept(old(table.scopes), table.scopes, old(table.Ids))
      ensures Attached(old(table.idSymbols), table.idSymbols, ExprLocalIds(e), old(table.Ids))
      decreases e, 1
    {
      var saved := currentScope;
      var s := new DefaultScope(Some(currentScope));
      s := VisitLocals(e.locals, s);
      currentScope := Default(s);
      ghost var midIds, midKnown := table.idSymbols, table.Ids;
      VisitExpr(e.body);
      LemmaAttachedCompose(old(table.idSymbols), midIds, table.idSymbols, LocalsIds(e.locals), ExprLocalIds(e.body),
        old(table.Ids), midKnown);
      LemmaAppendAssoc(old(table.messages), LocalsDefMsgs(e.locals), ExprDefMsgs(e.body));
      currentScope := saved;
    }

    /** The loop of `visit(Let)` over its locals, starting inside `outer`; returns the
        innermost scope. */
    method VisitLocals(ls: seq<Local>, outer: DefaultScope) returns (s: DefaultScope)
      requires table.AttachmentsOk() && table.FlagOk() && ChainOk(Default(outer))
      modifies this`currentScope, table`messages, table`semanticErrors, table`idSymbols, table`Ids, table`scopes
      ensures ChainOk(Default(s))
      ensures table.AttachmentsOk() && table.FlagOk()
      ensures table.messages == old(table.messages) + LocalsDefMsgs(ls)
      ensures old(table.Ids) <= table.Ids
      ensures ScopesKept(old(table.scopes), table.scopes, old(table.Ids))
      ensures Attached(old(table.idSymbols), table.idSymbols, LocalsIds(ls), old(table.Ids))
      decreases ls, 1
    {
      s := outer;
      LemmaAttachedNone(table.idSymbols, table.Ids);
      var i := 0;
      while i < |ls|
        invariant 0 <= i <= |ls|
        invariant ChainOk(Default(s))
        invariant table.AttachmentsOk() && table.FlagOk()
        invariant table.messages == old(table.messages) + LocalsDefMsgs(ls[..i])
        invariant old(table.Ids) <= table.Ids
        invariant ScopesKept(old(table.scopes), table.scopes, old(table.Ids))
        invariant Attached(old(table.idSymbols), table.idSymbols, LocalsIds(ls[..i]), old(table.Ids))
      {
        s := new DefaultScope(Some(Default(s)));
        currentScope := Default(s);
        ghost var midIds, midKnown := table.idSymbols, table.Ids;
        VisitLocal(ls[i]);
        LemmaAttachedCompose(old(table.idSymbols), midIds, table.idSymbols, LocalsIds(ls[..i]),
          LocalIds(ls[i]), old(table.Ids), midKnown);
        assert ls[..i + 1][..i] == ls[..i];
        LemmaAppendAssoc(old(table.messages), LocalsDefMsgs(ls[..i]), LocalDefMsgs(ls[i]));
        i := i + 1;
      }
      assert ls[..i] == ls;
    }

    /** `visit(Local)`, in the scope `visit(Let)` made for it. */
    method VisitLocal(l: Local)
      requires currentScope.Default? && currentScope.d != table.globals
      requires table.AttachmentsOk() && table.FlagOk() && ChainOk(currentScope)
      modifies this`currentScope, currentScope.d`symbols, table`messages, table`semanticErrors, table`idSymbols, table`Ids, table`scopes
      ensures table.AttachmentsOk() && table.FlagOk() && currentScope == old(currentScope)
      ensures table.messages == old(table.messages) + LocalDefMsgs(l)
      ensures currentScope.d.symbols.Keys == old(currentScope.d.symbols.Keys) + if l.name == "self" then {} else {l.name}
      ensures old(table.Ids) <= table.Ids
      ensures ScopesKept(old(table.scopes), table.scopes, old(table.Ids))
      ensures Attached(old(table.idSymbols), table.idSymbols, LocalIds(l), old(table.Ids))
      decreases l
    {
      if l.name == "self" {
        table.Error(LetSelfMsg);
        LemmaAttachedNone(table.idSymbols, table.Ids);
        return;
      }
      ghost var before, known := table.idSymbols, table.Ids;
      var sym := DeclareLocal(l);
      LemmaAttachedOne(before, l.uid, sym, known);
      if l.init.Some? {
        ghost var midIds, midKnown := table.idSymbols, table.Ids;
        VisitExpr(l.init.value);
        LemmaAttachedCompose(before, midIds, table.idSymbols, map[l.uid := l.name], ExprLocalIds(l.init.value),
          known, midKnown);
      }
    }

    /** The declaring half of `visit(Local)` for a name other than self: a fresh symbol
        in the current scope, attached to the identifier. */
    method DeclareLocal(l: Local) returns (sym: IdSymbol)
      requires currentScope.Default? && l.name != "self" && table.AttachmentsOk()
      modifies currentScope.d`symbols, table`idSymbols, table`Ids, table`scopes
      ensures table.AttachmentsOk() && fresh(sym) && sym.name == l.name
      ensures sym in table.scopes && table.scopes[sym] == Some(currentScope)
      ensures currentScope.d.symbols.Keys == old(currentScope.d.symbols.Keys) + {l.name}
      ensures table.idSymbols == old(table.idSymbols)[l.uid := sym] && table.Ids == old(table.Ids) + {sym}
      ensures ScopesKept(old(table.scopes), table.scopes, old(table.Ids))
    {
      sym := new IdSymbol(l.name);
      table.SetIdScope(sym, currentScope);
      var ok := currentScope.d.Add(IdSym(sym));
      table.AttachId(l.uid, sym);
    }

    /** `visit(Case)`: the scrutinee, then each branch in a fresh scope inside the
        enclosing one. */
    method VisitCase(e: Expr)
      requires e.Case?
      requires table.AttachmentsOk() && table.FlagOk() && ChainOk(currentScope)
      modifies this`currentScope, table`messages, table`semanticErrors, table`idSymbols, table`Ids, table`scopes
      ensures table.AttachmentsOk() && table.FlagOk() && currentScope == old(currentScope)
      ensures table.messages == old(table.messages) + ExprDefMsgs(e)
      ensures old(table.Ids) <= table.Ids
      ensures ScopesKept(old(table.scopes), table.scopes, old(table.Ids))
      ensures Attached(old(table.idSymbols), table.idSymbols, ExprLocalIds(e), old(table.Ids))
      decreases e, 1
    {
      VisitExpr(e.scrutinee);
      var saved := currentScope;
      ghost var midIds, midKnown := table.idSymbols, table.Ids;
      VisitBranches(e.branches, saved);
      LemmaAttachedCompose(old(table.idSymbols), midIds, table.idSymbols, ExprLocalIds(e.scrutinee),
        BranchesIds(e.branches), old(table.Ids), midKnown);
      LemmaAppendAssoc(old(table.messages), ExprDefMsgs(e.scrutinee), BranchesDefMsgs(e.branches));
      currentScope := saved;
    }

    /** The loop of `visit(Case)` over its branches. */
    method VisitBranches(bs: seq<CaseBranch>, saved: Scope)
      requires table.AttachmentsOk() && table.FlagOk() && ChainOk(saved)
      modifies this`currentScope, table`messages, table`semanticErrors, table`idSymbols, table`Ids, table`scopes
      ensures table.AttachmentsOk() && table.FlagOk()
      ensures table.messages == old(table.messages) + BranchesDefMsgs(bs)
      ensures old(table.Ids) <= table.Ids
      ensures ScopesKept(old(table.scopes), table.scopes, old(table.Ids))
      ensures Attached(old(table.idSymbols), table.idSymbols, BranchesIds(bs), old(table.Ids))
      decreases bs, 1
    {
      LemmaAttachedNone(table.idSymbols, table.Ids);
      var i := 0;
      while i < |bs|
        invariant 0 <= i <= |bs|
        invariant table.AttachmentsOk() && table.FlagOk()
        invariant table.messages == old(table.messages) + BranchesDefMsgs(bs[..i])
        invariant old(table.Ids) <= table.Ids
        invariant ScopesKept(old(table.scopes), table.scopes, old(table.Ids))
        invariant Attached(old(table.idSymbols), table.idSymbols, BranchesIds(bs[..i]), old(table.Ids))
      {
        VisitBranchAt(bs, i, saved, old(table.messages), old(table.idSymbols), old(table.Ids));
        i := i + 1;
      }
      assert bs[..i] == bs;
    }

    /** One turn of the branch loop: `currentScope = new DefaultScope(saved)`, then the
        branch. */
    method VisitBranchAt(bs: seq<CaseBranch>, i: nat, saved: Scope,
                         ghost msgs0: seq<string>, ghost ids0: map<Uid, IdSymbol>, ghost known0: set<IdSymbol>)
      requires i < |bs| && table.AttachmentsOk() && table.FlagOk() && ChainOk(saved)
      requires table.messages == msgs0 + BranchesDefMsgs(bs[..i])
      requires known0 <= table.Ids && Attached(ids0, table.idSymbols, BranchesIds(bs[..i]), known0)
      modifies this`currentScope, table`messages, table`semanticErrors, table`idSymbols, table`Ids, table`scopes
      ensures table.AttachmentsOk() && table.FlagOk()
      ensures table.messages == msgs0 + BranchesDefMsgs(bs[..i + 1])
      ensures known0 <= table.Ids && Attached(ids0, table.idSymbols, BranchesIds(bs[..i + 1]), known0)
      ensures ScopesKept(old(table.scopes), table.scopes, old(table.Ids))
      decreases bs, 0
    {
      var s := new DefaultScope(Some(saved));
      currentScope := Default(s);
      ghost var midIds, midKnown := table.idSymbols, table.Ids;
      VisitCaseBranch(bs[i]);
      LemmaAttachedCompose(ids0, midIds, table.idSymbols, BranchesIds(bs[..i]),
        BranchIds(bs[i]), known0, midKnown);
      assert bs[..i + 1][..i] == bs[..i];
      LemmaAppendAssoc(msgs0, BranchesDefMsgs(bs[..i]), BranchDefMsgs(bs[i]));
    }

    /** `visit(CaseBranch)`: the variable is declared in the branch's scope, but no
        symbol is attached to the branch. */
    method VisitCaseBranch(b: CaseBranch)
      requires currentScope.Default? && currentScope.d != table.globals
      requires table.AttachmentsOk() && table.FlagOk() && ChainOk(currentScope)
      modifies this`currentScope, currentScope.d`symbols, table`messages, table`semanticErrors, table`idSymbols, table`Ids, table`scopes
      ensures table.AttachmentsOk() && table.FlagOk() && currentScope == old(currentScope)
      ensures table.messages == old(table.messages) + BranchDefMsgs(b)
      ensures currentScope.d.symbols.Keys == old(currentScope.d.symbols.Keys) + if b.name == "self" then {} else {b.name}
      ensures old(table.Ids) <= table.Ids
      ensures ScopesKept(old(table.scopes), table.scopes, old(table.Ids))
      ensures Attached(old(table.idSymbols), table.idSymbols, BranchIds(b), old(table.Ids))
      decreases b
    {
      if b.name == "self" {
        table.Error(CaseSelfMsg);
        LemmaAttachedNone(table.idSymbols, table.Ids);
        return;
      }
      var sym := new IdSymbol(b.name);
      table.SetIdScope(sym, currentScope);
      var ok := currentScope.d.Add(IdSym(sym));
      VisitExpr(b.body);
    }

    // ----- features -----

    /** `visit(Formal)`, inside the method it belongs to. */
    method VisitFormal(m: MethodSymbol, f: Formal)
      requires currentScope == InMethod(m) && m in table.Methods
      requires table.Valid() && table.FlagOk()
      modifies m`parameters, table`messages, table`semanticErrors, table`idSymbols, table`Ids, table`scopes
      ensures table.Valid() && table.FlagOk()
      ensures var v := FormalVerdict(m.name, m.parent.name, old(m.parameters.keys), f);
        && table.messages == old(table.messages) + v.msgs
        && m.parameters.keys == old(m.parameters.keys) + (if v.ok then [f.name] else [])
        && (v.ok ==> f.uid in table.idSymbols && table.idSymbols[f.uid].name == f.name && table.idSymbols[f.uid] in table.scopes && table.scopes[table.idSymbols[f.uid]] == Some(InMethod(m)))
        && m.parameters.entries == (if v.ok then old(m.parameters.entries)[f.name := table.idSymbols[f.uid]] else old(m.parameters.entries))
        && Attached(old(table.idSymbols), table.idSymbols, if v.ok then map[f.uid := f.name] else map[], old(table.Ids))
      ensures old(table.Ids) <= table.Ids
      ensures ScopesKept(old(table.scopes), table.scopes, old(table.Ids))
      ensures old(table.FormalsScoped(m)) ==> table.FormalsScoped(m)
    {
      m.parameters.LemmaKeySet();
      var v := CheckFormalDefinition(m.name, m.parent.name, m.parameters.entries.Keys, f.name, f.typ);
      assert v == FormalVerdict(m.name, m.parent.name, m.parameters.keys, f);
      table.Report(v.msgs);
      if !v.ok {
        LemmaAttachedNone(table.idSymbols, table.Ids);
        return;
      }
      ghost var before, known := table.idSymbols, table.Ids;
      var sym := DeclareFormal(m, f);
      LemmaAttachedOne(before, f.uid, sym, known);
    }

    /** The declaring half of `visit(Formal)` for an accepted formal: a fresh symbol in
        the method scope, added to the method's formals and attached to the identifier. */
    method DeclareFormal(m: MethodSymbol, f: Formal) returns (sym: IdSymbol)
      requires currentScope == InMethod(m) && m in table.Methods && f.name !in m.parameters.entries
      requires table.Valid()
      modifies m`parameters, table`idSymbols, table`Ids, table`scopes
      ensures table.Valid() && fresh(sym)
      ensures sym.name == f.name && sym in table.scopes && table.scopes[sym] == Some(InMethod(m))
      ensures m.parameters == old(m.parameters).Put(f.name, sym)
      ensures table.idSymbols == old(table.idSymbols)[f.uid := sym] && table.Ids == old(table.Ids) + {sym}
      ensures ScopesKept(old(table.scopes), table.scopes, old(table.Ids))
    {
      sym := new IdSymbol(f.name);
      table.SetIdScope(sym, currentScope);
      var ok := table.AddFormal(m, sym);
      table.AttachId(f.uid, sym);
    }

    /** The loop of `visit(Method)` over its formals, in a method with none yet. */
    method VisitFormals(m: MethodSymbol, fs: seq<Formal>)
      requires currentScope == InMethod(m) && m in table.Methods && m.parameters == EmptyTable()
      requires table.Valid() && table.FlagOk()
      modifies m`parameters, table`messages, table`semanticErrors, table`idSymbols, table`Ids, table`scopes
      ensures table.Valid() && table.FlagOk()
      ensures table.messages == old(table.messages) + FormalsDefMsgs(m.name, m.parent.name, fs)
      ensures m.parameters.keys == AcceptedFormals(m.name, m.parent.name, fs) && NamedFormals(m)
      ensures table.FormalsScoped(m)
      ensures old(table.Ids) <= table.Ids
      ensures ScopesKept(old(table.scopes), table.scopes, old(table.Ids))
      ensures Attached(old(table.idSymbols), table.idSymbols, FormalIds(m.name, m.parent.name, fs), old(table.Ids))
    {
      LemmaAttachedNone(table.idSymbols, table.Ids);
      var i := 0;
      while i < |fs|
        invariant 0 <= i <= |fs|
        invariant table.Valid() && table.FlagOk()
        invariant table.messages == old(table.messages) + FormalsDefMsgs(m.name, m.parent.name, fs[..i])
        invariant m.parameters.keys == AcceptedFormals(m.name, m.parent.name, fs[..i]) && NamedFormals(m)
        invariant table.FormalsScoped(m)
        invariant old(table.Ids) <= table.Ids
        invariant ScopesKept(old(table.scopes), table.scopes, old(table.Ids))
        invariant Attached(old(table.idSymbols), table.idSymbols, FormalIds(m.name, m.parent.name, fs[..i]), old(table.Ids))
      {
        VisitFormalAt(m, fs, i, old(table.messages), old(table.idSymbols), old(table.Ids));
        i := i + 1;
      }
      assert fs[..i] == fs;
    }

    /** One turn of that loop: visiting the `i`-th formal extends what the first `i`
        left to what the first `i + 1` leave. */
    method VisitFormalAt(m: MethodSymbol, fs: seq<Formal>, i: nat, ghost msgs0: seq<string>, ghost ids0: map<Uid, IdSymbol>, ghost known0: set<IdSymbol>)
      requires i < |fs| && currentScope == InMethod(m) && m in table.Methods
      requires table.Valid() && table.FlagOk()
      requires table.messages == msgs0 + FormalsDefMsgs(m.name, m.parent.name, fs[..i])
      requires m.parameters.keys == AcceptedFormals(m.name, m.parent.name, fs[..i]) && NamedFormals(m)
      requires known0 <= table.Ids
      requires Attached(ids0, table.idSymbols, FormalIds(m.name, m.parent.name, fs[..i]), known0)
      modifies m`parameters, table`messages, table`semanticErrors, table`idSymbols, table`Ids, table`scopes
      ensures table.Valid() && table.FlagOk()
      ensures table.messages == msgs0 + FormalsDefMsgs(m.name, m.parent.name, fs[..i + 1])
      ensures m.parameters.keys == AcceptedFormals(m.name, m.parent.name, fs[..i + 1]) && NamedFormals(m)
      ensures old(table.FormalsScoped(m)) ==> table.FormalsScoped(m)
      ensures known0 <= table.Ids
      ensures ScopesKept(old(table.scopes), table.scopes, old(table.Ids))
      ensures Attached(ids0, table.idSymbols, FormalIds(m.name, m.parent.name, fs[..i + 1]), known0)
    {
      LemmaFormalsSnoc(m.name, m.parent.name, fs, i);
      ghost var v := FormalVerdict(m.name, m.parent.name, m.parameters.keys, fs[i]);
      ghost var midIds, midKnown, entries := table.idSymbols, table.Ids, m.parameters.entries;
      VisitFormal(m, fs[i]);
      if v.ok {
        LemmaNamedUpdate(entries, fs[i].name, table.idSymbols[fs[i].uid]);
      }
      LemmaAttachedCompose(ids0, midIds, table.idSymbols, FormalIds(m.name, m.parent.name, fs[..i]),
        if v.ok then map[fs[i].uid := fs[i].name] else map[], known0, midKnown);
      LemmaAppendAssoc(msgs0, FormalsDefMsgs(m.name, m.parent.name, fs[..i]), v.msgs);
    }

    /** `visit(Method)` once the method is declared: its formals and body, visited with
        the method as the current scope. */
    method VisitMethodScope(m: MethodSymbol, f: Feature)
      requires f.Method? && currentScope == InClass(m.parent) && m in table.Methods && m.parameters == EmptyTable()
      requires m.name == f.name && m.returnType == f.returnType
      requires table.Valid() && table.FlagOk()
      modifies this`currentScope, m`parameters, table`messages, table`semanticErrors, table`idSymbols, table`Ids, table`scopes
      ensures table.Valid() && table.FlagOk() && currentScope == old(currentScope)
      ensures table.messages == old(table.messages) + FormalsDefMsgs(f.name, m.parent.name, f.formals) + ExprDefMsgs(f.body)
      ensures MethodBuilt(m, m.parent, f) && table.FormalsScoped(m)
      ensures old(table.Ids) <= table.Ids
      ensures ScopesKept(old(table.scopes), table.scopes, old(table.Ids))
      ensures Attached(old(table.idSymbols), table.idSymbols,
        FormalIds(f.name, m.parent.name, f.formals) + ExprLocalIds(f.body), old(table.Ids))
    {
      currentScope := InMethod(m);
      VisitMethodParts(m, f);
      currentScope := GetParentScope(currentScope).value;
    }

    /** The formals, then the body, of a method that is the current scope. */
    method VisitMethodParts(m: MethodSymbol, f: Feature)
      requires f.Method? && currentScope == InMethod(m) && m in table.Methods && m.parameters == EmptyTable()
      requires m.name == f.name && m.returnType == f.returnType
      requires table.Valid() && table.FlagOk()
      modifies this`currentScope, m`parameters, table`messages, table`semanticErrors, table`idSymbols, table`Ids, table`scopes
      ensures table.Valid() && table.FlagOk() && currentScope == old(currentScope)
      ensures table.messages == old(table.messages) + FormalsDefMsgs(f.name, m.parent.name, f.formals) + ExprDefMsgs(f.body)
      ensures MethodBuilt(m, m.parent, f) && table.FormalsScoped(m)
      ensures old(table.Ids) <= table.Ids
      ensures ScopesKept(old(table.scopes), table.scopes, old(table.Ids))
      ensures Attached(old(table.idSymbols), table.idSymbols,
        FormalIds(f.name, m.parent.name, f.formals) + ExprLocalIds(f.body), old(table.Ids))
    {
      VisitFormals(m, f.formals);
      ghost var midIds, midKnown := table.idSymbols, table.Ids;
      VisitBody(f.body);
      assert MethodBuilt(m, m.parent, f);
      LemmaAttachedCompose(old(table.idSymbols), midIds, table.idSymbols, FormalIds(f.name, m.parent.name, f.formals),
        ExprLocalIds(f.body), old(table.Ids), midKnown);
    }

    /** A method or attribute body, visited on a valid table: the expression visit
        only attaches identifier symbols, so the table stays valid. */
    method VisitBody(e: Expr)
      requires table.Valid() && table.FlagOk() && ChainOk(currentScope)
      modifies this`currentScope, table`messages, table`semanticErrors, table`idSymbols, table`Ids, table`scopes
      ensures table.Valid() && table.FlagOk() && currentScope == old(currentScope)
      ensures table.messages == old(table.messages) + ExprDefMsgs(e)
      ensures old(table.Ids) <= table.Ids
      ensures ScopesKept(old(table.scopes), table.scopes, old(table.Ids))
      ensures Attached(old(table.idSymbols), table.idSymbols, ExprLocalIds(e), old(table.Ids))
    {
      label before:
      VisitExpr(e);
      table.LemmaAttachKeepsValid@before();
    }

    /** The declaring half of `visit(Method)` for a name the class does not have yet:
        a fresh symbol with no formals, added to the class and attached to the identifier. */
    method DeclareMethod(c: ClassSymbol, f: Feature) returns (m: MethodSymbol)
      requires f.Method? && c in table.Classes && f.name !in c.methods
      requires table.Valid()
      modifies c`methods, table`methodSymbols, table`Methods
      ensures table.Valid() && fresh(m)
      ensures m.name == f.name && m.parent == c && m.returnType == f.returnType && m.parameters == EmptyTable()
      ensures c.methods == old(c.methods)[f.name := m]
      ensures table.methodSymbols == old(table.methodSymbols)[f.uid := m]
      ensures table.Methods == old(table.Methods) + {m}
    {
      m := new MethodSymbol(f.name, c, f.returnType);
      var ok := table.AddClassMethod(c, m);
      table.AttachMethod(f.uid, m);
    }

    /** `visit(Method)` for a name the class does not have yet: the method is declared,
        then its formals and body are visited. */
    method VisitNewMethod(c: ClassSymbol, f: Feature)
      requires f.Method? && currentScope == InClass(c) && c in table.Classes && f.name !in c.methods
      requires table.Valid() && table.FlagOk()
      modifies this`currentScope, c`methods, table`messages, table`semanticErrors, table`idSymbols, table`Ids, table`scopes,
        table`methodSymbols, table`Methods
      ensures table.Valid() && table.FlagOk() && currentScope == old(currentScope)
      ensures table.messages == old(table.messages) + (FormalsDefMsgs(f.name, c.name, f.formals) + ExprDefMsgs(f.body))
      ensures old(table.Ids) <= table.Ids
      ensures ScopesKept(old(table.scopes), table.scopes, old(table.Ids))
      ensures Attached(old(table.idSymbols), table.idSymbols, FormalIds(f.name, c.name, f.formals) + ExprLocalIds(f.body), old(table.Ids))
      ensures f.name in c.methods && fresh(c.methods[f.name])
      ensures c.methods == old(c.methods)[f.name := c.methods[f.name]]
      ensures MethodBuilt(c.methods[f.name], c, f) && table.FormalsScoped(c.methods[f.name])
      ensures table.methodSymbols == old(table.methodSymbols)[f.uid := c.methods[f.name]]
      ensures table.Methods == old(table.Methods) + {c.methods[f.name]}
    {
      var m := DeclareMethod(c, f);
      VisitMethodScope(m, f);
      LemmaAppendAssoc(old(table.messages), FormalsDefMsgs(f.name, c.name, f.formals), ExprDefMsgs(f.body));
    }

    /** `visit(Method)`: a method whose name the class already has is refused;
        otherwise it is added to the class and its identifier gets the symbol. */
    method VisitMethod(c: ClassSymbol, f: Feature)
      requires f.Method? && currentScope == InClass(c) && c in table.Classes
      requires table.Valid() && table.FlagOk()
      modifies this`currentScope, c`methods, table`messages, table`semanticErrors, table`idSymbols, table`Ids, table`scopes,
        table`methodSymbols, table`Methods
      ensures table.Valid() && table.FlagOk() && currentScope == old(currentScope)
      ensures table.messages == old(table.messages) + FeatureDefMsgs(c.name, old(c.attributes.Keys), old(c.methods.Keys), f)
      ensures old(table.Ids) <= table.Ids
      ensures ScopesKept(old(table.scopes), table.scopes, old(table.Ids))
      ensures Attached(old(table.idSymbols), table.idSymbols, FeatureIds(c.name, old(c.attributes.Keys), old(c.methods.Keys), f), old(table.Ids))
      ensures f.name in old(c.methods) ==>
        c.methods == old(c.methods) && table.methodSymbols == old(table.methodSymbols) && table.Methods == old(table.Methods)
      ensures f.name !in old(c.methods) ==>
        && f.name in c.methods && fresh(c.methods[f.name])
        && c.methods == old(c.methods)[f.name := c.methods[f.name]]
        && MethodBuilt(c.methods[f.name], c, f) && table.FormalsScoped(c.methods[f.name])
        && table.methodSymbols == old(table.methodSymbols)[f.uid := c.methods[f.name]]
        && table.Methods == old(table.Methods) + {c.methods[f.name]}
      ensures c.attributes == old(c.attributes)
      ensures ShapesOf(c) == if f.name !in old(c.methods)
        then old(ShapesOf(c))[f.name := MethodShape(f.returnType, AcceptedFormals(f.name, c.name, f.formals))]
        else old(ShapesOf(c))
    {
      var v := CheckMethodDefinition(c.name, c.methods.Keys, f.name);
      if !v.ok {
        RefuseMethod(c, f);
      } else {
        AcceptMethod(c, f);
      }
    }

    /** `visit(Method)` for a name the class already has: the diagnostic, and nothing else. */
    method RefuseMethod(c: ClassSymbol, f: Feature)
      requires f.Method? && currentScope == InClass(c) && c in table.Classes && f.name in c.methods
      requires table.Valid() && table.FlagOk()
      modifies table`messages, table`semanticErrors
      ensures table.Valid() && table.FlagOk() && currentScope == old(currentScope)
      ensures table.messages == old(table.messages) + FeatureDefMsgs(c.name, old(c.attributes.Keys), old(c.methods.Keys), f)
      ensures old(table.Ids) <= table.Ids
      ensures ScopesKept(old(table.scopes), table.scopes, old(table.Ids))
      ensures Attached(old(table.idSymbols), table.idSymbols, FeatureIds(c.name, old(c.attributes.Keys), old(c.methods.Keys), f), old(table.Ids))
      ensures c.attributes == old(c.attributes) && c.methods == old(c.methods) && ShapesOf(c) == old(ShapesOf(c))
    {
      var v := CheckMethodDefinition(c.name, c.methods.Keys, f.name);
      table.Report(v.msgs);
      LemmaAttachedNone(table.idSymbols, table.Ids);
      LemmaShapesKept(c);
    }

    /** `visit(Method)` for a name the class does not have yet. */
    method AcceptMethod(c: ClassSymbol, f: Feature)
      requires f.Method? && currentScope == InClass(c) && c in table.Classes && f.name !in c.methods
      requires table.Valid() && table.FlagOk()
      modifies this`currentScope, c`methods, table`messages, table`semanticErrors, table`idSymbols, table`Ids, table`scopes,
        table`methodSymbols, table`Methods
      ensures table.Valid() && table.FlagOk() && currentScope == old(currentScope)
      ensures table.messages == old(table.messages) + FeatureDefMsgs(c.name, old(c.attributes.Keys), old(c.methods.Keys), f)
      ensures old(table.Ids) <= table.Ids
      ensures ScopesKept(old(table.scopes), table.scopes, old(table.Ids))
      ensures Attached(old(table.idSymbols), table.idSymbols, FeatureIds(c.name, old(c.attributes.Keys), old(c.methods.Keys), f), old(table.Ids))
      ensures f.name in c.methods && fresh(c.methods[f.name])
      ensures c.methods == old(c.methods)[f.name := c.methods[f.name]]
      ensures MethodBuilt(c.methods[f.name], c, f) && table.FormalsScoped(c.methods[f.name])
      ensures table.methodSymbols == old(table.methodSymbols)[f.uid := c.methods[f.name]]
      ensures table.Methods == old(table.Methods) + {c.methods[f.name]}
      ensures c.attributes == old(c.attributes)
      ensures ShapesOf(c) == old(ShapesOf(c))[f.name := MethodShape(f.returnType, AcceptedFormals(f.name, c.name, f.formals))]
    {
      VisitNewMethod(c, f);
      LemmaShapesAdded(c, f.name);
    }

    /** The declaring half of `visit(Attr)` for an accepted name: a fresh symbol in the
        class scope, attached to the identifier and added to the class. */
    method DeclareAttr(c: ClassSymbol, f: Feature) returns (sym: IdSymbol)
      requires f.Attr? && currentScope == InClass(c) && c in table.Classes && AttrAccepted(c.attributes.Keys, f)
      requires table.Valid()
      modifies c`attributes, table`idSymbols, table`Ids, table`scopes
      ensures table.Valid() && fresh(sym)
      ensures sym.name == f.name && sym in table.scopes && table.scopes[sym] == Some(InClass(c))
      ensures c.attributes == old(c.attributes)[f.name := IdSym(sym)]
      ensures table.idSymbols == old(table.idSymbols)[f.uid := sym] && table.Ids == old(table.Ids) + {sym}
      ensures ScopesKept(old(table.scopes), table.scopes, old(table.Ids))
    {
      sym := new IdSymbol(f.name);
      table.SetIdScope(sym, currentScope);
      table.AttachId(f.uid, sym);
      var ok := table.AddClassAttribute(c, sym);
    }

    /** `visit(Attr)`: an attribute named self, or whose name the class already has, is
        reported and skipped; otherwise it is declared and its initialiser visited. */
    method VisitAttr(c: ClassSymbol, f: Feature)
      requires f.Attr? && currentScope == InClass(c) && c in table.Classes
      requires table.Valid() && table.FlagOk()
      modifies this`currentScope, c`attributes, table`messages, table`semanticErrors, table`idSymbols, table`Ids, table`scopes
      ensures table.Valid() && table.FlagOk() && currentScope == old(currentScope)
      ensures table.messages == old(table.messages) + FeatureDefMsgs(c.name, old(c.attributes.Keys), old(c.methods.Keys), f)
      ensures old(table.Ids) <= table.Ids
      ensures ScopesKept(old(table.scopes), table.scopes, old(table.Ids))
      ensures Attached(old(table.idSymbols), table.idSymbols, FeatureIds(c.name, old(c.attributes.Keys), old(c.methods.Keys), f), old(table.Ids))
      ensures !AttrAccepted(old(c.attributes.Keys), f) ==> c.attributes == old(c.attributes)
      ensures AttrAccepted(old(c.attributes.Keys), f) ==>
        && f.name in c.attributes && c.attributes == old(c.attributes)[f.name := c.attributes[f.name]]
        && c.attributes[f.name].IdSym? && fresh(c.attributes[f.name].id)
        && c.attributes[f.name].id.name == f.name
        && c.attributes[f.name].id in table.scopes && table.scopes[c.attributes[f.name].id] == Some(InClass(c))
      ensures old(table.AttrsScoped(c)) ==> table.AttrsScoped(c)
      ensures c.attributes.Keys == old(c.attributes.Keys) + if f.name != "self" then {f.name} else {}
      ensures c.methods == old(c.methods) && ShapesOf(c) == old(ShapesOf(c))
    {
      if f.name == "self" {
        table.Error(AttrSelfMsg(c.name));
        LemmaAttachedNone(table.idSymbols, table.Ids);
      } else if c.HasAttribute(f.name) {
        table.Error(AttrRedefinedMsg(c.name, f.name));
        LemmaAttachedNone(table.idSymbols, table.Ids);
      } else {
        VisitNewAttr(c, f);
      }
      LemmaShapesKept(c);
    }

    /** `visit(Attr)` for an accepted name: the attribute is declared, then its
        initialiser visited. */
    method VisitNewAttr(c: ClassSymbol, f: Feature)
      requires f.Attr? && currentScope == InClass(c) && c in table.Classes && AttrAccepted(c.attributes.Keys, f)
      requires table.Valid() && table.FlagOk()
      modifies this`currentScope, c`attributes, table`messages, table`semanticErrors, table`idSymbols, table`Ids, table`scopes
      ensures table.Valid() && table.FlagOk() && currentScope == old(currentScope)
      ensures table.messages == old(table.messages) + InitDefMsgs(f.init)
      ensures old(table.Ids) <= table.Ids
      ensures ScopesKept(old(table.scopes), table.scopes, old(table.Ids))
      ensures Attached(old(table.idSymbols), table.idSymbols, map[f.uid := f.name] + InitIds(f.init), old(table.Ids))
      ensures f.name in c.attributes && c.attributes == old(c.attributes)[f.name := c.attributes[f.name]]
      ensures c.attributes[f.name].IdSym? && fresh(c.attributes[f.name].id) && c.attributes[f.name].id.name == f.name
      ensures c.attributes[f.name].id in table.scopes && table.scopes[c.attributes[f.name].id] == Some(InClass(c))
    {
      ghost var before, known := table.idSymbols, table.Ids;
      var sym := DeclareAttr(c, f);
      LemmaAttachedOne(before, f.uid, sym, known);
      if f.init.Some? {
        ghost var midIds, midKnown := table.idSymbols, table.Ids;
        VisitBody(f.init.value);
        LemmaAttachedCompose(before, midIds, table.idSymbols, map[f.uid := f.name], ExprLocalIds(f.init.value),
          known, midKnown);
      }
    }

    /** `f.accept(this)` on a feature. */
    method VisitFeature(c: ClassSymbol, f: Feature)
      requires currentScope == InClass(c) && c in table.Classes
      requires table.Valid() && table.FlagOk()
      modifies this`currentScope, c`attributes, c`methods, table`messages, table`semanticErrors, table`idSymbols, table`Ids, table`scopes,
        table`methodSymbols, table`Methods
      ensures table.Valid() && table.FlagOk() && currentScope == old(currentScope)
      ensures table.messages == old(table.messages) + FeatureDefMsgs(c.name, old(c.attributes.Keys), old(c.methods.Keys), f)
      ensures old(table.Ids) <= table.Ids
      ensures ScopesKept(old(table.scopes), table.scopes, old(table.Ids))
      ensures Attached(old(table.idSymbols), table.idSymbols, FeatureIds(c.name, old(c.attributes.Keys), old(c.methods.Keys), f), old(table.Ids))
      ensures f.Attr? ==>
        && c.attributes.Keys == old(c.attributes.Keys) + (if f.name != "self" then {f.name} else {})
        && c.methods == old(c.methods) && ShapesOf(c) == old(ShapesOf(c))
      ensures f.Method? ==>
        && c.attributes == old(c.attributes)
        && ShapesOf(c) == if f.name !in old(c.methods)
          then old(ShapesOf(c))[f.name := MethodShape(f.returnType, AcceptedFormals(f.name, c.name, f.formals))]
          else old(ShapesOf(c))
      ensures old(table.ClassScoped(c)) ==> table.ClassScoped(c)
    {
      if f.Attr? {
        VisitAttr(c, f);
      } else {
        VisitMethod(c, f);
      }
    }

    /** One turn of the loop over a class's features. */
    method VisitFeatureAt(c: ClassSymbol, fs: seq<Feature>, i: nat,
                          ghost msgs0: seq<string>, ghost ids0: map<Uid, IdSymbol>, ghost known0: set<IdSymbol>)
      requires i < |fs| && currentScope == InClass(c) && c in table.Classes
      requires table.Valid() && table.FlagOk()
      requires table.messages == msgs0 + FeaturesDefMsgs(c.name, fs[..i])
      requires c.attributes.Keys == AttrNames(fs[..i])
      requires ShapesOf(c) == KeptMethods(c.name, fs[..i])
      requires known0 <= table.Ids
      requires Attached(ids0, table.idSymbols, FeaturesIds(c.name, fs[..i]), known0)
      modifies this`currentScope, c`attributes, c`methods, table`messages, table`semanticErrors, table`idSymbols, table`Ids, table`scopes,
        table`methodSymbols, table`Methods
      ensures table.Valid() && table.FlagOk() && currentScope == old(currentScope)
      ensures table.messages == msgs0 + FeaturesDefMsgs(c.name, fs[..i + 1])
      ensures c.attributes.Keys == AttrNames(fs[..i + 1])
      ensures ShapesOf(c) == KeptMethods(c.name, fs[..i + 1])
      ensures old(table.ClassScoped(c)) ==> table.ClassScoped(c)
      ensures known0 <= table.Ids
      ensures ScopesKept(old(table.scopes), table.scopes, old(table.Ids))
      ensures Attached(ids0, table.idSymbols, FeaturesIds(c.name, fs[..i + 1]), known0)
    {
      LemmaKeptKeys(c.name, fs[..i]);
      LemmaNamesSnoc(fs, i);
      LemmaFeaturesSnoc(c.name, fs, i);
      ghost var midIds, midKnown := table.idSymbols, table.Ids;
      VisitFeature(c, fs[i]);
      LemmaAttachedCompose(ids0, midIds, table.idSymbols, FeaturesIds(c.name, fs[..i]),
        FeatureIds(c.name, AttrNames(fs[..i]), MethodNames(fs[..i]), fs[i]), known0, midKnown);
      LemmaAppendAssoc(msgs0, FeaturesDefMsgs(c.name, fs[..i]), FeatureDefMsgs(c.name, AttrNames(fs[..i]), MethodNames(fs[..i]), fs[i]));
    }

    /** The loop of `visit(Class)` over the features of a class just registered. */
    method VisitFeatures(c: ClassSymbol, fs: seq<Feature>)
      requires currentScope == InClass(c) && c in table.Classes && c.attributes == map[] && c.methods == map[]
      requires table.Valid() && table.FlagOk()
      modifies this`currentScope, c`attributes, c`methods, table`messages, table`semanticErrors, table`idSymbols, table`Ids, table`scopes,
        table`methodSymbols, table`Methods
      ensures table.Valid() && table.FlagOk() && currentScope == old(currentScope)
      ensures table.messages == old(table.messages) + FeaturesDefMsgs(c.name, fs)
      ensures c.attributes.Keys == AttrNames(fs) && c.methods.Keys == MethodNames(fs)
      ensures ShapesOf(c) == KeptMethods(c.name, fs) && table.ClassScoped(c)
      ensures old(table.Ids) <= table.Ids
      ensures ScopesKept(old(table.scopes), table.scopes, old(table.Ids))
      ensures Attached(old(table.idSymbols), table.idSymbols, FeaturesIds(c.name, fs), old(table.Ids))
    {
      LemmaAttachedNone(table.idSymbols, table.Ids);
      var i := 0;
      while i < |fs|
        invariant 0 <= i <= |fs| && currentScope == old(currentScope)
        invariant table.Valid() && table.FlagOk()
        invariant table.messages == old(table.messages) + FeaturesDefMsgs(c.name, fs[..i])
        invariant c.attributes.Keys == AttrNames(fs[..i])
        invariant ShapesOf(c) == KeptMethods(c.name, fs[..i]) && table.ClassScoped(c)
        invariant old(table.Ids) <= table.Ids
        invariant ScopesKept(old(table.scopes), table.scopes, old(table.Ids))
        invariant Attached(old(table.idSymbols), table.idSymbols, FeaturesIds(c.name, fs[..i]), old(table.Ids))
      {
        VisitFeatureAt(c, fs, i, old(table.messages), old(table.idSymbols), old(table.Ids));
        i := i + 1;
      }
      assert fs[..i] == fs;
      LemmaKeptKeys(c.name, fs);
    }

    /** The declaring half of `visit(Class)` for a name not yet registered: a fresh
        class symbol whose parent is the declared one (after the parent check) or
        Object, added to the global scope. */
    method DeclareClass(cls: Class) returns (c: ClassSymbol)
      requires cls.name !in table.globals.symbols
      requires table.Valid() && table.FlagOk()
      modifies table.globals`symbols, table`Classes, table`messages, table`semanticErrors
      ensures table.Valid() && table.FlagOk() && fresh(c)
      ensures table.messages == old(table.messages) + if cls.inherit.Some? then CheckParentName(cls.name, cls.inherit.value).msgs else []
      ensures c.name == cls.name && c.parentName == Some(ParentOf(cls)) && c.attributes == map[] && c.methods == map[]
      ensures table.globals.symbols == old(table.globals.symbols)[cls.name := ClassSym(c)]
      ensures table.Classes == old(table.Classes) + {c}
    {
      c := new ClassSymbol(cls.name, Some("Object"));
      if cls.inherit.Some? {
        var v := CheckParentName(cls.name, cls.inherit.value);
        table.Report(v.msgs);
        c.SetParentName(cls.inherit.value);
      }
      table.RegisterClass(c);
    }

    /** The features of a class just registered, visited with the class as the
        current scope. */
    method VisitClassScope(c: ClassSymbol, cls: Class)
      requires currentScope == Default(table.globals) && c in table.Classes
      requires c.name == cls.name && c.parentName == Some(ParentOf(cls)) && c.attributes == map[] && c.methods == map[]
      requires table.Valid() && table.FlagOk()
      modifies this`currentScope, c`attributes, c`methods, table`messages, table`semanticErrors, table`idSymbols, table`Ids, table`scopes,
        table`methodSymbols, table`Methods
      ensures table.Valid() && table.FlagOk() && currentScope == old(currentScope)
      ensures table.messages == old(table.messages) + FeaturesDefMsgs(cls.name, cls.features)
      ensures old(table.Ids) <= table.Ids
      ensures ScopesKept(old(table.scopes), table.scopes, old(table.Ids))
      ensures Attached(old(table.idSymbols), table.idSymbols, FeaturesIds(cls.name, cls.features), old(table.Ids))
      ensures ClassBuilt(c, cls) && table.ClassScoped(c)
    {
      currentScope := InClass(c);
      VisitFeatures(c, cls.features);
      assert ClassBuilt(c, cls);
      currentScope := Default(table.globals);
    }

    /** `visit(Class)` for a name not yet registered: the class is declared, then its
        features are visited with the class as the current scope. */
    method VisitNewClass(cls: Class)
      requires currentScope == Default(table.globals) && cls.name !in table.globals.symbols
      requires table.Valid() && table.FlagOk()
      modifies this`currentScope, table.globals`symbols, table`Classes, table`messages, table`semanticErrors,
        table`idSymbols, table`Ids, table`scopes, table`methodSymbols, table`Methods
      ensures table.Valid() && table.FlagOk() && currentScope == old(currentScope)
      ensures table.messages == old(table.messages)
        + ((if cls.inherit.Some? then CheckParentName(cls.name, cls.inherit.value).msgs else []) + FeaturesDefMsgs(cls.name, cls.features))
      ensures old(table.Ids) <= table.Ids
      ensures ScopesKept(old(table.scopes), table.scopes, old(table.Ids))
      ensures Attached(old(table.idSymbols), table.idSymbols, FeaturesIds(cls.name, cls.features), old(table.Ids))
      ensures cls.name in table.globals.symbols && table.globals.symbols[cls.name].ClassSym?
      ensures table.globals.symbols == old(table.globals.symbols)[cls.name := table.globals.symbols[cls.name]]
      ensures fresh(table.globals.symbols[cls.name].cls) && ClassBuilt(table.globals.symbols[cls.name].cls, cls)
      ensures table.ClassScoped(table.globals.symbols[cls.name].cls)
      ensures table.Classes == old(table.Classes) + {table.globals.symbols[cls.name].cls}
    {
      var c := DeclareClass(cls);
      VisitClassScope(c, cls);
      LemmaAppendAssoc(old(table.messages), if cls.inherit.Some? then CheckParentName(cls.name, cls.inherit.value).msgs else [],
        FeaturesDefMsgs(cls.name, cls.features));
    }

    /** `visit(Class)`: a class named SELF_TYPE or already registered is reported and
        skipped. */
    method VisitClass(cls: Class)
      requires currentScope == Default(table.globals)
      requires table.Valid() && table.FlagOk()
      modifies this`currentScope, table.globals`symbols, table`Classes, table`messages, table`semanticErrors,
        table`idSymbols, table`Ids, table`scopes, table`methodSymbols, table`Methods
      ensures table.Valid() && table.FlagOk() && currentScope == old(currentScope)
      ensures table.messages == old(table.messages) + ClassDefMsgs(old(table.globals.symbols.Keys), cls)
      ensures old(table.Ids) <= table.Ids
      ensures ScopesKept(old(table.scopes), table.scopes, old(table.Ids))
      ensures Attached(old(table.idSymbols), table.idSymbols, ClassIds(old(table.globals.symbols.Keys), cls), old(table.Ids))
      ensures unchanged(old(table.Classes)) && unchanged(old(table.Methods))
      ensures !CheckClassName(old(table.globals.symbols.Keys), cls.name).ok ==>
        table.globals.symbols == old(table.globals.symbols) && table.Classes == old(table.Classes)
      ensures CheckClassName(old(table.globals.symbols.Keys), cls.name).ok ==>
        && cls.name in table.globals.symbols && table.globals.symbols[cls.name].ClassSym?
        && table.globals.symbols == old(table.globals.symbols)[cls.name := table.globals.symbols[cls.name]]
        && fresh(table.globals.symbols[cls.name].cls) && ClassBuilt(table.globals.symbols[cls.name].cls, cls)
        && table.ClassScoped(table.globals.symbols[cls.name].cls)
        && table.Classes == old(table.Classes) + {table.globals.symbols[cls.name].cls}
    {
      var v := CheckClassName(table.globals.symbols.Keys, cls.name);
      if !v.ok {
        table.Report(v.msgs);
        LemmaAttachedNone(table.idSymbols, table.Ids);
        return;
      }
      VisitNewClass(cls);
    }

    /** One turn of the loop of `visit(Program)`, stated over what the classes before
        `cls` leave: the registered names `known`, the declarations `reg` registered
        by them, their messages `msgs` and their attachments `ids`. */
    method VisitClassAt(cls: Class, ghost syms0: map<Name, Symbol>, ghost msgs0: seq<string>,
                        ghost ids0: map<Uid, IdSymbol>, ghost known0: set<IdSymbol>,
                        ghost known: set<Name>, ghost reg: map<Name, Class>, ghost msgs: seq<string>, ghost ids: map<Uid, Name>)
      requires currentScope == Default(table.globals)
      requires table.Valid() && table.FlagOk()
      requires table.messages == msgs0 + msgs
      requires table.globals.symbols.Keys == known
      requires forall n :: n in syms0 ==> n in table.globals.symbols && table.globals.symbols[n] == syms0[n]
      requires forall n :: n in reg ==>
        n in table.globals.symbols && table.globals.symbols[n].ClassSym? && ClassBuilt(table.globals.symbols[n].cls, reg[n])
        && table.ClassScoped(table.globals.symbols[n].cls)
      requires known0 <= table.Ids
      requires Attached(ids0, table.idSymbols, ids, known0)
      modifies this`currentScope, table.globals`symbols, table`Classes, table`messages, table`semanticErrors,
        table`idSymbols, table`Ids, table`scopes, table`methodSymbols, table`Methods
      ensures table.Valid() && table.FlagOk() && currentScope == old(currentScope)
      ensures table.messages == msgs0 + (msgs + ClassDefMsgs(known, cls))
      ensures var ok := CheckClassName(known, cls.name).ok;
        && table.globals.symbols.Keys == (if ok then known + {cls.name} else known)
        && (forall n :: n in (if ok then reg[cls.name := cls] else reg) ==>
              n in table.globals.symbols && table.globals.symbols[n].ClassSym?
              && ClassBuilt(table.globals.symbols[n].cls, (if ok then reg[cls.name := cls] else reg)[n])
              && table.ClassScoped(table.globals.symbols[n].cls))
      ensures forall n :: n in syms0 ==> n in table.globals.symbols && table.globals.symbols[n] == syms0[n]
      ensures known0 <= table.Ids
      ensures ScopesKept(old(table.scopes), table.scopes, old(table.Ids))
      ensures Attached(ids0, table.idSymbols, ids + ClassIds(known, cls), known0)
    {
      label start:
      ghost var midIds, midKnown := table.idSymbols, table.Ids;
      VisitClass(cls);
      LemmaAllBuiltKept@start(table, reg);
      LemmaAllScopedKept@start(table, reg);
      LemmaAttachedCompose(ids0, midIds, table.idSymbols, ids, ClassIds(known, cls), known0, midKnown);
      LemmaAppendAssoc(msgs0, msgs, ClassDefMsgs(known, cls));
    }

    /** `visit(Program)`: every class in turn, on the global scope. */
    method VisitProgram(p: Program)
      requires currentScope == Default(table.globals)
      requires table.Valid() && table.FlagOk()
      modifies this`currentScope, table.globals`symbols, table`Classes, table`messages, table`semanticErrors,
        table`idSymbols, table`Ids, table`scopes, table`methodSymbols, table`Methods
      ensures table.Valid() && table.FlagOk() && currentScope == old(currentScope)
      ensures table.messages == old(table.messages) + ProgramDefMsgs(old(table.globals.symbols.Keys), p.classes)
      ensures table.globals.symbols.Keys == Known(old(table.globals.symbols.Keys), p.classes)
      ensures forall n :: n in old(table.globals.symbols) ==>
        n in table.globals.symbols && table.globals.symbols[n] == old(table.globals.symbols)[n]
      ensures forall n :: n in Registered(old(table.globals.symbols.Keys), p.classes) ==>
        n in table.globals.symbols && table.globals.symbols[n].ClassSym?
        && ClassBuilt(table.globals.symbols[n].cls, Registered(old(table.globals.symbols.Keys), p.classes)[n])
        && table.ClassScoped(table.globals.symbols[n].cls)
      ensures old(table.Ids) <= table.Ids
      ensures ScopesKept(old(table.scopes), table.scopes, old(table.Ids))
      ensures Attached(old(table.idSymbols), table.idSymbols, ProgramIds(old(table.globals.symbols.Keys), p.classes), old(table.Ids))
    {
      ghost var syms0 := table.globals.symbols;
      LemmaAttachedNone(table.idSymbols, table.Ids);
      var i := 0;
      while i < |p.classes|
        invariant 0 <= i <= |p.classes| && currentScope == old(currentScope)
        invariant table.Valid() && table.FlagOk()
        invariant table.messages == old(table.messages) + ProgramDefMsgs(syms0.Keys, p.classes[..i])
        invariant table.globals.symbols.Keys == Known(syms0.Keys, p.classes[..i])
        invariant forall n :: n in syms0 ==> n in table.globals.symbols && table.globals.symbols[n] == syms0[n]
        invariant forall n :: n in Registered(syms0.Keys, p.classes[..i]) ==>
          n in table.globals.symbols && table.globals.symbols[n].ClassSym?
          && ClassBuilt(table.globals.symbols[n].cls, Registered(syms0.Keys, p.classes[..i])[n])
          && table.ClassScoped(table.globals.symbols[n].cls)
        invariant old(table.Ids) <= table.Ids
        invariant ScopesKept(old(table.scopes), table.scopes, old(table.Ids))
        invariant Attached(old(table.idSymbols), table.idSymbols, ProgramIds(syms0.Keys, p.classes[..i]), old(table.Ids))
      {
        LemmaProgramSnoc(syms0.Keys, p.classes, i);
        VisitClassAt(p.classes[i], syms0, old(table.messages), old(table.idSymbols), old(table.Ids),
          Known(syms0.Keys, p.classes[..i]), Registered(syms0.Keys, p.classes[..i]),
          ProgramDefMsgs(syms0.Keys, p.classes[..i]), ProgramIds(syms0.Keys, p.classes[..i]));
        i := i + 1;
      }
      assert p.classes[..i] == p.classes;
    }
  }
}
