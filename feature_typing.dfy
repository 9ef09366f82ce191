/** The typing of formals, attributes and methods in the resolution pass
    (`ResolutionPassVisitor.visit(Formal)`, `visit(Attr)`, `visit(Method)`), as
    functions.  Besides the type, the diagnostics and the store, a visit may end the
    whole run: the source casts a symbol's scope, or the current scope, to a class or a
    method, and a cast that fails (or a null that is dereferenced) throws. */
module FeatureTyping {
  import opened Base
  import opened Structures
  import opened Ast
  import opened Hierarchy
  import opened SymbolTables
  import opened RulesChecker
  import opened ExprTyping

  /** What a visit leaves: the type it returns (None for null), the diagnostics in
      order, the store, and whether the source throws there. */
  datatype Outcome = Outcome(t: Option<Name>, msgs: seq<string>, st: Store, crashed: bool)

  /** `id.getSymbol()` on the identifier node `u`. */
  function Attached(ids: map<Uid, IdSymbol>, u: Uid): (x: Option<IdSymbol>)
    ensures x.Some? <==> u in ids
    ensures x.Some? ==> x.value == ids[u]
  {
    if u in ids then Some(ids[u]) else None
  }

  /** `getScope()` of a symbol, null when there is no symbol. */
  function ScopeOf(sc: ScopeStore, x: Option<IdSymbol>): Option<Scope> {
    if x.Some? && x.value in sc then sc[x.value] else None
  }

  // ----- formals -----

  /** `visit(Formal)` for a formal whose identifier holds `x`, which records scope `xs`:
      nothing happens without a symbol or a scope; a scope that is not a method makes
      the cast in `checkFormalResolution` throw; an undefined type is reported; and
      otherwise the symbol receives the declared type, which the visit returns. */
  function FormalOutcome(g: Globals, st: Store, f: Formal, x: Option<IdSymbol>, xs: Option<Scope>): (r: Outcome)
    ensures r.crashed <==> x.Some? && xs.Some? && !xs.value.InMethod?
    ensures r.t.Some? <==> x.Some? && xs.Some? && xs.value.InMethod? && f.typ in g
    ensures r.t.Some? ==> r.t == Some(f.typ) && r.st == st[x.value := Some(f.typ)] && r.msgs == []
    ensures r.t.None? ==> r.st == st
    ensures r.msgs != [] <==> x.Some? && xs.Some? && xs.value.InMethod? && f.typ !in g
    ensures r.msgs != [] ==> (r.msgs ==
      ["Method " + xs.value.m.name + " of class " + xs.value.m.parent.name + " has formal parameter " + f.name + " with undefined type " + f.typ])
  {
    if x.None? || xs.None? then Outcome(None, [], st, false)
    else match xs.value
      case InMethod(m) =>
        var v := CheckFormalResolution(g, m.name, m.parent.name, f.name, f.typ);
        if !v.ok then Outcome(None, v.msgs, st, false)
        else Outcome(Find(g, Some(f.typ)), [], st[x.value := Some(f.typ)], false)
      case _ => Outcome(None, [], st, true)
  }

  /** The formal has a symbol whose recorded scope is not a method: its visit throws. */
  predicate FormalThrows(ids: map<Uid, IdSymbol>, sc: ScopeStore, f: Formal) {
    var xs := ScopeOf(sc, Attached(ids, f.uid));
    Attached(ids, f.uid).Some? && xs.Some? && !xs.value.InMethod?
  }

  /** The formal has a symbol whose recorded scope is a method: its type is checked. */
  predicate FormalChecked(ids: map<Uid, IdSymbol>, sc: ScopeStore, f: Formal) {
    var xs := ScopeOf(sc, Attached(ids, f.uid));
    Attached(ids, f.uid).Some? && xs.Some? && xs.value.InMethod?
  }

  /** The formals of a method in order, up to the first that throws.  No formal visit
      writes a scope, so every formal reads the scopes `sc` recorded before the first. */
  function FormalsOutcome(g: Globals, st: Store, fs: seq<Formal>, ids: map<Uid, IdSymbol>, sc: ScopeStore): (r: Outcome)
    ensures r.t == None
    decreases |fs|
  {
    if fs == [] then Outcome(None, [], st, false)
    else
      var r := FormalsOutcome(g, st, fs[..|fs| - 1], ids, sc);
      if r.crashed then r
      else
        var f := fs[|fs| - 1];
        var x := Attached(ids, f.uid);
        var o := FormalOutcome(g, r.st, f, x, ScopeOf(sc, x));
        Outcome(None, r.msgs + o.msgs, o.st, o.crashed)
  }

  /** The formals' visits throw exactly when one of the formals' symbols records a scope
      that is not a method. */
  lemma {:induction false} LemmaFormalsThrow(g: Globals, st: Store, fs: seq<Formal>, ids: map<Uid, IdSymbol>, sc: ScopeStore)
    ensures FormalsOutcome(g, st, fs, ids, sc).crashed <==> exists i :: 0 <= i < |fs| && FormalThrows(ids, sc, fs[i])
    decreases |fs|
  {
    if fs != [] {
      var p := fs[..|fs| - 1];
      LemmaFormalsThrow(g, st, p, ids, sc);
      if exists i :: 0 <= i < |p| && FormalThrows(ids, sc, p[i]) {
        var i :| 0 <= i < |p| && FormalThrows(ids, sc, p[i]);
        assert fs[i] == p[i];
      }
      if i :| 0 <= i < |fs| && FormalThrows(ids, sc, fs[i]) {
        if i < |p| { assert p[i] == fs[i]; }
      }
    }
  }

  /** When no visit throws, the formals report nothing exactly when every formal whose
      type is checked has a registered type. */
  lemma {:induction false} LemmaFormalsReport(g: Globals, st: Store, fs: seq<Formal>, ids: map<Uid, IdSymbol>, sc: ScopeStore)
    requires !FormalsOutcome(g, st, fs, ids, sc).crashed
    ensures FormalsOutcome(g, st, fs, ids, sc).msgs == [] <==>
      forall i :: 0 <= i < |fs| && FormalChecked(ids, sc, fs[i]) ==> fs[i].typ in g
    decreases |fs|
  {
    if fs != [] {
      var p := fs[..|fs| - 1];
      LemmaFormalsReport(g, st, p, ids, sc);
      forall i | 0 <= i < |p| ensures p[i] == fs[i] { }
    }
  }

  /** The formals' visits type only the formals' own symbols, and add no symbol to the
      store. */
  lemma {:induction false} LemmaFormalsFrame(g: Globals, st: Store, fs: seq<Formal>, ids: map<Uid, IdSymbol>, sc: ScopeStore)
    requires forall i :: 0 <= i < |fs| && fs[i].uid in ids ==> ids[fs[i].uid] in st
    ensures FormalsOutcome(g, st, fs, ids, sc).st.Keys == st.Keys
    ensures forall y :: y in st && (forall i :: 0 <= i < |fs| ==> Attached(ids, fs[i].uid) != Some(y)) ==>
      FormalsOutcome(g, st, fs, ids, sc).st[y] == st[y]
    decreases |fs|
  {
    if fs != [] {
      var p := fs[..|fs| - 1];
      forall i | 0 <= i < |p| ensures p[i] == fs[i] { }
      LemmaFormalsFrame(g, st, p, ids, sc);
    }
  }

  /** Once a formal's visit has thrown, the later formals are not visited. */
  lemma {:induction false} LemmaFormalsStop(g: Globals, st: Store, fs: seq<Formal>, k: nat, ids: map<Uid, IdSymbol>, sc: ScopeStore)
    requires k <= |fs| && FormalsOutcome(g, st, fs[..k], ids, sc).crashed
    ensures FormalsOutcome(g, st, fs, ids, sc) == FormalsOutcome(g, st, fs[..k], ids, sc)
    decreases |fs| - k
  {
    if k < |fs| {
      var p := fs[..|fs| - 1];
      assert p[..k] == fs[..k];
      LemmaFormalsStop(g, st, p, k, ids, sc);
    } else {
      assert fs[..k] == fs;
    }
  }

  // ----- attributes -----

  /** The parent name of the class a symbol's recorded scope is, if it is one. */
  ghost function OwnerParent(xs: Option<Scope>): Option<Name>
    reads if xs.Some? && xs.value.InClass? then {xs.value.c} else {}
  {
    if xs.Some? && xs.value.InClass? then xs.value.c.parentName else None
  }

  function AttrTypeMsg(cls: Name, a: Name, t: Name): string {
    "Class " + cls + " has attribute " + a + " with undefined type " + t
  }

  function AttrInitMsg(t: Name, a: Name, declared: Name): string {
    "Type " + t + " of initialization expression of attribute " + a + " is incompatible with declared type " + declared
  }

  /** An initializer of known type whose join with the declared type is not the declared
      type is reported. */
  function InitMsgs(g: Globals, self: Option<Name>, a: Name, declared: Name, t: Option<Name>): seq<string> {
    if t.Some? && Join(g, Some(declared), t, self) != Some(declared) then [AttrInitMsg(t.value, a, declared)] else []
  }

  /** `visit(Attr)` in the current scope `cur`, seen through `c`, for an attribute whose
      identifier holds `x`, recording scope `xs`; `ownerParent` is the parent name of
      that scope's class.  The inherited-redefinition check runs first (it throws on a
      scope that is not a class); an undefined type is reported in the name of the
      current class (a current scope that is not a class makes that cast throw);
      otherwise the symbol receives the declared type, the initializer is resolved and
      checked against it, and the declared type is the result. */
  function AttrOutcome(c: Ctx, cur: Scope, st: Store, a: Feature, x: Option<IdSymbol>, xs: Option<Scope>,
                       ownerParent: Option<Name>): (r: Outcome)
    requires a.Attr?
    ensures r.crashed <==> ((x.Some? && !(xs.Some? && xs.value.InClass?))
      || (x.Some? && xs.Some? && xs.value.InClass? && AttributeVerdict(c.g, xs.value.c.name, ownerParent, a.name).ok
          && a.typ !in c.g && !cur.InClass?))
    ensures r.t.Some? <==> (x.Some? && xs.Some? && xs.value.InClass?
      && AttributeVerdict(c.g, xs.value.c.name, ownerParent, a.name).ok && a.typ in c.g)
    ensures r.t.Some? ==> r.t == Some(a.typ) && !r.crashed
    ensures r.t.None? ==> r.st == st && |r.msgs| <= 1
  {
    if x.None? then Outcome(None, [], st, false)
    else if !(xs.Some? && xs.value.InClass?) then Outcome(None, [], st, true)
    else AttrChecked(c, cur, st, a, x.value, xs.value.c.name, ownerParent)
  }

  /** An attribute whose symbol's scope is the class `owner`: the inherited-redefinition
      check, then the declared type and the initializer. */
  function AttrChecked(c: Ctx, cur: Scope, st: Store, a: Feature, x: IdSymbol, owner: Name,
                       ownerParent: Option<Name>): (r: Outcome)
    requires a.Attr?
    ensures r.crashed <==> AttributeVerdict(c.g, owner, ownerParent, a.name).ok && a.typ !in c.g && !cur.InClass?
    ensures r.t.Some? <==> AttributeVerdict(c.g, owner, ownerParent, a.name).ok && a.typ in c.g
    ensures !AttributeVerdict(c.g, owner, ownerParent, a.name).ok ==> r.msgs == AttributeVerdict(c.g, owner, ownerParent, a.name).msgs
  {
    var v := AttributeVerdict(c.g, owner, ownerParent, a.name);
    if !v.ok then Outcome(None, v.msgs, st, false)
    else AttrTyped(c, cur, st, a, x)
  }

  /** An attribute that passed the inheritance check: its declared type, then its
      initializer. */
  function AttrTyped(c: Ctx, cur: Scope, st: Store, a: Feature, x: IdSymbol): (r: Outcome)
    requires a.Attr?
    ensures r.crashed <==> a.typ !in c.g && !cur.InClass?
    ensures r.t.Some? <==> a.typ in c.g
    ensures r.t.Some? ==> r.t == Some(a.typ) && !r.crashed
    ensures r.t.None? ==> r.st == st && |r.msgs| <= 1
  {
    if a.typ !in c.g then
      if cur.InClass? then Outcome(None, [AttrTypeMsg(cur.c.name, a.name, a.typ)], st, false)
      else Outcome(None, [], st, true)
    else
      var st1 := st[x := Some(a.typ)];
      if a.init.None? then Outcome(Some(a.typ), [], st1, false)
      else
        var ri := Resolve(c, st1, a.init.value);
        Outcome(Some(a.typ), ri.msgs + InitMsgs(c.g, c.self, a.name, a.typ, ri.t), ri.st, false)
  }

  /** An initializer whose class lies below the declared type draws no diagnostic, and
      on a hierarchy where the walk from the declared type ends only such an
      initializer (or any, when the declared type is Object) is accepted. */
  lemma LemmaInitConforms(g: Globals, e: Name, a: Name, declared: Name, t: Name)
    requires declared != "SELF_TYPE" && t != "SELF_TYPE" && Ends(g, Some(declared))
    ensures Reach(g, Some(t), declared) ==> InitMsgs(g, Some(e), a, declared, Some(t)) == []
    ensures InitMsgs(g, Some(e), a, declared, Some(t)) == [] ==> Reach(g, Some(t), declared) || declared == "Object"
  {
    LemmaJoinConforms(g, declared, t, e);
  }

  // ----- methods -----

  function UndefinedReturnMsg(cls: Name, m: Name, t: Name): string {
    "Class " + cls + " has method " + m + " with undefined return type " + t
  }

  /** The names of the formals, in order: what `reportParameterTypeError` scans. */
  function FormalNames(fs: seq<Formal>): (ns: seq<Name>)
    ensures |ns| == |fs| && forall i :: 0 <= i < |fs| ==> ns[i] == fs[i].name
  {
    seq(|fs|, i requires 0 <= i < |fs| => fs[i].name)
  }

  /** What follows the formals of a method of class `c.self`, once the override check
      has given its verdict `v`: a failed check is reported, otherwise the body is
      resolved. */
  function MethodTail(c: Ctx, st: Store, f: Feature, v: Verdict): (r: Outcome)
    requires f.Method? && c.self.Some?
    ensures r.t.Some? ==> v.ok && !r.crashed && Join(c.g, Some(f.returnType), r.t, c.self) == Some(f.returnType)
  {
    if !v.ok then Outcome(None, v.msgs, st, false)
    else BodyOutcome(c, st, f)
  }

  /** A method's body, then the body's type against the declared return type. */
  function BodyOutcome(c: Ctx, st: Store, f: Feature): (r: Outcome)
    requires f.Method? && c.self.Some?
    ensures r.t.Some? ==> (!r.crashed && r.t == Resolve(c, st, f.body).t
      && Join(c.g, Some(f.returnType), r.t, c.self) == Some(f.returnType))
    ensures r.crashed <==> (Resolve(c, st, f.body).t.Some? && Join(c.g, Some(f.returnType), Resolve(c, st, f.body).t, c.self).None?)
  {
    var rb := Resolve(c, st, f.body);
    if rb.t.None? then Outcome(None, rb.msgs, rb.st, false)
    else
      var rc := ReturnCheck(c.g, f, c.self, rb.t.value, rb.st);
      Outcome(rc.t, rb.msgs + rc.msgs, rc.st, rc.crashed)
  }

  /** The type `bt` of a method's body against the declared return type.  The source
      dereferences the join, so a missing join throws; a body outside the declared type
      is reported. */
  function ReturnCheck(g: Globals, f: Feature, self: Option<Name>, bt: Name, st: Store): (r: Outcome)
    requires f.Method?
    ensures r.st == st
    ensures r.crashed <==> Join(g, Some(f.returnType), Some(bt), self).None?
    ensures r.t.Some? <==> (!r.crashed && Join(g, Some(f.returnType), Some(bt), self) == Some(f.returnType))
    ensures r.t.Some? ==> r.t == Some(bt) && r.msgs == []
  {
    if Join(g, Some(f.returnType), Some(bt), self).None? then Outcome(None, [], st, true)
    else
      var w := IsCompatibleReturnType(g, f.returnType, bt, self, f.name);
      Outcome(if w.ok then Some(bt) else None, w.msgs, st, false)
  }

  /** `visit(Method)` once `m` is the current method: an undefined return type is
      reported before anything else is visited; otherwise the formals are visited, and
      the rest follows unless one of them throws.  `vis` is what the method's scope
      sees. */
  function MethodOutcome(g: Globals, ids: map<Uid, IdSymbol>, vis: map<Name, Symbol>, st: Store, sc: ScopeStore,
                         f: Feature, m: MethodSymbol, layouts: Layouts, layout: MethodLayout): (r: Outcome)
    requires f.Method?
    ensures f.returnType !in g ==> r == Outcome(None, [UndefinedReturnMsg(m.parent.name, f.name, f.returnType)], st, false)
    ensures r.t.Some? ==> (f.returnType in g && !r.crashed
      && Join(g, Some(f.returnType), r.t, Some(m.parent.name)) == Some(f.returnType))
  {
    if f.returnType !in g then Outcome(None, [UndefinedReturnMsg(m.parent.name, f.name, f.returnType)], st, false)
    else MethodSteps(g, ids, vis, st, sc, f, m, layouts, layout)
  }

  /** A method with a defined return type: the formals, then, unless one of them threw,
      the override check and the body. */
  function MethodSteps(g: Globals, ids: map<Uid, IdSymbol>, vis: map<Name, Symbol>, st: Store, sc: ScopeStore,
                       f: Feature, m: MethodSymbol, layouts: Layouts, layout: MethodLayout): (r: Outcome)
    requires f.Method?
    ensures FormalsOutcome(g, st, f.formals, ids, sc).crashed ==> r == FormalsOutcome(g, st, f.formals, ids, sc)
    ensures r.t.Some? ==> (!r.crashed && Join(g, Some(f.returnType), r.t, Some(m.parent.name)) == Some(f.returnType))
  {
    var rf := FormalsOutcome(g, st, f.formals, ids, sc);
    if rf.crashed then rf
    else
      var cls := m.parent.name;
      var v := OverrideVerdict(g, SigsFrom(layouts, rf.st), cls, cls, f.name, SigFrom(layout, rf.st), FormalNames(f.formals));
      var rt := MethodTail(Ctx(g, vis, Some(cls), ids), rf.st, f, v);
      Outcome(rt.t, rf.msgs + rt.msgs, rt.st, rt.crashed)
  }

  /** A method that types has a body whose class lies below the declared return type,
      or the declared type is Object, on a hierarchy where the walk from the declared
      type ends. */
  lemma LemmaMethodConforms(g: Globals, ids: map<Uid, IdSymbol>, vis: map<Name, Symbol>, st: Store, sc: ScopeStore,
                            f: Feature, m: MethodSymbol, layouts: Layouts, layout: MethodLayout)
    requires f.Method? && f.returnType != "SELF_TYPE" && Ends(g, Some(f.returnType))
    requires MethodOutcome(g, ids, vis, st, sc, f, m, layouts, layout).t.Some?
    requires MethodOutcome(g, ids, vis, st, sc, f, m, layouts, layout).t != Some("SELF_TYPE")
    ensures var t := MethodOutcome(g, ids, vis, st, sc, f, m, layouts, layout).t.value;
      Reach(g, Some(t), f.returnType) || f.returnType == "Object"
  {
    var t := MethodOutcome(g, ids, vis, st, sc, f, m, layouts, layout).t.value;
    LemmaJoinConforms(g, f.returnType, t, m.parent.name);
  }
  // ----- classes -----

  /** Whether `visit(Class)` goes on to the features, and what it reports before. */
  datatype Gate = Gate(visit: bool, msgs: seq<string>)

  function CycleMsg(name: Name): string {
    "Inheritance cycle for class " + name
  }

  function UndefinedParentMsg(name: Name, parent: Name): string {
    "Class " + name + " has undefined parent " + parent
  }

  /** `visit(Class)` before the features: a non-inheritable parent skips the class
      silently; otherwise a cycle through the class, and then an undefined parent, skip it
      with one diagnostic; and a class that is not registered under its name is skipped
      too. */
  ghost function ClassGate(g: Globals, cl: Class): (r: Gate)
    ensures |r.msgs| <= 1 && (r.visit ==> r.msgs == [])
  {
    if cl.inherit.None? then Gate(cl.name in g, [])
    else
      var p := cl.inherit.value;
      if p in NonInheritable then Gate(false, [])
      else if Reach(g, Find(g, Some(p)), cl.name) then Gate(false, [CycleMsg(cl.name)])
      else if p !in g then Gate(false, [UndefinedParentMsg(cl.name, p)])
      else Gate(cl.name in g, [])
  }

  /** A class's features are visited exactly when it is registered under its name and
      its parent, if it names one, is inheritable, registered, and not below the class
      itself. */
  lemma LemmaClassGate(g: Globals, cl: Class)
    ensures ClassGate(g, cl).visit <==> (cl.name in g
      && (cl.inherit.Some? ==> (cl.inherit.value !in NonInheritable && cl.inherit.value in g
          && !Reach(g, Some(cl.inherit.value), cl.name))))
  {
  }
}
