/** The semantic rules (`RulesChecker`).  Each check returns its verdict together with
    the diagnostics it would report through `SymbolTable.error`; the caller reports
    them.  Checks that consult `globals` through class names work on the snapshot
    `Globals`; checks that consult the current scope read the scope objects. */
module RulesChecker {
  import opened Base
  import opened Structures
  import opened Hierarchy

  /** The outcome of a check and the diagnostics it issues, in order. */
  datatype Verdict = Verdict(ok: bool, msgs: seq<string>)

  /** Classes no class may inherit from. */
  const NonInheritable: seq<Name> := ["Int", "String", "Bool", "SELF_TYPE"]

  /** `checkClassName`, run while `currentScope` is the global scope, whose lookup finds
      exactly the classes in it (`known`).  SELF_TYPE is refused before redefinition is
      looked at. */
  function CheckClassName(known: set<Name>, name: Name): (v: Verdict)
    ensures !v.ok <==> name == "SELF_TYPE" || name in known
    ensures |v.msgs| == if v.ok then 0 else 1
    ensures name == "SELF_TYPE" ==> v.msgs == ["Class has illegal name SELF_TYPE"]
    ensures name != "SELF_TYPE" && !v.ok ==> v.msgs == ["Class " + name + " is redefined"]
  {
    if name == "SELF_TYPE" then Verdict(false, ["Class has illegal name SELF_TYPE"])
    else if name in known then Verdict(false, ["Class " + name + " is redefined"])
    else Verdict(true, [])
  }

  /** `checkParentName`. */
  function CheckParentName(name: Name, parent: Name): (v: Verdict)
    ensures !v.ok <==> parent in NonInheritable
    ensures v.msgs == if v.ok then [] else ["Class " + name + " has illegal parent " + parent]
  {
    if parent in NonInheritable then Verdict(false, ["Class " + name + " has illegal parent " + parent])
    else Verdict(true, [])
  }

  /** `isParentClassDefined`. */
  function IsParentClassDefined(g: Globals, name: Name, parent: Name): (v: Verdict)
    ensures !v.ok <==> parent !in g
    ensures v.msgs == if v.ok then [] else ["Class " + name + " has undefined parent " + parent]
  {
    if parent !in g then Verdict(false, ["Class " + name + " has undefined parent " + parent])
    else Verdict(true, [])
  }

  /** `checkInheritanceCycle`: false exactly when the walk from the declared parent
      comes back to the class itself.  The walk visits at most `|g| + 1` classes (see
      the finding on `CycleWalkAsWritten`). */
  method CheckInheritanceCycle(g: Globals, name: Name, parent: Name) returns (v: Verdict)
    ensures v.ok <==> !Reach(g, Find(g, Some(parent)), name)
    ensures v.msgs == if v.ok then [] else ["Inheritance cycle for class " + name]
  {
    var parentSym := Find(g, Some(parent));
    ghost var start := parentSym;
    LemmaFirstIn(g, start, {name});
    var steps := 0;
    while parentSym.Some? && steps <= |g|
      invariant steps <= |g| + 1
      invariant FirstIn(g, parentSym, {name}, |g| + 1 - steps) == FirstIn(g, start, {name}, |g| + 1)
      decreases |g| + 1 - steps
    {
      if parentSym.value == name {
        return Verdict(false, ["Inheritance cycle for class " + name]);
      }
      parentSym := Next(g, parentSym.value);
      steps := steps + 1;
    }
    LemmaFirstInNone(g, start, {name}, name);
    return Verdict(true, []);
  }

  /** The name of the class that encloses a scope, found by `getCommonParrent`'s walk
      up the `getParent` chain. */
  function EnclosingName(scope: Option<Scope>): (r: Option<Name>)
    requires scope.Some? ==> ChainOk(scope.value)
  {
    if scope.None? then None
    else match EnclosingClass(scope.value)
      case Some(c) => Some(c.name)
      case None => None
  }

  /** The first loop of `getCommonParrent`: the classes met walking up from `a`. */
  method AncestorsOf(g: Globals, a: Name) returns (ancestors: set<Name>)
    ensures ancestors == AncestorSet(g, Some(a))
  {
    ancestors := {};
    var current := Some(a);
    var steps := 0;
    while current.Some? && steps <= |g|
      invariant steps <= |g| + 1
      invariant ancestors + Collect(g, current, |g| + 1 - steps) == AncestorSet(g, Some(a))
      decreases |g| + 1 - steps
    {
      ancestors := ancestors + {current.value};
      current := Next(g, current.value);
      steps := steps + 1;
    }
  }

  /** The second loop of `getCommonParrent`: the first class met walking up from `b`
      that lies in `ancestors`. */
  method FirstAncestorIn(g: Globals, b: Name, ancestors: set<Name>) returns (r: Option<Name>)
    ensures r == FirstIn(g, Some(b), ancestors, |g| + 1)
  {
    var current := Some(b);
    var steps := 0;
    while current.Some? && steps <= |g|
      invariant steps <= |g| + 1
      invariant FirstIn(g, current, ancestors, |g| + 1 - steps) == FirstIn(g, Some(b), ancestors, |g| + 1)
      decreases |g| + 1 - steps
    {
      if current.value in ancestors {
        return current;
      }
      current := Next(g, current.value);
      steps := steps + 1;
    }
    return None;
  }

  /** `getCommonParrent`: the join of two static types seen from `scope`. */
  method GetCommonParent(g: Globals, c1: Option<Name>, c2: Option<Name>, scope: Option<Scope>) returns (r: Option<Name>)
    requires scope.Some? ==> ChainOk(scope.value)
    ensures r == Join(g, c1, c2, EnclosingName(scope))
  {
    var cur := scope;
    while !(cur.Some? && cur.value.InClass?)
      invariant cur.Some? ==> ChainOk(cur.value)
      invariant EnclosingName(cur) == EnclosingName(scope)
      decreases if cur.Some? then Depth(cur.value) + 1 else 0
    {
      if cur.None? {
        return None;
      }
      cur := GetParentScope(cur.value);
    }
    var enclosing := cur.value.c.name;
    if c1.None? || c2.None? {
      return None;
    }
    if c1.value == c2.value {
      return c1;
    }
    var a := ResolveSelf(c1.value, enclosing);
    var b := ResolveSelf(c2.value, enclosing);

    var ancestors := AncestorsOf(g, a);
    var common := FirstAncestorIn(g, b, ancestors);
    if common.Some? {
      return common;
    }
    return Find(g, Some("Object"));
  }

  /** Some class on the walk from `s` has an attribute (or built-in method) named `n`. */
  ghost predicate InheritsName(g: Globals, s: Option<Name>, n: Name) {
    exists y :: Reach(g, s, y) && y in g && n in g[y].attributes
  }

  /** The classes whose attribute table binds `n`. */
  function Binding(g: Globals, n: Name): set<Name> {
    set y | y in g && n in g[y].attributes
  }

  /** `checkAttributeResolution`: an attribute with no symbol is refused silently; one
      that a proper ancestor (reached from the owner's `parentName`) already binds is
      refused with one diagnostic. */
  method CheckAttributeResolution(g: Globals, hasSymbol: bool, owner: Name, ownerParent: Option<Name>, attr: Name)
    returns (v: Verdict)
    ensures v == if hasSymbol then AttributeVerdict(g, owner, ownerParent, attr) else Verdict(false, [])
  {
    if !hasSymbol {
      return Verdict(false, []);
    }
    ghost var start := Find(g, ownerParent);
    ghost var S := Binding(g, attr);
    if ownerParent.Some? {
      var parent := Find(g, ownerParent);
      var steps := 0;
      while parent.Some? && steps <= |g|
        invariant steps <= |g| + 1
        invariant parent.Some? ==> parent.value in g
        invariant FirstIn(g, parent, S, |g| + 1 - steps) == FirstIn(g, start, S, |g| + 1)
        decreases |g| + 1 - steps
      {
        if attr in g[parent.value].attributes {
          return Verdict(false, ["Class " + owner + " redefines inherited attribute " + attr]);
        }
        parent := Next(g, parent.value);
        steps := steps + 1;
      }
    }
    return Verdict(true, []);
  }

  /** The bounded walk finds a class binding `n` exactly when some class on the walk
      binds it. */
  lemma LemmaInheritsFirstIn(g: Globals, s: Option<Name>, n: Name)
    ensures InheritsName(g, s, n) <==> FirstIn(g, s, Binding(g, n), |g| + 1).Some?
  {
    var S := Binding(g, n);
    LemmaFirstIn(g, s, S);
    if y :| Reach(g, s, y) && y in g && n in g[y].attributes {
      var k: nat :| Up(g, s, k) == Some(y);
      assert Up(g, s, k).value in S;
    }
    if FirstIn(g, s, S, |g| + 1).Some? {
      var k: nat :| FirstInAt(g, s, S, k) && Up(g, s, k) == FirstIn(g, s, S, |g| + 1);
      assert Reach(g, s, Up(g, s, k).value);
    }
  }

  /** The verdict `checkAttributeResolution` reaches on an attribute that has a symbol
      owned by class `owner`. */
  function AttributeVerdict(g: Globals, owner: Name, ownerParent: Option<Name>, attr: Name): (v: Verdict)
    ensures v.msgs == if v.ok then [] else ["Class " + owner + " redefines inherited attribute " + attr]
  {
    if FirstIn(g, Find(g, ownerParent), Binding(g, attr), |g| + 1).Some? then
      Verdict(false, ["Class " + owner + " redefines inherited attribute " + attr])
    else Verdict(true, [])
  }

  /** An attribute is refused exactly when a class above its owner already binds the
      name. */
  lemma LemmaAttributeVerdict(g: Globals, owner: Name, ownerParent: Option<Name>, attr: Name)
    ensures AttributeVerdict(g, owner, ownerParent, attr).ok <==> !InheritsName(g, Find(g, ownerParent), attr)
  {
    LemmaInheritsFirstIn(g, Find(g, ownerParent), attr);
  }

  /** `checkMethodDefinition`: a method name already in the method table of the class
      (`declared`) is a redefinition. */
  function CheckMethodDefinition(className: Name, declared: set<Name>, methodName: Name): (v: Verdict)
    ensures !v.ok <==> methodName in declared
    ensures v.msgs == if v.ok then [] else ["Class " + className + " redefines method " + methodName]
  {
    if methodName in declared then Verdict(false, ["Class " + className + " redefines method " + methodName])
    else Verdict(true, [])
  }

  /** `checkFormalDefinition` for method `methodName` of class `className`, whose table
      already holds the formals `declared`: the name self, a name already declared, and
      the type SELF_TYPE are refused, checked in that order. */
  function CheckFormalDefinition(methodName: Name, className: Name, declared: set<Name>, formal: Name, typ: Name): (v: Verdict)
    ensures v.ok <==> formal != "self" && formal !in declared && typ != "SELF_TYPE"
    ensures |v.msgs| == if v.ok then 0 else 1
    ensures formal == "self" ==> v.msgs == ["Method " + methodName + " of class " + className + " has formal parameter with illegal name self"]
    ensures formal != "self" && formal in declared ==>
      v.msgs == ["Method " + methodName + " of class " + className + " redefines formal parameter " + formal]
    ensures formal != "self" && formal !in declared && typ == "SELF_TYPE" ==>
      v.msgs == ["Method " + methodName + " of class " + className + " has formal parameter " + formal + " with illegal type SELF_TYPE"]
  {
    var prefix := "Method " + methodName + " of class " + className;
    if formal == "self" then Verdict(false, [prefix + " has formal parameter with illegal name self"])
    else if formal in declared then Verdict(false, [prefix + " redefines formal parameter " + formal])
    else if typ == "SELF_TYPE" then Verdict(false, [prefix + " has formal parameter " + formal + " with illegal type SELF_TYPE"])
    else Verdict(true, [])
  }

  /** `checkFormalResolution`: the formal's type must be a registered class. */
  function CheckFormalResolution(g: Globals, methodName: Name, className: Name, formal: Name, typ: Name): (v: Verdict)
    ensures !v.ok <==> typ !in g
    ensures v.msgs == if v.ok then [] else
      ["Method " + methodName + " of class " + className + " has formal parameter " + formal + " with undefined type " + typ]
  {
    if typ !in g then
      Verdict(false, ["Method " + methodName + " of class " + className + " has formal parameter " + formal + " with undefined type " + typ])
    else Verdict(true, [])
  }

  // ----- overriding -----

  /** The result of `MethodSymbol.compare`: compatible, a different number of formals,
      or the first formal (named as in the overriding method) whose type differs. */
  datatype Mismatch = Compatible | ArityDiffers | ParamDiffers(param: Name, oldType: string, newType: string)

  /** A static type as `compare` spells it; an unset type reads "null". */
  function TypeText(t: Option<Name>): string {
    if t.None? then "null" else t.value
  }

  /** The first position from `i` on where the two formal lists disagree on a type. */
  function FirstTypeClash(xs: seq<Param>, ys: seq<Param>, i: nat): (r: Option<nat>)
    requires |xs| == |ys| && i <= |xs|
    ensures r.Some? ==> i <= r.value < |xs| && xs[r.value].typ != ys[r.value].typ
    ensures r.Some? ==> forall j :: i <= j < r.value ==> xs[j].typ == ys[j].typ
    ensures r.None? ==> forall j :: i <= j < |xs| ==> xs[j].typ == ys[j].typ
    decreases |xs| - i
  {
    if i == |xs| then None
    else if xs[i].typ != ys[i].typ then Some(i)
    else FirstTypeClash(xs, ys, i + 1)
  }

  /** `overridden.compare(current)`. */
  function Compare(overridden: MethodSig, current: MethodSig): (r: Mismatch)
    ensures r == Compatible <==> (|overridden.params| == |current.params| &&
      forall j :: 0 <= j < |current.params| ==> overridden.params[j].typ == current.params[j].typ)
    ensures r == ArityDiffers <==> |overridden.params| != |current.params|
    ensures r.ParamDiffers? ==> exists j :: (0 <= j < |current.params| && r.param == current.params[j].name
      && r.oldType == TypeText(overridden.params[j].typ) && r.newType == TypeText(current.params[j].typ))
  {
    if |overridden.params| != |current.params| then ArityDiffers
    else match FirstTypeClash(overridden.params, current.params, 0)
      case None => Compatible
      case Some(j) => ParamDiffers(current.params[j].name, TypeText(overridden.params[j].typ), TypeText(current.params[j].typ))
  }

  /** A method compared with itself is compatible. */
  lemma LemmaCompareSelf(m: MethodSig)
    ensures Compare(m, m) == Compatible
  {
  }

  /** The method named `methodName` in the method table of class `n`, if any. */
  function MethodOf(mt: MethodTables, n: Name, methodName: Name): (r: Option<MethodSig>)
    ensures r.Some? <==> n in mt && methodName in mt[n]
    ensures r.Some? ==> r.value == mt[n][methodName]
  {
    if n in mt && methodName in mt[n] then Some(mt[n][methodName]) else None
  }

  /** A method `current` may not override `overridden`. */
  predicate Clashes(overridden: MethodSig, current: MethodSig) {
    Compare(overridden, current) != Compatible || current.returnType != overridden.returnType
  }

  /** The classes whose method `methodName` `current` may not override. */
  function ClashSet(mt: MethodTables, methodName: Name, current: MethodSig): set<Name> {
    set n | n in mt && methodName in mt[n] && Clashes(mt[n][methodName], current)
  }

  function ArityMsg(className: Name, methodName: Name): string {
    "Class " + className + " overrides method " + methodName + " with different number of formal parameters"
  }

  function ParamTypeMsg(className: Name, methodName: Name, param: Name, oldType: string, newType: string): string {
    "Class " + className + " overrides method " + methodName + " but changes type of formal parameter " + param
      + " from " + oldType + " to " + newType
  }

  function ReturnTypeMsg(className: Name, methodName: Name, oldType: Name, newType: Name): string {
    "Class " + className + " overrides method " + methodName + " but changes return type from " + oldType + " to " + newType
  }

  /** `reportParameterTypeError`: the diagnostic is issued once, for the first formal of
      the overriding method whose name is the one `compare` named. */
  method ReportParameterTypeError(className: Name, methodName: Name, m: Mismatch, formals: seq<Name>)
    returns (msgs: seq<string>)
    requires m.ParamDiffers?
    ensures msgs == if m.param in formals then [ParamTypeMsg(className, methodName, m.param, m.oldType, m.newType)] else []
  {
    for i := 0 to |formals|
      invariant m.param !in formals[..i]
    {
      if formals[i] == m.param {
        return [ParamTypeMsg(className, methodName, m.param, m.oldType, m.newType)];
      }
    }
    assert formals[..|formals|] == formals;
    return [];
  }

  /** The diagnostics a clash with `overridden` produces. */
  function ClashMsgs(className: Name, methodName: Name, overridden: MethodSig, current: MethodSig, formals: seq<Name>): seq<string> {
    match Compare(overridden, current)
    case ArityDiffers => [ArityMsg(className, methodName)]
    case ParamDiffers(p, o, n) => if p in formals then [ParamTypeMsg(className, methodName, p, o, n)] else []
    case Compatible => [ReturnTypeMsg(className, methodName, overridden.returnType, current.returnType)]
  }

  /** What `checkMethodOverride` decides: the first class on the walk from the owner
      whose method of that name clashes with `current` is reported. */
  function OverrideVerdict(g: Globals, mt: MethodTables, owner: Name, className: Name, methodName: Name, current: MethodSig, formals: seq<Name>): Verdict {
    match FirstIn(g, Some(owner), ClashSet(mt, methodName, current), |g| + 1)
    case None => Verdict(true, [])
    case Some(x) => Verdict(false, ClashMsgs(className, methodName, mt[x][methodName], current, formals))
  }

  /** `checkMethodOverride`: walks from the method's own class up the `parentName`
      chain and stops at the first method of that name that differs in arity, in a
      formal's type or in the return type. */
  method CheckMethodOverride(g: Globals, mt: MethodTables, owner: Name, className: Name, methodName: Name, current: MethodSig, formals: seq<Name>)
    returns (v: Verdict)
    ensures v == OverrideVerdict(g, mt, owner, className, methodName, current, formals)
  {
    ghost var S := ClashSet(mt, methodName, current);
    var currentClass := Some(owner);
    var steps := 0;
    while currentClass.Some? && steps <= |g|
      invariant steps <= |g| + 1
      invariant FirstIn(g, currentClass, S, |g| + 1 - steps) == FirstIn(g, Some(owner), S, |g| + 1)
      decreases |g| + 1 - steps
    {
      var overridden := MethodOf(mt, currentClass.value, methodName);
      if overridden.Some? {
        var comparison := Compare(overridden.value, current);
        if comparison != Compatible {
          if comparison == ArityDiffers {
            return Verdict(false, [ArityMsg(className, methodName)]);
          }
          var msgs := ReportParameterTypeError(className, methodName, comparison, formals);
          return Verdict(false, msgs);
        }
        if current.returnType != overridden.value.returnType {
          return Verdict(false, [ReturnTypeMsg(className, methodName, overridden.value.returnType, current.returnType)]);
        }
      }
      currentClass := Next(g, currentClass.value);
      steps := steps + 1;
    }
    return Verdict(true, []);
  }

  /** The override check passes exactly when no class on the owner's walk holds a method
      of that name that `current` may not override; a failure reports at most one
      diagnostic, and exactly one unless a formal-type clash names a formal the method
      does not list. */
  lemma LemmaOverrideVerdict(g: Globals, mt: MethodTables, owner: Name, className: Name, methodName: Name, current: MethodSig, formals: seq<Name>)
    ensures var v := OverrideVerdict(g, mt, owner, className, methodName, current, formals);
      && (v.ok <==> forall y :: Reach(g, Some(owner), y) && MethodOf(mt, y, methodName).Some? ==> !Clashes(MethodOf(mt, y, methodName).value, current))
      && |v.msgs| <= 1
      && (v.ok ==> v.msgs == [])
      && ((forall p :: p in current.params ==> p.name in formals) && !v.ok ==> |v.msgs| == 1)
  {
    var S := ClashSet(mt, methodName, current);
    LemmaFirstIn(g, Some(owner), S);
    var v := OverrideVerdict(g, mt, owner, className, methodName, current, formals);
    if !v.ok {
      var k: nat :| FirstInAt(g, Some(owner), S, k) && Up(g, Some(owner), k) == FirstIn(g, Some(owner), S, |g| + 1);
      var x := Up(g, Some(owner), k).value;
      assert Reach(g, Some(owner), x);
      assert MethodOf(mt, x, methodName).Some? && Clashes(MethodOf(mt, x, methodName).value, current);
    } else {
      forall y | Reach(g, Some(owner), y) && MethodOf(mt, y, methodName).Some?
        ensures !Clashes(MethodOf(mt, y, methodName).value, current)
      {
        var k: nat :| Up(g, Some(owner), k) == Some(y);
        assert !(Up(g, Some(owner), k).Some? && Up(g, Some(owner), k).value in S);
      }
    }
  }

  /** `isCompatibleReturnType`: the body's type joins with the declared type to the
      declared type.  The join must exist, or the source dereferences null. */
  function IsCompatibleReturnType(g: Globals, declared: Name, actual: Name, enclosing: Option<Name>, methodName: Name): (v: Verdict)
    requires Join(g, Some(declared), Some(actual), enclosing).Some?
    ensures v.ok <==> Join(g, Some(declared), Some(actual), enclosing) == Some(declared)
    ensures v.msgs == if v.ok then [] else
      ["Type " + actual + " of the body of method " + methodName + " is incompatible with declared return type " + declared]
  {
    if declared != Join(g, Some(declared), Some(actual), enclosing).value then
      Verdict(false, ["Type " + actual + " of the body of method " + methodName + " is incompatible with declared return type " + declared])
    else Verdict(true, [])
  }

  /** A body whose class lies below the declared return type is accepted, and on a
      hierarchy with no cycle above the declared type only such a body (or one joined
      to the Object fallback) is. */
  lemma LemmaReturnTypeConforms(g: Globals, declared: Name, actual: Name, e: Name, methodName: Name)
    requires declared != "SELF_TYPE" && actual != "SELF_TYPE"
    requires Ends(g, Some(declared))
    requires Join(g, Some(declared), Some(actual), Some(e)).Some?
    ensures Reach(g, Some(actual), declared) ==> IsCompatibleReturnType(g, declared, actual, Some(e), methodName).ok
    ensures IsCompatibleReturnType(g, declared, actual, Some(e), methodName).ok ==> Reach(g, Some(actual), declared) || declared == "Object"
  {
    LemmaJoinConforms(g, declared, actual, e);
  }

  // ----- the parent walks as the source writes them -----

  /** The walk `while (current != null) { if (<in S>) return current; current = lookup(parent) }`
      of `checkInheritanceCycle` and of the second loop of `getCommonParrent`, with no
      bound on the number of steps: after `fuel` steps it has stopped with its answer
      (`Some`), or it is still running (`None`). */
  function FirstInAsWritten(g: Globals, cur: Option<Name>, S: set<Name>, fuel: nat): Option<Option<Name>>
    decreases fuel
  {
    if cur.None? then Some(None)
    else if cur.value in S then Some(cur)
    else if fuel == 0 then None
    else FirstInAsWritten(g, Next(g, cur.value), S, fuel - 1)
  }

  /** The first loop of `getCommonParrent` with no bound: the names collected once the
      walk reaches null, or `None` while it is still running. */
  function CollectAsWritten(g: Globals, cur: Option<Name>, fuel: nat): Option<set<Name>>
    decreases fuel
  {
    if cur.None? then Some({})
    else if fuel == 0 then None
    else match CollectAsWritten(g, Next(g, cur.value), fuel - 1)
      case None => None
      case Some(rest) => Some({cur.value} + rest)
  }

  /** `checkInheritanceCycle` as written: `Some(ok)` once its loop has stopped. */
  function CycleCheckAsWritten(g: Globals, name: Name, parent: Name, fuel: nat): Option<bool> {
    match FirstInAsWritten(g, Find(g, Some(parent)), {name}, fuel)
    case None => None
    case Some(found) => Some(found.None?)
  }

  /** `getCommonParrent` as written: `Some(result)` once both loops have stopped. */
  function JoinAsWritten(g: Globals, c1: Option<Name>, c2: Option<Name>, enclosing: Option<Name>, fuel: nat): Option<Option<Name>> {
    if enclosing.None? || c1.None? || c2.None? then Some(None)
    else if c1.value == c2.value then Some(c1)
    else
      var a := ResolveSelf(c1.value, enclosing.value);
      var b := ResolveSelf(c2.value, enclosing.value);
      match CollectAsWritten(g, Some(a), fuel)
      case None => None
      case Some(ancestors) =>
        match FirstInAsWritten(g, Some(b), ancestors, fuel)
        case None => None
        case Some(None) => Some(Find(g, Some("Object")))
        case Some(found) => Some(found)
  }

  lemma {:induction false} LemmaFirstInAsWrittenFuel(g: Globals, s: Option<Name>, S: set<Name>, fuel: nat, f: nat)
    requires FirstInAsWritten(g, s, S, fuel).Some? && f > fuel
    ensures FirstIn(g, s, S, f) == FirstInAsWritten(g, s, S, fuel).value
    decreases fuel
  {
    if s.Some? && s.value !in S {
      LemmaFirstInAsWrittenFuel(g, Next(g, s.value), S, fuel - 1, f - 1);
    }
  }

  /** A search whose budget covers the first member of `S` on the walk finds it. */
  lemma {:induction false} LemmaFirstInAtFound(g: Globals, s: Option<Name>, S: set<Name>, k: nat, f: nat)
    requires FirstInAt(g, s, S, k) && k < f
    ensures FirstIn(g, s, S, f) == Up(g, s, k)
    decreases k
  {
    if k > 0 {
      assert !(Up(g, s, 0).Some? && Up(g, s, 0).value in S);
      var t := Next(g, s.value);
      forall j | 0 <= j < k - 1
        ensures !(Up(g, t, j).Some? && Up(g, t, j).value in S)
      {
        assert Up(g, s, j + 1) == Up(g, t, j);
        assert !(Up(g, s, j + 1).Some? && Up(g, s, j + 1).value in S);
      }
      assert Up(g, s, k) == Up(g, t, k - 1);
      LemmaFirstInAtFound(g, t, S, k - 1, f - 1);
    }
  }

  /** Search budgets beyond `|g| + 1` change nothing. */
  lemma LemmaFirstInStable(g: Globals, s: Option<Name>, S: set<Name>, f: nat)
    requires f >= |g| + 1
    ensures FirstIn(g, s, S, f) == FirstIn(g, s, S, |g| + 1)
  {
    LemmaFirstInFuel(g, s, S, f);
    LemmaFirstInFuel(g, s, S, |g| + 1);
    LemmaFirstIn(g, s, S);
    if FirstIn(g, s, S, |g| + 1).Some? {
      var k: nat :| k < |g| + 1 && FirstInAt(g, s, S, k) && Up(g, s, k) == FirstIn(g, s, S, |g| + 1);
      LemmaFirstInAtFound(g, s, S, k, f);
    }
  }

  /** Wherever the unbounded walk stops, the bounded one gives the same answer. */
  lemma LemmaFirstInAsWrittenAgrees(g: Globals, s: Option<Name>, S: set<Name>, fuel: nat)
    requires FirstInAsWritten(g, s, S, fuel).Some?
    ensures FirstInAsWritten(g, s, S, fuel).value == FirstIn(g, s, S, |g| + 1)
  {
    var f := if fuel + 1 > |g| + 1 then fuel + 1 else |g| + 1;
    LemmaFirstInAsWrittenFuel(g, s, S, fuel, f);
    LemmaFirstInStable(g, s, S, f);
  }

  lemma {:induction false} LemmaCollectAsWrittenFuel(g: Globals, s: Option<Name>, fuel: nat, f: nat)
    requires CollectAsWritten(g, s, fuel).Some? && f > fuel
    ensures Collect(g, s, f) == CollectAsWritten(g, s, fuel).value
    decreases fuel
  {
    if s.Some? {
      LemmaCollectAsWrittenFuel(g, Next(g, s.value), fuel - 1, f - 1);
    }
  }

  /** Collecting beyond `|g| + 1` visits adds nothing. */
  lemma LemmaCollectStable(g: Globals, s: Option<Name>, f: nat)
    requires f >= |g| + 1
    ensures Collect(g, s, f) == AncestorSet(g, s)
  {
    forall x
      ensures x in Collect(g, s, f) <==> x in AncestorSet(g, s)
    {
      LemmaAncestorSet(g, s, x);
      if x in Collect(g, s, f) {
        var k := LemmaCollectSound(g, s, f, x);
      }
      if x in AncestorSet(g, s) {
        var k: nat :| Up(g, s, k) == Some(x);
        var m := LemmaReachWithinBound(g, s, x, k);
        LemmaCollectComplete(g, s, f, x, m);
      }
    }
  }

  /** Wherever the unbounded first loop stops, it has collected the ancestor set. */
  lemma LemmaCollectAsWrittenAgrees(g: Globals, s: Option<Name>, fuel: nat)
    requires CollectAsWritten(g, s, fuel).Some?
    ensures CollectAsWritten(g, s, fuel).value == AncestorSet(g, s)
  {
    var f := if fuel + 1 > |g| + 1 then fuel + 1 else |g| + 1;
    LemmaCollectAsWrittenFuel(g, s, fuel, f);
    LemmaCollectStable(g, s, f);
  }

  /** The bounded checks differ from the source only where the source does not stop. */
  lemma LemmaCycleCheckAgrees(g: Globals, name: Name, parent: Name, fuel: nat)
    requires CycleCheckAsWritten(g, name, parent, fuel).Some?
    ensures CycleCheckAsWritten(g, name, parent, fuel).value <==> !Reach(g, Find(g, Some(parent)), name)
  {
    var s := Find(g, Some(parent));
    LemmaFirstInAsWrittenAgrees(g, s, {name}, fuel);
    LemmaFirstIn(g, s, {name});
    if FirstIn(g, s, {name}, |g| + 1).None? {
      LemmaFirstInNone(g, s, {name}, name);
    } else {
      var k: nat :| FirstInAt(g, s, {name}, k) && Up(g, s, k) == FirstIn(g, s, {name}, |g| + 1);
    }
  }

  lemma LemmaJoinAgrees(g: Globals, c1: Option<Name>, c2: Option<Name>, enclosing: Option<Name>, fuel: nat)
    requires JoinAsWritten(g, c1, c2, enclosing, fuel).Some?
    ensures JoinAsWritten(g, c1, c2, enclosing, fuel).value == Join(g, c1, c2, enclosing)
  {
    if enclosing.Some? && c1.Some? && c2.Some? && c1.value != c2.value {
      var a := ResolveSelf(c1.value, enclosing.value);
      var b := ResolveSelf(c2.value, enclosing.value);
      LemmaCollectAsWrittenAgrees(g, Some(a), fuel);
      LemmaFirstInAsWrittenAgrees(g, Some(b), AncestorSet(g, Some(a)), fuel);
    }
  }

  // ----- a hierarchy on which the source does not stop -----

  /** `class A inherits B {}  class B inherits C {}  class C inherits B {}`, with Int:
      B and C form a cycle that A hangs from. */
  const CyclicHierarchy: Globals := map[
    "Object" := ClassInfo(None, {}),
    "Int" := ClassInfo(Some("Object"), {}),
    "A" := ClassInfo(Some("B"), {}),
    "B" := ClassInfo(Some("C"), {}),
    "C" := ClassInfo(Some("B"), {})]

  /** `class B inherits C {}`, `class C inherits B {}` and `class D {}`, with the basic
      classes the join needs. */
  const JoinHierarchy: Globals := map[
    "Object" := ClassInfo(None, {}),
    "Int" := ClassInfo(Some("Object"), {}),
    "B" := ClassInfo(Some("C"), {}),
    "C" := ClassInfo(Some("B"), {}),
    "D" := ClassInfo(Some("Object"), {})]

  /** B and C are each other's parents in `g`. */
  ghost predicate BCCycle(g: Globals) {
    Next(g, "B") == Some("C") && Next(g, "C") == Some("B")
  }

  lemma {:induction false} LemmaCycleWalkRuns(g: Globals, cur: Name, S: set<Name>, fuel: nat)
    requires BCCycle(g) && (cur == "B" || cur == "C") && "B" !in S && "C" !in S
    ensures FirstInAsWritten(g, Some(cur), S, fuel).None?
    ensures CollectAsWritten(g, Some(cur), fuel).None?
    decreases fuel
  {
    if fuel > 0 {
      var next := if cur == "B" then "C" else "B";
      LemmaCycleWalkRuns(g, next, S, fuel - 1);
    }
  }

  /** The cycle check of A never stops in the source. */
  lemma LemmaCycleCheckRunsForever(fuel: nat)
    ensures CycleCheckAsWritten(CyclicHierarchy, "A", "B", fuel).None?
  {
    assert Next(CyclicHierarchy, "B") == Some("C") && Next(CyclicHierarchy, "C") == Some("B");
    LemmaCycleWalkRuns(CyclicHierarchy, "B", {"A"}, fuel);
  }

  lemma {:induction false} LemmaCycleWalkStays(g: Globals, k: nat)
    requires BCCycle(g)
    ensures Up(g, Some("B"), k) == Some("B") || Up(g, Some("B"), k) == Some("C")
  {
    if k > 0 {
      LemmaCycleWalkStays(g, k - 1);
      LemmaUpStep(g, Some("B"), k - 1);
    }
  }

  /** The bounded check accepts A, which lies on no cycle, and rejects B. */
  lemma LemmaCycleCheckExample()
    ensures !Reach(CyclicHierarchy, Find(CyclicHierarchy, Some("B")), "A")
    ensures Reach(CyclicHierarchy, Find(CyclicHierarchy, Some("C")), "B")
  {
    forall k: nat
      ensures Up(CyclicHierarchy, Some("B"), k) != Some("A")
    {
      LemmaCycleWalkStays(CyclicHierarchy, k);
    }
    assert Up(CyclicHierarchy, Some("C"), 1) == Some("B");
  }

  /** The attribute `x : B <- 5` of class D asks for the join of B and Int, which never
      returns in the source. */
  lemma LemmaJoinRunsForever(fuel: nat)
    ensures JoinAsWritten(JoinHierarchy, Some("B"), Some("Int"), Some("D"), fuel).None?
  {
    assert Next(JoinHierarchy, "B") == Some("C") && Next(JoinHierarchy, "C") == Some("B");
    LemmaCycleWalkRuns(JoinHierarchy, "B", {}, fuel);
  }

  /** The bounded join of B and Int falls back to Object. */
  lemma LemmaJoinExample()
    ensures Join(JoinHierarchy, Some("B"), Some("Int"), Some("D")) == Some("Object")
  {
    var g := JoinHierarchy;
    assert Next(g, "B") == Some("C") && Next(g, "C") == Some("B");
    forall x
      ensures x in AncestorSet(g, Some("B")) <==> x == "B" || x == "C"
    {
      LemmaAncestorSet(g, Some("B"), x);
      if x in AncestorSet(g, Some("B")) {
        var k: nat :| Up(g, Some("B"), k) == Some(x);
        LemmaCycleWalkStays(g, k);
      }
      assert Up(g, Some("B"), 1) == Some("C");
    }
    assert Up(g, Some("Int"), 1) == Some("Object");
    assert Up(g, Some("Int"), 2) == None;
    forall k: nat
      ensures !(Up(g, Some("Int"), k).Some? && Up(g, Some("Int"), k).value in AncestorSet(g, Some("B")))
    {
      if k >= 2 {
        LemmaUpNoneStays(g, Some("Int"), 2, k);
      }
    }
    LemmaFirstIn(g, Some("Int"), AncestorSet(g, Some("B")));
  }
}
