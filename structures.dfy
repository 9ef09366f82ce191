/** The symbol and scope model (package `cool.structures`).

    Java's `Scope` interface is implemented by three unrelated classes; here the three
    classes are Dafny classes and a scope is a tagged reference to one of them.  A
    `DefaultScope` (a `let` or `case` scope, or the global scope) and a `MethodSymbol`
    delegate unresolved names outward; a `ClassSymbol` never does, because its `parent`
    field is never assigned in the source (ClassSymbol.java:5). */
module Structures {
  import opened Base

  /** A reference to an object that implements `Scope`. */
  datatype Scope = Default(d: DefaultScope) | InClass(c: ClassSymbol) | InMethod(m: MethodSymbol)

  /** A reference to a `Symbol` stored in a scope's table. */
  datatype Symbol = IdSym(id: IdSymbol) | ClassSym(cls: ClassSymbol) | MethodSym(meth: MethodSymbol)
  {
    /** `getName()`: every symbol's name is fixed when it is created. */
    function GetName(): Name {
      match this
      case IdSym(i) => i.name
      case ClassSym(c) => c.name
      case MethodSym(m) => m.name
    }
  }

  /** A variable, attribute, formal or case-variable symbol.  Its mutable cells, the
      static type and the scope that declared it, are kept by the symbol table, keyed by
      the symbol (`SymbolTable.types` and `SymbolTable.scopes`). */
  class IdSymbol {
    const name: Name

    /** `new IdSymbol(name)`. */
    constructor (name: Name)
      ensures this.name == name
    {
      this.name := name;
    }
  }

  /** A class: its parent's name (resolved lazily through the global scope), and the
      tables of attributes and of methods.  Both are `LinkedHashMap`s in the source, but
      no code reads their order, so they are maps here. */
  class ClassSymbol {
    const name: Name
    var parentName: Option<Name>
    var attributes: map<Name, Symbol>
    var methods: map<Name, MethodSymbol>

    constructor (name: Name, parentName: Option<Name>)
      ensures this.name == name && this.parentName == parentName
      ensures attributes == map[] && methods == map[]
    {
      this.name := name;
      this.parentName := parentName;
      attributes := map[];
      methods := map[];
    }

    function GetParentName(): (r: Option<Name>)
      reads this`parentName
      ensures r == parentName
    {
      parentName
    }

    /** Overwrites the parent's name and nothing else. */
    method SetParentName(p: Name)
      modifies this`parentName
      ensures parentName == Some(p)
    {
      parentName := Some(p);
    }

    predicate HasAttribute(n: Name)
      reads this`attributes
    {
      n in attributes
    }

    /** Inserts an attribute unless one of that name is already present. */
    method AddAttribute(sym: Symbol) returns (ok: bool)
      modifies this`attributes
      ensures ok <==> sym.GetName() !in old(attributes)
      ensures attributes == if ok then old(attributes)[sym.GetName() := sym] else old(attributes)
    {
      if sym.GetName() in attributes {
        return false;
      }
      attributes := attributes[sym.GetName() := sym];
      return true;
    }

    /** `Scope.add`: exactly `addAttribute`. */
    method Add(sym: Symbol) returns (ok: bool)
      modifies this`attributes
      ensures ok <==> sym.GetName() !in old(attributes)
      ensures attributes == if ok then old(attributes)[sym.GetName() := sym] else old(attributes)
    {
      ok := AddAttribute(sym);
    }

    /** `lookup`: the attribute (or built-in method, see SymbolTable) of that name.  The
        delegation to `parent` never happens, since `parent` is always null. */
    function Lookup(n: Name): (r: Option<Symbol>)
      reads this`attributes
      ensures r.Some? <==> n in attributes
      ensures r.Some? ==> r.value == attributes[n]
    {
      if n in attributes then Some(attributes[n]) else None
    }

    /** `getParent`: always null (the field is never assigned). */
    function GetParent(): (r: Option<Scope>)
      ensures r == None
    {
      None
    }

    function LookupMethodLocal(n: Name): (r: Option<MethodSymbol>)
      reads this`methods
      ensures r.Some? <==> n in methods
      ensures r.Some? ==> r.value == methods[n]
    {
      if n in methods then Some(methods[n]) else None
    }

    /** `lookupMethod`: recursion into `parent` happens only when `parent` is a class,
        which it never is, so only the local method table is consulted. */
    function LookupMethod(n: Name): (r: Option<MethodSymbol>)
      reads this`methods
      ensures r == LookupMethodLocal(n)
    {
      if n in methods then Some(methods[n]) else None
    }

    /** Inserts a method unless one of that name is already present; the attribute
        table is not touched. */
    method AddMethod(m: MethodSymbol) returns (ok: bool)
      modifies this`methods
      ensures ok <==> m.name !in old(methods)
      ensures methods == if ok then old(methods)[m.name := m] else old(methods)
    {
      if m.name in methods {
        return false;
      }
      methods := methods[m.name := m];
      return true;
    }
  }

  /** A method: its owning class (final), its declared return-type name (final) and the
      ordered table of formal parameters. */
  class MethodSymbol {
    const name: Name
    const parent: ClassSymbol
    const returnType: Name
    var parameters: Table<IdSymbol>

    constructor (name: Name, parent: ClassSymbol, returnType: Name)
      ensures this.name == name && this.parent == parent && this.returnType == returnType
      ensures parameters == EmptyTable()
    {
      this.name := name;
      this.parent := parent;
      this.returnType := returnType;
      parameters := EmptyTable();
    }

    function GetReturnType(): (r: Name)
      ensures r == returnType
    {
      returnType
    }

    /** `getParameters`: the formals in declaration order. */
    function GetParameters(): (r: seq<IdSymbol>)
      reads this`parameters
      requires parameters.Valid()
      ensures |r| == |parameters.keys|
      ensures forall i :: 0 <= i < |r| ==> r[i] == parameters.entries[parameters.keys[i]]
    {
      var t := parameters;
      seq(|t.keys|, i requires 0 <= i < |t.keys| && t.keys[i] in t.entries => t.entries[t.keys[i]])
    }

    /** Inserts a formal unless one of that name is already present. */
    method Add(sym: IdSymbol) returns (ok: bool)
      requires parameters.Valid()
      modifies this`parameters
      ensures parameters.Valid()
      ensures ok <==> sym.name !in old(parameters.entries)
      ensures parameters == if ok then old(parameters).Put(sym.name, sym) else old(parameters)
    {
      if parameters.Has(sym.name) {
        return false;
      }
      parameters := parameters.Put(sym.name, sym);
      return true;
    }

    /** `lookup`: a formal shadows any attribute of the same name; otherwise the owning
        class is asked. */
    function Lookup(n: Name): (r: Option<Symbol>)
      reads this`parameters, parent`attributes
      ensures n in parameters.entries ==> r == Some(IdSym(parameters.entries[n]))
      ensures n !in parameters.entries ==> r == parent.Lookup(n)
    {
      match parameters.Get(n)
      case Some(p) => Some(IdSym(p))
      case None => parent.Lookup(n)
    }

    /** `getParent`: the owner given to the constructor. */
    function GetParent(): (r: Scope)
      ensures r == InClass(parent)
    {
      InClass(parent)
    }
  }

  /** A scope that holds names and delegates to its parent: the global scope (no parent)
      and every `let` and `case` scope.  Its `LinkedHashMap` is a map: no code reads
      the order. */
  class DefaultScope {
    const parent: Option<Scope>
    ghost const depth: nat
    /** The scope objects on the chain above this one, by class. */
    ghost const outerScopes: set<DefaultScope>
    ghost const outerClasses: set<ClassSymbol>
    ghost const outerMethods: set<MethodSymbol>
    var symbols: map<Name, Symbol>

    constructor (parent: Option<Scope>)
      requires parent.Some? ==> ChainOk(parent.value)
      ensures this.parent == parent && symbols == map[]
      ensures ChainOk(Default(this))
    {
      this.parent := parent;
      depth := if parent.Some? then Depth(parent.value) + 1 else 0;
      outerScopes := if parent.Some? then ChainScopes(parent.value) else {};
      outerClasses := if parent.Some? then ChainClasses(parent.value) else {};
      outerMethods := if parent.Some? then ChainMethods(parent.value) else {};
      symbols := map[];
    }

    /** Inserts a symbol unless one of that name is already present here. */
    method Add(sym: Symbol) returns (ok: bool)
      modifies this`symbols
      ensures ok <==> sym.GetName() !in old(symbols)
      ensures symbols == if ok then old(symbols)[sym.GetName() := sym] else old(symbols)
    {
      if sym.GetName() in symbols {
        return false;
      }
      symbols := symbols[sym.GetName() := sym];
      return true;
    }
  }

  /** The length of the walk from a scope to the end of its `getParent` chain bounds
      every outward walk. */
  ghost function Depth(s: Scope): nat {
    match s
    case InClass(_) => 0
    case InMethod(_) => 1
    case Default(d) => d.depth
  }

  /** Every parent along the chain is strictly shallower, and each scope records the
      objects above it; this rests on constant fields only, so once a scope is built it
      stays well-formed. */
  ghost predicate ChainOk(s: Scope)
    decreases Depth(s)
  {
    match s
    case Default(d) =>
      if d.parent.Some? then
        && Depth(d.parent.value) < d.depth && ChainOk(d.parent.value)
        && d.outerScopes == ChainScopes(d.parent.value)
        && d.outerClasses == ChainClasses(d.parent.value)
        && d.outerMethods == ChainMethods(d.parent.value)
      else d.outerScopes == {} && d.outerClasses == {} && d.outerMethods == {}
    case _ => true
  }

  /** `getParent` of any scope. */
  function GetParentScope(s: Scope): (r: Option<Scope>)
    ensures s.InClass? ==> r == None
    ensures s.InMethod? ==> r == Some(InClass(s.m.parent))
    ensures s.Default? ==> r == s.d.parent
    ensures ChainOk(s) && r.Some? ==> Depth(r.value) < Depth(s) && ChainOk(r.value)
  {
    match s
    case InClass(c) => c.GetParent()
    case InMethod(m) => Some(m.GetParent())
    case Default(d) => d.parent
  }

  /** The objects a lookup from `s` may read, by class: the `let` and `case` scopes on
      the chain, and the class and method at its root.  They are recorded in constant
      fields as each scope is created. */
  ghost function ChainScopes(s: Scope): set<DefaultScope> {
    match s
    case Default(d) => {d} + d.outerScopes
    case _ => {}
  }

  ghost function ChainClasses(s: Scope): set<ClassSymbol> {
    match s
    case InClass(c) => {c}
    case InMethod(m) => {m.parent}
    case Default(d) => d.outerClasses
  }

  ghost function ChainMethods(s: Scope): set<MethodSymbol> {
    match s
    case InClass(c) => {}
    case InMethod(m) => {m}
    case Default(d) => d.outerMethods
  }

  /** The binding `s` holds itself, without asking any enclosing scope. */
  function LocalGet(s: Scope, n: Name): (r: Option<Symbol>)
    reads match s case Default(d) => {d} case InClass(c) => {c} case InMethod(m) => {m}
  {
    match s
    case Default(d) => if n in d.symbols then Some(d.symbols[n]) else None
    case InClass(c) => c.Lookup(n)
    case InMethod(m) => match m.parameters.Get(n) case Some(p) => Some(IdSym(p)) case None => None
  }

  /** `currentScope.lookup(n)`: the innermost binding of `n` on the chain from `s`. */
  function LookupIn(s: Scope, n: Name): (r: Option<Symbol>)
    requires ChainOk(s)
    reads ChainScopes(s), ChainClasses(s), ChainMethods(s)
    decreases Depth(s)
  {
    match s
    case InClass(c) => c.Lookup(n)
    case InMethod(m) => m.Lookup(n)
    case Default(d) =>
      if n in d.symbols then Some(d.symbols[n])
      else if d.parent.Some? then LookupIn(d.parent.value, n) else None
  }

  /** The first scope on the `getParent` chain from `s` that is a class, if any: the class
      that `self` denotes. */
  function EnclosingClass(s: Scope): (r: Option<ClassSymbol>)
    requires ChainOk(s)
    decreases Depth(s)
  {
    match s
    case InClass(c) => Some(c)
    case InMethod(m) => Some(m.parent)
    case Default(d) => if d.parent.Some? then EnclosingClass(d.parent.value) else None
  }

  /** Lookup walks outward: a name bound in the scope itself is found there, shadowing
      every enclosing binding; otherwise the answer is the enclosing scope's. */
  lemma LemmaLookupWalksOutward(s: Scope, n: Name)
    requires ChainOk(s)
    ensures LocalGet(s, n).Some? ==> LookupIn(s, n) == LocalGet(s, n)
    ensures LocalGet(s, n).None? && GetParentScope(s).Some? ==> LookupIn(s, n) == LookupIn(GetParentScope(s).value, n)
    ensures LocalGet(s, n).None? && GetParentScope(s).None? ==> LookupIn(s, n) == None
  {
  }

  /** The scope reached from `s` after `k` steps along the `getParent` chain. */
  ghost function Ancestor(s: Scope, k: nat): (r: Option<Scope>)
    requires ChainOk(s)
    ensures r.Some? ==> ChainOk(r.value)
    decreases k
  {
    if k == 0 then Some(s)
    else match GetParentScope(s)
      case Some(p) => Ancestor(p, k - 1)
      case None => None
  }

  /** The `k`-th scope out from `s` binds `n`, and no scope before it does. */
  ghost predicate InnermostAt(s: Scope, n: Name, k: nat)
    requires ChainOk(s)
    reads *
  {
    && Ancestor(s, k).Some?
    && LocalGet(Ancestor(s, k).value, n).Some?
    && forall j :: 0 <= j < k ==> Ancestor(s, j).Some? && LocalGet(Ancestor(s, j).value, n).None?
  }

  /** Lookup walks outward and stops at the innermost scope that binds the name. */
  lemma {:induction false} LemmaLookupFindsInnermost(s: Scope, n: Name)
    requires ChainOk(s)
    ensures LookupIn(s, n).Some? ==>
      exists k: nat :: InnermostAt(s, n, k) && LocalGet(Ancestor(s, k).value, n) == LookupIn(s, n)
    decreases Depth(s)
  {
    if LookupIn(s, n).Some? {
      if LocalGet(s, n).Some? {
        assert Ancestor(s, 0) == Some(s);
        assert InnermostAt(s, n, 0);
      } else {
        match s
        case InClass(c) =>
        case InMethod(m) =>
          var p := InClass(m.parent);
          assert Ancestor(s, 1) == Some(p);
          assert Ancestor(s, 0) == Some(s);
          assert LocalGet(p, n) == LookupIn(s, n);
          assert InnermostAt(s, n, 1);
        case Default(d) =>
          assert d.parent.Some?;
          var p := d.parent.value;
          assert LookupIn(s, n) == LookupIn(p, n);
          LemmaLookupFindsInnermost(p, n);
          var k: nat :| InnermostAt(p, n, k) && LocalGet(Ancestor(p, k).value, n) == LookupIn(p, n);
          assert Ancestor(s, k + 1) == Ancestor(p, k);
          forall j | 0 <= j < k + 1
            ensures Ancestor(s, j).Some? && LocalGet(Ancestor(s, j).value, n).None?
          {
            if j > 0 { assert Ancestor(s, j) == Ancestor(p, j - 1); }
          }
          assert InnermostAt(s, n, k + 1);
      }
    }
  }

  /** A fresh scope that holds nothing resolves every name as its parent does. */
  lemma LemmaEmptyScopeDelegates(d: DefaultScope, n: Name)
    requires ChainOk(Default(d)) && d.parent.Some? && d.symbols == map[]
    ensures LookupIn(Default(d), n) == LookupIn(d.parent.value, n)
  {
  }

  /** Every name a lookup from `s` resolves, with the symbol it resolves to: a formal
      shadows an attribute, and a nested scope's own names shadow the enclosing ones. */
  ghost function Visible(s: Scope): map<Name, Symbol>
    requires ChainOk(s)
    reads ChainScopes(s), ChainClasses(s), ChainMethods(s)
    decreases Depth(s)
  {
    match s
    case InClass(c) => c.attributes
    case InMethod(m) => m.parent.attributes + map n | n in m.parameters.entries :: IdSym(m.parameters.entries[n])
    case Default(d) => (if d.parent.Some? then Visible(d.parent.value) else map[]) + d.symbols
  }

  /** What a scope sees depends only on the objects along its chain. */
  twostate lemma LemmaVisibleKept(s: Scope)
    requires ChainOk(s)
    requires unchanged(ChainScopes(s)) && unchanged(ChainClasses(s)) && unchanged(ChainMethods(s))
    ensures Visible(s) == old(Visible(s))
  {
  }

  /** `lookup` resolves exactly the visible names, to the visible symbols. */
  lemma {:induction false} LemmaLookupVisible(s: Scope, n: Name)
    requires ChainOk(s)
    ensures LookupIn(s, n).Some? <==> n in Visible(s)
    ensures LookupIn(s, n).Some? ==> LookupIn(s, n).value == Visible(s)[n]
    decreases Depth(s)
  {
    match s
    case InClass(c) =>
    case InMethod(m) =>
    case Default(d) =>
      if n !in d.symbols && d.parent.Some? {
        LemmaLookupVisible(d.parent.value, n);
      }
  }
}
