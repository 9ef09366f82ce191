/** `SymbolTable`: the global scope, the basic classes, and the error sink.

    The source keeps these in static fields; here they are the fields of one object
    that both passes share.  The same object records the symbols the passes attach to
    AST identifiers (`Id.setSymbol`), keyed by the node's uid.  Ghost footprints name
    the registered classes, the methods in their method tables, and every identifier
    symbol those tables or the attachments reach. */
module SymbolTables {
  import opened Base
  import opened Structures
  import opened Hierarchy
  import opened Ast

  /** The type each identifier symbol holds; a symbol outside the store has none. */
  type Store = map<IdSymbol, Option<Name>>

  /** The scope each identifier symbol records; a symbol outside the store has none. */
  type ScopeStore = map<IdSymbol, Option<Scope>>

  function TypeOf(st: Store, x: IdSymbol): Option<Name> {
    if x in st then st[x] else None
  }

  /** A method as the definition pass leaves it: the symbols of its formals, in
      declaration order, and its return type.  Only the formals' types change later. */
  datatype MethodLayout = MethodLayout(params: seq<IdSymbol>, returnType: Name)

  /** The method tables of the registered classes, by class name, as layouts. */
  type Layouts = map<Name, map<Name, MethodLayout>>

  /** The signature of a method whose formals hold the types of `st`. */
  function SigFrom(s: MethodLayout, st: Store): (sig: MethodSig)
    ensures sig.returnType == s.returnType && |sig.params| == |s.params|
    ensures forall j :: 0 <= j < |s.params| ==> sig.params[j] == Param(s.params[j].name, TypeOf(st, s.params[j]))
  {
    MethodSig(seq(|s.params|, j requires 0 <= j < |s.params| => Param(s.params[j].name, TypeOf(st, s.params[j]))), s.returnType)
  }

  /** Every method table as signatures, under the types of `st`. */
  function SigsFrom(sh: Layouts, st: Store): (mt: MethodTables)
    ensures mt.Keys == sh.Keys
    ensures forall n :: n in sh ==> mt[n].Keys == sh[n].Keys
  {
    map n | n in sh :: map k | k in sh[n] :: SigFrom(sh[n][k], st)
  }

  /** The names of the built-in methods of Object, IO and String. */
  const ObjectMethods: set<Name> := {"abort", "type_name", "copy"}
  const IOMethods: set<Name> := {"out_string", "out_int", "in_string", "in_int"}
  const StringMethods: set<Name> := {"length", "concat", "substr"}

  /** The classes `defineBasicClasses` registers, with the names it puts in each
      attribute table (the built-in methods are added with `add`, which is
      `addAttribute`). */
  const BasicHierarchy: Globals := map[
    "Object" := ClassInfo(None, ObjectMethods),
    "IO" := ClassInfo(Some("Object"), IOMethods),
    "Int" := ClassInfo(Some("Object"), {}),
    "String" := ClassInfo(Some("Object"), StringMethods),
    "Bool" := ClassInfo(Some("Object"), {})]

  /** A basic class as `defineBasicClasses` leaves it: its name and parent, an empty
      method table, and its built-in methods, all in the attribute table. */
  ghost predicate Builtin(c: ClassSymbol, name: Name, parent: Option<Name>, methodNames: set<Name>)
    reads c
  {
    && c.name == name && c.parentName == parent && c.methods == map[]
    && c.attributes.Keys == methodNames
    && forall n :: n in c.attributes ==> c.attributes[n].MethodSym?
  }

  /** The signature `defineBasicClasses` gives a built-in method: its return type and
      its formals' names and types, in order. */
  datatype BuiltinSig = BuiltinSig(returnType: Name, formals: seq<(Name, Name)>)

  const ObjectSigs: map<Name, BuiltinSig> := map[
    "abort" := BuiltinSig("Object", []),
    "type_name" := BuiltinSig("String", []),
    "copy" := BuiltinSig("Object", [])]
  const IOSigs: map<Name, BuiltinSig> := map[
    "out_string" := BuiltinSig("IO", [("x", "String")]),
    "out_int" := BuiltinSig("IO", [("x", "String")]),
    "in_string" := BuiltinSig("String", []),
    "in_int" := BuiltinSig("Int", [])]
  const StringSigs: map<Name, BuiltinSig> := map[
    "length" := BuiltinSig("Int", []),
    "concat" := BuiltinSig("String", [("s", "String")]),
    "substr" := BuiltinSig("String", [("i", "Int"), ("l", "Int")])]

  /** Method `m`, named `n` and owned by `c`, has signature `sig`: its return type, its
      formals in order, and each formal's type in `st`. */
  ghost predicate HasSignature(m: MethodSymbol, c: ClassSymbol, n: Name, sig: BuiltinSig, st: Store)
    reads m
  {
    && m.name == n && m.parent == c && m.returnType == sig.returnType
    && m.parameters.keys == seq(|sig.formals|, j requires 0 <= j < |sig.formals| => sig.formals[j].0)
    && forall j :: 0 <= j < |sig.formals| ==>
         sig.formals[j].0 in m.parameters.entries && TypeOf(st, m.parameters.entries[sig.formals[j].0]) == Some(sig.formals[j].1)
  }

  /** The method symbols in `c`'s attribute table. */
  ghost function MethodObjects(c: ClassSymbol): set<MethodSymbol>
    reads c
  {
    set n | n in c.attributes && c.attributes[n].MethodSym? :: c.attributes[n].meth
  }

  /** Every entry of `c`'s attribute table is a method with the signature `sigs` gives it,
      and `sigs` names no other. */
  ghost predicate Signatures(c: ClassSymbol, sigs: map<Name, BuiltinSig>, st: Store)
    reads c, MethodObjects(c)
  {
    && c.attributes.Keys == sigs.Keys
    && forall n :: n in c.attributes ==>
         c.attributes[n].MethodSym? && HasSignature(c.attributes[n].meth, c, n, sigs[n], st)
  }

  // ----- the text of a diagnostic -----

  /** Where a diagnostic points: the path recorded for the file that defines the
      enclosing class, and the token's line and 0-based column. */
  datatype Position = Position(path: string, line: nat, column: nat)

  /** `new File(path).getName()`: the text after the last separator. */
  function BaseName(path: string): (r: string)
    ensures '/' !in r
    ensures |r| <= |path| && r == path[|path| - |r|..]
    ensures |r| < |path| ==> path[|path| - |r| - 1] == '/'
  {
    if path == [] || path[|path| - 1] == '/' then []
    else BaseName(path[..|path| - 1]) + [path[|path| - 1]]
  }

  predicate IsDigit(ch: char) {
    '0' <= ch <= '9'
  }

  /** The character of a decimal digit. */
  function DigitChar(d: nat): (ch: char)
    requires d < 10
    ensures IsDigit(ch) && ch as int - '0' as int == d
  {
    ('0' as int + d) as char
  }

  /** Java's decimal rendering of an `int` that is not negative. */
  function Decimal(n: nat): (r: string)
    ensures |r| >= 1 && forall i :: 0 <= i < |r| ==> IsDigit(r[i])
    ensures r[0] == '0' ==> n == 0 && r == "0"
  {
    if n < 10 then [DigitChar(n)] else Decimal(n / 10) + [DigitChar(n % 10)]
  }

  /** The number a string of decimal digits denotes. */
  function DigitsValue(r: string): nat
    requires forall i :: 0 <= i < |r| ==> IsDigit(r[i])
  {
    if r == [] then 0
    else
      assert IsDigit(r[|r| - 1]);
      DigitsValue(r[..|r| - 1]) * 10 + (r[|r| - 1] as int - '0' as int)
  }

  /** Reading back a rendered number gives the number. */
  lemma {:induction false} LemmaDecimalRoundTrip(n: nat)
    ensures DigitsValue(Decimal(n)) == n
  {
    if n >= 10 {
      var r := Decimal(n);
      assert r[..|r| - 1] == Decimal(n / 10);
      LemmaDecimalRoundTrip(n / 10);
    }
  }

  /** Distinct numbers render differently. */
  lemma LemmaDecimalInjective(m: nat, n: nat)
    ensures Decimal(m) == Decimal(n) ==> m == n
  {
    LemmaDecimalRoundTrip(m);
    LemmaDecimalRoundTrip(n);
  }

  /** What every diagnostic's text starts its message with. */
  const ErrorTag: string := "Semantic error: "

  /** What `error` prints before the message: with a position, the quoted file name,
      the line and the 1-based column, then the tag; without one, only the tag. */
  function Lead(pos: Option<Position>): (r: string)
    ensures |r| >= |ErrorTag| && r[|r| - |ErrorTag|..] == ErrorTag
    ensures pos.None? <==> |r| == |ErrorTag|
  {
    match pos
    case None => ErrorTag
    case Some(p) =>
      var place := "\"" + BaseName(p.path) + "\", line " + Decimal(p.line) + ":" + Decimal(p.column + 1) + ", ";
      assert (place + ErrorTag)[|place|..] == ErrorTag;
      place + ErrorTag
  }

  /** The line `error` prints for the message `str`. */
  function Format(pos: Option<Position>, str: string): string {
    Lead(pos) + str
  }

  /** The text the pass reported ends every printed line, right after the tag; without
      a position the tag is all that precedes it. */
  lemma LemmaFormatEnds(pos: Option<Position>, str: string)
    ensures var r := Format(pos, str);
      && |r| >= |ErrorTag| + |str| && r[|r| - |str|..] == str
      && r[|r| - |str| - |ErrorTag|..|r| - |str|] == ErrorTag
      && (pos.None? <==> r == ErrorTag + str)
  {
    var r, lead := Format(pos, str), Lead(pos);
    assert r[|r| - |str|..] == str;
    assert r[|r| - |str| - |ErrorTag|..|r| - |str|] == lead[|lead| - |ErrorTag|..];
    if pos.None? {
      assert lead == ErrorTag;
    }
  }

  /** The message can be read back from the printed line. */
  lemma LemmaFormatInjective(pos: Option<Position>, s1: string, s2: string)
    ensures Format(pos, s1) == Format(pos, s2) ==> s1 == s2
  {
    if Format(pos, s1) == Format(pos, s2) {
      assert s1 == Format(pos, s1)[|Lead(pos)|..];
      assert s2 == Format(pos, s2)[|Lead(pos)|..];
    }
  }

  /** `st` keeps every type `st0` records. */
  ghost predicate Extends(st0: Store, st: Store) {
    forall x :: x in st0 ==> x in st && st[x] == st0[x]
  }

  /** `s` keeps the scope `s0` records for every symbol of `known`: a step that only
      scopes symbols it creates leaves the earlier ones as they were. */
  ghost predicate ScopesKept(s0: ScopeStore, s: ScopeStore, known: set<IdSymbol>) {
    forall x :: x in known && x in s0 ==> x in s && s[x] == s0[x]
  }

  /** A class's signatures survive any store that extends the one they were read in. */
  lemma LemmaSignaturesExtend(c: ClassSymbol, sigs: map<Name, BuiltinSig>, st0: Store, st: Store)
    requires Signatures(c, sigs, st0) && Extends(st0, st)
    ensures Signatures(c, sigs, st)
  {
    forall n | n in c.attributes
      ensures HasSignature(c.attributes[n].meth, c, n, sigs[n], st)
    {
      LemmaSignatureExtends(c.attributes[n].meth, c, n, sigs[n], st0, st);
    }
  }

  /** A method's signature survives any store that extends the one it was read in. */
  lemma LemmaSignatureExtends(m: MethodSymbol, c: ClassSymbol, n: Name, sig: BuiltinSig, st0: Store, st: Store)
    requires HasSignature(m, c, n, sig, st0) && Extends(st0, st)
    ensures HasSignature(m, c, n, sig, st)
  {
    forall j | 0 <= j < |sig.formals|
      ensures TypeOf(st, m.parameters.entries[sig.formals[j].0]) == Some(sig.formals[j].1)
    {
      assert TypeOf(st0, m.parameters.entries[sig.formals[j].0]) == Some(sig.formals[j].1);
    }
  }

  /** `new MethodSymbol(name, c, returnType)`, then `add(new IdSymbol(n, t))` for each
      formal `(n, t)` in order (the built-in methods have at most two); the formals'
      types are added to `st0`. */
  method NewBuiltinMethod(c: ClassSymbol, name: Name, sig: BuiltinSig, st0: Store)
    returns (m: MethodSymbol, st: Store)
    requires |sig.formals| <= 2 && (|sig.formals| == 2 ==> sig.formals[0].0 != sig.formals[1].0)
    ensures fresh(m) && HasSignature(m, c, name, sig, st) && Extends(st0, st)
  {
    var formals := sig.formals;
    m := new MethodSymbol(name, c, sig.returnType);
    st := st0;
    if |formals| >= 1 {
      var p := new IdSymbol(formals[0].0);
      var ok := m.Add(p);
      st := st[p := Some(formals[0].1)];
    }
    if |formals| == 2 {
      var p := new IdSymbol(formals[1].0);
      var ok := m.Add(p);
      st := st[p := Some(formals[1].1)];
    }
  }

  /** A class whose attribute table holds exactly the methods `sigs` names, each with
      its signature, has those signatures. */
  lemma LemmaSignaturesOf(c: ClassSymbol, sigs: map<Name, BuiltinSig>, methods: map<Name, MethodSymbol>, st: Store)
    requires methods.Keys == sigs.Keys
    requires c.attributes == map n | n in methods :: MethodSym(methods[n])
    requires forall n :: n in methods ==> HasSignature(methods[n], c, n, sigs[n], st)
    ensures Signatures(c, sigs, st)
  {
  }

  /** The three method symbols of Object, created in the order `defineBasicClasses`
      creates them. */
  method NewObjectMethods(c: ClassSymbol, st0: Store) returns (methods: map<Name, MethodSymbol>, st: Store)
    ensures methods.Keys == ObjectSigs.Keys == ObjectMethods && Extends(st0, st)
    ensures forall n :: n in methods ==> fresh(methods[n]) && HasSignature(methods[n], c, n, ObjectSigs[n], st)
  {
    var abortMethod, st1 := NewBuiltinMethod(c, "abort", ObjectSigs["abort"], st0);
    var typeNameMethod, st2 := NewBuiltinMethod(c, "type_name", ObjectSigs["type_name"], st1);
    var copyMethod, st3 := NewBuiltinMethod(c, "copy", ObjectSigs["copy"], st2);
    st := st3;
    methods := map["abort" := abortMethod, "type_name" := typeNameMethod, "copy" := copyMethod];
  }

  /** Object and its methods abort, type_name and copy. */
  method DefineObjectClass(st0: Store) returns (c: ClassSymbol, st: Store)
    ensures fresh(c) && Builtin(c, "Object", None, ObjectMethods)
    ensures Signatures(c, ObjectSigs, st) && Extends(st0, st)
  {
    c := new ClassSymbol("Object", None);
    var methods;
    methods, st := NewObjectMethods(c, st0);
    AddObjectMethods(c, methods);
    LemmaSignaturesOf(c, ObjectSigs, methods, st);
  }

  /** The three `c.add` calls that put Object's methods in its attribute table. */
  method AddObjectMethods(c: ClassSymbol, methods: map<Name, MethodSymbol>)
    requires c.attributes == map[] && methods.Keys == ObjectMethods
    requires forall n :: n in methods ==> methods[n].name == n
    modifies c`attributes
    ensures c.attributes == map n | n in methods :: MethodSym(methods[n])
  {
    var ok := c.Add(MethodSym(methods["abort"]));
    ok := c.Add(MethodSym(methods["type_name"]));
    ok := c.Add(MethodSym(methods["copy"]));
  }

  /** The four method symbols of IO, created in the order `defineBasicClasses` creates
      them. */
  method NewIOMethods(c: ClassSymbol, st0: Store) returns (methods: map<Name, MethodSymbol>, st: Store)
    ensures methods.Keys == IOSigs.Keys == IOMethods && Extends(st0, st)
    ensures forall n :: n in methods ==> fresh(methods[n]) && HasSignature(methods[n], c, n, IOSigs[n], st)
  {
    var outStringMethod, st1 := NewBuiltinMethod(c, "out_string", IOSigs["out_string"], st0);
    var outIntMethod, st2 := NewBuiltinMethod(c, "out_int", IOSigs["out_int"], st1);
    var inStringMethod, st3 := NewBuiltinMethod(c, "in_string", IOSigs["in_string"], st2);
    var inIntMethod, st4 := NewBuiltinMethod(c, "in_int", IOSigs["in_int"], st3);
    st := st4;
    LemmaSignatureExtends(outStringMethod, c, "out_string", IOSigs["out_string"], st1, st2);
    LemmaSignatureExtends(outStringMethod, c, "out_string", IOSigs["out_string"], st2, st3);
    LemmaSignatureExtends(outStringMethod, c, "out_string", IOSigs["out_string"], st3, st);
    LemmaSignatureExtends(outIntMethod, c, "out_int", IOSigs["out_int"], st2, st3);
    LemmaSignatureExtends(outIntMethod, c, "out_int", IOSigs["out_int"], st3, st);
    methods := map["out_string" := outStringMethod, "out_int" := outIntMethod,
      "in_string" := inStringMethod, "in_int" := inIntMethod];
  }

  /** IO and its methods out_string(x : String), out_int(x : String), in_string and
      in_int. */
  method DefineIOClass(st0: Store) returns (c: ClassSymbol, st: Store)
    ensures fresh(c) && Builtin(c, "IO", Some("Object"), IOMethods)
    ensures Signatures(c, IOSigs, st) && Extends(st0, st)
  {
    c := new ClassSymbol("IO", Some("Object"));
    var methods;
    methods, st := NewIOMethods(c, st0);
    AddIOMethods(c, methods);
    LemmaSignaturesOf(c, IOSigs, methods, st);
  }

  /** The four `c.add` calls that put IO's methods in its attribute table. */
  method AddIOMethods(c: ClassSymbol, methods: map<Name, MethodSymbol>)
    requires c.attributes == map[] && methods.Keys == IOMethods
    requires forall n :: n in methods ==> methods[n].name == n
    modifies c`attributes
    ensures c.attributes == map n | n in methods :: MethodSym(methods[n])
  {
    var ok := c.Add(MethodSym(methods["out_string"]));
    ok := c.Add(MethodSym(methods["out_int"]));
    ok := c.Add(MethodSym(methods["in_string"]));
    ok := c.Add(MethodSym(methods["in_int"]));
  }

  /** The three method symbols of String, created in the order `defineBasicClasses`
      creates them. */
  method NewStringMethods(c: ClassSymbol, st0: Store) returns (methods: map<Name, MethodSymbol>, st: Store)
    ensures methods.Keys == StringSigs.Keys == StringMethods && Extends(st0, st)
    ensures forall n :: n in methods ==> fresh(methods[n]) && HasSignature(methods[n], c, n, StringSigs[n], st)
  {
    var lengthMethod, st1 := NewBuiltinMethod(c, "length", StringSigs["length"], st0);
    var concatMethod, st2 := NewBuiltinMethod(c, "concat", StringSigs["concat"], st1);
    var substrMethod, st3 := NewBuiltinMethod(c, "substr", StringSigs["substr"], st2);
    st := st3;
    LemmaSignatureExtends(concatMethod, c, "concat", StringSigs["concat"], st2, st);
    methods := map["length" := lengthMethod, "concat" := concatMethod, "substr" := substrMethod];
  }

  /** String and its methods length, concat(s : String) and substr(i : Int, l : Int). */
  method DefineStringClass(st0: Store) returns (c: ClassSymbol, st: Store)
    ensures fresh(c) && Builtin(c, "String", Some("Object"), StringMethods)
    ensures Signatures(c, StringSigs, st) && Extends(st0, st)
  {
    c := new ClassSymbol("String", Some("Object"));
    var methods;
    methods, st := NewStringMethods(c, st0);
    AddStringMethods(c, methods);
    LemmaSignaturesOf(c, StringSigs, methods, st);
  }

  /** The three `c.add` calls that put String's methods in its attribute table. */
  method AddStringMethods(c: ClassSymbol, methods: map<Name, MethodSymbol>)
    requires c.attributes == map[] && methods.Keys == StringMethods
    requires forall n :: n in methods ==> methods[n].name == n
    modifies c`attributes
    ensures c.attributes == map n | n in methods :: MethodSym(methods[n])
  {
    var ok := c.Add(MethodSym(methods["length"]));
    ok := c.Add(MethodSym(methods["concat"]));
    ok := c.Add(MethodSym(methods["substr"]));
  }

  /** Int or Bool: no built-in methods. */
  method DefinePlainClass(name: Name) returns (c: ClassSymbol)
    ensures fresh(c) && Builtin(c, name, Some("Object"), {})
  {
    c := new ClassSymbol(name, Some("Object"));
  }

  /** `globals = new DefaultScope(null)` and the five `globals.add` calls. */
  method NewGlobals(o: ClassSymbol, io: ClassSymbol, i: ClassSymbol, s: ClassSymbol, b: ClassSymbol)
    returns (g: DefaultScope)
    requires o.name == "Object" && io.name == "IO" && i.name == "Int" && s.name == "String" && b.name == "Bool"
    ensures fresh(g) && g.parent == None && ChainOk(Default(g))
    ensures g.symbols == map["Object" := ClassSym(o), "IO" := ClassSym(io), "Int" := ClassSym(i),
      "String" := ClassSym(s), "Bool" := ClassSym(b)]
  {
    g := new DefaultScope(None);
    var ok := g.Add(ClassSym(o));
    ok := g.Add(ClassSym(io));
    ok := g.Add(ClassSym(i));
    ok := g.Add(ClassSym(s));
    ok := g.Add(ClassSym(b));
  }

  /** The five basic classes, in the order `defineBasicClasses` creates them, the
      global scope holding them, and the types of the built-in methods' formals. */
  method NewBasicClasses() returns (g: DefaultScope, o: ClassSymbol, io: ClassSymbol, i: ClassSymbol,
                                    s: ClassSymbol, b: ClassSymbol, st: Store)
    ensures fresh(g) && g.parent == None && ChainOk(Default(g)) && fresh(o) && fresh(io) && fresh(i) && fresh(s) && fresh(b)
    ensures Builtin(o, "Object", None, ObjectMethods) && Builtin(io, "IO", Some("Object"), IOMethods)
    ensures Builtin(i, "Int", Some("Object"), {}) && Builtin(s, "String", Some("Object"), StringMethods)
    ensures Builtin(b, "Bool", Some("Object"), {})
    ensures Signatures(o, ObjectSigs, st) && Signatures(io, IOSigs, st) && Signatures(s, StringSigs, st)
    ensures g.symbols == map["Object" := ClassSym(o), "IO" := ClassSym(io), "Int" := ClassSym(i),
      "String" := ClassSym(s), "Bool" := ClassSym(b)]
  {
    var st1, st2;
    o, st1 := DefineObjectClass(map[]);
    io, st2 := DefineIOClass(st1);
    i := DefinePlainClass("Int");
    s, st := DefineStringClass(st2);
    b := DefinePlainClass("Bool");
    LemmaSignaturesExtend(o, ObjectSigs, st1, st2);
    LemmaSignaturesExtend(o, ObjectSigs, st2, st);
    LemmaSignaturesExtend(io, IOSigs, st2, st);
    g := NewGlobals(o, io, i, s, b);
  }

  /** `defineBasicClasses`: Object, IO, Int, String and Bool, each but Object with parent
      Object, their built-in methods, and the table over them. */
  method DefineBasicClasses() returns (t: SymbolTable, o: ClassSymbol, io: ClassSymbol, i: ClassSymbol,
                                       s: ClassSymbol, b: ClassSymbol)
    ensures fresh(t) && t.Valid() && t.FlagOk() && t.Initial()
    ensures t.globals.symbols == map["Object" := ClassSym(o), "IO" := ClassSym(io), "Int" := ClassSym(i),
      "String" := ClassSym(s), "Bool" := ClassSym(b)]
    ensures Signatures(o, ObjectSigs, t.types) && Signatures(io, IOSigs, t.types) && Signatures(s, StringSigs, t.types)
  {
    var g, st;
    g, o, io, i, s, b, st := NewBasicClasses();
    t := new SymbolTable(g, o, io, i, s, b, st);
  }

  class SymbolTable {
    /** `SymbolTable.globals`: a root scope holding only classes. */
    const globals: DefaultScope
    var semanticErrors: bool
    /** The messages `error` has been given, in order: each printed line is `Format` of
        one of them, that is the message after the `Lead` (position and `ErrorTag`). */
    var messages: seq<string>
    /** `Id.setSymbol` on the identifiers of attributes, formals and let locals. */
    var idSymbols: map<Uid, IdSymbol>
    /** `Id.setSymbol` on method identifiers. */
    var methodSymbols: map<Uid, MethodSymbol>

    ghost var Classes: set<ClassSymbol>
    ghost var Methods: set<MethodSymbol>
    ghost var Ids: set<IdSymbol>

    /** `IdSymbol.getType`/`setType`: the static type each identifier symbol holds. */
    var types: Store
    /** `IdSymbol.getScope`/`setScope`: the scope that declared each identifier symbol. */
    var scopes: ScopeStore

    /** Every name in `globals` is bound to a registered class of that name; every
        registered class is bound under its name; method tables lead to registered
        methods whose owner is the class; and every identifier symbol reachable from a
        table or an attachment is in `Ids`. */
    ghost predicate Valid()
      reads this`Classes, this`Methods, this`Ids, this`idSymbols, this`methodSymbols, globals, Classes, Methods
    {
      && globals.parent.None? && ChainOk(Default(globals))
      && (forall n :: n in globals.symbols ==>
            globals.symbols[n].ClassSym? && globals.symbols[n].cls in Classes && globals.symbols[n].cls.name == n)
      && (forall c :: c in Classes ==> c.name in globals.symbols && globals.symbols[c.name] == ClassSym(c))
      && (forall c, n :: c in Classes && n in c.attributes && c.attributes[n].IdSym? ==> c.attributes[n].id in Ids)
      && (forall c, n :: c in Classes && n in c.methods ==> c.methods[n] in Methods && c.methods[n].parent == c)
      && (forall m :: m in Methods ==> m.parameters.Valid() && m.parent in Classes)
      && (forall m, n :: m in Methods && n in m.parameters.entries ==> m.parameters.entries[n] in Ids)
      && AttachmentsOk()
      && (forall u :: u in methodSymbols ==> methodSymbols[u] in Methods)
      && "Object" in globals.symbols && globals.symbols["Object"].cls.parentName.None?
    }

    /** A step that writes only identifier symbols and diagnostics keeps the table valid
        and every method's layout. */
    twostate lemma LemmaLayoutsKept()
      requires old(Valid())
      requires Classes == old(Classes) && Methods == old(Methods) && Ids == old(Ids)
      requires idSymbols == old(idSymbols) && methodSymbols == old(methodSymbols)
      requires unchanged(globals) && unchanged(old(Classes)) && unchanged(old(Methods))
      ensures Valid() && MethodLayouts() == old(MethodLayouts())
      ensures forall m :: m in Methods ==> LayoutOf(m) == old(LayoutOf(m))
    {
    }

    /** Every symbol attached to an identifier is in `Ids`. */
    ghost predicate AttachmentsOk()
      reads this`idSymbols, this`Ids
    {
      forall u :: u in idSymbols ==> idSymbols[u] in Ids
    }

    /** A step that attaches identifier symbols and changes nothing the rest of `Valid`
        reads keeps the table valid. */
    twostate lemma LemmaAttachKeepsValid()
      requires old(Valid()) && AttachmentsOk() && old(Ids) <= Ids
      requires Classes == old(Classes) && Methods == old(Methods) && methodSymbols == old(methodSymbols)
      requires unchanged(globals) && unchanged(old(Classes)) && unchanged(old(Methods))
      ensures Valid()
    {
    }

    /** Every identifier symbol in `c`'s attribute table records the class scope of
        `c`, the scope it was declared in. */
    ghost predicate AttrsScoped(c: ClassSymbol)
      reads this`scopes, c
    {
      forall n :: n in c.attributes && c.attributes[n].IdSym? ==>
        c.attributes[n].id in scopes && scopes[c.attributes[n].id] == Some(InClass(c))
    }

    /** Every formal of `m` records the method scope of `m`. */
    ghost predicate FormalsScoped(m: MethodSymbol)
      reads this`scopes, m
    {
      forall n :: n in m.parameters.entries ==>
        m.parameters.entries[n] in scopes && scopes[m.parameters.entries[n]] == Some(InMethod(m))
    }

    /** The scopes the resolution pass reads back for `c`'s attributes and for the
        formals of `c`'s methods are the ones they were declared in. */
    ghost predicate ClassScoped(c: ClassSymbol)
      reads this`scopes, c, c.methods.Values
    {
      AttrsScoped(c) && forall n :: n in c.methods ==> FormalsScoped(c.methods[n])
    }

    /** The error flag is raised exactly when something has been reported. */
    ghost predicate FlagOk()
      reads this`messages, this`semanticErrors
    {
      semanticErrors <==> messages != []
    }

    /** The state `defineBasicClasses` leaves: nothing reported, nothing attached, the
        basic hierarchy, and no class with an entry in its method table. */
    ghost predicate Initial()
      requires Valid()
      reads this, globals, Classes, Methods
    {
      && messages == [] && !semanticErrors
      && idSymbols == map[] && methodSymbols == map[]
      && Hier() == BasicHierarchy
      && forall n :: n in globals.symbols ==> globals.symbols[n].cls.methods == map[]
    }

    /** The table over the global scope `g` of the five basic classes, with `st` as the
        formals' types: nothing reported and nothing attached yet. */
    constructor (g: DefaultScope, objectClass: ClassSymbol, ioClass: ClassSymbol, intClass: ClassSymbol,
                 stringClass: ClassSymbol, boolClass: ClassSymbol, st: Store)
      requires Builtin(objectClass, "Object", None, ObjectMethods)
      requires Builtin(ioClass, "IO", Some("Object"), IOMethods)
      requires Builtin(intClass, "Int", Some("Object"), {})
      requires Builtin(stringClass, "String", Some("Object"), StringMethods)
      requires Builtin(boolClass, "Bool", Some("Object"), {})
      requires g.parent == None && ChainOk(Default(g))
      requires g.symbols == map["Object" := ClassSym(objectClass), "IO" := ClassSym(ioClass), "Int" := ClassSym(intClass),
        "String" := ClassSym(stringClass), "Bool" := ClassSym(boolClass)]
      ensures Valid() && FlagOk() && Initial()
      ensures globals == g && types == st
    {
      globals := g;
      types := st;
      scopes := map[];
      Classes := {objectClass, ioClass, intClass, stringClass, boolClass};
      semanticErrors := false;
      messages := [];
      idSymbols := map[];
      methodSymbols := map[];
      Methods := {};
      Ids := {};
      new;
      LemmaBasic(objectClass, ioClass, intClass, stringClass, boolClass);
    }

    /** The state `defineBasicClasses` builds is valid and initial. */
    lemma LemmaBasic(o: ClassSymbol, io: ClassSymbol, i: ClassSymbol, s: ClassSymbol, b: ClassSymbol)
      requires Builtin(o, "Object", None, ObjectMethods)
      requires Builtin(io, "IO", Some("Object"), IOMethods)
      requires Builtin(i, "Int", Some("Object"), {})
      requires Builtin(s, "String", Some("Object"), StringMethods)
      requires Builtin(b, "Bool", Some("Object"), {})
      requires globals.parent == None && ChainOk(Default(globals))
      requires globals.symbols == map["Object" := ClassSym(o), "IO" := ClassSym(io), "Int" := ClassSym(i),
        "String" := ClassSym(s), "Bool" := ClassSym(b)]
      requires Classes == {o, io, i, s, b} && Methods == {} && Ids == {}
      requires idSymbols == map[] && methodSymbols == map[] && messages == [] && !semanticErrors
      ensures Valid() && Initial()
    {
      LemmaBasicValid(o, io, i, s, b);
      LemmaBasicInitial(o, io, i, s, b);
    }

    /** The state `defineBasicClasses` builds satisfies the table's invariant ... */
    lemma LemmaBasicValid(o: ClassSymbol, io: ClassSymbol, i: ClassSymbol, s: ClassSymbol, b: ClassSymbol)
      requires Builtin(o, "Object", None, ObjectMethods)
      requires Builtin(io, "IO", Some("Object"), IOMethods)
      requires Builtin(i, "Int", Some("Object"), {})
      requires Builtin(s, "String", Some("Object"), StringMethods)
      requires Builtin(b, "Bool", Some("Object"), {})
      requires globals.parent == None && ChainOk(Default(globals))
      requires globals.symbols == map["Object" := ClassSym(o), "IO" := ClassSym(io), "Int" := ClassSym(i),
        "String" := ClassSym(s), "Bool" := ClassSym(b)]
      requires Classes == {o, io, i, s, b} && Methods == {} && Ids == {}
      requires idSymbols == map[] && methodSymbols == map[]
      ensures Valid()
    {
    }

    /** ... and is the initial one: its hierarchy is the basic one. */
    lemma LemmaBasicInitial(o: ClassSymbol, io: ClassSymbol, i: ClassSymbol, s: ClassSymbol, b: ClassSymbol)
      requires Valid()
      requires Builtin(o, "Object", None, ObjectMethods)
      requires Builtin(io, "IO", Some("Object"), IOMethods)
      requires Builtin(i, "Int", Some("Object"), {})
      requires Builtin(s, "String", Some("Object"), StringMethods)
      requires Builtin(b, "Bool", Some("Object"), {})
      requires globals.symbols == map["Object" := ClassSym(o), "IO" := ClassSym(io), "Int" := ClassSym(i),
        "String" := ClassSym(s), "Bool" := ClassSym(b)]
      requires idSymbols == map[] && methodSymbols == map[] && messages == [] && !semanticErrors
      ensures Initial()
    {
      var h := Hier();
      assert h.Keys == BasicHierarchy.Keys;
      assert h["Object"] == BasicHierarchy["Object"];
      assert h["IO"] == BasicHierarchy["IO"];
      assert h["Int"] == BasicHierarchy["Int"];
      assert h["String"] == BasicHierarchy["String"];
      assert h["Bool"] == BasicHierarchy["Bool"];
    }

    /** `globals.add(c)` for a class whose name is not registered yet and whose tables
        are empty. */
    method RegisterClass(c: ClassSymbol)
      requires Valid() && c.name !in globals.symbols && c.attributes == map[] && c.methods == map[]
      modifies globals`symbols, this`Classes
      ensures Valid()
      ensures globals.symbols == old(globals.symbols)[c.name := ClassSym(c)] && Classes == old(Classes) + {c}
    {
      var ok := globals.Add(ClassSym(c));
      Classes := Classes + {c};
    }

    /** `id.setSymbol(sym)` on the identifier node `u`. */
    method AttachId(u: Uid, sym: IdSymbol)
      requires AttachmentsOk()
      modifies this`idSymbols, this`Ids
      ensures AttachmentsOk() && (old(Valid()) ==> Valid())
      ensures idSymbols == old(idSymbols)[u := sym] && Ids == old(Ids) + {sym}
    {
      idSymbols := idSymbols[u := sym];
      Ids := Ids + {sym};
    }

    /** `id.setSymbol(m)` on the identifier node `u` of a method. */
    method AttachMethod(u: Uid, m: MethodSymbol)
      requires Valid() && m in Methods
      modifies this`methodSymbols
      ensures Valid()
      ensures methodSymbols == old(methodSymbols)[u := m]
    {
      methodSymbols := methodSymbols[u := m];
    }

    /** `c.add(sym)` on a registered class. */
    method AddClassAttribute(c: ClassSymbol, sym: IdSymbol) returns (ok: bool)
      requires Valid() && c in Classes && sym in Ids
      modifies c`attributes
      ensures Valid()
      ensures ok <==> sym.name !in old(c.attributes)
      ensures c.attributes == if ok then old(c.attributes)[sym.name := IdSym(sym)] else old(c.attributes)
    {
      ok := c.Add(IdSym(sym));
    }

    /** `c.addMethod(m)` on a registered class, for a method of `c` with no formals yet. */
    method AddClassMethod(c: ClassSymbol, m: MethodSymbol) returns (ok: bool)
      requires Valid() && c in Classes && m.parent == c && m.parameters == EmptyTable()
      modifies c`methods, this`Methods
      ensures Valid()
      ensures ok <==> m.name !in old(c.methods)
      ensures c.methods == if ok then old(c.methods)[m.name := m] else old(c.methods)
      ensures Methods == old(Methods) + {m}
    {
      label before:
      ok := c.AddMethod(m);
      Methods := Methods + {m};
      LemmaMethodAddedKeepsValid@before(c, m);
    }

    /** Adding a method symbol owned by a registered class, with no formals, to that
        class and to `Methods` keeps the table valid. */
    twostate lemma LemmaMethodAddedKeepsValid(new c: ClassSymbol, new m: MethodSymbol)
      requires old(Valid()) && c in Classes && m.parent == c && m.parameters == EmptyTable()
      requires Classes == old(Classes) && Methods == old(Methods) + {m}
      requires c.methods == old(c.methods) || c.methods == old(c.methods)[m.name := m]
      requires Ids == old(Ids) && idSymbols == old(idSymbols) && methodSymbols == old(methodSymbols)
      requires unchanged(globals) && unchanged(old(Methods))
      requires forall d :: d in Classes && d != c ==> unchanged(d)
      requires c.attributes == old(c.attributes) && c.parentName == old(c.parentName)
      ensures Valid()
    {
    }

    /** `m.add(sym)` on a registered method. */
    method AddFormal(m: MethodSymbol, sym: IdSymbol) returns (ok: bool)
      requires Valid() && m in Methods
      modifies m`parameters, this`Ids
      ensures Valid()
      ensures ok <==> sym.name !in old(m.parameters.entries)
      ensures m.parameters == if ok then old(m.parameters).Put(sym.name, sym) else old(m.parameters)
      ensures Ids == old(Ids) + {sym}
    {
      ok := m.Add(sym);
      Ids := Ids + {sym};
    }

    /** The hierarchy as the rules see it: each registered class's parent name and
        attribute names.  The resolution pass changes neither. */
    function Hier(): (g: Globals)
      requires Valid()
      reads this`Classes, this`Methods, this`Ids, this`idSymbols, this`methodSymbols, globals, Classes, Methods
      ensures g.Keys == globals.symbols.Keys
      ensures forall n :: n in g ==> g[n] == ClassInfo(globals.symbols[n].cls.parentName, globals.symbols[n].cls.attributes.Keys)
      ensures "Object" in g && g["Object"].parentName.None?
    {
      map n | n in globals.symbols :: ClassInfo(globals.symbols[n].cls.parentName, globals.symbols[n].cls.attributes.Keys)
    }

    /** The formals named by `ks`, in that order, with their current types. */
    function ParamList(t: Table<IdSymbol>, ks: seq<Name>): (ps: seq<Param>)
      requires forall k :: k in ks ==> k in t.entries
      reads this`types
      ensures |ps| == |ks|
      ensures forall j :: 0 <= j < |ks| ==> ps[j] == Param(t.entries[ks[j]].name, TypeOf(types, t.entries[ks[j]]))
    {
      if ks == [] then [] else ParamList(t, ks[..|ks| - 1]) + [Param(t.entries[ks[|ks| - 1]].name, TypeOf(types, t.entries[ks[|ks| - 1]]))]
    }

    /** A method as the override check compares it: its formals in declaration order,
        with their current types, and its return type. */
    function SigOf(m: MethodSymbol): (s: MethodSig)
      requires Valid() && m in Methods
      reads this`Classes, this`Methods, this`Ids, this`idSymbols, this`methodSymbols, this`types, globals, Classes, Methods
      ensures s.returnType == m.returnType && |s.params| == |m.parameters.keys|
    {
      MethodSig(ParamList(m.parameters, m.parameters.keys), m.returnType)
    }

    /** Every registered class's method table, as signatures. */
    function Sigs(): (mt: MethodTables)
      requires Valid()
      reads this`Classes, this`Methods, this`Ids, this`idSymbols, this`methodSymbols, this`types, globals, Classes, Methods
      ensures mt.Keys == globals.symbols.Keys
    {
      map n | n in globals.symbols ::
        var c := globals.symbols[n].cls;
        map k | k in c.methods :: SigOf(c.methods[k])
    }

    /** A registered method's layout. */
    ghost function LayoutOf(m: MethodSymbol): (s: MethodLayout)
      requires Valid() && m in Methods
      reads this`Classes, this`Methods, this`Ids, this`idSymbols, this`methodSymbols, globals, Classes, Methods
    {
      MethodLayout(m.GetParameters(), m.returnType)
    }

    /** Every registered class's method table, as layouts. */
    ghost function MethodLayouts(): (sh: Layouts)
      requires Valid()
      reads this`Classes, this`Methods, this`Ids, this`idSymbols, this`methodSymbols, globals, Classes, Methods
    {
      map n | n in globals.symbols ::
        var c := globals.symbols[n].cls;
        map k | k in c.methods :: LayoutOf(c.methods[k])
    }

    /** A method's signature is its layout under the current types ... */
    lemma LemmaSigOfLayout(m: MethodSymbol)
      requires Valid() && m in Methods
      ensures SigOf(m) == SigFrom(LayoutOf(m), types)
    {
      var a := SigOf(m).params;
      var b := SigFrom(LayoutOf(m), types).params;
      forall j | 0 <= j < |a| ensures a[j] == b[j] {
        assert m.parameters.keys[j] in m.parameters.entries;
      }
    }

    /** ... and so are all the signatures the override check reads. */
    lemma LemmaSigsFromLayouts()
      requires Valid()
      ensures Sigs() == SigsFrom(MethodLayouts(), types)
    {
      var a := Sigs();
      var b := SigsFrom(MethodLayouts(), types);
      forall n | n in a ensures a[n] == b[n] {
        LemmaClassSigsFromLayouts(n);
      }
    }

    /** One class's method table, as signatures, is its table of layouts under the
        current types. */
    lemma LemmaClassSigsFromLayouts(n: Name)
      requires Valid() && n in globals.symbols
      ensures Sigs()[n] == SigsFrom(MethodLayouts(), types)[n]
    {
      var c := globals.symbols[n].cls;
      forall k | k in c.methods ensures Sigs()[n][k] == SigsFrom(MethodLayouts(), types)[n][k] {
        LemmaSigOfLayout(c.methods[k]);
      }
    }

    /** `error(ctx, token, str)` and `error(str)`: the message `str` is recorded and the
        error flag is raised.  The line printed for it is `Format(pos, str)`; the AST
        keeps no tokens, so the position is not recorded. */
    method Error(msg: string)
      modifies this`messages, this`semanticErrors
      ensures FlagOk()
      ensures messages == old(messages) + [msg] && semanticErrors
    {
      messages := messages + [msg];
      semanticErrors := true;
    }

    /** Reports a check's diagnostics, one `error` call each. */
    method Report(msgs: seq<string>)
      requires FlagOk()
      modifies this`messages, this`semanticErrors
      ensures FlagOk()
      ensures messages == old(messages) + msgs
    {
      messages := messages + msgs;
      if msgs != [] {
        semanticErrors := true;
      }
    }

    /** `sym.setType(t)`: only that symbol's type changes. */
    method SetIdType(x: IdSymbol, t: Name)
      modifies this`types
      ensures types == old(types)[x := Some(t)]
    {
      types := types[x := Some(t)];
    }

    /** `sym.setScope(s)`: only that symbol's scope changes. */
    method SetIdScope(x: IdSymbol, s: Scope)
      modifies this`scopes
      ensures scopes == old(scopes)[x := Some(s)]
    {
      scopes := scopes[x := Some(s)];
    }

    /** `hasSemanticErrors`: some error has been reported. */
    function HasSemanticErrors(): (r: bool)
      requires FlagOk()
      reads this`messages, this`semanticErrors
      ensures r <==> messages != []
    {
      semanticErrors
    }
  }

  /** The basic classes form a hierarchy rooted at Object: every walk from a basic class
      ends, and reaches Object. */
  lemma LemmaBasicHierarchy(n: Name)
    requires n in BasicHierarchy
    ensures Reach(BasicHierarchy, Some(n), "Object")
    ensures Ends(BasicHierarchy, Some(n))
  {
    var g := BasicHierarchy;
    assert Next(g, "Object") == None;
    if n == "Object" {
      assert Up(g, Some(n), 0) == Some("Object");
      assert Up(g, Some(n), 1) == None;
    } else {
      assert Next(g, n) == Some("Object");
      assert Up(g, Some(n), 1) == Some("Object");
      assert Up(g, Some(n), 2) == None;
    }
  }
}
