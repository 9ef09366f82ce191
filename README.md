# Semantic analysis of a COOL compiler, in Dafny

This project models the semantic-analysis stage of a compiler for COOL, the Classroom
Object-Oriented Language. The stage runs two passes over the AST that the parser builds.
Its state is a table of symbols: the global scope, the five basic classes, and a sink for
diagnostics.

- **Definition pass** (`DefinitionPassVisitor`).
  - Registers every class in the global scope.
  - Gives each class a symbol that holds its attributes and methods, and each method a
    symbol that holds its formals, in declaration order.
  - Creates a symbol for every `let` local and `case` variable, each in its own scope.
  - Attaches these symbols to the identifier nodes of the AST.
  - Reports naming errors: illegal or repeated class, attribute, method, formal and local
    names, and illegal parents.
- **Resolution pass** (`ResolutionPassVisitor`).
  - Walks the same tree again, with the hierarchy now complete.
  - Checks that parents are defined and that no class inherits from itself.
  - Checks that attributes are not redefined along the hierarchy and that overrides keep
    their signature.
  - Gives every expression its static type.
  - Reports undefined names and types, operands of the wrong type, and initializers,
    assignments and method bodies whose type does not conform.
- **Shared rules** (`RulesChecker`).
  - Each check returns a verdict and emits its diagnostic.
  - The join of two classes (`getCommonParrent`) is their least common ancestor.

## How the model is organised

| file | module | what it holds |
|---|---|---|
| `base.dfy` | `Base` | names, `Option`, and ordered tables (the source's `LinkedHashMap`s) |
| `ast.dfy` | `Ast` | the AST as an immutable datatype; every identifier node has a uid |
| `structures.dfy` | `Structures` | the classes `IdSymbol`, `ClassSymbol`, `MethodSymbol` and `DefaultScope` |
| `symbol_table.dfy` | `SymbolTables` | the `SymbolTable` class: the global scope, symbol attachments, diagnostics and the error flag |
| `hierarchy.dfy` | `Hierarchy` | the class hierarchy as a value: parent walks, ancestor sets and the join, with their properties |
| `rules_checker.dfy` | `RulesChecker` | every check of `RulesChecker`, and the two loops that do not terminate as written |
| `expr_typing.dfy` | `ExprTyping` | the typing rule of every expression, as functions |
| `feature_typing.dfy` | `FeatureTyping` | the typing of formals, attributes, methods and class headers, as functions |
| `definition_pass.dfy` | `DefinitionPasses` | the definition pass: a class whose methods change the table |
| `resolution_pass.dfy` | `ResolutionPasses` | the resolution pass: a class whose methods change the table |

### Objects

The source updates its objects in place: symbols, scopes and the visitors' current scope.
The model keeps this.

- Symbols, scopes and the two visitors are Dafny classes.
- Their methods carry `modifies` clauses.
- Each visiting method is proved against a specification function of the old state. For
  example, the definition pass's `VisitProgram` appends exactly `ProgramDefMsgs` of the
  program to the diagnostics.
- The properties the passes promise are lemmas about those functions.

### Modelling choices

- **Scope and Symbol.** The source's `Scope` interface and `Symbol` base class are datatypes.
  `Scope` is `Default`, `InClass` or `InMethod`; `Symbol` is `IdSym`, `ClassSym` or
  `MethodSym`.
- **Static types.** Every static type in the resolution pass is the class registered under
  a name, so types are class names (`Option<Name>`).
- **The hierarchy.** The rules read the hierarchy through `SymbolTable.Hier()`. This is a
  value from each class name to its parent name and its attribute names. The resolution
  pass fixes it when it is constructed. It changes only types, scopes and diagnostics, so
  every visit is proved to see the hierarchy the table holds.
- **A throw.** A failed cast or a null dereference in the source throws. The resolution pass
  models this as an `aborted` flag, together with a `crashed` field in the specification
  functions.

## Model

| member | source | states |
|---|---|---|
| Structures.IdSymbol.constructor | tema-2-analiza-semantica-master/src/cool/structures/IdSymbol.java:8-10 | A new identifier symbol carries the given name for its whole life; its type and scope cells are kept in the table's stores and start unset. |
| Structures.ClassSymbol.constructor | tema-2-analiza-semantica-master/src/cool/structures/ClassSymbol.java:11-14 | A new class symbol records its name and its parent's name, with empty attribute and method tables. |
| Structures.ClassSymbol.GetParentName | tema-2-analiza-semantica-master/src/cool/structures/ClassSymbol.java:16 | Returns the parent name last recorded by the constructor or `SetParentName`. |
| Structures.ClassSymbol.SetParentName | tema-2-analiza-semantica-master/src/cool/structures/ClassSymbol.java:17 | After the call the parent name is the given one; no other field may change. |
| Structures.ClassSymbol.AddAttribute | tema-2-analiza-semantica-master/src/cool/structures/ClassSymbol.java:22-26 | Succeeds exactly when the name is new to the attribute table; on success the table gains that one entry, on failure it is unchanged; the method table is never touched. |
| Structures.ClassSymbol.Add | tema-2-analiza-semantica-master/src/cool/structures/ClassSymbol.java:29-32 | Behaves exactly like `AddAttribute`: whatever is added to a class as a scope, built-in methods included, lands in its attribute table. |
| Structures.ClassSymbol.Lookup | tema-2-analiza-semantica-master/src/cool/structures/ClassSymbol.java:35-41 | Finds a symbol exactly when the attribute table holds the name, and returns that entry; the parent link is never set, so nothing is inherited. |
| Structures.ClassSymbol.GetParent | tema-2-analiza-semantica-master/src/cool/structures/ClassSymbol.java:43-44 | A class scope has no enclosing scope. |
| Structures.ClassSymbol.LookupMethodLocal | tema-2-analiza-semantica-master/src/cool/structures/ClassSymbol.java:52 | Finds a method exactly when the class's own method table holds the name. |
| Structures.ClassSymbol.LookupMethod | tema-2-analiza-semantica-master/src/cool/structures/ClassSymbol.java:54-60 | Agrees with `LookupMethodLocal` for every name: the climb to a parent class never starts, because a class's parent scope is never a class. |
| Structures.ClassSymbol.AddMethod | tema-2-analiza-semantica-master/src/cool/structures/ClassSymbol.java:62-66 | Succeeds exactly when the name is new to the method table; on success the table gains that method, on failure it is unchanged; attributes are not touched. |
| Structures.MethodSymbol.constructor | tema-2-analiza-semantica-master/src/cool/structures/MethodSymbol.java:18-22 | A new method symbol records its name, owning class and return-type name, and has no formals. |
| Structures.MethodSymbol.GetReturnType | tema-2-analiza-semantica-master/src/cool/structures/MethodSymbol.java:8-10 | The return-type name given to the constructor, which never changes. |
| Structures.MethodSymbol.GetParameters | tema-2-analiza-semantica-master/src/cool/structures/MethodSymbol.java:12-14 | One symbol per formal, in the order the formals were added. |
| Structures.MethodSymbol.Add | tema-2-analiza-semantica-master/src/cool/structures/MethodSymbol.java:24-31 | Succeeds exactly when no formal of that name exists; on success the formal is appended to the ordered table, on failure the table is unchanged. |
| Structures.MethodSymbol.Lookup | tema-2-analiza-semantica-master/src/cool/structures/MethodSymbol.java:33-44 | A formal of the name shadows everything; otherwise the owning class answers. |
| Structures.MethodSymbol.GetParent | tema-2-analiza-semantica-master/src/cool/structures/MethodSymbol.java:46-49 | A method's enclosing scope is its owning class. |
| Structures.DefaultScope.constructor | tema-2-analiza-semantica-master/src/cool/compiler/DefinitionPassVisitor.java:176 | A new `let`/`case` scope is empty, hangs from the given parent, and keeps the chain of scopes well formed. |
| Structures.DefaultScope.Add | tema-2-analiza-semantica-master/src/cool/compiler/ResolutionPassVisitor.java:281 | Succeeds exactly when the scope does not hold the name yet; on success the name is bound here, on failure nothing changes. |
| Structures.GetParentScope | tema-2-analiza-semantica-master/src/cool/compiler/ResolutionPassVisitor.java:27-29 | A class has no parent scope, a method's parent is its class, a `let`/`case` scope's parent is the one it was made in; every step outward reaches a shallower scope, so walks outward end. |
| Structures.LemmaLookupWalksOutward | tema-2-analiza-semantica-master/src/cool/compiler/ResolutionPassVisitor.java:33 | A lookup answers from the scope itself when it binds the name, otherwise from its parent scope, and fails at the end of the chain. |
| Structures.LemmaLookupFindsInnermost | tema-2-analiza-semantica-master/src/cool/compiler/ResolutionPassVisitor.java:33 | A successful lookup returns the binding of the innermost scope on the chain that binds the name; a failed one means no scope on the chain binds it. |
| Structures.LemmaEmptyScopeDelegates | tema-2-analiza-semantica-master/src/cool/compiler/ResolutionPassVisitor.java:304-305 | A freshly made, empty scope resolves every name as its parent does; this is why a branch sees the variables around the `case`. |
| Structures.LemmaLookupVisible | tema-2-analiza-semantica-master/src/cool/compiler/ResolutionPassVisitor.java:33 | Lookup resolves exactly the names in the scope's visible map, each to the visible symbol. |
| Structures.LemmaVisibleKept | tema-2-analiza-semantica-master/src/cool/compiler/ResolutionPassVisitor.java:33 | What a scope sees depends only on the scopes, classes and methods along its chain: a step that leaves them alone leaves the visible map alone. |
| SymbolTables.LemmaSignatureExtends | tema-2-analiza-semantica-master/src/cool/structures/SymbolTable.java:35-66 | A method's signature, read in one store of formal types, still holds in any store that keeps every type the first records. |
| SymbolTables.LemmaSignaturesExtend | tema-2-analiza-semantica-master/src/cool/structures/SymbolTable.java:35-70 | The same for every method of a class. |
| SymbolTables.LemmaSignaturesOf | tema-2-analiza-semantica-master/src/cool/structures/SymbolTable.java:39-70 | A class whose attribute table holds exactly the given methods, each with its signature, has the class's signatures. |
| SymbolTables.NewBuiltinMethod | tema-2-analiza-semantica-master/src/cool/structures/SymbolTable.java:44-51 | A fresh method of the given name and owner with the signature's return type, whose formals are exactly the signature's names, in order, each recorded with its type in a store that keeps every earlier type. |
| SymbolTables.NewObjectMethods | tema-2-analiza-semantica-master/src/cool/structures/SymbolTable.java:35-37 | Fresh methods abort and copy returning Object and type_name returning String, none with formals. |
| SymbolTables.NewIOMethods | tema-2-analiza-semantica-master/src/cool/structures/SymbolTable.java:44-51 | Fresh methods out_string(x : String) and out_int(x : String) returning IO, in_string returning String and in_int returning Int. |
| SymbolTables.NewStringMethods | tema-2-analiza-semantica-master/src/cool/structures/SymbolTable.java:59-66 | Fresh methods length returning Int, concat(s : String) returning String and substr(i : Int, l : Int) returning String. |
| SymbolTables.AddObjectMethods | tema-2-analiza-semantica-master/src/cool/structures/SymbolTable.java:39-41 | The three calls put exactly Object's methods, under their names, in the empty attribute table. |
| SymbolTables.DefineObjectClass | tema-2-analiza-semantica-master/src/cool/structures/SymbolTable.java:21-41 | Object has no parent, an empty method table, and exactly abort, type_name and copy in its attribute table, each with its built-in signature (`ObjectSigs`), in a store that keeps every earlier type. |
| SymbolTables.AddIOMethods | tema-2-analiza-semantica-master/src/cool/structures/SymbolTable.java:53-56 | The four calls put exactly IO's methods, under their names, in the empty attribute table. |
| SymbolTables.DefineIOClass | tema-2-analiza-semantica-master/src/cool/structures/SymbolTable.java:44-56 | IO hangs from Object, has an empty method table, and holds exactly out_string, out_int, in_string and in_int as attributes, each with its built-in signature (`IOSigs`), in a store that keeps every earlier type. |
| SymbolTables.AddStringMethods | tema-2-analiza-semantica-master/src/cool/structures/SymbolTable.java:68-70 | The three calls put exactly String's methods, under their names, in the empty attribute table. |
| SymbolTables.DefineStringClass | tema-2-analiza-semantica-master/src/cool/structures/SymbolTable.java:59-70 | String hangs from Object, has an empty method table, and holds exactly length, concat and substr as attributes, each with its built-in signature (`StringSigs`), in a store that keeps every earlier type. |
| SymbolTables.DefinePlainClass | tema-2-analiza-semantica-master/src/cool/structures/SymbolTable.java:23-25 | Int and Bool hang from Object and have no members. |
| SymbolTables.NewGlobals | tema-2-analiza-semantica-master/src/cool/structures/SymbolTable.java:16-31 | The global scope is a root scope that binds exactly the five basic classes under their names. |
| SymbolTables.NewBasicClasses | tema-2-analiza-semantica-master/src/cool/structures/SymbolTable.java:16-70 | The five basic classes exactly as listed above, a root global scope that binds exactly them, and one store in which Object, IO and String all carry their built-in signatures: abort, copy : Object, type_name : String; out_string(x : String), out_int(x : String) : IO, in_string : String, in_int : Int; length : Int, concat(s : String), substr(i : Int, l : Int) : String. |
| SymbolTables.SymbolTable.constructor | tema-2-analiza-semantica-master/src/cool/structures/SymbolTable.java:15-17 | Over the basic classes and their global scope, the table starts valid, with no diagnostic, the error flag clear, nothing attached to any identifier, the basic hierarchy as its class hierarchy, and the given store of formal types. |
| SymbolTables.DefineBasicClasses | tema-2-analiza-semantica-master/src/cool/structures/SymbolTable.java:15-72 | A fresh table that is valid and initial, whose global scope binds exactly the five basic classes, and in whose type store Object, IO and String carry their built-in signatures. |
| SymbolTables.SymbolTable.LemmaBasic | tema-2-analiza-semantica-master/src/cool/structures/SymbolTable.java:21-31 | The state the basic classes leave satisfies the table invariant and is the initial state. |
| SymbolTables.SymbolTable.LemmaBasicValid | tema-2-analiza-semantica-master/src/cool/structures/SymbolTable.java:21-31 | The basic classes, registered under their names, satisfy the table invariant. |
| SymbolTables.SymbolTable.LemmaBasicInitial | tema-2-analiza-semantica-master/src/cool/structures/SymbolTable.java:21-31 | The hierarchy the basic classes form is the basic hierarchy, and no basic class has a method table entry. |
| SymbolTables.LemmaBasicHierarchy | tema-2-analiza-semantica-master/src/cool/structures/SymbolTable.java:21-31 | From every basic class the parent walk reaches Object and then stops. |
| SymbolTables.SymbolTable.RegisterClass | tema-2-analiza-semantica-master/src/cool/compiler/DefinitionPassVisitor.java:73 | Registering a new class binds it under its name in the global scope, adds it to the registered classes, and keeps the table invariant. |
| SymbolTables.SymbolTable.AttachId | tema-2-analiza-semantica-master/src/cool/compiler/DefinitionPassVisitor.java:47 | Attaching a symbol to an identifier node sets that node's symbol and nothing else, and keeps the table invariant. |
| SymbolTables.SymbolTable.AttachMethod | tema-2-analiza-semantica-master/src/cool/compiler/DefinitionPassVisitor.java:117 | Attaching a method symbol to a method's identifier node sets that node's symbol and keeps the table invariant. |
| SymbolTables.SymbolTable.AddClassAttribute | tema-2-analiza-semantica-master/src/cool/compiler/DefinitionPassVisitor.java:147 | `ClassSymbol.add` on a registered class, with the same success condition and effect as `AddAttribute`, keeping the table invariant. |
| SymbolTables.SymbolTable.AddClassMethod | tema-2-analiza-semantica-master/src/cool/compiler/DefinitionPassVisitor.java:114 | `ClassSymbol.addMethod` on a registered class, with the same success condition and effect as `AddMethod`, keeping the table invariant. |
| SymbolTables.SymbolTable.AddFormal | tema-2-analiza-semantica-master/src/cool/compiler/DefinitionPassVisitor.java:46 | `MethodSymbol.add` on a registered method, with the same success condition and effect as `MethodSymbol.Add`, keeping the table invariant. |
| SymbolTables.SymbolTable.Hier | tema-2-analiza-semantica-master/src/cool/compiler/RulesChecker.java:72 | The hierarchy the rules read has exactly the registered class names, each with its class's parent name and attribute names, and Object without a parent. |
| SymbolTables.SymbolTable.Sigs | tema-2-analiza-semantica-master/src/cool/compiler/RulesChecker.java:217-232 | Every registered class's method table, each method as its formals (in order, with their current types) and its return type. |
| SymbolTables.SymbolTable.LemmaSigsFromLayouts | tema-2-analiza-semantica-master/src/cool/compiler/RulesChecker.java:217-232 | Those signatures depend only on the method layouts fixed by the definition pass and on the current types of formals. |
| SymbolTables.SymbolTable.Error | tema-2-analiza-semantica-master/src/cool/structures/SymbolTable.java:82-102 | Reporting records exactly the message text it is given, after the earlier ones, and raises the error flag; the line printed for it is `Format` of that text, whose position part is not recorded. |
| SymbolTables.BaseName | tema-2-analiza-semantica-master/src/cool/structures/SymbolTable.java:86 | The file name is the part of the path after its last separator, and contains no separator. |
| SymbolTables.Decimal | tema-2-analiza-semantica-master/src/cool/structures/SymbolTable.java:87-88 | A line or column is rendered as a non-empty string of decimal digits, with no leading zero except for 0 itself. |
| SymbolTables.LemmaDecimalRoundTrip | tema-2-analiza-semantica-master/src/cool/structures/SymbolTable.java:87-88 | Reading a rendered number back gives the number. |
| SymbolTables.LemmaDecimalInjective | tema-2-analiza-semantica-master/src/cool/structures/SymbolTable.java:87-88 | Distinct lines or columns render differently. |
| SymbolTables.Lead | tema-2-analiza-semantica-master/src/cool/structures/SymbolTable.java:86-97 | What precedes the message always ends with `Semantic error: `, and is exactly that tag when there is no position. |
| SymbolTables.LemmaFormatEnds | tema-2-analiza-semantica-master/src/cool/structures/SymbolTable.java:86-97 | A printed line ends with the message, right after `Semantic error: `, and is `Semantic error: ` followed by the message exactly when there is no position. |
| SymbolTables.LemmaFormatInjective | tema-2-analiza-semantica-master/src/cool/structures/SymbolTable.java:86-97 | At a given position, two messages print the same line only if they are the same message. |
| SymbolTables.SymbolTable.Report | tema-2-analiza-semantica-master/src/cool/structures/SymbolTable.java:82-94 | Reporting a list of diagnostics appends exactly them, in order, and keeps the flag raised exactly when something has been reported. |
| SymbolTables.SymbolTable.SetIdType | tema-2-analiza-semantica-master/src/cool/structures/IdSymbol.java:17-18 | Only that symbol's type changes, to the given one. |
| SymbolTables.SymbolTable.SetIdScope | tema-2-analiza-semantica-master/src/cool/structures/IdSymbol.java:20-26 | Only that symbol's scope changes, to the given one. |
| SymbolTables.SymbolTable.HasSemanticErrors | tema-2-analiza-semantica-master/src/cool/structures/SymbolTable.java:104-106 | True exactly when at least one diagnostic has been reported. |
| Hierarchy.Find | tema-2-analiza-semantica-master/src/cool/compiler/RulesChecker.java:72 | A name resolves to a class exactly when it is registered. |
| Hierarchy.Next | tema-2-analiza-semantica-master/src/cool/compiler/RulesChecker.java:79 | One step of the parent walk: the parent of a registered class, if it names a registered class. |
| Hierarchy.LemmaReachWithinBound | tema-2-analiza-semantica-master/src/cool/compiler/RulesChecker.java:73-80 | Whatever the parent walk reaches, it first reaches within as many steps as there are registered classes; this justifies the bounded walks of the model. |
| Hierarchy.LemmaUpPeriodic | tema-2-analiza-semantica-master/src/cool/compiler/RulesChecker.java:73-80 | A walk that comes back to a class goes round the same loop forever. |
| Hierarchy.LemmaFirstIn | tema-2-analiza-semantica-master/src/cool/compiler/RulesChecker.java:119-126 | The bounded search finds the first class on the walk that belongs to the given set, and fails exactly when no class on the walk does. |
| Hierarchy.LemmaFirstInNone | tema-2-analiza-semantica-master/src/cool/compiler/RulesChecker.java:73-81 | When the search fails, the walk never reaches a class of the set. |
| Hierarchy.LemmaAncestorSet | tema-2-analiza-semantica-master/src/cool/compiler/RulesChecker.java:111-117 | The ancestor set of a class is exactly the set of classes its walk reaches. |
| Hierarchy.LemmaNoReturn | tema-2-analiza-semantica-master/src/cool/compiler/RulesChecker.java:73-80 | On a walk that ends, no class is reached again from itself. |
| Hierarchy.LemmaMutualReach | tema-2-analiza-semantica-master/src/cool/compiler/RulesChecker.java:73-80 | On a walk that ends, two classes that reach each other are the same class. |
| Hierarchy.ResolveSelf | tema-2-analiza-semantica-master/src/cool/compiler/RulesChecker.java:102-108 | SELF_TYPE stands for the enclosing class; every other name stands for itself. |
| Hierarchy.LemmaJoinLeast | tema-2-analiza-semantica-master/src/cool/compiler/RulesChecker.java:85-130 | When the two walks meet, the join is a common ancestor that lies below every other common ancestor; when they do not, it is Object. |
| Hierarchy.LemmaJoinSame | tema-2-analiza-semantica-master/src/cool/compiler/RulesChecker.java:97-99 | The join of a class with itself is that class. |
| Hierarchy.LemmaJoinObject | tema-2-analiza-semantica-master/src/cool/compiler/RulesChecker.java:110-129 | With Object registered as the root, the join of any class with Object, in either order, is Object. |
| Hierarchy.LemmaJoinCommutes | tema-2-analiza-semantica-master/src/cool/compiler/RulesChecker.java:110-129 | When the walk from the first class ends, the join does not depend on the order of its arguments. |
| Hierarchy.LemmaJoinConforms | tema-2-analiza-semantica-master/src/cool/compiler/RulesChecker.java:110-129 | When the walk from the declared type ends, the join of the declared type with a type is the declared type when the type reaches it, and only then unless the declared type is Object. |
| RulesChecker.CheckClassName | tema-2-analiza-semantica-master/src/cool/compiler/RulesChecker.java:19-34 | A class name is refused exactly when it is SELF_TYPE or already registered, with exactly one diagnostic, the SELF_TYPE one taking precedence. |
| RulesChecker.CheckParentName | tema-2-analiza-semantica-master/src/cool/compiler/RulesChecker.java:37-46 | A parent is refused exactly when it is Int, String, Bool or SELF_TYPE, with exactly one diagnostic. |
| RulesChecker.IsParentClassDefined | tema-2-analiza-semantica-master/src/cool/compiler/RulesChecker.java:48-59 | A parent is accepted exactly when it is registered; otherwise one diagnostic naming it. |
| RulesChecker.CheckInheritanceCycle | tema-2-analiza-semantica-master/src/cool/compiler/RulesChecker.java:67-82 | A class is refused exactly when the walk from its parent comes back to it, with exactly one diagnostic; the check always ends. |
| RulesChecker.AncestorsOf | tema-2-analiza-semantica-master/src/cool/compiler/RulesChecker.java:110-117 | The first loop of `getCommonParrent` collects exactly the classes the walk from the first class reaches. |
| RulesChecker.FirstAncestorIn | tema-2-analiza-semantica-master/src/cool/compiler/RulesChecker.java:119-126 | The second loop returns the first class on the walk from the second class that is in that set. |
| RulesChecker.GetCommonParent | tema-2-analiza-semantica-master/src/cool/compiler/RulesChecker.java:85-130 | Returns the join of the two classes inside the enclosing class, which is the least common ancestor by `LemmaJoinLeast`, and nothing when either class is missing or there is no enclosing class. |
| RulesChecker.CheckAttributeResolution | tema-2-analiza-semantica-master/src/cool/compiler/RulesChecker.java:132-150 | An attribute whose identifier has no symbol is refused silently; otherwise an attribute is refused exactly when an ancestor class already has an attribute of that name, with one diagnostic. |
| RulesChecker.LemmaAttributeVerdict | tema-2-analiza-semantica-master/src/cool/compiler/RulesChecker.java:132-150 | The attribute verdict accepts exactly when no strict ancestor of the class holds the name, and reports at most once. |
| RulesChecker.CheckMethodDefinition | tema-2-analiza-semantica-master/src/cool/compiler/RulesChecker.java:154-165 | A method is refused exactly when its class already has a method of that name, with exactly one diagnostic. |
| RulesChecker.CheckFormalDefinition | tema-2-analiza-semantica-master/src/cool/compiler/RulesChecker.java:169-195 | A formal is refused exactly when it is named self, repeats an earlier formal's name, or is typed SELF_TYPE, with one diagnostic chosen in that order. |
| RulesChecker.CheckFormalResolution | tema-2-analiza-semantica-master/src/cool/compiler/RulesChecker.java:198-211 | A formal is accepted exactly when its type is a registered class; otherwise one diagnostic. |
| RulesChecker.Compare | tema-2-analiza-semantica-master/src/cool/compiler/RulesChecker.java:221-232 | Two signatures are compatible exactly when they have the same arity and the same formal types position by position; an arity difference is reported as such; otherwise the reported position is one where the types differ. |
| RulesChecker.LemmaCompareSelf | tema-2-analiza-semantica-master/src/cool/compiler/RulesChecker.java:221-232 | A signature compared with itself is compatible, so a method never clashes with itself. |
| RulesChecker.ReportParameterTypeError | tema-2-analiza-semantica-master/src/cool/compiler/RulesChecker.java:254-270 | Reports one diagnostic exactly when the differing formal is among the method's own formals. |
| RulesChecker.CheckMethodOverride | tema-2-analiza-semantica-master/src/cool/compiler/RulesChecker.java:214-251 | Agrees with the override verdict over the ancestors' method tables. |
| RulesChecker.LemmaOverrideVerdict | tema-2-analiza-semantica-master/src/cool/compiler/RulesChecker.java:214-251 | An override is accepted exactly when no class on the walk from the owner defines the method with a clashing signature; at most one diagnostic, none when accepted, and exactly one when refused and every formal of the method is among the named formals. |
| RulesChecker.IsCompatibleReturnType | tema-2-analiza-semantica-master/src/cool/compiler/RulesChecker.java:273-284 | The body's type is accepted exactly when its join with the declared return type is the declared type; otherwise one diagnostic. |
| RulesChecker.LemmaReturnTypeConforms | tema-2-analiza-semantica-master/src/cool/compiler/RulesChecker.java:273-284 | On a hierarchy whose walk from the declared type ends, a body type below the declared type is accepted, and an accepted body type lies below the declared type unless that is Object. |
| RulesChecker.LemmaCycleCheckRunsForever | tema-2-analiza-semantica-master/src/cool/compiler/RulesChecker.java:73-80 | On a hierarchy where the parent of A is B and B and C are each other's parents, the as-written check of A gives no answer for any number of steps. |
| RulesChecker.LemmaCycleCheckExample | tema-2-analiza-semantica-master/src/cool/compiler/RulesChecker.java:67-82 | On the same hierarchy the corrected check accepts A and refuses B. |
| RulesChecker.LemmaCycleCheckAgrees | tema-2-analiza-semantica-master/src/cool/compiler/RulesChecker.java:67-82 | Whenever the as-written check answers, its answer is that of `CheckInheritanceCycle`. |
| RulesChecker.LemmaJoinRunsForever | tema-2-analiza-semantica-master/src/cool/compiler/RulesChecker.java:114-117 | On a hierarchy where B and C are each other's parents and D hangs from Object, the join of B and Int inside D gives no answer for any number of steps. |
| RulesChecker.LemmaJoinExample | tema-2-analiza-semantica-master/src/cool/compiler/RulesChecker.java:119-129 | On the same hierarchy the corrected join of B and Int inside D is Object. |
| RulesChecker.LemmaJoinAgrees | tema-2-analiza-semantica-master/src/cool/compiler/RulesChecker.java:85-130 | Whenever the as-written join answers, its answer is that of `Join`. |
| RulesChecker.LemmaFirstInAsWrittenAgrees | tema-2-analiza-semantica-master/src/cool/compiler/RulesChecker.java:120-126 | Whenever the as-written second loop stops, it returns what the bounded search returns. |
| RulesChecker.LemmaCollectAsWrittenAgrees | tema-2-analiza-semantica-master/src/cool/compiler/RulesChecker.java:111-117 | Whenever the as-written first loop stops, it has collected exactly the ancestor set. |
| ExprTyping.LemmaOperatorTypes | tema-2-analiza-semantica-master/src/cool/compiler/ResolutionPassVisitor.java:405-492 | Arithmetic and `~` have type Int; comparison, `=`, `not` and `isvoid` have type Bool; each literal has its own class, whatever the operands; `if`, `while`, dispatch and `new` have no type and report nothing. |
| ExprTyping.LemmaIntOperandMsgs | tema-2-analiza-semantica-master/src/cool/compiler/ResolutionPassVisitor.java:411-434 | Arithmetic and comparison report one diagnostic for each operand whose type is known and is not Int. |
| ExprTyping.LemmaEqualityMsgs | tema-2-analiza-semantica-master/src/cool/compiler/ResolutionPassVisitor.java:437-452 | `=` reports at most once, and reports exactly when a basic operand meets an operand of a different type. |
| ExprTyping.LemmaAssignConforms | tema-2-analiza-semantica-master/src/cool/compiler/ResolutionPassVisitor.java:381-388 | An assignment whose right-hand side lies below the variable's type is accepted; on a hierarchy whose walk from the variable's type ends, an accepted one lies below it unless that type is Object. |
| ExprTyping.LemmaBranchesSnoc | tema-2-analiza-semantica-master/src/cool/compiler/ResolutionPassVisitor.java:303-310 | One more branch extends the fold by that branch, resolved in the store the earlier branches leave, joined into the type so far. |
| ExprTyping.LemmaLubTyped | tema-2-analiza-semantica-master/src/cool/compiler/ResolutionPassVisitor.java:306-309 | Inside a class, with Object registered, folding a branch type gives a type exactly when the fold so far or the branch has one. |
| ExprTyping.LemmaCaseTyped | tema-2-analiza-semantica-master/src/cool/compiler/ResolutionPassVisitor.java:297-314 | Inside a class, with Object registered, a `case` has a type exactly when one of its branches has one. |
| FeatureTyping.FormalOutcome | tema-2-analiza-semantica-master/src/cool/compiler/ResolutionPassVisitor.java:59-76 | A formal without a symbol or a scope yields nothing; one whose scope is not a method throws; otherwise it takes its declared type exactly when that type is registered, and otherwise reports one diagnostic naming the method and class. |
| FeatureTyping.LemmaFormalsThrow | tema-2-analiza-semantica-master/src/cool/compiler/ResolutionPassVisitor.java:173-175 | The formal loop throws exactly when some formal throws. |
| FeatureTyping.LemmaFormalsReport | tema-2-analiza-semantica-master/src/cool/compiler/ResolutionPassVisitor.java:173-175 | When the loop does not throw, it reports nothing exactly when every checked formal has a registered type. |
| FeatureTyping.LemmaFormalsFrame | tema-2-analiza-semantica-master/src/cool/compiler/ResolutionPassVisitor.java:173-175 | The loop keeps the set of typed symbols and changes no type except those of the visited formals. |
| FeatureTyping.LemmaFormalsStop | tema-2-analiza-semantica-master/src/cool/compiler/ResolutionPassVisitor.java:173-175 | The formal loop stops at the first formal that throws. |
| FeatureTyping.AttrOutcome | tema-2-analiza-semantica-master/src/cool/compiler/ResolutionPassVisitor.java:198-236 | An attribute is typed exactly when its symbol is scoped to a class, the inheritance rule accepts it and its type is registered, and then it has its declared type; it throws when its symbol is not scoped to a class, or when its type is unregistered and the current scope is not a class; an untyped attribute changes no type and reports at most once. |
| FeatureTyping.AttrChecked | tema-2-analiza-semantica-master/src/cool/compiler/ResolutionPassVisitor.java:200-236 | Once the owning class is known, the attribute is typed exactly when the inheritance rule accepts it and its type is registered; a refused attribute reports exactly the inheritance diagnostic. |
| FeatureTyping.AttrTyped | tema-2-analiza-semantica-master/src/cool/compiler/ResolutionPassVisitor.java:203-236 | An attribute is typed exactly when its type is registered, with that type; an unregistered type throws exactly when the current scope is not a class, and otherwise reports at most once and changes no type. |
| FeatureTyping.LemmaInitConforms | tema-2-analiza-semantica-master/src/cool/compiler/ResolutionPassVisitor.java:219-233 | An initializer whose type lies below the attribute's type draws no diagnostic; when the walk from the attribute's type ends, an initializer that draws none lies below it, unless the type is Object. |
| FeatureTyping.MethodOutcome | tema-2-analiza-semantica-master/src/cool/compiler/ResolutionPassVisitor.java:147-195 | An unregistered return type reports exactly its one diagnostic, changes no type and does not throw; a typed result means a registered return type, no throw, and a type that joins with the declared one into the declared one. |
| FeatureTyping.MethodSteps | tema-2-analiza-semantica-master/src/cool/compiler/ResolutionPassVisitor.java:170-195 | When a formal throws, the method ends exactly as the formal loop does; a typed result joins with the declared return type into the declared return type. |
| FeatureTyping.MethodTail | tema-2-analiza-semantica-master/src/cool/compiler/ResolutionPassVisitor.java:177-194 | A method that gets a type passed the override check, did not throw, and its type joins with the declared return type into the declared return type. |
| FeatureTyping.BodyOutcome | tema-2-analiza-semantica-master/src/cool/compiler/ResolutionPassVisitor.java:182-194 | A typed result is the body's type, and it joins with the declared return type into the declared return type; the method throws exactly when that join does not exist. |
| FeatureTyping.ReturnCheck | tema-2-analiza-semantica-master/src/cool/compiler/ResolutionPassVisitor.java:188-194 | Throws exactly when the join of the two types does not exist; the method has the body's type exactly when the join is the declared type, and then reports nothing; no type changes. |
| FeatureTyping.LemmaMethodConforms | tema-2-analiza-semantica-master/src/cool/compiler/ResolutionPassVisitor.java:183-194 | On a hierarchy whose walk from the return type ends, a method's result type lies below its declared return type, unless that is Object. |
| FeatureTyping.ClassGate | tema-2-analiza-semantica-master/src/cool/compiler/ResolutionPassVisitor.java:84-95 | The header checks report at most once, and report nothing when the class's features are to be visited. |
| FeatureTyping.LemmaClassGate | tema-2-analiza-semantica-master/src/cool/compiler/ResolutionPassVisitor.java:84-95 | A class's features are visited exactly when the class is registered and, if it names a parent, the parent is inheritable, registered and not on a cycle through the class. |
| DefinitionPasses.LemmaKeptKeys | tema-2-analiza-semantica-master/src/cool/compiler/DefinitionPassVisitor.java:106-117 | The methods a class keeps are exactly the method names its features declare, the first declaration of each name winning. |
| DefinitionPasses.LemmaRegisteredKnown | tema-2-analiza-semantica-master/src/cool/compiler/DefinitionPassVisitor.java:58-81 | The classes known after the pass are the ones known before plus those registered, and each registered name was new and is registered with its own declaration. |
| DefinitionPasses.DefinitionPass.constructor | tema-2-analiza-semantica-master/src/cool/compiler/DefinitionPassVisitor.java:6 | The pass starts in the global scope. |
| DefinitionPasses.DefinitionPass.VisitProgram | tema-2-analiza-semantica-master/src/cool/compiler/DefinitionPassVisitor.java:10-13 | Reports exactly the diagnostics of the classes in order; the global scope ends up binding exactly the known names, keeps every earlier binding, and binds each newly registered name to a class built from its first declaration; every local, formal and attribute identifier of a registered class gets a fresh symbol of its name; every attribute of a newly registered class records that class, and every formal its method, as its scope. |
| DefinitionPasses.DefinitionPass.VisitClassAt | tema-2-analiza-semantica-master/src/cool/compiler/DefinitionPassVisitor.java:11 | One class of a program extends what the earlier classes did, keeping every binding they made. |
| DefinitionPasses.DefinitionPass.VisitClass | tema-2-analiza-semantica-master/src/cool/compiler/DefinitionPassVisitor.java:58-81 | A class named SELF_TYPE or already registered is reported once and changes nothing else; any other class is registered as a fresh class built from its declaration, and its features are visited in its scope, leaving its attributes and formals recording their class and method; the current scope is restored. |
| DefinitionPasses.DefinitionPass.VisitNewClass | tema-2-analiza-semantica-master/src/cool/compiler/DefinitionPassVisitor.java:66-80 | A new class is registered under its name, built from its declaration, and no other binding changes. |
| DefinitionPasses.DefinitionPass.DeclareClass | tema-2-analiza-semantica-master/src/cool/compiler/DefinitionPassVisitor.java:59-73 | The registered class records the declared parent, or Object when there is none, even when the parent is refused; the refusal is reported. |
| DefinitionPasses.DefinitionPass.VisitClassScope | tema-2-analiza-semantica-master/src/cool/compiler/DefinitionPassVisitor.java:74-79 | The features are visited with the class as current scope, which is restored afterwards, leaving the class built from its declaration. |
| DefinitionPasses.DefinitionPass.VisitFeatures | tema-2-analiza-semantica-master/src/cool/compiler/DefinitionPassVisitor.java:76-77 | After the features, the class's attributes are exactly the accepted attribute names, its methods exactly the declared method names, each method as its first declaration shapes it; every attribute records the class, and every formal its method, as its scope. |
| DefinitionPasses.DefinitionPass.VisitFeatureAt | tema-2-analiza-semantica-master/src/cool/compiler/DefinitionPassVisitor.java:76-77 | One feature extends what the earlier features did. |
| DefinitionPasses.DefinitionPass.VisitFeature | tema-2-analiza-semantica-master/src/cool/compiler/DefinitionPassVisitor.java:76-77 | An attribute leaves the method table alone; a method leaves the attribute table alone and adds its shape exactly when its name is new. |
| DefinitionPasses.DefinitionPass.VisitAttr | tema-2-analiza-semantica-master/src/cool/compiler/DefinitionPassVisitor.java:129-151 | An attribute named self or already present is reported once, is not declared, and its initializer is not visited; otherwise a fresh symbol of its name is added and attached, records the class as its scope, and its initializer is visited. The initializer's visit changes no earlier symbol's scope, and every attribute of the class keeps recording the class if it did before. |
| DefinitionPasses.DefinitionPass.VisitNewAttr | tema-2-analiza-semantica-master/src/cool/compiler/DefinitionPassVisitor.java:144-150 | An accepted attribute gains a fresh symbol of its name in the class, recording the class as its scope, and its initializer is visited. |
| DefinitionPasses.DefinitionPass.DeclareAttr | tema-2-analiza-semantica-master/src/cool/compiler/DefinitionPassVisitor.java:144-147 | The fresh symbol is scoped to the class, added under its name and attached to the identifier. |
| DefinitionPasses.DefinitionPass.VisitMethod | tema-2-analiza-semantica-master/src/cool/compiler/DefinitionPassVisitor.java:106-126 | A method whose name the class already has is reported once and changes no table; otherwise a fresh method symbol is added that records the declared return type and exactly the accepted formals; the current scope is restored. |
| DefinitionPasses.DefinitionPass.RefuseMethod | tema-2-analiza-semantica-master/src/cool/compiler/DefinitionPassVisitor.java:109-112 | A repeated method name draws one diagnostic and nothing else. |
| DefinitionPasses.DefinitionPass.AcceptMethod | tema-2-analiza-semantica-master/src/cool/compiler/DefinitionPassVisitor.java:114-125 | A new method name gains a fresh method symbol shaped by its declaration. |
| DefinitionPasses.DefinitionPass.DeclareMethod | tema-2-analiza-semantica-master/src/cool/compiler/DefinitionPassVisitor.java:114-117 | The new method symbol has the declared name, owner and return type and no formals, is added under its name and attached to the identifier. |
| DefinitionPasses.DefinitionPass.VisitNewMethod | tema-2-analiza-semantica-master/src/cool/compiler/DefinitionPassVisitor.java:114-124 | A declared method is built from its declaration: its formals and body are visited in its scope. |
| DefinitionPasses.DefinitionPass.VisitMethodScope | tema-2-analiza-semantica-master/src/cool/compiler/DefinitionPassVisitor.java:119-124 | With the method as current scope, which is restored afterwards, the formals and the body are visited. |
| DefinitionPasses.DefinitionPass.VisitMethodParts | tema-2-analiza-semantica-master/src/cool/compiler/DefinitionPassVisitor.java:120-122 | The formals and then the body are visited; the method ends up with exactly the accepted formals. |
| DefinitionPasses.DefinitionPass.VisitFormals | tema-2-analiza-semantica-master/src/cool/compiler/DefinitionPassVisitor.java:120-121 | The method's formals end up exactly the accepted ones, in order, each a symbol of its own name that records the method as its scope; the diagnostics are those of the formals in order. |
| DefinitionPasses.DefinitionPass.VisitFormalAt | tema-2-analiza-semantica-master/src/cool/compiler/DefinitionPassVisitor.java:120-121 | One formal extends what the earlier formals did. |
| DefinitionPasses.DefinitionPass.VisitFormal | tema-2-analiza-semantica-master/src/cool/compiler/DefinitionPassVisitor.java:40-50 | A formal is refused, with the diagnostic of the formal rules, exactly when the rules refuse it; otherwise a fresh symbol of its name, scoped to the method, is appended to the formals and attached. |
| DefinitionPasses.DefinitionPass.DeclareFormal | tema-2-analiza-semantica-master/src/cool/compiler/DefinitionPassVisitor.java:44-47 | The fresh symbol is scoped to the method, appended to its formals and attached to the identifier. |
| DefinitionPasses.DefinitionPass.VisitBody | tema-2-analiza-semantica-master/src/cool/compiler/DefinitionPassVisitor.java:122 | Visiting a body keeps the table invariant, reports exactly the diagnostics of its `let` and `case` locals, and changes the recorded scope of no symbol that existed before. |
| DefinitionPasses.DefinitionPass.VisitExpr | tema-2-analiza-semantica-master/src/cool/compiler/DefinitionPassVisitor.java:153-279 | Only `let` and `case` report or declare anything; every other expression is left alone; only the symbols it creates get a scope recorded; the current scope is restored. |
| DefinitionPasses.DefinitionPass.VisitLet | tema-2-analiza-semantica-master/src/cool/compiler/DefinitionPassVisitor.java:172-192 | Each local is declared in a fresh scope inside the previous one, the body is visited in the last, and the current scope is restored. |
| DefinitionPasses.DefinitionPass.VisitLocals | tema-2-analiza-semantica-master/src/cool/compiler/DefinitionPassVisitor.java:179-183 | The locals are visited in order, each in a fresh scope inside the previous one, and the innermost scope is returned. |
| DefinitionPasses.DefinitionPass.VisitLocal | tema-2-analiza-semantica-master/src/cool/compiler/DefinitionPassVisitor.java:85-103 | A local named self is reported, is not declared, and its initializer is not visited; any other local's name is added to its scope and its initializer is visited. |
| DefinitionPasses.DefinitionPass.DeclareLocal | tema-2-analiza-semantica-master/src/cool/compiler/DefinitionPassVisitor.java:93-96 | The fresh symbol of the local's name is scoped to the current scope, added to it and attached. |
| DefinitionPasses.DefinitionPass.VisitCase | tema-2-analiza-semantica-master/src/cool/compiler/DefinitionPassVisitor.java:195-208 | The scrutinee, then each branch in its own fresh scope; the current scope is restored. |
| DefinitionPasses.DefinitionPass.VisitBranches | tema-2-analiza-semantica-master/src/cool/compiler/DefinitionPassVisitor.java:201-204 | The branches' diagnostics and attachments, in order. |
| DefinitionPasses.DefinitionPass.VisitBranchAt | tema-2-analiza-semantica-master/src/cool/compiler/DefinitionPassVisitor.java:201-204 | One branch extends what the earlier branches did. |
| DefinitionPasses.DefinitionPass.VisitCaseBranch | tema-2-analiza-semantica-master/src/cool/compiler/DefinitionPassVisitor.java:211-225 | A branch variable named self is reported, is not declared, and its body is not visited; any other is added to the branch's scope and its body is visited. |
| ResolutionPasses.ResolutionPass.constructor | tema-2-analiza-semantica-master/src/cool/compiler/ResolutionPassVisitor.java:8 | The pass starts in the global scope, reads the hierarchy the table holds, and has not thrown. |
| ResolutionPasses.ResolutionPass.VisitExpr | tema-2-analiza-semantica-master/src/cool/compiler/ResolutionPassVisitor.java:44-56 | An expression gets the type, the diagnostics and the new symbol types the typing rules give it, and the current scope is restored. |
| ResolutionPasses.ResolutionPass.VisitCompound | tema-2-analiza-semantica-master/src/cool/compiler/ResolutionPassVisitor.java:469-482 | `isvoid`, parentheses, blocks, `let` and `case` follow the typing rules. |
| ResolutionPasses.ResolutionPass.VisitId | tema-2-analiza-semantica-master/src/cool/compiler/ResolutionPassVisitor.java:20-41 | self has the enclosing class's type; a visible variable has its symbol's type; any other name is reported as undefined once and has no type. |
| ResolutionPasses.ResolutionPass.VisitAssign | tema-2-analiza-semantica-master/src/cool/compiler/ResolutionPassVisitor.java:351-392 | Follows the assignment rule, whose conformance is `LemmaAssignConforms`. |
| ResolutionPasses.ResolutionPass.ReportThenVisit | tema-2-analiza-semantica-master/src/cool/compiler/ResolutionPassVisitor.java:355-358 | The diagnostic comes before those of the right-hand side. |
| ResolutionPasses.ResolutionPass.AssignVariable | tema-2-analiza-semantica-master/src/cool/compiler/ResolutionPassVisitor.java:369-391 | An assignment to a variable has the right-hand side's type, checked against the variable's type. |
| ResolutionPasses.ResolutionPass.CheckAssign | tema-2-analiza-semantica-master/src/cool/compiler/ResolutionPassVisitor.java:380-388 | Reports exactly the assignment rule's diagnostic. |
| ResolutionPasses.ResolutionPass.VisitBinaryOp | tema-2-analiza-semantica-master/src/cool/compiler/ResolutionPassVisitor.java:405-456 | Both operands are typed, left first, then the operator's rule gives the type and diagnostics as in `LemmaOperatorTypes`, `LemmaIntOperandMsgs` and `LemmaEqualityMsgs`. |
| ResolutionPasses.ResolutionPass.ApplyBinaryRule | tema-2-analiza-semantica-master/src/cool/compiler/ResolutionPassVisitor.java:410-455 | The operator's type and diagnostics, given the operand types. |
| ResolutionPasses.ResolutionPass.ReportOperands | tema-2-analiza-semantica-master/src/cool/compiler/ResolutionPassVisitor.java:411-420 | Each operand whose known type is not Int is reported, left first. |
| ResolutionPasses.ResolutionPass.ReportOperand | tema-2-analiza-semantica-master/src/cool/compiler/ResolutionPassVisitor.java:412-415 | An operand is reported exactly when its type is known and is not the expected one. |
| ResolutionPasses.ResolutionPass.ReportEquality | tema-2-analiza-semantica-master/src/cool/compiler/ResolutionPassVisitor.java:437-449 | Reports exactly the equality rule's diagnostic. |
| ResolutionPasses.ResolutionPass.VisitNot | tema-2-analiza-semantica-master/src/cool/compiler/ResolutionPassVisitor.java:459-466 | `not` has type Bool and reports an operand whose known type is not Bool. |
| ResolutionPasses.ResolutionPass.VisitNeg | tema-2-analiza-semantica-master/src/cool/compiler/ResolutionPassVisitor.java:485-492 | `~` has type Int and reports an operand whose known type is not Int. |
| ResolutionPasses.ResolutionPass.VisitBlock | tema-2-analiza-semantica-master/src/cool/compiler/ResolutionPassVisitor.java:239-243 | The expressions in order; the last one's type. |
| ResolutionPasses.ResolutionPass.VisitLet | tema-2-analiza-semantica-master/src/cool/compiler/ResolutionPassVisitor.java:256-294 | Each local's initializer is typed in the scope before it, the local is then bound in a fresh scope with its declared type if registered, the body is typed in the last scope, and the current scope is restored. |
| ResolutionPasses.ResolutionPass.VisitLocals | tema-2-analiza-semantica-master/src/cool/compiler/ResolutionPassVisitor.java:260-286 | The locals in order, each seeing the ones before it. |
| ResolutionPasses.ResolutionPass.VisitLocal | tema-2-analiza-semantica-master/src/cool/compiler/ResolutionPassVisitor.java:261-285 | One local: initializer, declared type, then its binding in a fresh scope. |
| ResolutionPasses.ResolutionPass.VisitLocalHead | tema-2-analiza-semantica-master/src/cool/compiler/ResolutionPassVisitor.java:262-272 | The initializer is typed without the new local; an unregistered declared type is reported once. |
| ResolutionPasses.ResolutionPass.OpenLocal | tema-2-analiza-semantica-master/src/cool/compiler/ResolutionPassVisitor.java:275-285 | The fresh scope sees what the previous one saw plus the local, which takes the declared type when there is one. |
| ResolutionPasses.ResolutionPass.BindLocal | tema-2-analiza-semantica-master/src/cool/compiler/ResolutionPassVisitor.java:278-283 | The local's name now denotes its symbol in the new scope, which the symbol records as its scope; its type is set only when the declared type is registered. |
| ResolutionPasses.ResolutionPass.EnterScope | tema-2-analiza-semantica-master/src/cool/compiler/ResolutionPassVisitor.java:275-276 | A fresh empty scope inside the given one becomes current and sees exactly what its parent sees, in the same enclosing class. |
| ResolutionPasses.ResolutionPass.DeclareIn | tema-2-analiza-semantica-master/src/cool/compiler/ResolutionPassVisitor.java:281 | After `add`, the name denotes the symbol in that scope and everything else it sees is unchanged. |
| ResolutionPasses.ResolutionPass.VisitCase | tema-2-analiza-semantica-master/src/cool/compiler/ResolutionPassVisitor.java:297-314 | The scrutinee, then the branches; the type of the `case` is the join of the branch types that exist, as `LemmaCaseTyped` describes; the current scope is restored. |
| ResolutionPasses.ResolutionPass.VisitBranches | tema-2-analiza-semantica-master/src/cool/compiler/ResolutionPassVisitor.java:303-310 | The branches in order, each in a fresh scope over the saved one, their types joined. |
| ResolutionPasses.ResolutionPass.BranchStep | tema-2-analiza-semantica-master/src/cool/compiler/ResolutionPassVisitor.java:304-309 | One branch extends the fold, as `LemmaBranchesSnoc` states. |
| ResolutionPasses.ResolutionPass.VisitBranchIn | tema-2-analiza-semantica-master/src/cool/compiler/ResolutionPassVisitor.java:304-305 | A branch typed in a fresh scope over the saved one. |
| ResolutionPasses.ResolutionPass.EnterBranchScope | tema-2-analiza-semantica-master/src/cool/compiler/ResolutionPassVisitor.java:304 | The branch's fresh scope sees exactly what the saved scope sees. |
| ResolutionPasses.ResolutionPass.JoinBranch | tema-2-analiza-semantica-master/src/cool/compiler/ResolutionPassVisitor.java:306-309 | A branch with no type leaves the result alone; the first typed branch sets it; later ones are joined in. |
| ResolutionPasses.ResolutionPass.VisitBranch | tema-2-analiza-semantica-master/src/cool/compiler/ResolutionPassVisitor.java:317-348 | A branch whose variable is not an identifier symbol only types its body; SELF_TYPE and unregistered types are reported once and leave the variable untyped; otherwise the variable takes its type; the branch has the body's type. |
| ResolutionPasses.ResolutionPass.VisitFormal | tema-2-analiza-semantica-master/src/cool/compiler/ResolutionPassVisitor.java:59-76 | Agrees with `FormalOutcome`, and never changes a symbol's scope. |
| ResolutionPasses.ResolutionPass.VisitFormals | tema-2-analiza-semantica-master/src/cool/compiler/ResolutionPassVisitor.java:173-175 | Agrees with the formal loop, whose properties are `LemmaFormalsThrow`, `LemmaFormalsReport`, `LemmaFormalsFrame` and `LemmaFormalsStop`. |
| ResolutionPasses.ResolutionPass.VisitAttr | tema-2-analiza-semantica-master/src/cool/compiler/ResolutionPassVisitor.java:198-236 | Agrees with `AttrOutcome`; the current scope is unchanged. |
| ResolutionPasses.ResolutionPass.VisitAttrChecked | tema-2-analiza-semantica-master/src/cool/compiler/ResolutionPassVisitor.java:200-236 | Agrees with `AttrChecked`. |
| ResolutionPasses.ResolutionPass.VisitAttrTyped | tema-2-analiza-semantica-master/src/cool/compiler/ResolutionPassVisitor.java:203-236 | Agrees with `AttrTyped`. |
| ResolutionPasses.ResolutionPass.CheckInit | tema-2-analiza-semantica-master/src/cool/compiler/ResolutionPassVisitor.java:219-233 | The initializer's diagnostics, then at most one more when its type does not conform, as `LemmaInitConforms` states. |
| ResolutionPasses.ResolutionPass.VisitMethod | tema-2-analiza-semantica-master/src/cool/compiler/ResolutionPassVisitor.java:147-195 | A method without a symbol yields nothing and changes nothing; one whose class lacks the method leaves the pass broken, after the return-type diagnostic if any; otherwise it agrees with `MethodOutcome`, and the current scope is the class after a typed result and stays the method otherwise. |
| ResolutionPasses.ResolutionPass.MethodOf | tema-2-analiza-semantica-master/src/cool/compiler/ResolutionPassVisitor.java:153-154 | The method symbol the owning class holds under the method's name, if any. |
| ResolutionPasses.ResolutionPass.VisitMethodIn | tema-2-analiza-semantica-master/src/cool/compiler/ResolutionPassVisitor.java:159-195 | Agrees with `MethodOutcome`. |
| ResolutionPasses.ResolutionPass.MethodSteps | tema-2-analiza-semantica-master/src/cool/compiler/ResolutionPassVisitor.java:170-195 | Agrees with `FeatureTyping.MethodSteps`. |
| ResolutionPasses.ResolutionPass.VisitMethodFormals | tema-2-analiza-semantica-master/src/cool/compiler/ResolutionPassVisitor.java:172-175 | The formals in the method's scope, agreeing with the formal loop; what the method's scope sees is unchanged. |
| ResolutionPasses.ResolutionPass.MethodRest | tema-2-analiza-semantica-master/src/cool/compiler/ResolutionPassVisitor.java:177-194 | Agrees with `MethodTail`. |
| ResolutionPasses.ResolutionPass.MethodBody | tema-2-analiza-semantica-master/src/cool/compiler/ResolutionPassVisitor.java:182-194 | Agrees with `BodyOutcome`. |
| ResolutionPasses.ResolutionPass.CheckReturn | tema-2-analiza-semantica-master/src/cool/compiler/ResolutionPassVisitor.java:188-194 | Agrees with `ReturnCheck`. |
| ResolutionPasses.ResolutionPass.VisitFeature | tema-2-analiza-semantica-master/src/cool/compiler/ResolutionPassVisitor.java:101-103 | An attribute agrees with `AttrOutcome` and leaves the scope unchanged; a method agrees with `MethodOutcome`, leaving the class as the current scope on success and its own scope otherwise; a method without a symbol changes nothing, and one whose class lacks it throws after the return-type diagnostic. |
| ResolutionPasses.ResolutionPass.VisitFeatures | tema-2-analiza-semantica-master/src/cool/compiler/ResolutionPassVisitor.java:101-103 | The features only add diagnostics and keep the scope chain well formed. |
| ResolutionPasses.ResolutionPass.CheckClassHeader | tema-2-analiza-semantica-master/src/cool/compiler/ResolutionPassVisitor.java:85-95 | Agrees with `ClassGate`: reports its diagnostic and says whether the features are visited. |
| ResolutionPasses.ResolutionPass.VisitClass | tema-2-analiza-semantica-master/src/cool/compiler/ResolutionPassVisitor.java:84-107 | The header diagnostics come first; a class the header checks refuse reports nothing more; the current scope is restored unless a feature threw. |
| ResolutionPasses.ResolutionPass.VisitProgram | tema-2-analiza-semantica-master/src/cool/compiler/ResolutionPassVisitor.java:110-114 | The classes only add diagnostics; the current scope is restored unless a visit threw. |

## Left out

- **Input and output.** The parser, file handling and printing are not modelled. The text `SymbolTable.error` prints is modelled as `SymbolTables.Format`, apart from the printing itself. The `Compiler` entry point and `ASTVisitorConstruction` (the building of the AST) are not part of this model.
- SymbolTables.SymbolTable.Error: records only the message text `str`, not the printed line `Format(pos, str)` with its `"<file>", line L:C, ` prefix. The AST of the model keeps no tokens, so there is no position to pass. `Compiler.fileNames` is not part of this model either. `BaseName` takes the path as given, so `File`'s normalisation of repeated or trailing separators is not modelled.
- **Missing source files.** `Symbol.java`, `Scope.java` and `DefaultScope.java` are not part of this model. Their behaviour is inferred from how the core uses them: a name, `lookup` through the parent, `add` that refuses a name already present, and `getParent`.
- **`MethodSymbol.compare`, `hasSymbol`, `setType` and `setScope`.** These are called but not defined in the source. `Compare` is inferred from its uses at tema-2-analiza-semantica-master/src/cool/compiler/RulesChecker.java:217-232 and 254-268: arity first, then the first formal whose type differs, with an unset type rendered as `null`.
- **`checkAttributeDefinition`** (tema-2-analiza-semantica-master/src/cool/compiler/RulesChecker.java:62-64). No pass calls it.
- **`visit(Local)` of the resolution pass** (tema-2-analiza-semantica-master/src/cool/compiler/ResolutionPassVisitor.java:117-144). `visit(Let)` never calls it: it handles its locals itself, and that is what the model follows.
- **Unhandled expressions.** `if`, `while`, dispatch, static dispatch and `new` return null in the resolution pass, and the definition pass does not look inside them. The model gives them no type and no diagnostic (`ExprTyping.LemmaOperatorTypes`). A `let` or `case` nested inside one of them is therefore never visited, as in the source.
- **`IdSymbol`'s fields.** These are kept in the table's maps `types` and `scopes`, keyed by the symbol object, and not as fields of the symbol. `getType` and `getScope` are reads of those maps.
- **`MethodSymbol`'s type.** `setType` on a method always stores the class of its declared return type, so this type is collapsed into the constant `returnType`.
- **`ClassSymbol.hasAttribute` and `hasLocal`.** These are predicates that the other members' contracts use; they have no contract of their own.
- **Built-in methods.** In `defineBasicClasses` (tema-2-analiza-semantica-master/src/cool/structures/SymbolTable.java:51), the formal of `out_int` is typed String. The model records it as written (`SymbolTables.IOSigs`). No rule ever reads the formals of built-in methods, which sit in the attribute tables. The source creates all of a class's method symbols before it adds their formals; the model adds each method's formals as it creates the method, and nothing reads a method in between.
- **Ordered tables.** `ClassSymbol` and `MethodSymbol` keep their tables in `LinkedHashMap`s. The model keeps a class's attributes and methods as unordered maps, because nothing in the core reads their order. A method's formals keep their order (`Table.keys`), because the override check compares them in order.
- **A class that lacks its own method's symbol.** In `visit(Method)` of the resolution pass, the source sets the current scope to the result of `lookupMethod` even when that result is null. The model ends the pass at that point (`aborted`) instead of following every later null dereference. The definition pass always adds the method it attaches, so this case cannot arise after it.
- **`let` initializers.** In `visit(Let)` of the resolution pass, the initializer is typed but never checked against the declared type; the model follows the code. A written description of the language says that an incompatible initializer of a `let` local is reported; the code does not do this.
- **`case` branches.** In `visit(CaseBranch)` of the resolution pass, the branch variable is looked up in a fresh, empty scope whose parent is the enclosing scope. It therefore finds the enclosing scope's symbol of that name, if any, and never the one the definition pass created. The model follows this: the enclosing variable, if there is one, takes the branch's type (`ExprTyping.ResolveBranch`).
- **`case` branch bodies.** A branch with a missing body is not modelled; the grammar always gives one.
- **Bounded walks.** `RulesChecker.CheckAttributeResolution` and `RulesChecker.CheckMethodOverride` stop their walks up the hierarchy after as many steps as there are registered classes. The source walks until the end of the hierarchy, which it never reaches on a cycle. By `Hierarchy.LemmaReachWithinBound`, the bounded walk sees every class the walk reaches, so the two agree whenever the source terminates.
- **ResolutionPasses.ResolutionPass.VisitFeatures, ResolutionPasses.ResolutionPass.VisitClass and ResolutionPasses.ResolutionPass.VisitProgram.** These state that diagnostics are only appended and the scope chain stays well formed. `VisitClass` and `VisitProgram` also state that the scope is restored when nothing threw. `VisitFeatures` does not restore it: a method that is refused leaves its own scope current, as the source does. None of the three is tied to a specification function of the whole class or program, because the method tables each feature reads change as the feature's formals are typed.
- **DefinitionPasses.DefinitionPass.VisitAttr** does not state the current scope while the initializer is visited. The source does not change it, and the contract states only that the scope is restored afterwards.
- **Concurrency and static state.** The source keeps the table in static fields. The model passes one `SymbolTable` object to both passes.

## Findings

| source | as written | input that shows it | evidently intended | confidence | as-written member | corrected member |
|---|---|---|---|---|---|---|
| tema-2-analiza-semantica-master/src/cool/compiler/RulesChecker.java:67-82 | The cycle check climbs from the parent until it meets the class itself or a null parent. | `class A inherits B {}`, `class B inherits C {}`, `class C inherits B {}`: the walk from A's parent goes round B and C forever, and A's check never returns. | Stop the walk once it repeats, accepting A (the cycle does not run through A) and refusing B and C. | not executed | RulesChecker.LemmaCycleCheckRunsForever | RulesChecker.CheckInheritanceCycle |
| tema-2-analiza-semantica-master/src/cool/compiler/RulesChecker.java:110-126 | `getCommonParrent` collects the ancestors of its first class, then climbs from its second class, each time until a null parent. | `class B inherits C {}`, `class C inherits B {}`, `class D { x : B <- 5; }`: the initializer of `x` asks for the join of B and Int, and the first loop goes round B and C forever. | Bound both walks by the number of classes, and fall back to Object when they never meet. | not executed | RulesChecker.LemmaJoinRunsForever | RulesChecker.GetCommonParent |

In both rows:

- **As-written half.** The source's loop is `RulesChecker.CycleCheckAsWritten` or `RulesChecker.JoinAsWritten`, evaluated with a fuel bound. The lemma in the as-written cell proves that no amount of fuel yields an answer on the input shown.
- **Corrected half.** The corrected member is what the rest of the model uses.
- **Agreement.** `RulesChecker.LemmaCycleCheckAgrees` and `RulesChecker.LemmaJoinAgrees` prove that the as-written loop, whenever it does answer, gives the corrected member's answer.
- **The input.** `RulesChecker.LemmaCycleCheckExample` and `RulesChecker.LemmaJoinExample` give the corrected answers on the input shown.

In the first row, A's parent B is inheritable, so the resolution pass runs the cycle check on A, and that check never returns. In the second row, B and C are refused by their cycle checks, which do return. D has no parent, so the pass reaches its attribute.
