/** The abstract syntax tree the two passes walk (package `cool.parser`'s AST nodes,
    reduced to what the semantic passes read).  Tokens are reduced to their text.
    The identifiers of attributes, methods, formals and let locals carry a `uid`: the
    source attaches a symbol to those `Id` nodes (`setSymbol`), and the model keeps
    that attachment in the symbol table, keyed by the node's uid. */
module Ast {
  import opened Base

  type Uid = nat

  datatype Program = Program(classes: seq<Class>)

  /** `class name [inherits parent] { features }`. */
  datatype Class = Class(name: Name, inherit: Option<Name>, features: seq<Feature>)

  datatype Feature =
    | Attr(uid: Uid, name: Name, typ: Name, init: Option<Expr>)
    | Method(uid: Uid, name: Name, formals: seq<Formal>, returnType: Name, body: Expr)

  datatype Formal = Formal(uid: Uid, name: Name, typ: Name)

  /** One variable of a `let`. */
  datatype Local = Local(uid: Uid, name: Name, typ: Name, init: Option<Expr>)

  /** `name : typ => body`. */
  datatype CaseBranch = CaseBranch(name: Name, typ: Name, body: Expr)

  datatype Expr =
    | Id(name: Name)
    | IntLit(text: string)
    | StrLit(text: string)
    | BoolLit(value: bool)
    | Assign(lhs: Name, rhs: Expr)
    | BinaryOp(op: string, left: Expr, right: Expr)
    | Not(operand: Expr)
    | Neg(operand: Expr)
    | IsVoid(operand: Expr)
    | Paren(inner: Expr)
    | Block(exprs: seq<Expr>)
    | Let(locals: seq<Local>, body: Expr)
    | Case(scrutinee: Expr, branches: seq<CaseBranch>)
    | If(cond: Expr, thenBranch: Expr, elseBranch: Expr)
    | While(cond: Expr, loopBody: Expr)
    | Dispatch(receiver: Option<Expr>, methodName: Name, args: seq<Expr>)
    | StaticDispatch(target: Expr, staticType: Name, methodName: Name, args: seq<Expr>)
    | New(newType: Name)
}
