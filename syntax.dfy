/** The part of a declaration-group syntax node that the macros look at.
    Names and type texts are stored as their trimmed descriptions: the
    macros compare only trimmed text, so trivia never matters. */
module Syntax {
  import opened Wrappers

  /** Which declaration-group node the macro is attached to; `OtherDecl`
      covers actors, protocols and extensions. */
  datatype DeclKind = EnumDecl | StructDecl | ClassDecl | OtherDecl

  /** A declaration modifier, by the text of its keyword (`public`,
      `private`, `final`, ...). */
  datatype Modifier = Modifier(name: string)

  /** A member of the member block: an initializer, with whether it carries
      an optional mark (`init?` or `init!`) and the first name of each of
      its parameters, or any other member. */
  datatype Member =
    | InitializerDecl(hasOptionalMark: bool, parameterFirstNames: seq<string>)
    | OtherMember

  /** A declaration group. `inheritanceClause` is `None` when the
      declaration has no `:` clause; `position` is where the node starts
      once leading trivia is skipped. */
  datatype Decl = Decl(
    kind: DeclKind,
    name: string,
    inheritanceClause: Option<seq<string>>,
    modifiers: seq<Modifier>,
    members: seq<Member>,
    position: nat)
}
