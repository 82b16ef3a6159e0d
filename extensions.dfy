/** Queries on declaration groups, declaration modifiers and the optional
    interpolation used by the templates. */
module Extensions {
  import opened Wrappers
  import opened Syntax
  import opened Seqs

  /** `typeName`: the declared name of an enum, struct or class; the
      keyword `Self` for every other declaration group. */
  function TypeName(d: Decl): (r: string)
    ensures d.kind in {EnumDecl, StructDecl, ClassDecl} ==> r == d.name
    ensures d.kind == OtherDecl ==> r == "Self"
  {
    match d.kind
    case EnumDecl => d.name
    case StructDecl => d.name
    case ClassDecl => d.name
    case OtherDecl => "Self"
  }

  /** `inheritedTypes()`: the types of the inheritance clause, in order. */
  function InheritedTypes(d: Decl): (r: seq<string>)
    ensures d.inheritanceClause.None? ==> r == []
    ensures d.inheritanceClause.Some? ==> r == d.inheritanceClause.value
  {
    match d.inheritanceClause
    case None => []
    case Some(types) => types
  }

  /** `inherits(from:)`: some inherited type's text is exactly one of
      `names`. The check is purely syntactic. */
  function Inherits(d: Decl, names: seq<string>): (r: bool)
    ensures r <==> exists i :: 0 <= i < |InheritedTypes(d)| && InheritedTypes(d)[i] in names
  {
    ContainsWhere(InheritedTypes(d), (t: string) => t in names)
  }

  predicate IsInitializer(m: Member) {
    m.InitializerDecl?
  }

  /** The initializer shape the decode template relies on: exactly one
      parameter, whose first name is `rawValue`. */
  predicate IsRawValueSignature(m: Member) {
    m.InitializerDecl? && |m.parameterFirstNames| == 1 && m.parameterFirstNames[0] == "rawValue"
  }

  /** `members[i]` is the first initializer of the member block. */
  ghost predicate IsFirstInitializerAt(members: seq<Member>, i: int) {
    0 <= i < |members| && members[i].InitializerDecl? &&
    forall j :: 0 <= j < i ==> !members[j].InitializerDecl?
  }

  /** `initRawValue()`: the first initializer if it has the raw-value
      signature. Only the first initializer is ever looked at. */
  function InitRawValue(d: Decl): (r: Option<Member>)
    ensures r.Some? <==> exists i :: IsFirstInitializerAt(d.members, i) && IsRawValueSignature(d.members[i])
    ensures r.Some? ==> exists i :: IsFirstInitializerAt(d.members, i) && r.value == d.members[i]
  {
    match FirstWhere(d.members, IsInitializer)
    case None => None
    case Some(initDecl) =>
      if |initDecl.parameterFirstNames| == 1 && initDecl.parameterFirstNames[0] == "rawValue"
      then Some(initDecl)
      else None
  }

  /** `containsFailableInitRawValue()`: false only when the first
      initializer has the raw-value signature and no optional mark. */
  function ContainsFailableInitRawValue(d: Decl): (r: bool)
    ensures !r <==> exists i :: IsFirstInitializerAt(d.members, i) &&
                              IsRawValueSignature(d.members[i]) && !d.members[i].hasOptionalMark
  {
    match InitRawValue(d)
    case None => true
    case Some(initDecl) => initDecl.hasOptionalMark
  }

  /** `isNeededAccessLevelModifier`: the modifier is the `public` or the
      `package` keyword. */
  predicate IsNeededAccessLevelModifier(m: Modifier) {
    m.name == "public" || m.name == "package"
  }

  /** `modifiers.first(where: \.isNeededAccessLevelModifier)`. */
  function NeededAccessModifier(d: Decl): (r: Option<Modifier>)
    ensures r.None? <==> forall i :: 0 <= i < |d.modifiers| ==> !IsNeededAccessLevelModifier(d.modifiers[i])
    ensures r.Some? ==> IsNeededAccessLevelModifier(r.value) &&
                        exists i :: 0 <= i < |d.modifiers| && d.modifiers[i] == r.value &&
                                    forall j :: 0 <= j < i ==> !IsNeededAccessLevelModifier(d.modifiers[j])
  {
    FirstWhere(d.modifiers, IsNeededAccessLevelModifier)
  }

  /** Interpolating an optional modifier node into a template: nothing when
      it is absent, the keyword and its trailing space when present. */
  function AccessPrefix(access: Option<Modifier>): (r: string)
    ensures r == "" <==> access.None?
    ensures access.Some? ==> r == access.value.name + " "
  {
    match access
    case None => ""
    case Some(m) => m.name + " "
  }

  /** Only `public` and `package` are carried over; `open`, `internal`,
      `fileprivate` and `private` are not. */
  lemma NeededModifiers()
    ensures IsNeededAccessLevelModifier(Modifier("public"))
    ensures IsNeededAccessLevelModifier(Modifier("package"))
    ensures !IsNeededAccessLevelModifier(Modifier("open"))
    ensures !IsNeededAccessLevelModifier(Modifier("internal"))
    ensures !IsNeededAccessLevelModifier(Modifier("fileprivate"))
    ensures !IsNeededAccessLevelModifier(Modifier("private"))
  {
  }

  /** When the first initializer lacks the raw-value signature, any later
      initializer is ignored, however it is written, and the declaration
      counts as failable. */
  lemma LaterInitializerIgnored(d: Decl, i: int)
    requires IsFirstInitializerAt(d.members, i) && !IsRawValueSignature(d.members[i])
    ensures InitRawValue(d).None?
    ensures ContainsFailableInitRawValue(d)
  {
    forall j | IsFirstInitializerAt(d.members, j)
      ensures j == i
    {
    }
  }
}
