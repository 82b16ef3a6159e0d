/** `@RawValueDecodable`: synthesises `init(from:)` for a raw-representable
    type and, unless already declared, a `Swift.Decodable` conformance. */
module RawValueDecodable {
  import opened Wrappers
  import opened Syntax
  import opened Extensions
  import opened Diagnostics
  import opened Fragments

  const ConformanceName: string := "Decodable"
  const QualifiedConformanceName: string := "Swift." + ConformanceName
  const ConformanceNames: seq<string> := [ConformanceName, QualifiedConformanceName]

  const RawRepresentableName: string := "RawRepresentable"
  const QualifiedRawRepresentableName: string := "Swift." + RawRepresentableName
  const RawRepresentableNames: seq<string> := [RawRepresentableName, QualifiedRawRepresentableName]

  /** The description of the error thrown when the raw value does not map
      to a value of the type. */
  const DataCorruptedDescription: string := "Unable to decode value of type `RawValue` from data."

  /** The eligibility switch: `None` when the declaration may be expanded,
      otherwise the kind of the diagnostic to raise. */
  function Eligibility(d: Decl): (r: Option<DiagnosticKind>)
    ensures r == Some(NotRawRepresentable) <==> d.kind != EnumDecl && !Inherits(d, RawRepresentableNames)
    ensures r == Some(EnumMissingRawValueType) <==> d.kind == EnumDecl && InheritedTypes(d) == []
    ensures r.None? <==> Inherits(d, RawRepresentableNames) || (d.kind == EnumDecl && InheritedTypes(d) != [])
  {
    var isDeclEnum := d.kind == EnumDecl;
    var inheritsFromRawRepresentable := Inherits(d, RawRepresentableNames);
    if !inheritsFromRawRepresentable && isDeclEnum && InheritedTypes(d) == [] then Some(EnumMissingRawValueType)
    else if !inheritsFromRawRepresentable && !isDeclEnum then Some(NotRawRepresentable)
    else None
  }

  /** The guarded body used when the raw-value initializer may fail: it
      opens the decoder's single-value container, builds
      `<typeName>(rawValue:)` from it, guards once, and throws the
      data-corrupted error. */
  function GuardedBody(typeName: string): (r: seq<Stmt>)
    ensures CountGuards(r) == 1
    ensures ThrowsDataCorrupted(r, DataCorruptedDescription)
    ensures LetValueFromRawValue(typeName) in r
    ensures r[|r| - 1] == AssignSelfToValue
    ensures BodyLines(r[..2]) == ["let container = try decoder.singleValueContainer()",
                                  "let value = try " + typeName + "(rawValue: container.decode(RawValue.self))"]
  {
    var r := [LetDecoderContainer,
              LetValueFromRawValue(typeName),
              GuardValueElseThrowDataCorrupted(DataCorruptedDescription),
              AssignSelfToValue];
    assert r[2] == GuardValueElseThrowDataCorrupted(DataCorruptedDescription);
    assert CountGuards(r[3..]) == 0;
    assert r[2..][1..] == r[3..];
    assert CountGuards(r[2..]) == 1;
    assert r[1..][1..] == r[2..];
    assert r[1..] == [r[1]] + r[2..];
    assert r[..2] == [LetDecoderContainer, LetValueFromRawValue(typeName)];
    assert r[..2][1..] == [LetValueFromRawValue(typeName)];
    assert BodyLines(r[..2][1..][1..]) == [];
    assert BodyLines(r[..2][1..]) == StmtLines(LetValueFromRawValue(typeName));
    assert BodyLines(r[..2]) == StmtLines(LetDecoderContainer) + StmtLines(LetValueFromRawValue(typeName));
    r
  }

  /** The one-line body used when the raw-value initializer cannot fail. */
  function DelegatingBody(): (r: seq<Stmt>)
    ensures |r| == 1
    ensures BodyLines(r) == ["try self.init(rawValue: decoder.singleValueContainer().decode(RawValue.self))"]
    ensures CountGuards(r) == 0
    ensures forall msg :: !ThrowsDataCorrupted(r, msg)
  {
    [DelegateToInitRawValue]
  }

  /** The member expansion: one `init(from:)`, or exactly one diagnostic
      bound to the declaration. */
  function ExpansionMembers(d: Decl): (r: Result<seq<MemberDecl>, seq<Diagnostic>>)
    ensures r.Failure? <==> !Inherits(d, RawRepresentableNames) && (d.kind != EnumDecl || InheritedTypes(d) == [])
    ensures r.Failure? ==>
              |r.error| == 1 &&
              r.error[0] == Diagnose(MacroDiagnostic(
                if d.kind == EnumDecl then EnumMissingRawValueType else NotRawRepresentable,
                RawValueDecodableMacro), d)
    ensures r.Success? ==> |r.value| == 1 && r.value[0].InitFromDecoder? &&
                           r.value[0].access == NeededAccessModifier(d)
    ensures r.Success? && ContainsFailableInitRawValue(d) ==>
      r.value[0].body == GuardedBody(TypeName(d))
    ensures r.Success? && !ContainsFailableInitRawValue(d) ==>
      r.value[0].body == DelegatingBody()
  {
    match Eligibility(d)
    case Some(kind) => Failure([Diagnose(MacroDiagnostic(kind, RawValueDecodableMacro), d)])
    case None =>
      var access := NeededAccessModifier(d);
      var body := if ContainsFailableInitRawValue(d) then GuardedBody(TypeName(d)) else DelegatingBody();
      Success([InitFromDecoder(access, body)])
  }

  /** The extension expansion: nothing when `Decodable` or
      `Swift.Decodable` is already inherited, else one `Swift.Decodable`
      extension of the compiler-supplied type, with no access modifier. */
  function ExpansionExtensions(d: Decl, extendedType: string): (r: seq<ExtensionDecl>)
    ensures r == [] <==> Inherits(d, ConformanceNames)
    ensures r != [] ==> r == [ExtensionDecl(extendedType, "Swift.Decodable")]
  {
    assert QualifiedConformanceName == "Swift.Decodable";
    if Inherits(d, ConformanceNames) then []
    else [ExtensionDecl(extendedType, QualifiedConformanceName)]
  }

  /** A struct with a non-failable `init(rawValue:)` gets the delegating
      form and, being internal, no access prefix. */
  lemma NonFailableStructScenario(d: Decl)
    requires d.kind == StructDecl && d.inheritanceClause == Some(["RawRepresentable"])
    requires d.modifiers == [] && d.members == [OtherMember, InitializerDecl(false, ["rawValue"])]
    ensures ExpansionMembers(d) == Success([InitFromDecoder(None, DelegatingBody())])
    ensures ExpansionExtensions(d, d.name) == [ExtensionDecl(d.name, "Swift.Decodable")]
  {
    assert IsFirstInitializerAt(d.members, 1);
    assert InheritedTypes(d)[0] !in ConformanceNames;
  }

  /** A public struct keeps its `public` modifier on the generated member. */
  lemma PublicStructScenario(d: Decl)
    requires d.kind == StructDecl && d.inheritanceClause == Some(["RawRepresentable"])
    requires d.modifiers == [Modifier("public")] && d.members == [OtherMember, InitializerDecl(false, ["rawValue"])]
    ensures ExpansionMembers(d) == Success([InitFromDecoder(Some(Modifier("public")), DelegatingBody())])
  {
    assert IsFirstInitializerAt(d.members, 1);
  }

  /** A failable `init?(rawValue:)` gives the guarded form, which builds the
      declared type by name. */
  lemma FailableEnumScenario(d: Decl)
    requires d.kind == EnumDecl && d.name == "Texture" && d.inheritanceClause == Some(["RawRepresentable"])
    requires d.modifiers == [] && d.members == [OtherMember, OtherMember, OtherMember, InitializerDecl(true, ["rawValue"])]
    ensures ExpansionMembers(d) == Success([InitFromDecoder(None, GuardedBody("Texture"))])
  {
    assert IsFirstInitializerAt(d.members, 3);
  }

  /** An enum backed by `String`, with no initializer written, is eligible
      and counts as failable. */
  lemma StringBackedEnumScenario(d: Decl)
    requires d.kind == EnumDecl && d.inheritanceClause == Some(["String"]) && d.modifiers == []
    requires forall i :: 0 <= i < |d.members| ==> d.members[i] == OtherMember
    ensures ExpansionMembers(d) == Success([InitFromDecoder(None, GuardedBody(d.name))])
  {
  }

  /** A public struct without an inheritance clause is rejected with one
      `notRawRepresentable` diagnostic naming `RawValueDecodable`. */
  lemma NotRawRepresentableScenario(d: Decl)
    requires d.kind == StructDecl && d.inheritanceClause.None? && d.modifiers == [Modifier("public")]
    ensures ExpansionMembers(d) == Failure([Diagnose(MacroDiagnostic(NotRawRepresentable, RawValueDecodableMacro), d)])
    ensures Message(ExpansionMembers(d).error[0].diagMessage) ==
            "@" + "RawValueDecodable" + " can only be applied to a type conforming to 'RawRepresentable'"
  {
  }
}
