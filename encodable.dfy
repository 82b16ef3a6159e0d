/** `@RawValueEncodable`: synthesises `encode(to:)` for a raw-representable
    type and, unless already declared, a `Swift.Encodable` conformance. */
module RawValueEncodable {
  import opened Wrappers
  import opened Syntax
  import opened Seqs
  import opened Extensions
  import opened Diagnostics
  import opened Fragments
  import RawValueDecodable

  const ConformanceName: string := "Encodable"
  const QualifiedConformanceName: string := "Swift." + ConformanceName
  const ConformanceNames: seq<string> := [ConformanceName, QualifiedConformanceName]

  const RawRepresentableName: string := "RawRepresentable"
  const QualifiedRawRepresentableName: string := "Swift." + RawRepresentableName
  const RawRepresentableNames: seq<string> := [RawRepresentableName, QualifiedRawRepresentableName]

  /** The eligibility switch. This macro computes the inherited names
      itself rather than through `inherits(from:)`; the verdict is the same
      table as the decode macro's. */
  function Eligibility(d: Decl): (r: Option<DiagnosticKind>)
    ensures r == Some(NotRawRepresentable) <==>
              d.kind != EnumDecl &&
              forall i :: 0 <= i < |InheritedTypes(d)| ==> InheritedTypes(d)[i] !in RawRepresentableNames
    ensures r == Some(EnumMissingRawValueType) <==> d.kind == EnumDecl && InheritedTypes(d) == []
  {
    var inheritedTypeNames := match d.inheritanceClause case None => [] case Some(types) => types;
    assert inheritedTypeNames == InheritedTypes(d);
    var isDeclEnum := d.kind == EnumDecl;
    var inheritsFromRawRepresentable := ContainsWhere(inheritedTypeNames, (t: string) => t in RawRepresentableNames);
    if !inheritsFromRawRepresentable && isDeclEnum && inheritedTypeNames == [] then Some(EnumMissingRawValueType)
    else if !inheritsFromRawRepresentable && !isDeclEnum then Some(NotRawRepresentable)
    else None
  }

  /** The encode body: open a single-value container and write the raw
      value into it. */
  function EncodeBody(): (r: seq<Stmt>)
    ensures CountGuards(r) == 0
    ensures forall msg :: !ThrowsDataCorrupted(r, msg)
    ensures |r| == 2 && r[1] == EncodeRawValue
    ensures BodyLines(r) == ["var container = encoder.singleValueContainer()", "try container.encode(self.rawValue)"]
  {
    var r := [VarEncoderContainer, EncodeRawValue];
    assert r[1..] == [EncodeRawValue];
    r
  }

  /** The member expansion: one `encode(to:)`, or exactly one diagnostic
      bound to the declaration. */
  function ExpansionMembers(d: Decl): (r: Result<seq<MemberDecl>, seq<Diagnostic>>)
    ensures r.Failure? <==> Eligibility(d).Some?
    ensures r.Failure? ==>
              r.error == [Diagnose(MacroDiagnostic(Eligibility(d).value, RawValueEncodableMacro), d)]
    ensures r.Success? ==> r.value == [EncodeToEncoder(NeededAccessModifier(d), EncodeBody())]
  {
    match Eligibility(d)
    case Some(kind) => Failure([Diagnose(MacroDiagnostic(kind, RawValueEncodableMacro), d)])
    case None =>
      var access := NeededAccessModifier(d);
      Success([EncodeToEncoder(access, EncodeBody())])
  }

  /** The extension expansion for `Encodable`. */
  function ExpansionExtensions(d: Decl, extendedType: string): (r: seq<ExtensionDecl>)
    ensures r == [] <==> Inherits(d, ConformanceNames)
    ensures r != [] ==> r == [ExtensionDecl(extendedType, "Swift.Encodable")]
  {
    assert QualifiedConformanceName == "Swift.Encodable";
    if Inherits(d, ConformanceNames) then []
    else [ExtensionDecl(extendedType, QualifiedConformanceName)]
  }

  /** Both macros reach the same verdict on every declaration. */
  lemma SameEligibilityAsDecode(d: Decl)
    ensures Eligibility(d) == RawValueDecodable.Eligibility(d)
  {
  }

  /** The generated `encode(to:)` does not depend on the declaration's
      initializers, failable or not. */
  lemma EncodeIgnoresInitializers(d1: Decl, d2: Decl)
    requires d1.(members := d2.members) == d2
    ensures ExpansionMembers(d1).Success? <==> ExpansionMembers(d2).Success?
    ensures ExpansionMembers(d1).Success? ==> ExpansionMembers(d1) == ExpansionMembers(d2)
  {
  }

  /** A public struct keeps `public` on the generated `encode(to:)`. */
  lemma PublicStructScenario(d: Decl)
    requires d.kind == StructDecl && d.inheritanceClause == Some(["RawRepresentable"])
    requires d.modifiers == [Modifier("public")]
    ensures ExpansionMembers(d) == Success([EncodeToEncoder(Some(Modifier("public")), EncodeBody())])
    ensures ExpansionExtensions(d, d.name) == [ExtensionDecl(d.name, "Swift.Encodable")]
  {
    assert InheritedTypes(d)[0] !in ConformanceNames;
  }

  /** A struct without an inheritance clause is rejected, and the message
      names `RawValueCodable`, not `RawValueEncodable`. */
  lemma NotRawRepresentableScenario(d: Decl)
    requires d.kind == StructDecl && d.inheritanceClause.None?
    ensures ExpansionMembers(d) == Failure([Diagnose(MacroDiagnostic(NotRawRepresentable, RawValueEncodableMacro), d)])
    ensures Message(ExpansionMembers(d).error[0].diagMessage) ==
            "@" + "RawValueCodable" + " can only be applied to a type conforming to 'RawRepresentable'"
  {
  }

  /** An enum backed by `String` is eligible: it gets the internal
      `encode(to:)` and a `Swift.Encodable` extension. */
  lemma StringBackedEnumScenario(d: Decl)
    requires d.kind == EnumDecl && d.inheritanceClause == Some(["String"]) && d.modifiers == []
    ensures ExpansionMembers(d) == Success([EncodeToEncoder(None, EncodeBody())])
    ensures ExpansionExtensions(d, d.name) == [ExtensionDecl(d.name, "Swift.Encodable")]
  {
    assert InheritedTypes(d)[0] !in ConformanceNames;
  }
}
