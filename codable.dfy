/** `@RawValueCodable`: runs the decode and then the encode member
    expansions, re-tags their `notRawRepresentable` diagnostics as its own,
    and adds a `Swift.Codable` conformance unless one is already declared. */
module RawValueCodable {
  import opened Wrappers
  import opened Syntax
  import opened Seqs
  import opened Extensions
  import opened Diagnostics
  import opened Fragments
  import RawValueDecodable
  import RawValueEncodable

  const ConformanceName: string := "Codable"
  const QualifiedConformanceName: string := "Swift." + ConformanceName
  const ConformanceNames: seq<string> := [ConformanceName, QualifiedConformanceName]

  /** The two messages the re-tagging recognises: `notRawRepresentable` as
      raised by the decode or by the encode macro. */
  predicate IsSubMacroNotRawRepresentable(m: MacroDiagnostic) {
    m == MacroDiagnostic(NotRawRepresentable, RawValueDecodableMacro) ||
    m == MacroDiagnostic(NotRawRepresentable, RawValueEncodableMacro)
  }

  /** Re-tagging one diagnostic: a sub-macro's `notRawRepresentable`
      becomes the composite's, keeping node, position, highlights, notes
      and fix-its; any other diagnostic is returned as it is. */
  function Retag(diag: Diagnostic): (r: Diagnostic)
    ensures r.node == diag.node && r.position == diag.position
    ensures r.highlights == diag.highlights && r.notes == diag.notes && r.fixIts == diag.fixIts
    ensures r.diagMessage.kind == diag.diagMessage.kind
    ensures diag.diagMessage.kind == NotRawRepresentable ==> r.diagMessage.macro == RawValueCodableMacro
    ensures !IsSubMacroNotRawRepresentable(diag.diagMessage) ==> r == diag
  {
    if IsSubMacroNotRawRepresentable(diag.diagMessage) then
      Diagnostic(
        node := diag.node,
        position := diag.position,
        diagMessage := MacroDiagnostic(NotRawRepresentable, RawValueCodableMacro),
        highlights := diag.highlights,
        notes := diag.notes,
        fixIts := diag.fixIts)
    else
      assert diag.diagMessage.kind == NotRawRepresentable ==> diag.diagMessage.macro == RawValueCodableMacro;
      diag
  }

  /** `error.diagnostics.map(...)`: the thrown list, re-tagged element by
      element, with its length and order kept. */
  function RetagAll(diagnostics: seq<Diagnostic>): (r: seq<Diagnostic>)
    ensures |r| == |diagnostics|
    ensures forall i :: 0 <= i < |r| ==> r[i] == Retag(diagnostics[i])
  {
    Map(diagnostics, Retag)
  }

  /** The member expansion: the decode member followed by the encode
      member; on failure, the first failing side's diagnostics, re-tagged.
      Since both sides share one eligibility table, the encode side never
      fails once the decode side has succeeded. */
  function ExpansionMembers(d: Decl): (r: Result<seq<MemberDecl>, seq<Diagnostic>>)
    ensures r.Success? <==> RawValueDecodable.ExpansionMembers(d).Success?
    ensures r.Success? ==>
              r.value == RawValueDecodable.ExpansionMembers(d).value + RawValueEncodable.ExpansionMembers(d).value &&
              |r.value| == 2 && r.value[0].InitFromDecoder? && r.value[1].EncodeToEncoder?
    ensures r.Failure? ==> r.error == RetagAll(RawValueDecodable.ExpansionMembers(d).error)
  {
    RawValueEncodable.SameEligibilityAsDecode(d);
    match RawValueDecodable.ExpansionMembers(d)
    case Failure(diagnostics) => Failure(RetagAll(diagnostics))
    case Success(decodeMembers) =>
      match RawValueEncodable.ExpansionMembers(d)
      case Failure(diagnostics) => Failure(RetagAll(diagnostics))
      case Success(encodeMembers) => Success(decodeMembers + encodeMembers)
  }

  /** The extension expansion for `Codable`: only `Codable` or
      `Swift.Codable` suppresses it. */
  function ExpansionExtensions(d: Decl, extendedType: string): (r: seq<ExtensionDecl>)
    ensures r == [] <==> Inherits(d, ConformanceNames)
    ensures r != [] ==> r == [ExtensionDecl(extendedType, "Swift.Codable")]
  {
    assert QualifiedConformanceName == "Swift.Codable";
    if Inherits(d, ConformanceNames) then []
    else [ExtensionDecl(extendedType, QualifiedConformanceName)]
  }

  /** Re-tagging twice changes nothing more. */
  lemma RetagIdempotent(diag: Diagnostic)
    ensures Retag(Retag(diag)) == Retag(diag)
  {
  }

  /** A declaration the composite rejects as not raw-representable gets one
      diagnostic that names the composite macro. */
  lemma CompositeNotRawRepresentable(d: Decl)
    requires d.kind != EnumDecl && !Inherits(d, RawValueDecodable.RawRepresentableNames)
    ensures ExpansionMembers(d).Failure?
    ensures |ExpansionMembers(d).error| == 1
    ensures ExpansionMembers(d).error[0] ==
            Diagnose(MacroDiagnostic(NotRawRepresentable, RawValueCodableMacro), d)
    ensures Message(ExpansionMembers(d).error[0].diagMessage) ==
            "@" + "RawValueCodable" + " can only be applied to a type conforming to 'RawRepresentable'"
  {
  }

  /** An enum without any inherited type is rejected with the decode
      macro's own `enumMissingRawValueType`: that kind is not re-tagged,
      so its message still names `RawValueDecodable`. */
  lemma CompositeEnumMissingRawValueType(d: Decl)
    requires d.kind == EnumDecl && InheritedTypes(d) == []
    ensures ExpansionMembers(d).Failure?
    ensures ExpansionMembers(d).error ==
            [Diagnose(MacroDiagnostic(EnumMissingRawValueType, RawValueDecodableMacro), d)]
    ensures Message(ExpansionMembers(d).error[0].diagMessage) ==
            "@" + "RawValueDecodable" +
            " can only be applied to an enum conforming to 'RawRepresentable' explicitly or an enum with raw value"
  {
  }

  /** Declaring `Decodable` and `Encodable` separately does not suppress
      the `Swift.Codable` extension, while it suppresses both narrower
      macros' extensions. */
  lemma NarrowerConformancesDoNotSuppress(d: Decl, extendedType: string)
    requires "Decodable" in InheritedTypes(d) && "Encodable" in InheritedTypes(d)
    requires "Codable" !in InheritedTypes(d) && "Swift.Codable" !in InheritedTypes(d)
    ensures ExpansionExtensions(d, extendedType) == [ExtensionDecl(extendedType, "Swift.Codable")]
    ensures RawValueDecodable.ExpansionExtensions(d, extendedType) == []
    ensures RawValueEncodable.ExpansionExtensions(d, extendedType) == []
  {
    assert QualifiedConformanceName == "Swift.Codable";
  }

  /** An enum backed by `String` gets both members, decode first, and one
      `Swift.Codable` extension. */
  lemma StringBackedEnumScenario(d: Decl)
    requires d.kind == EnumDecl && d.inheritanceClause == Some(["String"]) && d.modifiers == []
    requires forall i :: 0 <= i < |d.members| ==> d.members[i] == OtherMember
    ensures ExpansionMembers(d) ==
            Success([InitFromDecoder(None, RawValueDecodable.GuardedBody(d.name)),
                     EncodeToEncoder(None, RawValueEncodable.EncodeBody())])
    ensures ExpansionExtensions(d, d.name) == [ExtensionDecl(d.name, "Swift.Codable")]
  {
    assert InheritedTypes(d)[0] !in ConformanceNames;
    RawValueDecodable.StringBackedEnumScenario(d);
    RawValueEncodable.SameEligibilityAsDecode(d);
    var decodeMember := InitFromDecoder(None, RawValueDecodable.GuardedBody(d.name));
    var encodeMember := EncodeToEncoder(None, RawValueEncodable.EncodeBody());
    assert RawValueEncodable.ExpansionMembers(d) == Success([encodeMember]);
    assert [decodeMember] + [encodeMember] == [decodeMember, encodeMember];
  }

  /** Every diagnostic any of the three macros raises is an error. */
  lemma AllDiagnosticsAreErrors(d: Decl)
    ensures RawValueDecodable.ExpansionMembers(d).Failure? ==>
              forall diag :: diag in RawValueDecodable.ExpansionMembers(d).error ==> Severity(diag.diagMessage) == Error
    ensures RawValueEncodable.ExpansionMembers(d).Failure? ==>
              forall diag :: diag in RawValueEncodable.ExpansionMembers(d).error ==> Severity(diag.diagMessage) == Error
    ensures ExpansionMembers(d).Failure? ==>
              forall diag :: diag in ExpansionMembers(d).error ==> Severity(diag.diagMessage) == Error
  {
  }
}
