/** The diagnostic catalogue shared by the three macros: a diagnostic kind
    paired with the identity of the macro that raised it. */
module Diagnostics {
  import opened Syntax

  /** The three macro implementations; a diagnostic remembers which one
      raised it. */
  datatype MacroType = RawValueDecodableMacro | RawValueEncodableMacro | RawValueCodableMacro

  /** Each macro's `macroName`. The encode macro reuses the composite's
      name. */
  function MacroName(m: MacroType): (r: string)
    ensures m == RawValueDecodableMacro ==> r == "RawValueDecodable"
    ensures m != RawValueDecodableMacro ==> r == "RawValueCodable"
  {
    match m
    case RawValueDecodableMacro => "RawValueDecodable"
    case RawValueEncodableMacro => "RawValueCodable"
    case RawValueCodableMacro => "RawValueCodable"
  }

  datatype DiagnosticKind = NotRawRepresentable | EnumMissingRawValueType

  /** `MacroDiagnostic<M>`: a kind, instantiated for macro `M`. */
  datatype MacroDiagnostic = MacroDiagnostic(kind: DiagnosticKind, macro: MacroType)

  datatype DiagnosticSeverity = Error | Warning | Note | Remark

  datatype MessageID = MessageID(domain: string, id: string)

  function Severity(m: MacroDiagnostic): DiagnosticSeverity {
    Error
  }

  /** The text after `@<macroName>` in each kind's message; both name the
      protocol `RawRepresentable`. */
  function MessageSuffix(k: DiagnosticKind): string {
    match k
    case NotRawRepresentable =>
      " can only be applied to a type conforming to 'RawRepresentable'"
    case EnumMissingRawValueType =>
      " can only be applied to an enum conforming to 'RawRepresentable' explicitly or an enum with raw value"
  }

  /** The message of a diagnostic: `@`, the raising macro's name, and the
      kind's wording. */
  function Message(m: MacroDiagnostic): string {
    "@" + MacroName(m.macro) + MessageSuffix(m.kind)
  }

  function KindName(k: DiagnosticKind): string {
    match k
    case NotRawRepresentable => "notRawRepresentable"
    case EnumMissingRawValueType => "enumMissingRawValueType"
  }

  function DiagnosticID(m: MacroDiagnostic): (r: MessageID)
    ensures r.domain == "RawValueCodableMacros"
    ensures r.id == KindName(m.kind)
  {
    match m.kind
    case NotRawRepresentable => MessageID("RawValueCodableMacros", "notRawRepresentable")
    case EnumMissingRawValueType => MessageID("RawValueCodableMacros", "enumMissingRawValueType")
  }

  /** A note or fix-it attached to a diagnostic, by its message. */
  datatype NoteMessage = NoteMessage(message: string)
  datatype FixItMessage = FixItMessage(message: string)

  /** A diagnostic as the compiler receives it: the node it is bound to,
      its position, its message, and the nodes it highlights, its notes and
      its fix-its. */
  datatype Diagnostic = Diagnostic(
    node: Decl,
    position: nat,
    diagMessage: MacroDiagnostic,
    highlights: seq<Decl>,
    notes: seq<NoteMessage>,
    fixIts: seq<FixItMessage>)

  /** `diagnose(at:)`: a diagnostic bound to exactly the given node, at the
      node's position. `Diagnostic(node:message:)` highlights the node itself
      by default, and it attaches no notes or fix-its. */
  function Diagnose(m: MacroDiagnostic, node: Decl): (r: Diagnostic)
    ensures r.node == node && r.position == node.position && r.diagMessage == m
    ensures r.highlights == [node] && r.notes == [] && r.fixIts == []
  {
    Diagnostic(node, node.position, m, [node], [], [])
  }

  /** The `notRawRepresentable` message, word for word. */
  lemma NotRawRepresentableText(mac: MacroType)
    ensures Message(MacroDiagnostic(NotRawRepresentable, mac)) ==
            "@" + MacroName(mac) + " can only be applied to a type conforming to 'RawRepresentable'"
  {
  }

  /** The `enumMissingRawValueType` message, word for word. */
  lemma EnumMissingRawValueTypeText(mac: MacroType)
    ensures Message(MacroDiagnostic(EnumMissingRawValueType, mac)) ==
            "@" + MacroName(mac) + " can only be applied to an enum conforming to 'RawRepresentable' explicitly or an enum with raw value"
  {
  }

  /** The message is a function of the kind and the macro name alone. */
  lemma MessageDependsOnlyOnKindAndName(m1: MacroDiagnostic, m2: MacroDiagnostic)
    requires m1.kind == m2.kind && MacroName(m1.macro) == MacroName(m2.macro)
    ensures Message(m1) == Message(m2)
  {
  }

  /** For one macro, the two kinds never share a message. */
  lemma MessagesDistinguishKinds(mac: MacroType)
    ensures Message(MacroDiagnostic(NotRawRepresentable, mac)) !=
            Message(MacroDiagnostic(EnumMissingRawValueType, mac))
  {
    assert |Message(MacroDiagnostic(NotRawRepresentable, mac))| <
           |Message(MacroDiagnostic(EnumMissingRawValueType, mac))|;
  }

  /** The encode macro's diagnostics read as the composite's, although the
      two macros remain distinct identities. */
  lemma EncodeMessagesNameComposite(k: DiagnosticKind)
    ensures Message(MacroDiagnostic(k, RawValueEncodableMacro)) == Message(MacroDiagnostic(k, RawValueCodableMacro))
    ensures Message(MacroDiagnostic(k, RawValueEncodableMacro)) != Message(MacroDiagnostic(k, RawValueDecodableMacro))
    ensures MacroDiagnostic(k, RawValueEncodableMacro) != MacroDiagnostic(k, RawValueCodableMacro)
  {
    var a := Message(MacroDiagnostic(k, RawValueEncodableMacro));
    var b := Message(MacroDiagnostic(k, RawValueDecodableMacro));
    assert a[9] == 'C' && b[9] == 'D';
  }

  /** The identifier ignores the macro and tells the two kinds apart. */
  lemma DiagnosticIDsByKind(m1: MacroDiagnostic, m2: MacroDiagnostic)
    ensures DiagnosticID(m1) == DiagnosticID(m2) <==> m1.kind == m2.kind
  {
  }
}
