# RawValueCodable macros, modelled in Dafny

This project models the analysis and code synthesis behind the three
attached Swift macros `@RawValueDecodable`, `@RawValueEncodable` and
`@RawValueCodable`. Each macro looks at a type declaration and does four things.

1. It decides whether the declaration is eligible. The inputs are: is the
   type an enum; does its inheritance clause name `RawRepresentable` or
   `Swift.RawRepresentable`; and is that clause empty.
2. It generates one member. For decoding this is `init(from:)`, either guarded
   or delegating. For encoding it is `encode(to:)`.
3. It copies only a `public` or `package` modifier onto that member.
4. It emits a `Swift.X` conformance extension, or none when `X` or `Swift.X`
   is already inherited.

The composite macro runs the decode expansion and then the encode
expansion. It concatenates their members. On failure it re-tags only the
`notRawRepresentable` diagnostics, so that they name `RawValueCodable`.

Modules, one per source file (plus helpers):

- `Wrappers`: `Option` and `Result`. A throwing expansion is a `Result` whose
  failure holds the diagnostics list of the thrown `DiagnosticsError`.
- `Seqs`: `first(where:)`, `contains(where:)` and `map`, as recursive functions
  with their contracts.
- `Syntax`: the declaration node, reduced to what the macros read. This is
  the kind, the name, the optional inheritance clause, the modifiers, the
  members (initializers with optional mark and parameter first names, or
  anything else) and the node position.
- `Extensions` (Extra/Extensions.swift): `typeName`, `inheritedTypes`,
  `inherits(from:)`, `initRawValue`, `containsFailableInitRawValue`,
  `isNeededAccessLevelModifier`, and the optional-node interpolation.
- `Diagnostics` (Extra/Diagnostics.swift): `MacroDiagnostic<M>`, written as a
  kind paired with a macro identity. Also its severity, message and
  identifier, and `diagnose(at:)`.
- `Fragments`: the generated code as data (statements, members, extensions).
  It also renders them line for line as the templates write them.
- `RawValueDecodable`, `RawValueEncodable`, `RawValueCodable`: the three
  macros' member and extension expansions.

Every operation is a total function, so identical inputs give identical
fragments and diagnostics.

Quirks of the code that the model keeps:

- Diagnostics are bound to the declaration node (`diagnose(at: declaration)`),
  and the attribute node is never used.
- The composite re-tags only `notRawRepresentable`. An enum with no
  inherited type still gets the decode macro's `enumMissingRawValueType`,
  which names `RawValueDecodable`.
- Extensions carry no access modifier, even on a `public` type.
- The encode macro's name is `RawValueCodable`. Its messages therefore read
  `@RawValueCodable ...`, but the composite still tells its diagnostics
  apart from its own by macro identity.

## Model

| member | source | states |
|---|---|---|
| `Extensions.TypeName` | Sources/RawValueCodableMacros/Extra/Extensions.swift:20-25 | For an enum, struct or class, the type name is the declared name. For any other declaration group it is `Self`. |
| `Extensions.InheritedTypes` | Sources/RawValueCodableMacros/Extra/Extensions.swift:27-31 | Returns the types of the inheritance clause, or the empty list when there is no clause. |
| `Extensions.Inherits` | Sources/RawValueCodableMacros/Extra/Extensions.swift:33-37 | True iff some inherited type's text is exactly one of the given names. |
| `Extensions.InitRawValue` | Sources/RawValueCodableMacros/Extra/Extensions.swift:39-54 | Returns an initializer iff the first initializer of the member block has exactly one parameter, with first name `rawValue`. The initializer returned is that first one. |
| `Extensions.ContainsFailableInitRawValue` | Sources/RawValueCodableMacros/Extra/Extensions.swift:56-63 | False iff the first initializer has the raw-value signature and no optional mark. So a missing or non-matching first initializer counts as failable. |
| `Extensions.LaterInitializerIgnored` | Sources/RawValueCodableMacros/Extra/Extensions.swift:40-53 | For every declaration whose first initializer lacks the raw-value signature, `initRawValue` is none and the declaration counts as failable, whatever initializers follow. |
| `Extensions.NeededModifiers` | Sources/RawValueCodableMacros/Extra/Extensions.swift:66-73 | `public` and `package` are carried over. `open`, `internal`, `fileprivate` and `private` are not. |
| `Extensions.NeededAccessModifier` | Sources/RawValueCodableMacros/RawValueDecodableMacro.swift:50 | Returns the first `public` or `package` modifier of the declaration, or none iff no modifier is one of them. |
| `Extensions.AccessPrefix` | Sources/RawValueCodableMacros/Extra/Extensions.swift:8-12 | An absent modifier interpolates to the empty prefix, and only an absent one does. A present modifier gives its keyword and a space. |
| `Diagnostics.MacroName` | Sources/RawValueCodableMacros/Extra/Diagnostics.swift:12 | The decode macro is named `RawValueDecodable`. Both the encode and the composite macro are named `RawValueCodable`. |
| `Diagnostics.NotRawRepresentableText` | Sources/RawValueCodableMacros/Extra/Diagnostics.swift:18-19 | The message is `@<macroName> can only be applied to a type conforming to 'RawRepresentable'`. |
| `Diagnostics.EnumMissingRawValueTypeText` | Sources/RawValueCodableMacros/Extra/Diagnostics.swift:20-21 | The message is `@<macroName> can only be applied to an enum conforming to 'RawRepresentable' explicitly or an enum with raw value`. |
| `Diagnostics.MessageDependsOnlyOnKindAndName` | Sources/RawValueCodableMacros/Extra/Diagnostics.swift:12-23 | Equal kinds and equal macro names give equal messages. |
| `Diagnostics.MessagesDistinguishKinds` | Sources/RawValueCodableMacros/Extra/Diagnostics.swift:16-23 | For any one macro, the two kinds have different messages. |
| `Diagnostics.EncodeMessagesNameComposite` | Sources/RawValueCodableMacros/RawValueEncodableMacro.swift:8 | The encode macro's messages match the composite's and differ from the decode macro's. Its diagnostics are still distinct values from the composite's. |
| `Diagnostics.DiagnosticID` | Sources/RawValueCodableMacros/Extra/Diagnostics.swift:25-32 | The domain is `RawValueCodableMacros` and the identifier is the kind's name. |
| `Diagnostics.DiagnosticIDsByKind` | Sources/RawValueCodableMacros/Extra/Diagnostics.swift:26-31 | Two identifiers are equal iff the kinds are equal, whatever the macros. |
| `Diagnostics.Diagnose` | Sources/RawValueCodableMacros/Extra/Diagnostics.swift:34-36 | The diagnostic is bound to exactly the given node and placed at that node's position. It highlights that node, as the default of `Diagnostic(node:message:)` does, and has no notes or fix-its. |
| `Fragments.StmtLines` | Sources/RawValueCodableMacros/RawValueDecodableMacro.swift:55-65 | Each template statement renders as exactly one line, except the guard, which renders as an eight-line block. |
| `Fragments.GuardBlockIsPadded` | Sources/RawValueCodableMacros/RawValueDecodableMacro.swift:57-64 | The guard block opens and closes with a blank line and has no blank line inside. |
| `Fragments.RenderMemberStartsWithHeader` | Sources/RawValueCodableMacros/RawValueDecodableMacro.swift:52-75 | A rendered member begins with its access prefix, then its signature line. |
| `Fragments.RenderExtensionShape` | Sources/RawValueCodableMacros/RawValueDecodableMacro.swift:91-93 | A rendered extension starts with the keyword `extension`, so it has no access modifier. It ends with an empty body `{}`. |
| `RawValueDecodable.Eligibility` | Sources/RawValueCodableMacros/RawValueDecodableMacro.swift:27-48 | A non-enum that inherits neither raw-representable name is `notRawRepresentable`. An enum with no inherited type is `enumMissingRawValueType`. Every other declaration is eligible, including an enum that inherits some other name. |
| `RawValueDecodable.GuardedBody` | Sources/RawValueCodableMacros/RawValueDecodableMacro.swift:53-67 | The guarded body first opens the decoder's single-value container, then constructs `<typeName>(rawValue:)` from it; these two lines are stated verbatim. It contains exactly one guard, throws the data-corrupted error with the fixed description, and ends by assigning `self`. |
| `RawValueDecodable.DelegatingBody` | Sources/RawValueCodableMacros/RawValueDecodableMacro.swift:70-74 | The delegating body is the single line `try self.init(rawValue: decoder.singleValueContainer().decode(RawValue.self))`. It has no guard and no data-corrupted error. |
| `RawValueDecodable.ExpansionMembers` | Sources/RawValueCodableMacros/RawValueDecodableMacro.swift:22-78 | It fails exactly on the ineligible declarations, with one diagnostic of the right kind that names the decode macro and is bound to the declaration. On success it returns one `init(from:)` with the declaration's needed access modifier. That member is guarded iff `containsFailableInitRawValue` holds, and delegating otherwise. |
| `RawValueDecodable.ExpansionExtensions` | Sources/RawValueCodableMacros/RawValueDecodableMacro.swift:80-96 | The result is empty iff `Decodable` or `Swift.Decodable` is inherited. Otherwise it is exactly one `Swift.Decodable` extension of the supplied type. |
| `RawValueDecodable.NonFailableStructScenario` | Tests/RawValueCodableTests/RawValueDecodableTests.swift:49-77 | An internal struct with `init(rawValue:)` gets the delegating member with no prefix, plus one `Swift.Decodable` extension. |
| `RawValueDecodable.PublicStructScenario` | Tests/RawValueCodableTests/RawValueDecodableTests.swift:119-140 | A public struct gets a `public` delegating member. |
| `RawValueDecodable.FailableEnumScenario` | Tests/RawValueCodableTests/RawValueDecodableTests.swift:166-234 | An enum with `init?(rawValue:)` gets the guarded member that constructs `Texture(rawValue:)`. |
| `RawValueDecodable.StringBackedEnumScenario` | Sources/RawValueCodableClient/Decodable.swift:28-32 | An enum backed by `String` with no initializer is eligible, and it gets the guarded member. |
| `RawValueDecodable.NotRawRepresentableScenario` | Tests/RawValueCodableTests/RawValueDecodableTests.swift:149-164 | `public struct ID {}` gets one `notRawRepresentable` diagnostic. Its message names `RawValueDecodable`. |
| `RawValueEncodable.Eligibility` | Sources/RawValueCodableMacros/RawValueEncodableMacro.swift:27-50 | Inherited names are computed inline and compared exactly against the two raw-representable names. The table is the same as the decode macro's. |
| `RawValueEncodable.SameEligibilityAsDecode` | Sources/RawValueCodableMacros/RawValueEncodableMacro.swift:27-50 | On every declaration, the encode verdict equals the decode verdict. |
| `RawValueEncodable.EncodeBody` | Sources/RawValueCodableMacros/RawValueEncodableMacro.swift:54-59 | The encode body is two lines: `var container = encoder.singleValueContainer()`, then `try container.encode(self.rawValue)`. It has no guard and no data-corrupted error. |
| `RawValueEncodable.ExpansionMembers` | Sources/RawValueCodableMacros/RawValueEncodableMacro.swift:22-62 | It fails iff the declaration is ineligible, with one diagnostic that names the encode macro and is bound to the declaration. Otherwise it returns exactly one `encode(to:)` with the needed access modifier. |
| `RawValueEncodable.EncodeIgnoresInitializers` | Sources/RawValueCodableMacros/RawValueEncodableMacro.swift:52-61 | Declarations that differ only in their members get the same encode outcome and the same member. |
| `RawValueEncodable.ExpansionExtensions` | Sources/RawValueCodableMacros/RawValueEncodableMacro.swift:64-80 | The result is empty iff `Encodable` or `Swift.Encodable` is inherited. Otherwise it is one `Swift.Encodable` extension. |
| `RawValueEncodable.PublicStructScenario` | Tests/RawValueCodableTests/RawValueEncodableTests.swift:50-74 | A public struct gets a `public` `encode(to:)` and a `Swift.Encodable` extension. |
| `RawValueEncodable.NotRawRepresentableScenario` | Tests/RawValueCodableTests/RawValueEncodableTests.swift:81-96 | A struct with no inheritance clause is rejected, and the message names `RawValueCodable`. |
| `RawValueEncodable.StringBackedEnumScenario` | Sources/RawValueCodableClient/Encodable.swift:20-24 | An enum backed by `String` is eligible. It gets an `encode(to:)` with no access prefix and one `Swift.Encodable` extension. |
| `RawValueCodable.Retag` | Sources/RawValueCodableMacros/RawValueCodableMacro.swift:32-47 | A `notRawRepresentable` diagnostic ends up naming the composite. Node, position, highlights, notes, fix-its and kind are kept. Every other diagnostic is returned unchanged. |
| `RawValueCodable.RetagAll` | Sources/RawValueCodableMacros/RawValueCodableMacro.swift:32-49 | Re-tagging a list keeps its length and order, and re-tags element by element. |
| `RawValueCodable.RetagIdempotent` | Sources/RawValueCodableMacros/RawValueCodableMacro.swift:33-46 | Re-tagging a second time changes nothing. |
| `RawValueCodable.ExpansionMembers` | Sources/RawValueCodableMacros/RawValueCodableMacro.swift:23-55 | It succeeds iff the decode expansion succeeds. On success it returns exactly two members: the decode members followed by the encode members. On failure it returns the decode side's diagnostics, re-tagged, so the first failure wins. |
| `RawValueCodable.CompositeNotRawRepresentable` | Sources/RawValueCodableMacros/RawValueCodableMacro.swift:34-43 | A non-raw-representable non-enum gets one diagnostic, bound to the declaration, that names the composite macro. Its message reads `@RawValueCodable ...`. |
| `RawValueCodable.CompositeEnumMissingRawValueType` | Sources/RawValueCodableMacros/RawValueCodableMacro.swift:44-45 | An enum with no inherited type keeps the decode macro's `enumMissingRawValueType`, whose message names `RawValueDecodable`. |
| `RawValueCodable.ExpansionExtensions` | Sources/RawValueCodableMacros/RawValueCodableMacro.swift:57-73 | The result is empty iff `Codable` or `Swift.Codable` is inherited. Otherwise it is one `Swift.Codable` extension. |
| `RawValueCodable.NarrowerConformancesDoNotSuppress` | Sources/RawValueCodableMacros/RawValueCodableMacro.swift:64-72 | For every type that inherits `Decodable` and `Encodable` but not `Codable` or `Swift.Codable`, the composite still emits one `Swift.Codable` extension, and both narrower macros emit none. |
| `RawValueCodable.StringBackedEnumScenario` | Sources/RawValueCodableClient/Codable.swift:28-32 | An enum backed by `String` gets the guarded decode member, the encode member in that order, and one `Swift.Codable` extension. |
| `RawValueCodable.AllDiagnosticsAreErrors` | Sources/RawValueCodableMacros/Extra/Diagnostics.swift:14 | Every diagnostic raised by any of the three macros has severity error. |

## Left out

- Sources/RawValueCodableMacros/Extra/Macro.swift: it only registers the compiler plugin, so there is nothing to model.
- Sources/RawValueCodable/RawValueCodable.swift: macro declarations that delegate to `#externalMacro`. It has no logic.
- Sources/RawValueCodableClient: sample usages. The `String`-backed enum of each sample file is modelled as a scenario lemma (`StringBackedEnumScenario` in each macro module).
- Sources/RawValueCodableMacros/Diagnostics.swift: an older, non-generic diagnostic type that nothing uses. The generic one replaced it.
- `MacroFixIt` / fix-it construction: the fix-it is defined but never attached to a diagnostic. Fix-its appear only as data that re-tagging carries along.
- The zero-argument `appendInterpolation()`, which inserts the identifier `Goz`: nothing calls it.
- Parsing, trivia and `DeclSyntax.cast`: names and inherited types are stored as trimmed text.
- Rendering models the template line structure with four-space indentation, not the exact whitespace the host formatter gives the expanded source.
- No lemma compares whole rendered text with a test's expected text, because long literal-string equalities are too costly for the verifier. The scenario lemmas compare structurally, and the rendering functions spell out each template's lines.
- The `node`, `context` and `conformingTo` parameters: the source never reads them. The extended type text is a parameter of the extension expansions.
- The composite's final `catch { throw error }`: only `DiagnosticsError` is ever thrown, so it never applies.
- Test expectations the code does not produce: unqualified `Decodable`/`Encodable`/`Codable` extensions (Tests/RawValueCodableTests/RawValueCodableTests.swift:35,73,114) and `public extension` (Tests/RawValueCodableTests/RawValueDecodableTests.swift:143, Tests/RawValueCodableTests/RawValueEncodableTests.swift:75). The model follows the code, which emits `Swift.X` with no modifier.
