/** The code the macros generate: the statements of the two member
    templates, the members, the conformance extension, and their rendering
    to source text (line for line as the templates write them). */
module Fragments {
  import opened Wrappers
  import opened Syntax
  import opened Seqs
  import opened Extensions

  /** The statements that occur in the generated bodies. */
  datatype Stmt =
    | LetDecoderContainer
      // let container = try decoder.singleValueContainer()
    | LetValueFromRawValue(typeName: string)
      // let value = try <typeName>(rawValue: container.decode(RawValue.self))
    | GuardValueElseThrowDataCorrupted(debugDescription: string)
      // guard let value else { throw DecodingError.dataCorruptedError(...) }
    | AssignSelfToValue
      // self = value
    | DelegateToInitRawValue
      // try self.init(rawValue: decoder.singleValueContainer().decode(RawValue.self))
    | VarEncoderContainer
      // var container = encoder.singleValueContainer()
    | EncodeRawValue
      // try container.encode(self.rawValue)

  /** A generated member: `init(from:)` or `encode(to:)`, with the access
      modifier copied from the declaration, if any. */
  datatype MemberDecl =
    | InitFromDecoder(access: Option<Modifier>, body: seq<Stmt>)
    | EncodeToEncoder(access: Option<Modifier>, body: seq<Stmt>)

  /** A generated `extension <type>: <conformance> {}`. */
  datatype ExtensionDecl = ExtensionDecl(extendedType: string, conformance: string)

  /** Number of `guard` statements in a body. */
  function CountGuards(body: seq<Stmt>): (r: nat)
    ensures r == 0 <==> forall i :: 0 <= i < |body| ==> !body[i].GuardValueElseThrowDataCorrupted?
    ensures r <= |body|
  {
    if |body| == 0 then 0
    else
      var r := (if body[0].GuardValueElseThrowDataCorrupted? then 1 else 0) + CountGuards(body[1..]);
      assert forall i :: 1 <= i < |body| ==> body[i] == body[1..][i - 1];
      r
  }

  /** The body throws a data-corrupted error with description `msg`. */
  predicate ThrowsDataCorrupted(body: seq<Stmt>, msg: string) {
    exists i :: 0 <= i < |body| && body[i] == GuardValueElseThrowDataCorrupted(msg)
  }

  /** The source lines of one statement, relative to the body's indentation. */
  function StmtLines(s: Stmt): (r: seq<string>)
    ensures |r| == if s.GuardValueElseThrowDataCorrupted? then 8 else 1
  {
    match s
    case LetDecoderContainer =>
      ["let container = try decoder.singleValueContainer()"]
    case LetValueFromRawValue(typeName) =>
      ["let value = try " + typeName + "(rawValue: container.decode(RawValue.self))"]
    case GuardValueElseThrowDataCorrupted(debugDescription) =>
      ["",
       "guard let value else {",
       "    throw DecodingError.dataCorruptedError(",
       "        in: container,",
       "        debugDescription: \"" + debugDescription + "\"",
       "    )",
       "}",
       ""]
    case AssignSelfToValue =>
      ["self = value"]
    case DelegateToInitRawValue =>
      ["try self.init(rawValue: decoder.singleValueContainer().decode(RawValue.self))"]
    case VarEncoderContainer =>
      ["var container = encoder.singleValueContainer()"]
    case EncodeRawValue =>
      ["try container.encode(self.rawValue)"]
  }

  /** The guard block is set off by one blank line before and after it,
      and has no blank line inside. */
  lemma GuardBlockIsPadded(debugDescription: string)
    ensures var r := StmtLines(GuardValueElseThrowDataCorrupted(debugDescription));
      r[0] == "" && r[7] == "" && forall i :: 0 < i < 7 ==> |r[i]| > 0
  {
  }

  function BodyLines(body: seq<Stmt>): seq<string> {
    if |body| == 0 then [] else StmtLines(body[0]) + BodyLines(body[1..])
  }

  /** Body lines are indented by four spaces; blank lines stay empty. */
  function IndentLine(line: string): string {
    if line == "" then "" else "    " + line
  }

  function JoinLines(lines: seq<string>): string {
    if |lines| == 0 then ""
    else if |lines| == 1 then lines[0]
    else lines[0] + "\n" + JoinLines(lines[1..])
  }

  /** The first line of a member: access prefix and signature. */
  function Header(m: MemberDecl): (r: string)
    ensures AccessPrefix(m.access) <= r
  {
    match m
    case InitFromDecoder(access, _) => AccessPrefix(access) + "init(from decoder: Decoder) throws {"
    case EncodeToEncoder(access, _) => AccessPrefix(access) + "func encode(to encoder: Encoder) throws {"
  }

  function MemberLines(m: MemberDecl): (r: seq<string>)
    ensures |r| >= 2 && r[0] == Header(m) && r[|r| - 1] == "}"
  {
    [Header(m)] + Map(BodyLines(m.body), IndentLine) + ["}"]
  }

  function RenderMember(m: MemberDecl): string {
    JoinLines(MemberLines(m))
  }

  function RenderExtension(e: ExtensionDecl): string {
    "extension " + e.extendedType + ": " + e.conformance + " {}"
  }

  /** A rendered member opens with its access prefix and signature line. */
  lemma RenderMemberStartsWithHeader(m: MemberDecl)
    ensures Header(m) + "\n" <= RenderMember(m)
    ensures AccessPrefix(m.access) <= RenderMember(m)
  {
  }

  /** A rendered extension carries no access modifier: it opens with the
      `extension` keyword and names exactly the given conformance. */
  lemma RenderExtensionShape(e: ExtensionDecl)
    ensures "extension " <= RenderExtension(e)
    ensures RenderExtension(e)[|RenderExtension(e)| - 3..] == " {}"
  {
  }
}
