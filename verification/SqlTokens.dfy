/** The declarative reading of migration SQL: a source is a list of tokens, each of them closed by
    its own delimiter, and the skeleton shows some of them and blanks the others. */
module SqlTokens {

  datatype Piece = Deeper | Shallower | Inside(c: char)

  datatype Token =
    | Plain(c: char)
    | LineComment(body: string)
    | BlockComment(pieces: seq<Piece>)
    | Literal(value: string)
    | Identifier(name: string)
    | Dollar(tag: string, body: string)

  // ---- Characters ---------------------------------------------------------------------------

  predicate IsDigit(c: char) {
    '0' <= c <= '9'
  }

  predicate IsLower(c: char) {
    'a' <= c <= 'z'
  }

  predicate IsNameStart(c: char) {
    IsLower(c) || 'A' <= c <= 'Z' || c == '_'
  }

  predicate IsNameChar(c: char) {
    IsNameStart(c) || IsDigit(c)
  }

  /** A simple lower-case name, which is all that may be quoted. */
  predicate IsSimpleName(name: string) {
    name != "" && IsLower(name[0]) && forall c <- name :: IsLower(c) || IsDigit(c) || c == '_'
  }

  /** $$, or a name between two dollar signs. */
  predicate IsTag(tag: string) {
    && |tag| >= 2 && tag[0] == '$' && tag[|tag| - 1] == '$'
    && (forall c <- tag[1..|tag| - 1] :: IsNameChar(c))
    && (|tag| > 2 ==> IsNameStart(tag[1]))
  }

  predicate Starts(s: string, mark: string) {
    |mark| <= |s| && s[..|mark|] == mark
  }

  // ---- Text and what is shown of it -----------------------------------------------------------

  function PieceText(p: Piece): string {
    match p
    case Deeper => "/*"
    case Shallower => "*/"
    case Inside(c) => [c]
  }

  function PiecesText(pieces: seq<Piece>): string {
    if pieces == [] then "" else PieceText(pieces[0]) + PiecesText(pieces[1..])
  }

  /** A quote mark inside quotes is written twice. */
  function Doubled(value: string, quote: char): string {
    if value == "" then ""
    else (if value[0] == quote then [quote, quote] else [value[0]]) + Doubled(value[1..], quote)
  }

  function Text(t: Token): string {
    match t
    case Plain(c) => [c]
    case LineComment(body) => "--" + body
    case BlockComment(pieces) => "/*" + PiecesText(pieces)
    case Literal(value) => "'" + Doubled(value, '\'') + "'"
    case Identifier(name) => "\"" + name + "\""
    case Dollar(tag, body) => tag + body + tag
  }

  function TextOf(tokens: seq<Token>): string {
    if tokens == [] then "" else Text(tokens[0]) + TextOf(tokens[1..])
  }

  function Blank(c: char): char {
    if c == '\n' then '\n' else ' '
  }

  function Blanked(s: string): (r: string)
    ensures |r| == |s| && forall i :: 0 <= i < |s| ==> r[i] == Blank(s[i])
  {
    seq(|s|, i requires 0 <= i < |s| => Blank(s[i]))
  }

  function Shown(t: Token): string {
    match t
    case Plain(c) => [c]
    case Identifier(name) => name
    case _ => Blanked(Text(t))
  }

  function ShownOf(tokens: seq<Token>): string {
    if tokens == [] then "" else Shown(tokens[0]) + ShownOf(tokens[1..])
  }

  // ---- When a token stands where it does --------------------------------------------------------

  function Step(p: Piece): int {
    match p case Deeper => 1 case Shallower => -1 case Inside(_) => 0
  }

  function DepthAfter(depth: int, pieces: seq<Piece>): int
    decreases |pieces|
  {
    if pieces == [] then depth else DepthAfter(depth + Step(pieces[0]), pieces[1..])
  }

  predicate OpenAfter(depth: int, pieces: seq<Piece>, k: nat)
    requires k <= |pieces|
  {
    DepthAfter(depth, pieces[..k]) > 0
  }

  predicate HidesMark(pieces: seq<Piece>, k: nat)
    requires k < |pieces|
  {
    pieces[k].Inside? && IsMark(PiecesText(pieces[k..]))
  }

  /** Nested comments close exactly at the end, and no mark hides in the characters between. */
  predicate Closes(depth: int, pieces: seq<Piece>) {
    && DepthAfter(depth, pieces) == 0
    && (forall k :: 0 <= k < |pieces| ==> OpenAfter(depth, pieces, k))
    && forall k :: 0 <= k < |pieces| ==> !HidesMark(pieces, k)
  }

  predicate IsMark(s: string) {
    Starts(s, "/*") || Starts(s, "*/")
  }

  predicate OccursAt(s: string, tag: string, k: nat) {
    k + |tag| <= |s| && s[k..k + |tag|] == tag
  }

  /** The closing tag is the first one after the opening tag. */
  predicate FirstAt(s: string, tag: string, at: nat) {
    OccursAt(s, tag, at) && forall k :: 0 <= k < at ==> !OccursAt(s, tag, k)
  }

  /** No other token begins here. */
  ghost predicate PlainAt(s: string)
    requires s != ""
  {
    && !Starts(s, "--") && !Starts(s, "/*") && s[0] != '\'' && s[0] != '"'
    && forall tag :: IsTag(tag) ==> !Starts(s, tag)
  }

  /** The token is the one to read when this text follows it. */
  ghost predicate Fits(t: Token, rest: string) {
    match t
    case Plain(c) => PlainAt([c] + rest)
    case LineComment(body) => '\n' !in body && (rest == "" || rest[0] == '\n')
    case BlockComment(pieces) => Closes(1, pieces)
    case Literal(_) => !Starts(rest, "'")
    case Identifier(name) => IsSimpleName(name) && !Starts(rest, "\"")
    case Dollar(tag, body) => IsTag(tag) && FirstAt(body + tag, tag, |body|)
  }

  ghost predicate Reads(tokens: seq<Token>) {
    tokens == [] || (Fits(tokens[0], TextOf(tokens[1..])) && Reads(tokens[1..]))
  }

  // ---- What a skeleton keeps ----------------------------------------------------------------------

  lemma Assoc<T>(a: seq<T>, b: seq<T>, c: seq<T>)
    ensures a + b + c == a + (b + c)
  {
  }

  function Newlines(s: string): nat {
    if s == "" then 0 else (if s[0] == '\n' then 1 else 0) + Newlines(s[1..])
  }

  function Quoted(tokens: seq<Token>): nat {
    if tokens == [] then 0 else (if tokens[0].Identifier? then 1 else 0) + Quoted(tokens[1..])
  }

  lemma {:induction false} NewlinesJoin(a: string, b: string)
    ensures Newlines(a + b) == Newlines(a) + Newlines(b)
  {
    if a == "" {
      assert a + b == b;
    } else {
      NewlinesJoin(a[1..], b);
      assert (a + b)[1..] == a[1..] + b;
    }
  }

  lemma {:induction false} BlankedNewlines(s: string)
    ensures Newlines(Blanked(s)) == Newlines(s)
  {
    if s != "" {
      BlankedNewlines(s[1..]);
      assert Blanked(s)[1..] == Blanked(s[1..]);
    }
  }

  lemma {:induction false} NoNewlines(s: string)
    requires '\n' !in s
    ensures Newlines(s) == 0
  {
    if s != "" {
      NoNewlines(s[1..]);
    }
  }

  lemma TokenKeepsLines(t: Token, rest: string)
    requires Fits(t, rest)
    ensures Newlines(Shown(t)) == Newlines(Text(t)) && |Text(t)| == |Shown(t)| + if t.Identifier? then 2 else 0
  {
    match t
    case Plain(_) =>
    case Identifier(name) =>
      assert '\n' !in name && '\n' !in Text(t);
      NoNewlines(name);
      NoNewlines(Text(t));
    case _ =>
      BlankedNewlines(Text(t));
  }

  /** Every newline is kept, and the text is shorter by two for each quoted identifier. */
  lemma {:induction false} SkeletonKeepsLines(tokens: seq<Token>)
    requires Reads(tokens)
    ensures Newlines(ShownOf(tokens)) == Newlines(TextOf(tokens))
    ensures |TextOf(tokens)| == |ShownOf(tokens)| + 2 * Quoted(tokens)
  {
    if tokens != [] {
      TokenKeepsLines(tokens[0], TextOf(tokens[1..]));
      SkeletonKeepsLines(tokens[1..]);
      NewlinesJoin(Text(tokens[0]), TextOf(tokens[1..]));
      NewlinesJoin(Shown(tokens[0]), ShownOf(tokens[1..]));
    }
  }

  /** What is left when blanks are dropped: the characters outside comments, literals and dollar
      quotes, and the names of quoted identifiers, in order. */
  function Kept(tokens: seq<Token>): string {
    if tokens == [] then ""
    else
      var here := match tokens[0]
        case Plain(c) => Inked([c])
        case Identifier(name) => name
        case _ => "";
      here + Kept(tokens[1..])
  }

  function Inked(s: string): string {
    if s == "" then "" else (if s[0] == ' ' || s[0] == '\n' then "" else [s[0]]) + Inked(s[1..])
  }

  lemma {:induction false} InkedJoin(a: string, b: string)
    ensures Inked(a + b) == Inked(a) + Inked(b)
  {
    if a == "" {
      assert a + b == b;
    } else {
      InkedJoin(a[1..], b);
      assert (a + b)[0] == a[0] && (a + b)[1..] == a[1..] + b;
      Assoc(Inked([a[0]]), Inked(a[1..]), Inked(b));
    }
  }

  lemma {:induction false} BlankedInked(s: string)
    ensures Inked(Blanked(s)) == ""
  {
    if s != "" {
      BlankedInked(s[1..]);
      assert Blanked(s)[1..] == Blanked(s[1..]);
    }
  }

  lemma {:induction false} NameInked(name: string)
    requires ' ' !in name && '\n' !in name
    ensures Inked(name) == name
  {
    if name != "" {
      NameInked(name[1..]);
    }
  }

  lemma {:induction false} SkeletonKeepsInk(tokens: seq<Token>)
    requires Reads(tokens)
    ensures Inked(ShownOf(tokens)) == Kept(tokens)
  {
    if tokens != [] {
      SkeletonKeepsInk(tokens[1..]);
      InkedJoin(Shown(tokens[0]), ShownOf(tokens[1..]));
      match tokens[0]
      case Plain(_) =>
      case Identifier(name) => NameInked(name);
      case _ => BlankedInked(Text(tokens[0]));
    }
  }
}
