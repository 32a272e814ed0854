/** sqlSkeleton of records/check.ts: the one-pass walk, and the proof that it is the token
    reading. */
module SqlSkeleton {
  import opened Prelude
  import opened SqlTokens

  datatype Fault = NothingToRead | UnterminatedComment | UnterminatedQuote | BadIdentifier | UnterminatedDollar
  datatype Result<+T> = Ok(value: T) | Err(fault: Fault)

  // ---- Reading one token ------------------------------------------------------------------------

  function LineBody(s: string): string {
    if s == "" || s[0] == '\n' then "" else [s[0]] + LineBody(s[1..])
  }

  function ReadPieces(s: string, depth: nat): Option<seq<Piece>>
    decreases |s|
  {
    if depth == 0 then Some([])
    else if s == "" then None
    else if Starts(s, "/*") then Prepended(Deeper, ReadPieces(s[2..], depth + 1))
    else if Starts(s, "*/") then Prepended(Shallower, ReadPieces(s[2..], depth - 1))
    else Prepended(Inside(s[0]), ReadPieces(s[1..], depth))
  }

  function Prepended(p: Piece, pieces: Option<seq<Piece>>): Option<seq<Piece>> {
    match pieces
    case None => None
    case Some(rest) => Some([p] + rest)
  }

  function ReadQuoted(s: string, quote: char): Option<string>
    decreases |s|
  {
    if s == "" then None
    else if s[0] != quote then After([s[0]], ReadQuoted(s[1..], quote))
    else if |s| > 1 && s[1] == quote then After([quote], ReadQuoted(s[2..], quote))
    else Some("")
  }

  function After(first: string, rest: Option<string>): Option<string> {
    match rest
    case None => None
    case Some(value) => Some(first + value)
  }

  function NameLength(s: string): (n: nat)
    ensures n <= |s|
  {
    if s == "" || !IsNameChar(s[0]) then 0 else 1 + NameLength(s[1..])
  }

  /** The tag that opens a dollar quote here, if one does. */
  function ReadTag(s: string): Option<string>
    requires s != "" && s[0] == '$'
  {
    var n := NameLength(s[1..]);
    if n + 1 < |s| && s[n + 1] == '$' && (n == 0 || IsNameStart(s[1])) then Some(s[..n + 2]) else None
  }

  function Find(s: string, tag: string): Option<nat> {
    if Starts(s, tag) then Some(0)
    else if s == "" then None
    else match Find(s[1..], tag) case None => None case Some(at) => Some(at + 1)
  }

  function One(s: string): Result<Token> {
    if s == "" then Err(NothingToRead)
    else if Starts(s, "--") then Ok(LineComment(LineBody(s[2..])))
    else if Starts(s, "/*") then
      match ReadPieces(s[2..], 1) case None => Err(UnterminatedComment) case Some(pieces) => Ok(BlockComment(pieces))
    else if s[0] == '\'' then
      match ReadQuoted(s[1..], '\'') case None => Err(UnterminatedQuote) case Some(value) => Ok(Literal(value))
    else if s[0] == '"' then
      match ReadQuoted(s[1..], '"')
      case None => Err(UnterminatedQuote)
      case Some(name) => if IsSimpleName(name) then Ok(Identifier(name)) else Err(BadIdentifier)
    else if s[0] == '$' && ReadTag(s).Some? then
      var tag := ReadTag(s).value;
      match Find(s[|tag|..], tag)
      case None => Err(UnterminatedDollar)
      case Some(at) => if |tag| + at <= |s| then Ok(Dollar(tag, s[|tag|..|tag| + at])) else Err(UnterminatedDollar)
    else Ok(Plain(s[0]))
  }

  // ---- Each reader finds the token that fits ------------------------------------------------------

  lemma {:induction false} LineBodyIs(s: string)
    ensures |LineBody(s)| <= |s| && s[..|LineBody(s)|] == LineBody(s) && '\n' !in LineBody(s)
    ensures |LineBody(s)| == |s| || s[|LineBody(s)|] == '\n'
  {
    if s != "" && s[0] != '\n' {
      LineBodyIs(s[1..]);
    }
  }

  lemma {:induction false} LineBodyOf(body: string, rest: string)
    requires '\n' !in body && (rest == "" || rest[0] == '\n')
    ensures LineBody(body + rest) == body
  {
    if body == "" {
      assert body + rest == rest;
    } else {
      assert (body + rest)[1..] == body[1..] + rest;
      LineBodyOf(body[1..], rest);
    }
  }

  lemma {:induction false} QuotedIs(s: string, quote: char)
    requires ReadQuoted(s, quote).Some?
    ensures var text := Doubled(ReadQuoted(s, quote).value, quote) + [quote];
            Starts(s, text) && !Starts(s[|text|..], [quote])
    decreases |s|
  {
    if s[0] != quote {
      QuotedIs(s[1..], quote);
    } else if |s| > 1 && s[1] == quote {
      QuotedIs(s[2..], quote);
      var value := ReadQuoted(s[2..], quote).value;
      assert ([quote] + value)[1..] == value;
    } else {
      assert s[..1] == [quote];
    }
  }

  lemma {:induction false} QuotedOf(value: string, quote: char, rest: string)
    requires !Starts(rest, [quote])
    ensures ReadQuoted(Doubled(value, quote) + [quote] + rest, quote) == Some(value)
  {
    var s := Doubled(value, quote) + [quote] + rest;
    if value == "" {
      assert s == [quote] + rest;
      assert rest != "" ==> rest[..1] == [rest[0]];
    } else {
      QuotedOf(value[1..], quote, rest);
      var tail := Doubled(value[1..], quote) + [quote] + rest;
      if value[0] == quote {
        assert s == [quote, quote] + tail && s[2..] == tail;
        assert [quote] + value[1..] == value;
      } else {
        assert s == [value[0]] + tail && s[1..] == tail;
        assert [value[0]] + value[1..] == value;
      }
    }
  }

  lemma {:induction false} NameLengthIs(s: string)
    ensures forall c <- s[..NameLength(s)] :: IsNameChar(c)
    ensures NameLength(s) == |s| || !IsNameChar(s[NameLength(s)])
  {
    if s != "" && IsNameChar(s[0]) {
      NameLengthIs(s[1..]);
      assert s[..NameLength(s)] == [s[0]] + s[1..][..NameLength(s[1..])];
    }
  }

  /** A tag opens here exactly when the reader finds it. */
  lemma TagIs(s: string, tag: string)
    requires s != "" && s[0] == '$'
    ensures IsTag(tag) && Starts(s, tag) <==> ReadTag(s) == Some(tag)
  {
    if |tag| <= |s| && s[..|tag|] == tag && |tag| >= 2 {
      TagLength(s, |tag|);
    }
    assert ReadTag(s).Some? ==> s[..|ReadTag(s).value|] == ReadTag(s).value;
  }

  lemma TagLength(s: string, n: nat)
    requires s != "" && s[0] == '$' && 2 <= n <= |s|
    ensures IsTag(s[..n]) <==> ReadTag(s) == Some(s[..n])
  {
    var name := s[1..];
    var m := NameLength(name);
    NameLengthIs(name);
    assert m < |name| ==> name[m] == s[m + 1];
    assert s[..n][1..n - 1] == name[..n - 2];
    if n == m + 2 {
      assert s[1..m + 1] == name[..m];
    } else if n < m + 2 {
      assert IsNameChar(name[..m][n - 2]) && name[n - 2] == s[n - 1];
    }
  }

  lemma StartsIsOccurs(s: string, tag: string)
    ensures Starts(s, tag) <==> OccursAt(s, tag, 0)
  {
  }

  lemma OccursLater(s: string, tag: string, k: nat)
    requires s != ""
    ensures OccursAt(s, tag, k + 1) <==> OccursAt(s[1..], tag, k)
  {
    if k + 1 + |tag| <= |s| {
      assert s[k + 1..k + 1 + |tag|] == s[1..][k..k + |tag|];
    }
  }

  lemma {:induction false} FindNothing(s: string, tag: string, k: nat)
    requires Find(s, tag).None? || k < Find(s, tag).value
    ensures !OccursAt(s, tag, k)
  {
    StartsIsOccurs(s, tag);
    if k > 0 && s != "" {
      OccursLater(s, tag, k - 1);
      FindNothing(s[1..], tag, k - 1);
    }
  }

  lemma {:induction false} FindSomething(s: string, tag: string)
    requires Find(s, tag).Some?
    ensures OccursAt(s, tag, Find(s, tag).value)
  {
    StartsIsOccurs(s, tag);
    if !Starts(s, tag) {
      FindSomething(s[1..], tag);
      OccursLater(s, tag, Find(s[1..], tag).value);
    }
  }

  lemma FindIs(s: string, tag: string)
    ensures Find(s, tag).Some? ==> FirstAt(s, tag, Find(s, tag).value)
    ensures Find(s, tag).None? ==> forall k: nat :: !OccursAt(s, tag, k)
  {
    if Find(s, tag).Some? {
      FindSomething(s, tag);
    }
    forall k: nat | Find(s, tag).None? || k < Find(s, tag).value ensures !OccursAt(s, tag, k) {
      FindNothing(s, tag, k);
    }
  }

  // ---- Comments ------------------------------------------------------------------------------------

  lemma StepDepth(depth: int, p: Piece, pieces: seq<Piece>, k: nat)
    requires k <= |pieces|
    ensures DepthAfter(depth, ([p] + pieces)[..k + 1]) == DepthAfter(depth + Step(p), pieces[..k])
  {
    assert ([p] + pieces)[..k + 1] == [p] + pieces[..k];
    assert ([p] + pieces[..k])[1..] == pieces[..k];
  }

  /** A closing reading with one more piece in front. */
  lemma ClosesWith(depth: int, p: Piece, pieces: seq<Piece>)
    requires depth > 0 && (p.Inside? ==> !IsMark(PieceText(p) + PiecesText(pieces)))
    ensures Closes(depth + Step(p), pieces) ==> Closes(depth, [p] + pieces)
  {
    var all := [p] + pieces;
    assert all[1..] == pieces;
    if Closes(depth + Step(p), pieces) {
      forall k | 0 <= k < |all| ensures OpenAfter(depth, all, k) {
        if k > 0 {
          StepDepth(depth, p, pieces, k - 1);
          assert OpenAfter(depth + Step(p), pieces, k - 1);
        }
      }
      forall k | 0 <= k < |all| ensures !HidesMark(all, k) {
        if k > 0 {
          assert all[k..] == pieces[k - 1..];
          assert !HidesMark(pieces, k - 1);
        } else {
          assert all[0..] == all;
        }
      }
    }
  }

  /** A closing reading without its first piece. */
  lemma ClosesWithout(depth: int, all: seq<Piece>)
    requires all != [] && Closes(depth, all)
    ensures depth > 0 && Closes(depth + Step(all[0]), all[1..])
    ensures all[0].Inside? ==> !IsMark(PiecesText(all))
  {
    var pieces := all[1..];
    assert all == [all[0]] + pieces;
    assert all[0..] == all && all[..0] == [];
    assert OpenAfter(depth, all, 0) && !HidesMark(all, 0);
    var later := depth + Step(all[0]);
    forall k | 0 <= k < |pieces| ensures OpenAfter(later, pieces, k) {
      StepDepth(depth, all[0], pieces, k);
      assert OpenAfter(depth, all, k + 1);
    }
    forall k | 0 <= k < |pieces| ensures !HidesMark(pieces, k) {
      assert all[k + 1..] == pieces[k..];
      assert !HidesMark(all, k + 1);
    }
  }

  lemma {:induction false} PiecesAre(s: string, depth: nat)
    requires ReadPieces(s, depth).Some?
    ensures var pieces := ReadPieces(s, depth).value; Closes(depth, pieces) && Starts(s, PiecesText(pieces))
    decreases |s|
  {
    if depth > 0 {
      var pieces := ReadPieces(s, depth).value;
      var p, rest := pieces[0], pieces[1..];
      var width := |PieceText(p)|;
      PiecesAre(s[width..], depth + Step(p));
      assert s[..width] == PieceText(p);
      assert Starts(s, PieceText(p) + PiecesText(rest));
      if p.Inside? {
        MarkIsStart(s, PieceText(p) + PiecesText(rest));
      }
      ClosesWith(depth, p, rest);
      assert [p] + rest == pieces;
    }
  }

  lemma MarkIsStart(s: string, t: string)
    requires Starts(s, t) && !IsMark(s)
    ensures !IsMark(t)
  {
    assert |t| >= 2 ==> s[..2] == t[..2];
  }

  lemma DoneIsEmpty(pieces: seq<Piece>)
    requires Closes(0, pieces)
    ensures pieces == []
  {
    assert pieces != [] ==> OpenAfter(0, pieces, 0) && DepthAfter(0, pieces[..0]) == 0;
  }

  lemma NotDone(depth: int, pieces: seq<Piece>)
    requires depth > 0 && Closes(depth, pieces)
    ensures pieces != []
  {
  }

  lemma {:induction false} PiecesOf(pieces: seq<Piece>, rest: string, depth: nat)
    requires Closes(depth, pieces)
    ensures ReadPieces(PiecesText(pieces) + rest, depth) == Some(pieces)
    decreases |pieces|
  {
    if depth == 0 {
      DoneIsEmpty(pieces);
    } else {
      NotDone(depth, pieces);
      ClosesWithout(depth, pieces);
      ShallowerStays(depth, pieces[0], pieces[1..]);
      PiecesOf(pieces[1..], rest, depth + Step(pieces[0]));
      PieceInFront(pieces[0], pieces[1..], rest, depth);
      assert [pieces[0]] + pieces[1..] == pieces;
    }
  }

  lemma PieceInFront(p: Piece, others: seq<Piece>, rest: string, depth: nat)
    requires depth > 0 && depth + Step(p) >= 0 && ReadPieces(PiecesText(others) + rest, depth + Step(p)) == Some(others)
    requires p.Inside? ==> others != [] && !IsMark(PieceText(p) + PiecesText(others))
    ensures ReadPieces(PieceText(p) + PiecesText(others) + rest, depth) == Some([p] + others)
  {
    TextNotEmpty(others);
    PieceIsRead(p, PiecesText(others), rest);
    ReadStep(p, PiecesText(others) + rest, depth, others);
    Assoc(PieceText(p), PiecesText(others), rest);
  }

  lemma TextNotEmpty(pieces: seq<Piece>)
    ensures pieces != [] ==> PiecesText(pieces) != ""
  {
  }

  lemma ReadStep(p: Piece, tail: string, depth: nat, others: seq<Piece>)
    requires depth > 0 && depth + Step(p) >= 0 && ReadPieces(tail, depth + Step(p)) == Some(others)
    requires match p
             case Deeper => Starts(PieceText(p) + tail, "/*")
             case Shallower => Starts(PieceText(p) + tail, "*/")
             case Inside(_) => !IsMark(PieceText(p) + tail)
    ensures ReadPieces(PieceText(p) + tail, depth) == Some([p] + others)
  {
    assert (PieceText(p) + tail)[|PieceText(p)|..] == tail;
  }

  lemma ShallowerStays(depth: int, p: Piece, others: seq<Piece>)
    requires depth > 0 && Closes(depth + Step(p), others)
    ensures depth + Step(p) >= 0 && (others == [] ==> depth + Step(p) == 0)
  {
  }

  /** Nothing after the last piece can turn a character into a mark. */
  lemma PieceIsRead(p: Piece, others: string, rest: string)
    requires p.Inside? ==> !IsMark(PieceText(p) + others) && others != ""
    ensures p.Inside? ==> !IsMark(PieceText(p) + (others + rest))
    ensures p.Deeper? ==> Starts(PieceText(p) + (others + rest), "/*")
    ensures p.Shallower? ==> Starts(PieceText(p) + (others + rest), "*/")
  {
    var s := PieceText(p) + (others + rest);
    if p.Inside? {
      assert s[..2] == (PieceText(p) + others)[..2];
    }
  }

  // ---- One token ---------------------------------------------------------------------------------------

  lemma NoTagIsPlain(s: string)
    requires s != "" && !Starts(s, "--") && !Starts(s, "/*") && s[0] != '\'' && s[0] != '"'
    ensures PlainAt(s) <==> s[0] != '$' || ReadTag(s).None?
  {
    if s[0] == '$' {
      forall tag ensures IsTag(tag) && Starts(s, tag) <==> ReadTag(s) == Some(tag) {
        TagIs(s, tag);
      }
      assert ReadTag(s).Some? ==> IsTag(ReadTag(s).value);
    } else {
      forall tag | IsTag(tag) ensures !Starts(s, tag) {
        assert tag[0] == '$';
      }
    }
  }

  lemma TagLies(s: string)
    requires s != "" && s[0] == '$' && ReadTag(s).Some?
    ensures IsTag(ReadTag(s).value) && Starts(s, ReadTag(s).value)
  {
    TagIs(s, ReadTag(s).value);
  }

  lemma FindLies(s: string, tag: string, at: nat)
    requires Find(s, tag) == Some(at)
    ensures OccursAt(s, tag, at)
  {
    FindIs(s, tag);
  }

  lemma FindIsFirst(s: string, tag: string, at: nat)
    requires Find(s, tag) == Some(at)
    ensures at + |tag| <= |s| && FirstAt(s[..at + |tag|], tag, at)
  {
    FindIs(s, tag);
    CutKeepsFirst(s, tag, at);
  }

  lemma DollarIs(s: string, tag: string, at: nat)
    requires s != "" && s[0] == '$' && ReadTag(s) == Some(tag) && Find(s[|tag|..], tag) == Some(at)
    ensures |tag| + at <= |s| && Starts(s, tag + s[|tag|..|tag| + at] + tag) && FirstAt(s[|tag|..|tag| + at] + tag, tag, at)
  {
    TagLies(s);
    FindLies(s[|tag|..], tag, at);
    DollarSlices(s, tag, at);
    FindIsFirst(s[|tag|..], tag, at);
  }

  lemma DollarSlices(s: string, tag: string, at: nat)
    requires Starts(s, tag) && OccursAt(s[|tag|..], tag, at)
    ensures var body := s[|tag|..|tag| + at];
            body + tag == s[|tag|..][..at + |tag|] && Starts(s, tag + body + tag)
  {
    var tail, body := s[|tag|..], s[|tag|..|tag| + at];
    Cut(s, |tag|, at);
    Joined(tail, at, |tag|);
    Cut(tail, at, |tag|);
    Joined(s, |tag|, at + |tag|);
    Assoc(tag, body, tag);
  }

  lemma Cut(s: string, i: nat, n: nat)
    requires i + n <= |s|
    ensures s[i..][..n] == s[i..i + n]
  {
    forall k | 0 <= k < n ensures s[i..][..n][k] == s[i..i + n][k] {
    }
  }

  lemma Joined(s: string, i: nat, n: nat)
    requires i + n <= |s|
    ensures s[..i + n] == s[..i] + s[i..][..n]
  {
  }

  lemma CutKeepsFirst(s: string, tag: string, at: nat)
    requires FirstAt(s, tag, at)
    ensures FirstAt(s[..at + |tag|], tag, at)
  {
    var cut := s[..at + |tag|];
    forall k: nat | k <= at ensures OccursAt(cut, tag, k) <==> OccursAt(s, tag, k) {
      assert cut[k..k + |tag|] == s[k..k + |tag|];
    }
  }

  ghost predicate FitsAt(s: string, t: Token) {
    Starts(s, Text(t)) && Text(t) != "" && Fits(t, s[|Text(t)|..])
  }

  lemma LineFits(s: string)
    requires Starts(s, "--")
    ensures FitsAt(s, One(s).value)
  {
    LineBodyIs(s[2..]);
    var body := LineBody(s[2..]);
    Joined(s, 2, |body|);
    assert s[2..][|body|..] == s[2 + |body|..];
  }

  lemma BlockFits(s: string)
    requires Starts(s, "/*") && ReadPieces(s[2..], 1).Some?
    ensures FitsAt(s, One(s).value)
  {
    PiecesAre(s[2..], 1);
    Joined(s, 2, |PiecesText(ReadPieces(s[2..], 1).value)|);
  }

  lemma IdentifierFits(s: string)
    requires s != "" && s[0] == '"' && ReadQuoted(s[1..], '"').Some? && IsSimpleName(ReadQuoted(s[1..], '"').value)
    ensures FitsAt(s, Identifier(ReadQuoted(s[1..], '"').value))
  {
    QuotedFits(s, '"');
    NoDoubling(ReadQuoted(s[1..], '"').value);
  }

  lemma LiteralFits(s: string)
    requires s != "" && s[0] == '\'' && ReadQuoted(s[1..], '\'').Some?
    ensures FitsAt(s, Literal(ReadQuoted(s[1..], '\'').value))
  {
    QuotedFits(s, '\'');
  }

  lemma DollarFits(s: string, tag: string, at: nat)
    requires s != "" && s[0] == '$' && ReadTag(s) == Some(tag) && Find(s[|tag|..], tag) == Some(at)
    ensures |tag| + at <= |s| && FitsAt(s, Dollar(tag, s[|tag|..|tag| + at]))
  {
    TagLies(s);
    DollarIs(s, tag, at);
    DollarTokenFits(s, tag, s[|tag|..|tag| + at]);
  }

  lemma DollarTokenFits(s: string, tag: string, body: string)
    requires IsTag(tag) && Starts(s, tag + body + tag) && FirstAt(body + tag, tag, |body|)
    ensures FitsAt(s, Dollar(tag, body))
  {
  }

  lemma PlainFits(s: string)
    requires s != "" && !Starts(s, "--") && !Starts(s, "/*") && s[0] != '\'' && s[0] != '"'
    requires s[0] != '$' || ReadTag(s).None?
    ensures FitsAt(s, Plain(s[0]))
  {
    assert [s[0]] + s[1..] == s && s[..1] == [s[0]];
    NoTagIsPlain(s);
  }

  /** The token that is read is the text, and fits. */
  lemma OneFits(s: string)
    requires One(s).Ok?
    ensures FitsAt(s, One(s).value)
  {
    if Starts(s, "--") {
      LineFits(s);
    } else if Starts(s, "/*") {
      BlockFits(s);
    } else if s[0] == '\'' {
      LiteralFits(s);
    } else if s[0] == '"' {
      IdentifierFits(s);
    } else if s[0] == '$' && ReadTag(s).Some? {
      var tag := ReadTag(s).value;
      var at := Find(s[|tag|..], tag).value;
      DollarFits(s, tag, at);
      OneDollar(s, tag, at);
    } else {
      PlainFits(s);
    }
  }

  lemma QuotedFits(s: string, quote: char)
    requires s != "" && s[0] == quote && ReadQuoted(s[1..], quote).Some?
    ensures var text := [quote] + Doubled(ReadQuoted(s[1..], quote).value, quote) + [quote];
            Starts(s, text) && !Starts(s[|text|..], [quote])
  {
    QuotedIs(s[1..], quote);
    var tail := Doubled(ReadQuoted(s[1..], quote).value, quote) + [quote];
    assert s[..1 + |tail|] == [quote] + tail == [quote] + Doubled(ReadQuoted(s[1..], quote).value, quote) + [quote];
    assert s[1..][|tail|..] == s[1 + |tail|..];
  }

  lemma {:induction false} NoDoubling(name: string)
    requires '"' !in name
    ensures Doubled(name, '"') == name
  {
    if name != "" {
      NoDoubling(name[1..]);
    }
  }

  // ---- The fitting token is the one that is read ---------------------------------------------------------

  lemma StartsOf(mark: string, rest: string)
    ensures Starts(mark + rest, mark) && (mark + rest)[|mark|..] == rest
  {
  }

  lemma LineRead(body: string, rest: string)
    requires Fits(LineComment(body), rest)
    ensures One("--" + body + rest) == Ok(LineComment(body))
  {
    assert "--" + body + rest == "--" + (body + rest);
    StartsOf("--", body + rest);
    LineBodyOf(body, rest);
  }

  lemma BlockRead(pieces: seq<Piece>, rest: string)
    requires Fits(BlockComment(pieces), rest)
    ensures One("/*" + PiecesText(pieces) + rest) == Ok(BlockComment(pieces))
  {
    assert "/*" + PiecesText(pieces) + rest == "/*" + (PiecesText(pieces) + rest);
    StartsOf("/*", PiecesText(pieces) + rest);
    PiecesOf(pieces, rest, 1);
  }

  lemma LiteralRead(value: string, rest: string)
    requires Fits(Literal(value), rest)
    ensures One("'" + Doubled(value, '\'') + "'" + rest) == Ok(Literal(value))
  {
    var tail := Doubled(value, '\'') + ['\''] + rest;
    assert "'" + Doubled(value, '\'') + "'" + rest == "'" + tail;
    StartsOf("'", tail);
    QuotedOf(value, '\'', rest);
    OneLiteral("'" + tail, value);
  }

  lemma OneLiteral(s: string, value: string)
    requires s != "" && s[0] == '\'' && ReadQuoted(s[1..], '\'') == Some(value)
    ensures One(s) == Ok(Literal(value))
  {
  }

  lemma IdentifierRead(name: string, rest: string)
    requires Fits(Identifier(name), rest)
    ensures One("\"" + name + "\"" + rest) == Ok(Identifier(name))
  {
    NoDoubling(name);
    var tail := Doubled(name, '"') + ['"'] + rest;
    assert "\"" + name + "\"" + rest == "\"" + tail;
    StartsOf("\"", tail);
    QuotedOf(name, '"', rest);
  }

  lemma FirstIsFound(s: string, tag: string, at: nat)
    requires FirstAt(s, tag, at)
    ensures Find(s, tag) == Some(at)
  {
    FindIs(s, tag);
  }

  /** What follows the closing tag does not bring the first one forward. */
  lemma MoreKeepsFirst(s: string, tag: string, at: nat, rest: string)
    requires FirstAt(s, tag, at) && at + |tag| == |s|
    ensures FirstAt(s + rest, tag, at)
  {
    forall k: nat | k <= at ensures OccursAt(s + rest, tag, k) <==> OccursAt(s, tag, k) {
      assert (s + rest)[k..k + |tag|] == s[k..k + |tag|];
    }
  }

  lemma OneDollar(s: string, tag: string, at: nat)
    requires s != "" && s[0] == '$' && !Starts(s, "--") && !Starts(s, "/*")
    requires ReadTag(s) == Some(tag) && |tag| + at <= |s| && Find(s[|tag|..], tag) == Some(at)
    ensures One(s) == Ok(Dollar(tag, s[|tag|..|tag| + at]))
  {
  }

  lemma DollarRead(tag: string, body: string, rest: string)
    requires Fits(Dollar(tag, body), rest)
    ensures One(tag + body + tag + rest) == Ok(Dollar(tag, body))
  {
    var tail := body + tag + rest;
    assert tag + body + tag + rest == tag + tail;
    MoreKeepsFirst(body + tag, tag, |body|, rest);
    FirstIsFound(tail, tag, |body|);
    assert tail[..|body|] == body;
    TagThenTail(tag, tail, |body|);
  }

  lemma TagThenTail(tag: string, tail: string, at: nat)
    requires IsTag(tag) && at <= |tail| && Find(tail, tag) == Some(at)
    ensures One(tag + tail) == Ok(Dollar(tag, tail[..at]))
  {
    var s := tag + tail;
    StartsOf(tag, tail);
    TagIsNoMark(s, tag);
    TagIs(s, tag);
    Cut(s, |tag|, at);
    OneDollar(s, tag, at);
  }

  lemma TagIsNoMark(s: string, tag: string)
    requires IsTag(tag) && Starts(s, tag)
    ensures s[0] == '$' && !Starts(s, "--") && !Starts(s, "/*")
  {
    assert s[0] == tag[0];
  }

  lemma PlainRead(c: char, rest: string)
    requires Fits(Plain(c), rest)
    ensures One([c] + rest) == Ok(Plain(c))
  {
    NoTagIsPlain([c] + rest);
  }

  lemma OneReads(t: Token, rest: string)
    requires Fits(t, rest)
    ensures Text(t) != "" && One(Text(t) + rest) == Ok(t)
  {
    match t
    case Plain(c) => PlainRead(c, rest);
    case LineComment(body) => LineRead(body, rest);
    case BlockComment(pieces) => BlockRead(pieces, rest);
    case Literal(value) => LiteralRead(value, rest);
    case Identifier(name) => IdentifierRead(name, rest);
    case Dollar(tag, body) => DollarRead(tag, body, rest);
  }

  // ---- The whole source ---------------------------------------------------------------------------------------

  /** All the tokens of a source, as some reader of one token finds them. */
  function Lex(read: string -> Result<Token>, s: string): Result<seq<Token>>
    decreases |s|
  {
    if s == "" then Ok([])
    else
      match read(s)
      case Err(fault) => Err(fault)
      case Ok(t) =>
        if Text(t) == "" || |Text(t)| > |s| then Ok([])
        else match Lex(read, s[|Text(t)|..]) case Err(fault) => Err(fault) case Ok(rest) => Ok([t] + rest)
  }

  /** The tokens that are read are the source, and each fits where it stands. */
  lemma {:induction false} LexIsReading(s: string)
    requires Lex(One, s).Ok?
    ensures TextOf(Lex(One, s).value) == s && Reads(Lex(One, s).value)
    decreases |s|
  {
    if s != "" {
      OneFits(s);
      var t := One(s).value;
      LexIsReading(s[|Text(t)|..]);
      InFront(t, Lex(One, s[|Text(t)|..]).value);
      assert s == Text(t) + s[|Text(t)|..];
    }
  }

  lemma InFront(t: Token, rest: seq<Token>)
    requires Fits(t, TextOf(rest)) && Reads(rest)
    ensures TextOf([t] + rest) == Text(t) + TextOf(rest) && Reads([t] + rest)
  {
    var all := [t] + rest;
    assert all[0] == t && all[1..] == rest;
  }

  /** And no other tokens are. */
  lemma {:induction false} ReadingIsLex(tokens: seq<Token>)
    requires Reads(tokens)
    ensures Lex(One, TextOf(tokens)) == Ok(tokens)
  {
    if tokens != [] {
      var rest := TextOf(tokens[1..]);
      OneReads(tokens[0], rest);
      StartsOf(Text(tokens[0]), rest);
      ReadingIsLex(tokens[1..]);
      assert [tokens[0]] + tokens[1..] == tokens;
    }
  }

  // ---- The walk --------------------------------------------------------------------------------------------------

  lemma Suffix(s: string, i: nat, n: nat)
    requires i + n <= |s|
    ensures s[i..][n..] == s[i + n..]
  {
  }

  lemma BlankedMore(s: string, i: nat, j: nat, k: nat)
    requires i <= j <= k <= |s|
    ensures Blanked(s[i..k]) == Blanked(s[i..j]) + Blanked(s[j..k])
  {
  }

  /** The body of a line comment ends where the loop's test says. */
  lemma LineEnds(source: string, start: nat, n: nat)
    requires start <= |source| && n == |LineBody(source[start..])|
    ensures start + n <= |source| && source[start..start + n] == LineBody(source[start..])
    ensures forall i :: start <= i < start + n ==> source[i] != '\n'
    ensures start + n == |source| || source[start + n] == '\n'
  {
    var tail := source[start..];
    LineBodyIs(tail);
    assert forall k :: 0 <= k < n ==> tail[k] == LineBody(tail)[k] && LineBody(tail)[k] in LineBody(tail);
    assert forall i :: start <= i < start + n ==> source[i] == tail[i - start];
  }

  /** A line comment: blanks up to the newline. */
  method SkipLine(source: string, start: nat, output: string) returns (shown: string, i: nat)
    requires start <= |source| && Starts(source[start..], "--")
    ensures var t := LineComment(LineBody(source[start..][2..]));
            i == start + |Text(t)| && shown == output + Shown(t)
  {
    shown, i := output, start;
    ghost var n := |LineBody(source[start..])|;
    LineEnds(source, start, n);
    while i < |source| && source[i] != '\n'
      invariant start <= i <= start + n <= |source|
      invariant shown == output + Blanked(source[start..i])
    {
      LineStep(source, start, i, output, shown);
      shown := shown + " ";
      i := i + 1;
    }
    LineDone(source, start, i, output, shown);
  }

  lemma LineDone(source: string, start: nat, i: nat, output: string, shown: string)
    requires start <= i <= |source| && Starts(source[start..], "--")
    requires i == start + |LineBody(source[start..])| && shown == output + Blanked(source[start..i])
    ensures var t := LineComment(LineBody(source[start..][2..])); i == start + |Text(t)| && shown == output + Shown(t)
  {
    LineEnds(source, start, i - start);
    DashesFirst(source[start..]);
    assert Text(LineComment(LineBody(source[start..][2..]))) == source[start..i];
  }

  lemma LineStep(source: string, start: nat, i: nat, output: string, shown: string)
    requires start <= i < |source| && source[i] != '\n' && shown == output + Blanked(source[start..i])
    ensures shown + " " == output + Blanked(source[start..i + 1])
  {
    BlankedMore(source, start, i, i + 1);
    Assoc(output, Blanked(source[start..i]), " ");
  }

  lemma DashesFirst(s: string)
    requires Starts(s, "--")
    ensures LineBody(s) == "--" + LineBody(s[2..])
  {
    assert s[0] == s[..2][0] && s[1] == s[..2][1];
    assert s[1..][1..] == s[2..];
    assert LineBody(s[1..]) == ['-'] + LineBody(s[2..]);
  }

  function Follow(done: seq<Piece>, left: Option<seq<Piece>>): Option<seq<Piece>> {
    match left
    case None => None
    case Some(rest) => Some(done + rest)
  }

  lemma {:induction false} PiecesJoin(a: seq<Piece>, b: seq<Piece>)
    ensures PiecesText(a + b) == PiecesText(a) + PiecesText(b)
  {
    if a == [] {
      assert a + b == b;
    } else {
      PiecesJoin(a[1..], b);
      assert (a + b)[0] == a[0] && (a + b)[1..] == a[1..] + b;
      Assoc(PieceText(a[0]), PiecesText(a[1..]), PiecesText(b));
    }
  }

  function PieceAt(s: string): Piece
    requires s != ""
  {
    if Starts(s, "/*") then Deeper else if Starts(s, "*/") then Shallower else Inside(s[0])
  }

  lemma PieceLies(source: string, i: nat)
    requires i < |source|
    ensures var text := PieceText(PieceAt(source[i..])); i + |text| <= |source| && source[i..i + |text|] == text
  {
    var text := PieceText(PieceAt(source[i..]));
    assert source[i..][..|text|] == source[i..i + |text|];
  }

  /** One more piece has been read. */
  lemma PieceRead(source: string, i: nat, depth: nat, done: seq<Piece>)
    requires i < |source| && depth > 0
    ensures var p := PieceAt(source[i..]);
            var next := i + |PieceText(p)|;
            && next <= |source| && depth + Step(p) >= 0
            && Follow(done, ReadPieces(source[i..], depth)) == Follow(done + [p], ReadPieces(source[next..], depth + Step(p)))
  {
    var p := PieceAt(source[i..]);
    PieceLies(source, i);
    Suffix(source, i, |PieceText(p)|);
    var left := ReadPieces(source[i..][|PieceText(p)|..], depth + Step(p));
    assert left.Some? ==> done + ([p] + left.value) == done + [p] + left.value;
  }

  lemma PieceAdds(done: seq<Piece>, p: Piece)
    ensures PiecesText(done + [p]) == PiecesText(done) + PieceText(p)
  {
    PiecesJoin(done, [p]);
    assert PiecesText([p]) == PieceText(p) + PiecesText([]);
  }

  /** The text from start to i is this, and has been shown as blanks. */
  ghost predicate ShownAs(source: string, start: nat, i: nat, text: string, output: string, shown: string) {
    start <= i <= |source| && source[start..i] == text && shown == output + Blanked(text)
  }

  lemma ShownMore(source: string, start: nat, i: nat, text: string, output: string, shown: string, more: string)
    requires ShownAs(source, start, i, text, output, shown)
    requires i + |more| <= |source| && source[i..i + |more|] == more
    ensures ShownAs(source, start, i + |more|, text + more, output, shown + Blanked(more))
  {
    assert source[start..i + |more|] == source[start..i] + source[i..i + |more|];
    assert Blanked(text + more) == Blanked(text) + Blanked(more);
  }

  /** What the walk has read of a block comment up to i. */
  ghost predicate InBlock(source: string, start: nat, i: nat, depth: nat, done: seq<Piece>) {
    start + 2 <= i <= |source| && ReadPieces(source[start + 2..], 1) == Follow(done, ReadPieces(source[i..], depth))
  }

  lemma BlockBegins(source: string, start: nat, output: string)
    requires start <= |source| && Starts(source[start..], "/*")
    ensures InBlock(source, start, start + 2, 1, []) && ShownAs(source, start, start + 2, "/*" + PiecesText([]), output, output + "  ")
  {
    assert source[start..start + 2] == source[start..][..2] == "/*" + PiecesText([]);
    assert ReadPieces(source[start + 2..], 1).Some? ==> [] + ReadPieces(source[start + 2..], 1).value == ReadPieces(source[start + 2..], 1).value;
  }

  lemma BlockStep(source: string, start: nat, i: nat, depth: nat, done: seq<Piece>)
    requires InBlock(source, start, i, depth, done) && i < |source| && depth > 0
    ensures var p := PieceAt(source[i..]);
            depth + Step(p) >= 0 && InBlock(source, start, i + |PieceText(p)|, depth + Step(p), done + [p])
  {
    PieceRead(source, i, depth, done);
  }

  lemma BlockShown(source: string, start: nat, i: nat, done: seq<Piece>, output: string, shown: string)
    requires i < |source| && ShownAs(source, start, i, "/*" + PiecesText(done), output, shown)
    ensures var p := PieceAt(source[i..]);
            ShownAs(source, start, i + |PieceText(p)|, "/*" + PiecesText(done + [p]), output, shown + Blanked(PieceText(p)))
  {
    var p := PieceAt(source[i..]);
    PieceLies(source, i);
    ShownMore(source, start, i, "/*" + PiecesText(done), output, shown, PieceText(p));
    PieceAdds(done, p);
    assert "/*" + PiecesText(done) + PieceText(p) == "/*" + PiecesText(done + [p]);
  }

  lemma BlockEnds(source: string, start: nat, i: nat, depth: nat, done: seq<Piece>)
    requires InBlock(source, start, i, depth, done) && (i == |source| || depth == 0)
    ensures ReadPieces(source[start + 2..], 1) == if depth == 0 then Some(done) else None
  {
    assert done + [] == done;
  }

  lemma PieceBlank(s: string)
    requires s != ""
    ensures Blanked(PieceText(PieceAt(s))) == if Starts(s, "/*") || Starts(s, "*/") then "  " else if s[0] == '\n' then "\n" else " "
  {
  }

  method SkipPiece(source: string, i: nat, depth: nat, shown: string) returns (deeper: nat, more: string, next: nat)
    requires i < |source| && depth > 0
    ensures var p := PieceAt(source[i..]);
            deeper == depth + Step(p) && more == shown + Blanked(PieceText(p)) && next == i + |PieceText(p)|
  {
    PieceBlank(source[i..]);
    if Starts(source[i..], "/*") {
      deeper, more, next := depth + 1, shown + "  ", i + 2;
    } else if Starts(source[i..], "*/") {
      deeper, more, next := depth - 1, shown + "  ", i + 2;
    } else {
      deeper, more, next := depth, shown + (if source[i] == '\n' then "\n" else " "), i + 1;
    }
  }

  /** A block comment, nested ones included; false when the source ends inside it. */
  method SkipBlock(source: string, start: nat, output: string) returns (shown: string, i: nat, closed: bool)
    requires start <= |source| && Starts(source[start..], "/*")
    ensures closed == ReadPieces(source[start + 2..], 1).Some?
    ensures closed ==> ShownAs(source, start, i, Text(BlockComment(ReadPieces(source[start + 2..], 1).value)), output, shown)
  {
    ghost var done: seq<Piece> := [];
    var depth: nat := 1;
    shown, i := output + "  ", start + 2;
    BlockBegins(source, start, output);
    while i < |source| && depth > 0
      invariant BlockSoFar(source, start, i, depth, done, output, shown)
      decreases |source| - i
    {
      depth, shown, i, done := BlockPiece(source, start, i, depth, done, output, shown);
    }
    BlockClosed(source, start, i, depth, done, output, shown);
    closed := depth == 0;
  }

  ghost predicate BlockSoFar(source: string, start: nat, i: nat, depth: nat, done: seq<Piece>, output: string, shown: string) {
    InBlock(source, start, i, depth, done) && ShownAs(source, start, i, "/*" + PiecesText(done), output, shown)
  }

  method BlockPiece(source: string, start: nat, i: nat, depth: nat, ghost done: seq<Piece>, ghost output: string, shown: string)
    returns (deeper: nat, more: string, next: nat, ghost pieces: seq<Piece>)
    requires BlockSoFar(source, start, i, depth, done, output, shown) && i < |source| && depth > 0
    ensures i < next && BlockSoFar(source, start, next, deeper, pieces, output, more)
  {
    BlockTurn(source, start, i, depth, done, output, shown);
    deeper, more, next := SkipPiece(source, i, depth, shown);
    pieces := done + [PieceAt(source[i..])];
  }

  lemma BlockTurn(source: string, start: nat, i: nat, depth: nat, done: seq<Piece>, output: string, shown: string)
    requires BlockSoFar(source, start, i, depth, done, output, shown) && i < |source| && depth > 0
    ensures var p := PieceAt(source[i..]);
            depth + Step(p) >= 0
            && BlockSoFar(source, start, i + |PieceText(p)|, depth + Step(p), done + [p], output, shown + Blanked(PieceText(p)))
  {
    BlockStep(source, start, i, depth, done);
    BlockShown(source, start, i, done, output, shown);
  }

  lemma BlockClosed(source: string, start: nat, i: nat, depth: nat, done: seq<Piece>, output: string, shown: string)
    requires BlockSoFar(source, start, i, depth, done, output, shown) && (i == |source| || depth == 0)
    ensures (depth == 0) == ReadPieces(source[start + 2..], 1).Some?
    ensures depth == 0 ==> ShownAs(source, start, i, Text(BlockComment(ReadPieces(source[start + 2..], 1).value)), output, shown)
  {
    BlockEnds(source, start, i, depth, done);
  }

  lemma {:induction false} DoubledJoin(a: string, b: string, quote: char)
    ensures Doubled(a + b, quote) == Doubled(a, quote) + Doubled(b, quote)
  {
    if a == "" {
      assert a + b == b;
    } else {
      DoubledJoin(a[1..], b, quote);
      assert (a + b)[0] == a[0] && (a + b)[1..] == a[1..] + b;
      Assoc(if a[0] == quote then [quote, quote] else [a[0]], Doubled(a[1..], quote), Doubled(b, quote));
    }
  }

  /** One more character has been read inside quotes. */
  lemma QuotedRead(source: string, i: nat, quote: char, done: string)
    requires i < |source|
    requires source[i] == quote ==> i + 1 < |source| && source[i + 1] == quote
    ensures var width := if source[i] == quote then 2 else 1;
            && After(done, ReadQuoted(source[i..], quote)) == After(done + [source[i]], ReadQuoted(source[i + width..], quote))
            && Doubled(done + [source[i]], quote) == Doubled(done, quote) + source[i..i + width]
  {
    var width := if source[i] == quote then 2 else 1;
    Suffix(source, i, width);
    DoubledJoin(done, [source[i]], quote);
    assert Doubled([source[i]], quote) == source[i..i + width] + Doubled("", quote);
    var left := ReadQuoted(source[i..][width..], quote);
    assert left.Some? ==> done + ([source[i]] + left.value) == done + [source[i]] + left.value;
  }

  /** What the walk has read of a quoted text up to i. */
  ghost predicate InQuotes(source: string, start: nat, i: nat, done: string) {
    && start + 1 <= i <= |source|
    && ReadQuoted(source[start + 1..], source[start]) == After(done, ReadQuoted(source[i..], source[start]))
  }

  function Opening(quote: char, done: string): string {
    [quote] + Doubled(done, quote)
  }

  lemma QuotesStep(source: string, start: nat, i: nat, done: string, output: string, shown: string)
    requires InQuotes(source, start, i, done) && ShownAs(source, start, i, Opening(source[start], done), output, shown)
    requires i < |source| && (source[i] == source[start] ==> i + 1 < |source| && source[i + 1] == source[start])
    ensures var next := i + if source[i] == source[start] then 2 else 1;
            && InQuotes(source, start, next, done + [source[i]])
            && ShownAs(source, start, next, Opening(source[start], done + [source[i]]), output, shown + Blanked(source[i..next]))
  {
    var next := i + if source[i] == source[start] then 2 else 1;
    QuotedRead(source, i, source[start], done);
    ShownMore(source, start, i, Opening(source[start], done), output, shown, source[i..next]);
    assert Opening(source[start], done) + source[i..next] == Opening(source[start], done + [source[i]]);
  }

  lemma QuotesEnd(source: string, start: nat, i: nat, done: string)
    requires InQuotes(source, start, i, done)
    requires i < |source| ==> source[i] == source[start] && (i + 1 == |source| || source[i + 1] != source[start])
    ensures ReadQuoted(source[start + 1..], source[start]) == if i < |source| then Some(done) else None
  {
    assert done + "" == done;
  }

  lemma QuotesBegin(source: string, start: nat, output: string)
    requires start < |source|
    ensures InQuotes(source, start, start + 1, "")
    ensures ShownAs(source, start, start + 1, Opening(source[start], ""), output, output + Blanked(source[start..start + 1]))
  {
    var all := ReadQuoted(source[start + 1..], source[start]);
    assert all.Some? ==> "" + all.value == all.value;
    assert source[start..start + 1] == Opening(source[start], "");
  }

  method SkipQuoted(source: string, i: nat, quote: char, shown: string) returns (more: string, next: nat)
    requires i < |source| && quote != '\n' && (source[i] == quote ==> i + 1 < |source| && source[i + 1] == quote)
    ensures next == i + (if source[i] == quote then 2 else 1) && more == shown + Blanked(source[i..next])
  {
    if source[i] == quote {
      assert source[i..i + 2] == [quote, quote];
      more, next := shown + "  ", i + 2;
    } else {
      more, next := shown + (if source[i] == '\n' then "\n" else " "), i + 1;
    }
  }

  /** A quoted text up to its closing mark; false when the source ends inside it. */
  method SkipQuote(source: string, start: nat, output: string) returns (shown: string, i: nat, closed: bool)
    requires start < |source| && source[start] in {'\'', '"'}
    ensures closed == ReadQuoted(source[start + 1..], source[start]).Some?
    ensures closed ==>
      ShownAs(source, start, i, Opening(source[start], ReadQuoted(source[start + 1..], source[start]).value) + [source[start]], output, shown)
  {
    var quote := source[start];
    ghost var done := "";
    shown, i, closed := output + " ", start + 1, false;
    QuotesBegin(source, start, output);
    while i < |source|
      invariant InQuotes(source, start, i, done) && ShownAs(source, start, i, Opening(quote, done), output, shown)
      decreases |source| - i
    {
      if source[i] == quote && !(i + 1 < |source| && source[i + 1] == quote) {
        QuotesEnd(source, start, i, done);
        ShownMore(source, start, i, Opening(quote, done), output, shown, [quote]);
        shown, i, closed := shown + " ", i + 1, true;
        return;
      }
      QuotesStep(source, start, i, done, output, shown);
      done := done + [source[i]];
      shown, i := SkipQuoted(source, i, quote, shown);
    }
    QuotesEnd(source, start, i, done);
  }

  lemma {:induction false} QuoteStays(value: string)
    requires '"' in value
    ensures '"' in Doubled(value, '"')
  {
    if value[0] != '"' {
      QuoteStays(value[1..]);
    }
  }

  /** The name test on the raw text between the marks is the name test on what it stands for. */
  lemma RawName(value: string)
    ensures IsSimpleName(Doubled(value, '"')) <==> IsSimpleName(value)
    ensures IsSimpleName(value) ==> Doubled(value, '"') == value
  {
    if '"' in value {
      QuoteStays(value);
      assert !IsSimpleName(value);
    } else {
      NoDoubling(value);
    }
  }

  /** What one turn of the loop comes to. */
  ghost predicate Walked(source: string, i: nat, output: string, fault: Option<Fault>, shown: string, next: nat) {
    && i < |source|
    && match One(source[i..])
       case Err(f) => fault == Some(f)
       case Ok(t) => fault.None? && next == i + |Text(t)| && shown == output + Shown(t)
  }

  lemma TailFacts(source: string, i: nat)
    requires i < |source|
    ensures source[i..] != "" && source[i..][0] == source[i] && source[i..][1..] == source[i + 1..]
    ensures i + 2 <= |source| ==> source[i..][2..] == source[i + 2..]
  {
  }

  method WalkComment(source: string, i: nat, output: string) returns (fault: Option<Fault>, shown: string, next: nat)
    requires i < |source| && (Starts(source[i..], "--") || Starts(source[i..], "/*"))
    ensures Walked(source, i, output, fault, shown, next)
  {
    TailFacts(source, i);
    fault := None;
    if Starts(source[i..], "--") {
      shown, next := SkipLine(source, i, output);
    } else {
      var closed;
      shown, next, closed := SkipBlock(source, i, output);
      if !closed {
        fault := Some(UnterminatedComment);
      }
    }
  }

  lemma NoMarkHere(s: string)
    requires s != "" && s[0] != '-' && s[0] != '/'
    ensures !Starts(s, "--") && !Starts(s, "/*")
  {
  }

  lemma LiteralWalked(source: string, i: nat, output: string, shown: string, next: nat)
    requires i < |source| && source[i] == '\'' && ReadQuoted(source[i + 1..], '\'').Some?
    requires ShownAs(source, i, next, Opening('\'', ReadQuoted(source[i + 1..], '\'').value) + ['\''], output, shown)
    ensures Walked(source, i, output, None, shown, next)
  {
    TailFacts(source, i);
    NoMarkHere(source[i..]);
    var value := ReadQuoted(source[i + 1..], '\'').value;
    assert Opening('\'', value) + ['\''] == Text(Literal(value));
  }

  lemma IdentifierWalked(source: string, i: nat, output: string, shown: string, next: nat)
    requires i < |source| && source[i] == '"' && ReadQuoted(source[i + 1..], '"').Some?
    requires ShownAs(source, i, next, Opening('"', ReadQuoted(source[i + 1..], '"').value) + ['"'], output, shown)
    ensures i + 2 <= next <= |source| && next - i <= |shown|
    ensures var name := source[i + 1..next - 1];
            if IsSimpleName(name) then Walked(source, i, output, None, shown[..|shown| - (next - i)] + name, next)
            else Walked(source, i, output, Some(BadIdentifier), shown, next)
  {
    var value := ReadQuoted(source[i + 1..], '"').value;
    BetweenMarks(source, i, next, Doubled(value, '"'), output, shown);
    RawName(value);
    OneIdentifier(source, i, value);
  }

  lemma Slice(s: string, i: nat, j: nat, a: nat, b: nat)
    requires i <= j <= |s| && a <= b <= j - i
    ensures s[i..j][a..b] == s[i + a..i + b]
  {
    forall k | 0 <= k < b - a ensures s[i..j][a..b][k] == s[i + a..i + b][k] {
    }
  }

  lemma BetweenMarks(source: string, i: nat, next: nat, raw: string, output: string, shown: string)
    requires ShownAs(source, i, next, ['"'] + raw + ['"'], output, shown)
    ensures i + 2 + |raw| == next <= |source| && source[i + 1..next - 1] == raw
    ensures next - i <= |shown| && shown[..|shown| - (next - i)] == output
  {
    var text := ['"'] + raw + ['"'];
    assert raw == text[1..|text| - 1] == source[i..next][1..|text| - 1];
    Slice(source, i, next, 1, |text| - 1);
  }

  lemma OneIdentifier(source: string, i: nat, value: string)
    requires i < |source| && source[i] == '"' && ReadQuoted(source[i + 1..], '"') == Some(value)
    ensures One(source[i..]) == if IsSimpleName(value) then Ok(Identifier(value)) else Err(BadIdentifier)
  {
    TailFacts(source, i);
    NoMarkHere(source[i..]);
  }

  method WalkQuote(source: string, i: nat, output: string) returns (fault: Option<Fault>, shown: string, next: nat)
    requires i < |source| && source[i] in {'\'', '"'}
    ensures Walked(source, i, output, fault, shown, next)
  {
    var closed;
    shown, next, closed := SkipQuote(source, i, output);
    if !closed {
      TailFacts(source, i);
      NoMarkHere(source[i..]);
      return Some(UnterminatedQuote), shown, next;
    }
    if source[i] == '\'' {
      LiteralWalked(source, i, output, shown, next);
      return None, shown, next;
    }
    IdentifierWalked(source, i, output, shown, next);
    var name := source[i + 1..next - 1];
    if !IsSimpleName(name) {
      return Some(BadIdentifier), shown, next;
    }
    return None, shown[..|shown| - (next - i)] + name, next;
  }

  method WalkDollar(source: string, i: nat, output: string) returns (fault: Option<Fault>, shown: string, next: nat)
    requires i < |source| && source[i] == '$' && ReadTag(source[i..]).Some?
    ensures Walked(source, i, output, fault, shown, next)
  {
    var s := source[i..];
    var tag := ReadTag(s).value;
    var close := Find(s[|tag|..], tag);
    NoMarkHere(s);
    if close.None? {
      NoDollar(s);
      return Some(UnterminatedDollar), output, i;
    }
    DollarLies(s, tag, close.value);
    OneDollar(s, tag, close.value);
    var body := s[..|tag| + close.value + |tag|];
    return None, output + Blanked(body), i + |body|;
  }

  lemma DollarLies(s: string, tag: string, at: nat)
    requires s != "" && s[0] == '$' && ReadTag(s) == Some(tag) && Find(s[|tag|..], tag) == Some(at)
    ensures |tag| + at + |tag| <= |s| && s[..|tag| + at + |tag|] == Text(Dollar(tag, s[|tag|..|tag| + at]))
  {
    TagLies(s);
    FindLies(s[|tag|..], tag, at);
    DollarSlices(s, tag, at);
    DollarText(s, tag, at);
  }

  lemma DollarText(s: string, tag: string, at: nat)
    requires |tag| + at <= |s| && Starts(s, tag + s[|tag|..|tag| + at] + tag)
    ensures |tag| + at + |tag| <= |s| && s[..|tag| + at + |tag|] == Text(Dollar(tag, s[|tag|..|tag| + at]))
  {
  }

  lemma NoDollar(s: string)
    requires s != "" && s[0] == '$' && !Starts(s, "--") && !Starts(s, "/*")
    requires ReadTag(s).Some? && Find(s[|ReadTag(s).value|..], ReadTag(s).value).None?
    ensures One(s) == Err(UnterminatedDollar)
  {
  }

  method WalkOne(source: string, i: nat, output: string) returns (fault: Option<Fault>, shown: string, next: nat)
    requires i < |source|
    ensures Walked(source, i, output, fault, shown, next)
  {
    var s := source[i..];
    if Starts(s, "--") || Starts(s, "/*") {
      fault, shown, next := WalkComment(source, i, output);
    } else if source[i] == '\'' || source[i] == '"' {
      fault, shown, next := WalkQuote(source, i, output);
    } else if source[i] == '$' && ReadTag(s).Some? {
      fault, shown, next := WalkDollar(source, i, output);
    } else {
      fault, shown, next := None, output + [source[i]], i + 1;
    }
  }

  lemma {:induction false} ShownJoin(tokens: seq<Token>, t: Token)
    ensures ShownOf(tokens + [t]) == ShownOf(tokens) + Shown(t)
  {
    if tokens == [] {
      assert tokens + [t] == [t] && [t][1..] == [];
      assert Shown(t) + "" == Shown(t);
    } else {
      ShownJoin(tokens[1..], t);
      assert (tokens + [t])[0] == tokens[0] && (tokens + [t])[1..] == tokens[1..] + [t];
      Assoc(Shown(tokens[0]), ShownOf(tokens[1..]), Shown(t));
    }
  }

  function Continued(done: seq<Token>, rest: Result<seq<Token>>): Result<seq<Token>> {
    match rest case Err(f) => Err(f) case Ok(tokens) => Ok(done + tokens)
  }

  /** The reader stands for One(), and nothing more need be known of it. */
  ghost predicate Faithful(read: string -> Result<Token>) {
    forall s {:trigger One(s)} :: s != "" ==> read(s) == One(s)
  }

  /** The source reads as these tokens and then whatever stands from i on. */
  ghost predicate ReadSoFar(read: string -> Result<Token>, source: string, i: nat, done: seq<Token>) {
    i <= |source| && Lex(read, source) == Continued(done, Lex(read, source[i..]))
  }

  lemma NothingRead(read: string -> Result<Token>, source: string)
    ensures ReadSoFar(read, source, 0, [])
  {
    assert source[0..] == source;
    assert Lex(read, source).Ok? ==> [] + Lex(read, source).value == Lex(read, source).value;
  }

  /** The reading goes on behind a token. */
  lemma ReadToken(read: string -> Result<Token>, source: string, i: nat, done: seq<Token>, t: Token)
    requires i < |source| && ReadSoFar(read, source, i, done) && read(source[i..]) == Ok(t)
    requires Text(t) != "" && i + |Text(t)| <= |source|
    ensures ReadSoFar(read, source, i + |Text(t)|, done + [t])
  {
    Suffix(source, i, |Text(t)|);
    var rest := Lex(read, source[i..][|Text(t)|..]);
    assert rest.Ok? ==> done + ([t] + rest.value) == done + [t] + rest.value;
  }

  lemma ReadFails(read: string -> Result<Token>, source: string, i: nat, done: seq<Token>, f: Fault)
    requires i < |source| && ReadSoFar(read, source, i, done) && read(source[i..]) == Err(f)
    ensures Lex(read, source) == Err(f)
  {
  }

  lemma AllRead(read: string -> Result<Token>, source: string, i: nat, done: seq<Token>)
    requires ReadSoFar(read, source, i, done) && i == |source|
    ensures Lex(read, source) == Ok(done)
  {
    assert done + [] == done;
  }

  lemma TokenOf(source: string, i: nat, output: string, fault: Option<Fault>, shown: string, next: nat) returns (t: Token)
    requires Walked(source, i, output, fault, shown, next) && fault.None?
    ensures One(source[i..]) == Ok(t) && i < next == i + |Text(t)| <= |source| && shown == output + Shown(t)
  {
    OneFits(source[i..]);
    t := One(source[i..]).value;
  }

  /** One turn of the loop. */
  method Turn(source: string, i: nat, output: string, ghost read: string -> Result<Token>)
    returns (fault: Option<Fault>, shown: string, next: nat, ghost t: Token)
    requires i < |source| && Faithful(read)
    ensures fault.Some? ==> read(source[i..]) == Err(fault.value)
    ensures fault.None? ==> read(source[i..]) == Ok(t) && i < next == i + |Text(t)| <= |source| && shown == output + Shown(t)
  {
    fault, shown, next := WalkOne(source, i, output);
    t := Plain(' ');
    if fault.None? {
      t := TokenOf(source, i, output, fault, shown, next);
    }
  }

  function Skeletoned(tokens: Result<seq<Token>>): Result<string> {
    match tokens case Err(f) => Err(f) case Ok(value) => Ok(ShownOf(value))
  }

  /** The loop of sqlSkeleton(). */
  method Walk(source: string, ghost read: string -> Result<Token>) returns (result: Result<string>)
    requires Faithful(read)
    ensures result == Skeletoned(Lex(read, source))
  {
    var output := "";
    var i := 0;
    ghost var done: seq<Token> := [];
    NothingRead(read, source);
    while i < |source|
      invariant i <= |source| && output == ShownOf(done) && ReadSoFar(read, source, i, done)
      decreases |source| - i
    {
      ghost var t;
      var fault, shown, next;
      fault, shown, next, t := Turn(source, i, output, read);
      if fault.Some? {
        ReadFails(read, source, i, done, fault.value);
        return Err(fault.value);
      }
      ReadToken(read, source, i, done, t);
      ShownJoin(done, t);
      done, output, i := done + [t], shown, next;
    }
    AllRead(read, source, i, done);
    return Ok(output);
  }

  /** sqlSkeleton(): what is shown of the one reading of the source, or why it has none. */
  method SqlSkeleton(source: string) returns (result: Result<string>)
    ensures result == Skeletoned(Lex(One, source))
  {
    result := Walk(source, One);
  }

  // ---- What the skeleton promises --------------------------------------------------------------------------

  /** A source has a skeleton exactly when it has a token reading, and then the skeleton shows
      that reading; so a source has at most one. */
  lemma SkeletonIsReading(source: string, tokens: seq<Token>)
    requires Reads(tokens) && TextOf(tokens) == source
    ensures Skeletoned(Lex(One, source)) == Ok(ShownOf(tokens))
  {
    ReadingIsLex(tokens);
  }

  lemma SkeletonHasReading(source: string)
    ensures Skeletoned(Lex(One, source)).Ok? <==> exists tokens :: Reads(tokens) && TextOf(tokens) == source
  {
    if Lex(One, source).Ok? {
      LexIsReading(source);
      assert Reads(Lex(One, source).value) && TextOf(Lex(One, source).value) == source;
    }
    forall tokens | Reads(tokens) && TextOf(tokens) == source ensures Lex(One, source).Ok? {
      ReadingIsLex(tokens);
    }
  }

  /** Newlines and length, for every source that is accepted. */
  lemma SkeletonKeepsNewlines(source: string) returns (tokens: seq<Token>)
    requires Skeletoned(Lex(One, source)).Ok?
    ensures Reads(tokens) && TextOf(tokens) == source && Skeletoned(Lex(One, source)) == Ok(ShownOf(tokens))
    ensures var output := ShownOf(tokens);
            && Newlines(output) == Newlines(source)
            && |source| == |output| + 2 * Quoted(tokens)
            && Inked(output) == Kept(tokens)
  {
    LexIsReading(source);
    tokens := Lex(One, source).value;
    ReadingKeeps(tokens);
  }

  lemma ReadingKeeps(tokens: seq<Token>)
    requires Reads(tokens)
    ensures var source, output := TextOf(tokens), ShownOf(tokens);
            && Newlines(output) == Newlines(source) && |source| == |output| + 2 * Quoted(tokens)
            && Inked(output) == Kept(tokens)
  {
    SkeletonKeepsLines(tokens);
    SkeletonKeepsInk(tokens);
  }

  /** The same token but for what a comment, a literal or a dollar quote says between newlines. */
  predicate Alike(a: Token, b: Token) {
    match a
    case Plain(_) => a == b
    case Identifier(_) => a == b
    case _ => !b.Plain? && !b.Identifier? && Blanked(Text(a)) == Blanked(Text(b))
  }

  /** Two readings that differ only inside comments, literals and dollar quotes, newlines aside,
      have the same skeleton. */
  lemma {:induction false} SkeletonIgnoresBodies(a: seq<Token>, b: seq<Token>)
    requires Reads(a) && Reads(b) && |a| == |b| && forall k :: 0 <= k < |a| ==> Alike(a[k], b[k])
    ensures Skeletoned(Lex(One, TextOf(a))) == Skeletoned(Lex(One, TextOf(b)))
  {
    ReadingIsLex(a);
    ReadingIsLex(b);
    AlikeShown(a, b);
  }

  lemma {:induction false} AlikeShown(a: seq<Token>, b: seq<Token>)
    requires |a| == |b| && forall k :: 0 <= k < |a| ==> Alike(a[k], b[k])
    ensures ShownOf(a) == ShownOf(b)
  {
    if a != [] {
      assert Alike(a[0], b[0]);
      AlikeShown(a[1..], b[1..]);
    }
  }
}
