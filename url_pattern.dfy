/**
 * `url_pattern` of `multiply_ui/server/app.py`: turns a URL pattern in which
 * every `{{name}}` stands for one path component into the equivalent regular
 * expression, with one named group per placeholder. A group matches up to the
 * next reserved character of section 2.2 of RFC 2396.
 */
module App {
  import opened Wrappers
  import opened Text

  /** The `ValueError`s `url_pattern` raises. */
  datatype UrlError = NoClosingBraces(pattern: string) | NotIdentifier(name: string)

  function Message(e: UrlError): string {
    match e
    case NoClosingBraces(p) => "no matching \"}}\" after \"{{\" in \"" + p + "\""
    case NotIdentifier(n) => "name in {{name}} must be a valid identifier, but got \"" + n + "\""
  }

  /** The regular expression that replaces `{{name}}`: one or more characters that are not reserved. */
  function NameGroup(name: string): string {
    "(?P<" + name + ">[^\\;\\/\\?\\:\\@\\&\\=\\+\\$\\,]+)"
  }

  predicate IsIdentifierStart(c: char) {
    ('a' <= c <= 'z') || ('A' <= c <= 'Z') || c == '_'
  }

  predicate IsIdentifierChar(c: char) {
    IsIdentifierStart(c) || IsDigit(c)
  }

  /** `str.isidentifier()` restricted to ASCII text. */
  predicate IsIdentifier(s: string) {
    |s| > 0 && IsIdentifierStart(s[0]) && forall i :: 1 <= i < |s| ==> IsIdentifierChar(s[i])
  }

  /** A pattern read as text copied verbatim and placeholders. */
  datatype Piece = Literal(text: string) | Placeholder(name: string)

  /** The text a piece stands for in the pattern. */
  function Spelling(p: Piece): string {
    match p
    case Literal(t) => t
    case Placeholder(n) => "{{" + n + "}}"
  }

  /** The text a piece becomes in the regular expression. */
  function Translation(p: Piece): string {
    match p
    case Literal(t) => t
    case Placeholder(n) => NameGroup(n)
  }

  /** What the pieces stand for in the pattern. */
  function Source(ps: seq<Piece>): string {
    if |ps| == 0 then "" else Spelling(ps[0]) + Source(ps[1..])
  }

  /** The regular expression the pieces become. */
  function Regex(ps: seq<Piece>): string {
    if |ps| == 0 then "" else Translation(ps[0]) + Regex(ps[1..])
  }

  lemma {:induction false} RegexAppend(a: seq<Piece>, b: seq<Piece>)
    ensures Regex(a + b) == Regex(a) + Regex(b)
  {
    if |a| > 0 {
      assert (a + b)[0] == a[0];
      assert (a + b)[1..] == a[1..] + b;
      RegexAppend(a[1..], b);
      var h := Translation(a[0]);
      assert Regex(a + b) == h + (Regex(a[1..]) + Regex(b));
      assert h + (Regex(a[1..]) + Regex(b)) == (h + Regex(a[1..])) + Regex(b);
    } else {
      assert a + b == b;
    }
  }

  /**
   * How the scan reads `pattern[pos..]`: the text up to the first `{{`, the
   * name up to the first `}}` after it, and so on; no `{{` left ends the
   * scan with the rest of the text.
   */
  function Pieces(pattern: string, pos: nat): Result<seq<Piece>, UrlError>
    requires pos <= |pattern|
    decreases |pattern| - pos
  {
    var pos1 := Find(pattern, "{{", pos);
    if pos1 < 0 then Ok([Literal(pattern[pos..])])
    else
      var pos2 := Find(pattern, "}}", pos1 + 2);
      if pos2 > pos1 then
        var name := pattern[pos1 + 2..pos2];
        if !IsIdentifier(name) then Err(NotIdentifier(name))
        else
          match Pieces(pattern, pos2 + 2)
          case Err(e) => Err(e)
          case Ok(rest) => Ok([Literal(pattern[pos..pos1]), Placeholder(name)] + rest)
      else Err(NoClosingBraces(pattern))
  }

  /** `url_pattern(pattern)` as a value: the regular expression of the pieces, or the error. */
  function UrlPatternOf(pattern: string): Result<string, UrlError> {
    match Pieces(pattern, 0)
    case Err(e) => Err(e)
    case Ok(ps) => Ok(Regex(ps))
  }

  function Prepend(done: seq<Piece>, r: Result<seq<Piece>, UrlError>): Result<seq<Piece>, UrlError> {
    match r
    case Err(e) => Err(e)
    case Ok(ps) => Ok(done + ps)
  }

  lemma PrependNothing(r: Result<seq<Piece>, UrlError>)
    ensures Prepend([], r) == r
  {
    if r.Ok? {
      assert [] + r.value == r.value;
    }
  }

  lemma PrependPrepend(done: seq<Piece>, step: seq<Piece>, r: Result<seq<Piece>, UrlError>)
    ensures Prepend(done, Prepend(step, r)) == Prepend(done + step, r)
  {
    if r.Ok? {
      assert done + (step + r.value) == (done + step) + r.value;
    }
  }

  /** The last round of the scan: no `{{` is left. */
  lemma PiecesEnd(pattern: string, pos: nat)
    requires pos <= |pattern| && Find(pattern, "{{", pos) < 0
    ensures Pieces(pattern, pos) == Ok([Literal(pattern[pos..])])
  {
  }

  /** One round of the scan: a literal and a placeholder, then the rest. */
  lemma PiecesStep(pattern: string, pos: nat, pos1: int, pos2: int, next: nat)
    requires pos <= |pattern|
    requires pos1 == Find(pattern, "{{", pos) && pos1 >= 0
    requires pos2 == Find(pattern, "}}", pos1 + 2) && pos2 > pos1 && next == pos2 + 2
    requires IsIdentifier(pattern[pos1 + 2..pos2])
    ensures next <= |pattern|
    ensures Pieces(pattern, pos)
         == Prepend([Literal(pattern[pos..pos1]), Placeholder(pattern[pos1 + 2..pos2])], Pieces(pattern, next))
  {
  }

  /** The rounds of the scan that fail. */
  lemma PiecesFail(pattern: string, pos: nat, pos1: int, pos2: int)
    requires pos <= |pattern|
    requires pos1 == Find(pattern, "{{", pos) && pos1 >= 0
    requires pos2 == Find(pattern, "}}", pos1 + 2)
    ensures pos2 <= pos1 ==> Pieces(pattern, pos) == Err(NoClosingBraces(pattern))
    ensures pos2 > pos1 && !IsIdentifier(pattern[pos1 + 2..pos2])
         ==> Pieces(pattern, pos) == Err(NotIdentifier(pattern[pos1 + 2..pos2]))
  {
  }

  lemma RegexOfRound(t: string, n: string)
    ensures Regex([Literal(t), Placeholder(n)]) == t + NameGroup(n)
  {
    var step := [Literal(t), Placeholder(n)];
    assert step[1..] == [Placeholder(n)];
    assert step[1..][1..] == [];
    assert Regex(step[1..]) == NameGroup(n) + "";
    assert NameGroup(n) + "" == NameGroup(n);
  }

  lemma RegexOfLast(t: string)
    ensures Regex([Literal(t)]) == t
  {
    assert [Literal(t)][1..] == [];
  }

  /** The scan fails where its rest fails. */
  lemma ScanError(pattern: string, pos: nat, done: seq<Piece>, e: UrlError)
    requires pos <= |pattern| && Pieces(pattern, 0) == Prepend(done, Pieces(pattern, pos))
    requires Pieces(pattern, pos) == Err(e)
    ensures UrlPatternOf(pattern) == Err(e)
  {
  }

  /** The last round of the loop: the rest of the text is appended verbatim. */
  lemma ScanEnd(pattern: string, pos: nat, done: seq<Piece>)
    requires pos <= |pattern| && Pieces(pattern, 0) == Prepend(done, Pieces(pattern, pos))
    requires Find(pattern, "{{", pos) < 0
    ensures UrlPatternOf(pattern) == Ok(Regex(done) + pattern[pos..])
  {
    PiecesEnd(pattern, pos);
    RegexAppend(done, [Literal(pattern[pos..])]);
    RegexOfLast(pattern[pos..]);
  }

  /** One round of the loop: a literal and a group are appended and the scan goes on after `}}`. */
  lemma ScanAdvance(pattern: string, pos: nat, pos1: int, pos2: int, next: nat, done: seq<Piece>, step: seq<Piece>)
    requires pos <= |pattern| && Pieces(pattern, 0) == Prepend(done, Pieces(pattern, pos))
    requires pos1 == Find(pattern, "{{", pos) && pos1 >= 0
    requires pos2 == Find(pattern, "}}", pos1 + 2) && pos2 > pos1
    requires IsIdentifier(pattern[pos1 + 2..pos2])
    requires step == [Literal(pattern[pos..pos1]), Placeholder(pattern[pos1 + 2..pos2])]
    requires next == pos2 + 2
    ensures pos < next <= |pattern|
    ensures Pieces(pattern, 0) == Prepend(done + step, Pieces(pattern, next))
    ensures Regex(done + step) == Regex(done) + (pattern[pos..pos1] + NameGroup(pattern[pos1 + 2..pos2]))
  {
    RegexAppend(done, step);
    RegexOfRound(pattern[pos..pos1], pattern[pos1 + 2..pos2]);
    PiecesStep(pattern, pos, pos1, pos2, next);
    PrependPrepend(done, step, Pieces(pattern, next));
  }

  /** `url_pattern`: the scanning loop, with `pos` the scan position and `regExpr` the accumulated result. */
  method UrlPattern(pattern: string) returns (r: Result<string, UrlError>)
    ensures r == UrlPatternOf(pattern)
  {
    var regExpr := "";
    var pos := 0;
    ghost var done: seq<Piece> := [];
    PrependNothing(Pieces(pattern, 0));
    while true
      invariant pos <= |pattern|
      invariant regExpr == Regex(done)
      invariant Pieces(pattern, 0) == Prepend(done, Pieces(pattern, pos))
      decreases |pattern| - pos
    {
      var pos1 := Find(pattern, "{{", pos);
      if pos1 >= 0 {
        var pos2 := Find(pattern, "}}", pos1 + 2);
        PiecesFail(pattern, pos, pos1, pos2);
        if pos2 > pos1 {
          var name := pattern[pos1 + 2..pos2];
          if !IsIdentifier(name) {
            ScanError(pattern, pos, done, NotIdentifier(name));
            return Err(NotIdentifier(name));
          }
          ghost var step := [Literal(pattern[pos..pos1]), Placeholder(name)];
          var next := pos2 + 2;
          ScanAdvance(pattern, pos, pos1, pos2, next, done, step);
          regExpr := regExpr + (pattern[pos..pos1] + NameGroup(name));
          done := done + step;
          pos := next;
        } else {
          ScanError(pattern, pos, done, NoClosingBraces(pattern));
          return Err(NoClosingBraces(pattern));
        }
      } else {
        ScanEnd(pattern, pos, done);
        regExpr := regExpr + pattern[pos..];
        return Ok(regExpr);
      }
    }
  }

  // ---------------------------------------------------------------------------
  // Properties of the rewrite
  // ---------------------------------------------------------------------------

  predicate NoOpen(t: string) {
    forall i :: 0 <= i < |t| ==> !OccursAt(t, "{{", i)
  }

  /**
   * The shape of an accepted pattern: text, placeholder, text, ..., text,
   * where no text holds `{{`, no text before a placeholder ends with `{`, and
   * every name is an identifier.
   */
  predicate WellFormed(ps: seq<Piece>) {
    if |ps| == 1 then ps[0].Literal? && NoOpen(ps[0].text)
    else
      && |ps| >= 3 && ps[0].Literal? && ps[1].Placeholder?
      && NoOpen(ps[0].text) && (|ps[0].text| > 0 ==> ps[0].text[|ps[0].text| - 1] != '{')
      && IsIdentifier(ps[1].name)
      && WellFormed(ps[2..])
  }

  /** A pattern without `{{` is returned unchanged. */
  lemma NoPlaceholderUnchanged(pattern: string)
    requires NoOpen(pattern)
    ensures UrlPatternOf(pattern) == Ok(pattern)
  {
    FindSpec(pattern, "{{", 0);
    assert Find(pattern, "{{", 0) == -1;
    assert pattern[0..] == pattern;
    assert Pieces(pattern, 0) == Ok([Literal(pattern)]);
    assert [Literal(pattern)][1..] == [];
    assert Regex([Literal(pattern)]) == pattern + Regex([]);
    assert pattern + "" == pattern;
  }

  /** A `{{` with no later `}}` is rejected. */
  lemma UnclosedRejected(pattern: string, pos: nat)
    requires pos <= |pattern|
    requires Find(pattern, "{{", pos) >= 0
    requires forall i :: Find(pattern, "{{", pos) + 2 <= i ==> !OccursAt(pattern, "}}", i)
    ensures Pieces(pattern, pos) == Err(NoClosingBraces(pattern))
  {
    FindSpec(pattern, "}}", Find(pattern, "{{", pos) + 2);
  }

  /** Where `t` sits in `s` at `lo`, a text starts at `lo + j` in `s` just when it starts at `j` in `t`. */
  lemma OccursIn(s: string, lo: nat, t: string, sub: string, j: nat)
    requires lo + |t| <= |s| && s[lo..lo + |t|] == t && j + |sub| <= |t|
    ensures OccursAt(s, sub, lo + j) <==> OccursAt(t, sub, j)
  {
    var w := s[lo + j..lo + j + |sub|];
    forall k | 0 <= k < |sub| ensures t[j..j + |sub|][k] == w[k] {
      assert t[j + k] == s[lo..lo + |t|][j + k];
    }
    assert t[j..j + |sub|] == w;
  }

  /** A slice of text in which no `{{` starts holds no `{{`. */
  lemma NoOpenSlice(pattern: string, lo: nat, hi: nat)
    requires lo <= hi <= |pattern|
    requires forall i :: lo <= i < hi ==> !OccursAt(pattern, "{{", i)
    ensures NoOpen(pattern[lo..hi])
  {
    var t := pattern[lo..hi];
    forall i | 0 <= i < |t| ensures !OccursAt(t, "{{", i) {
      if i + 2 <= |t| {
        OccursIn(pattern, lo, t, "{{", i);
      }
    }
  }

  /** Cutting a text at a point and putting the halves back together. */
  lemma SliceSplit(s: string, a: nat, b: nat)
    requires a <= b <= |s|
    ensures s[a..] == s[a..b] + s[b..]
  {
  }

  /** Where a text is `x + y`, `x` and `y` are its slices at `|x|`. */
  lemma SliceOfConcat(s: string, a: nat, b: nat, x: string, y: string)
    requires a <= |s| && s[a..] == x + y && b == a + |x|
    ensures b <= |s|
    ensures s[a..b] == x && s[b..] == y
  {
    assert s[a..][..|x|] == x;
    assert s[a..][|x|..] == y;
  }

  lemma OpenAt(s: string, i: nat)
    requires i + 2 <= |s| && s[i] == '{' && s[i + 1] == '{'
    ensures OccursAt(s, "{{", i)
  {
    assert s[i..i + 2] == "{{";
  }

  /** A placeholder's text as it sits in the pattern. */
  lemma PlaceholderSlice(pattern: string, pos1: nat, pos2: nat)
    requires pos1 + 2 <= pos2 && pos2 + 2 <= |pattern|
    requires OccursAt(pattern, "{{", pos1) && OccursAt(pattern, "}}", pos2)
    ensures pattern[pos1..pos2 + 2] == Spelling(Placeholder(pattern[pos1 + 2..pos2]))
  {
    var n := pattern[pos1 + 2..pos2];
    assert pattern[pos1..pos2 + 2] == pattern[pos1..pos1 + 2] + n + pattern[pos2..pos2 + 2];
  }

  /** The converse: a placeholder's text in the pattern yields its braces and name. */
  lemma SliceOfPlaceholder(pattern: string, p1: nat, p2: nat, n: string)
    requires p2 == p1 + 2 + |n| && p2 + 2 <= |pattern|
    requires pattern[p1..p2 + 2] == Spelling(Placeholder(n))
    ensures OccursAt(pattern, "{{", p1)
    ensures pattern[p1 + 2..p2] == n
    ensures OccursAt(pattern, "}}", p2)
  {
    var w := pattern[p1..p2 + 2];
    assert w[0] == '{' && w[1] == '{';
    assert pattern[p1..p1 + 2] == "{{";
    forall k | 0 <= k < |n| ensures pattern[p1 + 2 + k] == n[k] {
      assert w[2 + k] == n[k];
    }
    assert w[|n| + 2] == '}' && w[|n| + 3] == '}';
    assert pattern[p2..p2 + 2] == "}}";
  }

  lemma SourceOfRound(t: string, n: string, rest: seq<Piece>)
    ensures Source([Literal(t), Placeholder(n)] + rest) == t + (Spelling(Placeholder(n)) + Source(rest))
  {
    var ps := [Literal(t), Placeholder(n)] + rest;
    assert ps[1..] == [Placeholder(n)] + rest;
    assert ps[1..][1..] == rest;
  }

  lemma SourceOfLast(t: string)
    ensures Source([Literal(t)]) == t
  {
    assert [Literal(t)][1..] == [];
  }

  lemma WellFormedRound(t: string, n: string, rest: seq<Piece>)
    requires NoOpen(t) && (|t| > 0 ==> t[|t| - 1] != '{') && IsIdentifier(n) && WellFormed(rest)
    ensures WellFormed([Literal(t), Placeholder(n)] + rest)
  {
    var ps := [Literal(t), Placeholder(n)] + rest;
    assert ps[2..] == rest;
  }

  /** The text before the first `{{` does not end with `{`. */
  lemma NoFinalOpen(pattern: string, pos: nat, pos1: int)
    requires pos <= |pattern| && pos1 == Find(pattern, "{{", pos) && pos1 >= 0
    ensures var t := pattern[pos..pos1]; |t| > 0 ==> t[|t| - 1] != '{'
  {
    var t := pattern[pos..pos1];
    FindSpec(pattern, "{{", pos);
    if |t| > 0 && t[|t| - 1] == '{' {
      assert pattern[pos1 - 1] == '{';
      assert pattern[pos1] == pattern[pos1..pos1 + 2][0];
      OpenAt(pattern, pos1 - 1);
    }
  }

  /** One round's text, placeholder and remainder spell the scanned text. */
  lemma RoundSpelling(pattern: string, pos: nat, pos1: nat, pos2: nat, tail: string)
    requires pos <= pos1 && pos1 + 2 <= pos2 && pos2 + 2 <= |pattern|
    requires OccursAt(pattern, "{{", pos1) && OccursAt(pattern, "}}", pos2)
    requires tail == pattern[pos2 + 2..]
    ensures pattern[pos..pos1] + (Spelling(Placeholder(pattern[pos1 + 2..pos2])) + tail) == pattern[pos..]
  {
    PlaceholderSlice(pattern, pos1, pos2);
    SliceSplit(pattern, pos, pos1);
    SliceSplit(pattern, pos1, pos2 + 2);
  }

  /** The last piece of an accepted scan: text without `{{`. */
  lemma SpellLast(pattern: string, pos: nat)
    requires pos <= |pattern| && Find(pattern, "{{", pos) < 0
    ensures WellFormed([Literal(pattern[pos..])]) && Source([Literal(pattern[pos..])]) == pattern[pos..]
  {
    FindSpec(pattern, "{{", pos);
    NoOpenSlice(pattern, pos, |pattern|);
    assert pattern[pos..|pattern|] == pattern[pos..];
    SourceOfLast(pattern[pos..]);
  }

  /** Where the first `{{` sits, and the text before it. */
  lemma FoundOpen(pattern: string, pos: nat, pos1: int)
    requires pos <= |pattern| && pos1 == Find(pattern, "{{", pos) && pos1 >= 0
    ensures pos <= pos1 && pos1 + 2 <= |pattern| && OccursAt(pattern, "{{", pos1)
    ensures NoOpen(pattern[pos..pos1])
    ensures var t := pattern[pos..pos1]; |t| > 0 ==> t[|t| - 1] != '{'
  {
    FindSpec(pattern, "{{", pos);
    NoOpenSlice(pattern, pos, pos1);
    NoFinalOpen(pattern, pos, pos1);
  }

  /** Where the first `{{` and the first `}}` after it sit, and the text before them. */
  lemma FoundRound(pattern: string, pos: nat, pos1: int, pos2: int)
    requires pos <= |pattern|
    requires pos1 == Find(pattern, "{{", pos) && pos1 >= 0
    requires pos2 == Find(pattern, "}}", pos1 + 2) && pos2 > pos1
    ensures pos <= pos1 && pos1 + 2 <= pos2 && pos2 + 2 <= |pattern|
    ensures OccursAt(pattern, "{{", pos1) && OccursAt(pattern, "}}", pos2)
    ensures NoOpen(pattern[pos..pos1])
    ensures var t := pattern[pos..pos1]; |t| > 0 ==> t[|t| - 1] != '{'
  {
    FoundOpen(pattern, pos, pos1);
    FindSpec(pattern, "}}", pos1 + 2);
  }

  /** A round of an accepted scan spells its part of the pattern. */
  lemma SpellRound(pattern: string, pos: nat, pos1: nat, pos2: nat, next: nat, rest: seq<Piece>)
    requires pos <= pos1 && pos1 + 2 <= pos2 && next == pos2 + 2 <= |pattern|
    requires OccursAt(pattern, "{{", pos1) && OccursAt(pattern, "}}", pos2)
    requires NoOpen(pattern[pos..pos1])
    requires var t := pattern[pos..pos1]; |t| > 0 ==> t[|t| - 1] != '{'
    requires IsIdentifier(pattern[pos1 + 2..pos2])
    requires WellFormed(rest) && Source(rest) == pattern[next..]
    ensures var ps := [Literal(pattern[pos..pos1]), Placeholder(pattern[pos1 + 2..pos2])] + rest;
      WellFormed(ps) && Source(ps) == pattern[pos..]
  {
    var t := pattern[pos..pos1];
    var name := pattern[pos1 + 2..pos2];
    WellFormedRound(t, name, rest);
    SourceOfRound(t, name, rest);
    RoundSpelling(pattern, pos, pos1, pos2, Source(rest));
  }

  /** A round of an accepted scan: a text, a placeholder whose name is an identifier, and an accepted rest. */
  lemma AcceptedRound(pattern: string, pos: nat, ps: seq<Piece>) returns (pos1: nat, pos2: nat, next: nat, rest: seq<Piece>)
    requires pos <= |pattern| && Pieces(pattern, pos) == Ok(ps) && Find(pattern, "{{", pos) >= 0
    ensures pos1 == Find(pattern, "{{", pos) && pos2 == Find(pattern, "}}", pos1 + 2) && pos2 > pos1
    ensures next == pos2 + 2 <= |pattern| && IsIdentifier(pattern[pos1 + 2..pos2])
    ensures Pieces(pattern, next) == Ok(rest)
    ensures ps == [Literal(pattern[pos..pos1]), Placeholder(pattern[pos1 + 2..pos2])] + rest
  {
    pos1 := Find(pattern, "{{", pos);
    pos2 := Find(pattern, "}}", pos1 + 2);
    PiecesFail(pattern, pos, pos1, pos2);
    next := pos2 + 2;
    PiecesStep(pattern, pos, pos1, pos2, next);
    rest := Pieces(pattern, next).value;
  }

  /**
   * One round of an accepted scan: the scan accepts the rest after the first
   * placeholder, and once that rest spells its text the whole spells `pattern[pos..]`.
   */
  lemma SpellStep(pattern: string, pos: nat, ps: seq<Piece>) returns (next: nat, rest: seq<Piece>)
    requires pos <= |pattern| && Pieces(pattern, pos) == Ok(ps) && Find(pattern, "{{", pos) >= 0
    ensures pos < next <= |pattern| && Pieces(pattern, next) == Ok(rest)
    ensures WellFormed(rest) && Source(rest) == pattern[next..] ==> WellFormed(ps) && Source(ps) == pattern[pos..]
  {
    var pos1, pos2;
    pos1, pos2, next, rest := AcceptedRound(pattern, pos, ps);
    FoundRound(pattern, pos, pos1, pos2);
    if WellFormed(rest) && Source(rest) == pattern[next..] {
      SpellRound(pattern, pos, pos1, pos2, next, rest);
    }
  }

  /**
   * Whatever the scan accepts is a well-formed piece list that spells the
   * scanned text back exactly: text between placeholders is kept verbatim and
   * in order, and each placeholder becomes exactly one group.
   */
  lemma {:induction false} PiecesSpellSource(pattern: string, pos: nat, ps: seq<Piece>)
    requires pos <= |pattern| && Pieces(pattern, pos) == Ok(ps)
    ensures WellFormed(ps) && Source(ps) == pattern[pos..]
    decreases |pattern| - pos
  {
    if Find(pattern, "{{", pos) < 0 {
      PiecesEnd(pattern, pos);
      SpellLast(pattern, pos);
    } else {
      var next, rest := SpellStep(pattern, pos, ps);
      PiecesSpellSource(pattern, next, rest);
    }
  }

  /** An identifier holds no brace, so it cannot start or end a brace pair. */
  lemma NoBraceInName(n: string)
    requires IsIdentifier(n)
    ensures forall i :: 0 <= i < |n| ==> n[i] != '{' && n[i] != '}'
  {
  }

  /** The first `{{` at or after `pos` when the text there is `t` with no `{{` and no final `{`, then `{{`. */
  lemma FindOpen(pattern: string, pos: nat, p1: nat, t: string)
    requires p1 == pos + |t| && p1 + 2 <= |pattern|
    requires pattern[pos..p1] == t && NoOpen(t) && (|t| > 0 ==> t[|t| - 1] != '{')
    requires OccursAt(pattern, "{{", p1)
    ensures Find(pattern, "{{", pos) == p1
  {
    forall i | pos <= i < p1 ensures !OccursAt(pattern, "{{", i) {
      NoOpenBefore(pattern, pos, p1, t, i);
    }
    FindSpec(pattern, "{{", pos);
  }

  /** No `{{` starts inside the text before the first one, nor at its last character. */
  lemma NoOpenBefore(pattern: string, pos: nat, p1: nat, t: string, i: nat)
    requires p1 == pos + |t| && p1 + 2 <= |pattern|
    requires pattern[pos..p1] == t && NoOpen(t) && (|t| > 0 ==> t[|t| - 1] != '{')
    requires pos <= i < p1
    ensures !OccursAt(pattern, "{{", i)
  {
    if i + 2 <= p1 {
      OccursIn(pattern, pos, t, "{{", i - pos);
    } else {
      assert pattern[i] == pattern[pos..p1][i - pos] == t[|t| - 1];
      assert pattern[i..i + 2][0] != "{{"[0];
    }
  }

  /** The first `}}` after the `{{` of a placeholder whose name is an identifier ends that placeholder. */
  lemma FindClose(pattern: string, p1: nat, p2: nat, n: string)
    requires p2 == p1 + 2 + |n| && p2 + 2 <= |pattern| && IsIdentifier(n)
    requires pattern[p1 + 2..p2] == n
    requires OccursAt(pattern, "}}", p2)
    ensures Find(pattern, "}}", p1 + 2) == p2
  {
    forall i | p1 + 2 <= i < p2 ensures !OccursAt(pattern, "}}", i) {
      NoCloseInName(pattern, p1, p2, n, i);
    }
    FindSpec(pattern, "}}", p1 + 2);
  }

  /** No `}}` starts at a character of an identifier name. */
  lemma NoCloseInName(pattern: string, p1: nat, p2: nat, n: string, i: nat)
    requires p2 == p1 + 2 + |n| && p2 + 2 <= |pattern| && IsIdentifier(n)
    requires pattern[p1 + 2..p2] == n
    requires p1 + 2 <= i < p2
    ensures !OccursAt(pattern, "}}", i)
  {
    NoBraceInName(n);
    assert pattern[i] == pattern[p1 + 2..p2][i - p1 - 2] == n[i - p1 - 2] != '}';
    assert pattern[i..i + 2][0] != "}}"[0];
  }

  /** No `{{` is found in a tail without one. */
  lemma FindNoOpen(pattern: string, pos: nat)
    requires pos <= |pattern| && NoOpen(pattern[pos..])
    ensures Find(pattern, "{{", pos) == -1
  {
    var t := pattern[pos..];
    assert pattern[pos..pos + |t|] == t;
    forall i | pos <= i ensures !OccursAt(pattern, "{{", i) {
      if i + 2 <= |pattern| {
        OccursIn(pattern, pos, t, "{{", i - pos);
      }
    }
    FindSpec(pattern, "{{", pos);
  }

  /** A round found where the text, braces and name sit in the pattern. */
  lemma ScanRound(pattern: string, pos: nat, p1: nat, p2: nat, next: nat, t: string, n: string, rest: seq<Piece>)
    requires pos <= p1 && p1 + 2 <= p2 && next == p2 + 2 <= |pattern|
    requires pattern[pos..p1] == t && pattern[p1 + 2..p2] == n && IsIdentifier(n)
    requires Find(pattern, "{{", pos) == p1 && Find(pattern, "}}", p1 + 2) == p2
    requires Pieces(pattern, next) == Ok(rest)
    ensures Pieces(pattern, pos) == Ok([Literal(t), Placeholder(n)] + rest)
  {
    PiecesStep(pattern, pos, p1, p2, next);
  }

  /** Where the text, the braces and the name of one round sit, and what the scan finds there. */
  lemma RoundSlices(pattern: string, pos: nat, p1: nat, p2: nat, next: nat, t: string, n: string, src: string)
    requires pos <= |pattern| && pattern[pos..] == t + (Spelling(Placeholder(n)) + src)
    requires p1 == pos + |t| && p2 == p1 + 2 + |n| && next == p2 + 2
    ensures next <= |pattern|
    ensures pattern[next..] == src
    ensures pattern[pos..p1] == t && pattern[p1 + 2..p2] == n
    ensures OccursAt(pattern, "{{", p1) && OccursAt(pattern, "}}", p2)
  {
    var sp := Spelling(Placeholder(n));
    assert |sp| == |n| + 4;
    SliceOfConcat(pattern, pos, p1, t, sp + src);
    SliceOfConcat(pattern, p1, next, sp, src);
    SliceOfPlaceholder(pattern, p1, p2, n);
  }

  lemma RoundPositions(pattern: string, pos: nat, p1: nat, p2: nat, next: nat, t: string, n: string, src: string)
    requires pos <= |pattern| && pattern[pos..] == t + (Spelling(Placeholder(n)) + src)
    requires NoOpen(t) && (|t| > 0 ==> t[|t| - 1] != '{') && IsIdentifier(n)
    requires p1 == pos + |t| && p2 == p1 + 2 + |n| && next == p2 + 2
    ensures next <= |pattern|
    ensures pattern[next..] == src
    ensures pattern[pos..p1] == t && pattern[p1 + 2..p2] == n
    ensures Find(pattern, "{{", pos) == p1
    ensures Find(pattern, "}}", p1 + 2) == p2
  {
    RoundSlices(pattern, pos, p1, p2, next, t, n, src);
    FindOpen(pattern, pos, p1, t);
    FindClose(pattern, p1, p2, n);
  }

  /** The end of the scan back: a last piece of text without `{{`. */
  lemma ScansBackLast(pattern: string, pos: nat, ps: seq<Piece>)
    requires pos <= |pattern| && WellFormed(ps) && |ps| == 1 && pattern[pos..] == Source(ps)
    ensures Pieces(pattern, pos) == Ok(ps)
  {
    var t := ps[0].text;
    SourceOfLast(t);
    assert ps == [Literal(t)];
    FindNoOpen(pattern, pos);
    PiecesEnd(pattern, pos);
  }

  /**
   * One round of the scan back: the text of the pieces after the first
   * placeholder follows that placeholder, and once the scan reads those
   * pieces from there it reads all of them from `pos`.
   */
  lemma ScansBackStep(pattern: string, pos: nat, ps: seq<Piece>) returns (next: nat, rest: seq<Piece>)
    requires pos <= |pattern| && WellFormed(ps) && |ps| != 1 && pattern[pos..] == Source(ps)
    ensures next <= |pattern| && |rest| < |ps| && WellFormed(rest) && pattern[next..] == Source(rest)
    ensures Pieces(pattern, next) == Ok(rest) ==> Pieces(pattern, pos) == Ok(ps)
  {
    FirstRound(ps);
    var t := ps[0].text;
    var n := ps[1].name;
    rest := ps[2..];
    SourceOfRound(t, n, rest);
    next := RoundScansBack(pattern, pos, t, n, rest);
  }

  /** A well-formed list of more than one piece starts with a text and a placeholder. */
  lemma FirstRound(ps: seq<Piece>)
    requires WellFormed(ps) && |ps| != 1
    ensures |ps| >= 3 && ps[0].Literal? && ps[1].Placeholder?
    ensures ps == [Literal(ps[0].text), Placeholder(ps[1].name)] + ps[2..]
    ensures NoOpen(ps[0].text) && (|ps[0].text| > 0 ==> ps[0].text[|ps[0].text| - 1] != '{')
    ensures IsIdentifier(ps[1].name) && WellFormed(ps[2..])
  {
  }

  /** The scan reads one round of text, braces and name, then goes on after the `}}`. */
  lemma RoundScansBack(pattern: string, pos: nat, t: string, n: string, rest: seq<Piece>) returns (next: nat)
    requires pos <= |pattern| && pattern[pos..] == t + (Spelling(Placeholder(n)) + Source(rest))
    requires NoOpen(t) && (|t| > 0 ==> t[|t| - 1] != '{') && IsIdentifier(n)
    ensures next == pos + |t| + |n| + 4 <= |pattern| && pattern[next..] == Source(rest)
    ensures Pieces(pattern, next) == Ok(rest) ==> Pieces(pattern, pos) == Ok([Literal(t), Placeholder(n)] + rest)
  {
    var p1 := pos + |t|;
    var p2 := p1 + 2 + |n|;
    next := p2 + 2;
    RoundPositions(pattern, pos, p1, p2, next, t, n, Source(rest));
    if Pieces(pattern, next) == Ok(rest) {
      ScanRound(pattern, pos, p1, p2, next, t, n, rest);
    }
  }

  /**
   * Conversely, the text of every well-formed piece list is scanned back into
   * exactly those pieces, so the placeholders of a pattern and the groups of
   * its regular expression correspond one to one, in order.
   */
  lemma {:induction false} SourceScansBack(pattern: string, pos: nat, ps: seq<Piece>)
    requires pos <= |pattern| && WellFormed(ps) && pattern[pos..] == Source(ps)
    ensures Pieces(pattern, pos) == Ok(ps)
    decreases |ps|
  {
    if |ps| == 1 {
      ScansBackLast(pattern, pos, ps);
    } else {
      var next, rest := ScansBackStep(pattern, pos, ps);
      SourceScansBack(pattern, next, rest);
    }
  }

  /**
   * The patterns `url_pattern` accepts are exactly the spellings of
   * well-formed piece lists, and the scan recovers the pieces.
   */
  lemma AcceptedPatterns(pattern: string, ps: seq<Piece>)
    ensures Pieces(pattern, 0) == Ok(ps) <==> WellFormed(ps) && Source(ps) == pattern
  {
    assert pattern[0..] == pattern;
    if Pieces(pattern, 0) == Ok(ps) {
      PiecesSpellSource(pattern, 0, ps);
    }
    if WellFormed(ps) && Source(ps) == pattern {
      SourceScansBack(pattern, 0, ps);
    }
  }
}
