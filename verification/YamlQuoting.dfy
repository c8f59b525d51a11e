/**
 * Quoting strings for a generated YAML document (parsl_ephemeral_provider/globus_compute.py),
 * against a reader of double-quoted scalars (sections 5.7, 6.5 and 7.3.1 of YAML 1.2.2).
 */
module YamlQuoting {
  import opened Collections

  // ---------------------------------------------------------------- the writer

  /** Python's `str.replace` for a single character. */
  function Replace(s: string, c: char, put: string): string {
    if s == "" then ""
    else (if s[0] == c then put else [s[0]]) + Replace(s[1..], c, put)
  }

  function Escaped(value: string): string {
    Replace(Replace(Replace(Replace(value, '\\', "\\\\"), '"', "\\\""), '\n', "\\n"), '\t', "\\t")
  }

  function Quoted(body: string): string {
    "\"" + body + "\""
  }

  predicate NeedsEscaping(value: string) {
    '\n' in value || '\t' in value
  }

  predicate Contains(value: string, c: char, d: char) {
    exists i :: 0 < i < |value| && value[i - 1] == c && value[i] == d
  }

  predicate NeedsQuoting(value: string) {
    || Contains(value, ':', ' ')
    || (value != "" && value[|value| - 1] == ':')
    || (value != "" && value[0] in "#&*!|>'\"")
    || (exists i :: 0 <= i < |value| && value[i] in "{}[],")
  }

  function YamlStr(value: string): string {
    if NeedsEscaping(value) then Quoted(Escaped(value))
    else if NeedsQuoting(value) then Quoted(value)
    else value
  }

  // ---------------------------------------------------------------- the reader

  /** A piece of the body: a character as written, an escape, a line break or an escaped one. */
  datatype Piece = Plain(c: char) | Escape(c: char) | Break | Join

  /** What `nb-json` allows: a tab, or anything from a space on. */
  predicate NbJson(c: char) {
    c == '\t' || c >= ' '
  }

  predicate White(c: char) {
    c == ' ' || c == '\t'
  }

  function HexDigit(c: char): Option<nat> {
    if '0' <= c <= '9' then Some(c as nat - '0' as nat)
    else if 'a' <= c <= 'f' then Some(c as nat - 'a' as nat + 10)
    else if 'A' <= c <= 'F' then Some(c as nat - 'A' as nat + 10)
    else None
  }

  function Hex(s: string): Option<nat> {
    if s == "" then Some(0)
    else
      var rest, last := Hex(s[..|s| - 1]), HexDigit(s[|s| - 1]);
      if rest.Some? && last.Some? then Some(16 * rest.value + last.value) else None
  }

  /** A code point as a character, if it is one. */
  function CharOf(code: Option<nat>): Option<char> {
    if code.Some? && (code.value < 0xD800 || 0xE000 <= code.value < 0x11_0000) then Some(code.value as char) else None
  }

  function HexLength(c: char): nat {
    if c == 'x' then 2 else if c == 'u' then 4 else if c == 'U' then 8 else 0
  }

  /** The escapes of one character after the backslash. */
  function ShortEscape(c: char): Option<char> {
    match c
    case '0' => Some(0 as char)
    case 'a' => Some(7 as char)
    case 'b' => Some(8 as char)
    case 't' => Some('\t')
    case '\t' => Some('\t')
    case 'n' => Some('\n')
    case 'v' => Some(11 as char)
    case 'f' => Some(12 as char)
    case 'r' => Some('\r')
    case 'e' => Some(27 as char)
    case ' ' => Some(' ')
    case '"' => Some('"')
    case '/' => Some('/')
    case '\\' => Some('\\')
    case 'N' => Some(0x85 as char)
    case '_' => Some(0xA0 as char)
    case 'L' => Some(0x2028 as char)
    case 'P' => Some(0x2029 as char)
    case _ => None
  }

  /** How many characters a line break at the front of `s` takes; 0 when there is none. */
  function BreakLength(s: string): (n: nat)
    ensures n <= |s|
  {
    if s == "" then 0
    else if s[0] == '\n' then 1
    else if s[0] == '\r' then (if |s| > 1 && s[1] == '\n' then 2 else 1)
    else 0
  }

  /** The first piece of `s` and the number of characters it takes. */
  function FirstPiece(s: string): (r: Option<(Piece, nat)>)
    requires s != ""
    ensures r.Some? ==> 0 < r.value.1 <= |s|
  {
    if s[0] == '"' then None
    else if BreakLength(s) > 0 then Some((Break, BreakLength(s)))
    else if s[0] != '\\' then (if NbJson(s[0]) then Some((Plain(s[0]), 1)) else None)
    else if |s| == 1 then None
    else if BreakLength(s[1..]) > 0 then Some((Join, 1 + BreakLength(s[1..])))
    else if ShortEscape(s[1]).Some? then Some((Escape(ShortEscape(s[1]).value), 2))
    else
      var n := HexLength(s[1]);
      if n == 0 || |s| < 2 + n || CharOf(Hex(s[2..2 + n])).None? then None
      else Some((Escape(CharOf(Hex(s[2..2 + n])).value), 2 + n))
  }

  function Pieces(s: string): Option<seq<Piece>>
    decreases |s|
  {
    if s == "" then Some([])
    else
      var first := FirstPiece(s);
      if first.None? then None
      else
        var rest := Pieces(s[first.value.1..]);
        if rest.None? then None else Some([first.value.0] + rest.value)
  }

  function Newlines(n: nat): (r: string)
    ensures |r| == n && forall i :: 0 <= i < n ==> r[i] == '\n'
  {
    if n == 0 then "" else Newlines(n - 1) + "\n"
  }

  /** What a run of line breaks folds into; an escaped one leaves no space behind. */
  function Folded(breaks: nat, joined: bool): string
    requires breaks > 0
  {
    if breaks > 1 then Newlines(breaks - 1) else if joined then "" else " "
  }

  /**
   * Line folding. `white` is the white space not yet known to be inside a line, `breaks` counts the
   * line breaks just passed; white space around a break is dropped.
   */
  function Fold(pieces: seq<Piece>, white: string, breaks: nat, joined: bool): string {
    var before := if breaks > 0 then Folded(breaks, joined) else white;
    if pieces == [] then before
    else
      match pieces[0]
      case Plain(c) =>
        if !White(c) then before + [c] + Fold(pieces[1..], "", 0, false)
        else if breaks > 0 then Fold(pieces[1..], "", breaks, joined)
        else Fold(pieces[1..], white + [c], 0, false)
      case Escape(c) => before + [c] + Fold(pieces[1..], "", 0, false)
      case Break => Fold(pieces[1..], "", breaks + 1, joined)
      case Join => before + Fold(pieces[1..], "", 1, true)
  }

  function ReadBody(body: string): Option<string> {
    var pieces := Pieces(body);
    if pieces.Some? then Some(Fold(pieces.value, "", 0, false)) else None
  }

  /** A double-quoted scalar; an unescaped quote inside the body is no scalar at all. */
  function Read(text: string): Option<string> {
    if |text| >= 2 && text[0] == '"' && text[|text| - 1] == '"' then ReadBody(text[1..|text| - 1]) else None
  }

  // ---------------------------------------------------------------- one escape per character

  function EscapedChar(c: char): string {
    match c
    case '\\' => "\\\\"
    case '"' => "\\\""
    case '\n' => "\\n"
    case '\t' => "\\t"
    case _ => [c]
  }

  function PerChar(s: string): string {
    if s == "" then "" else EscapedChar(s[0]) + PerChar(s[1..])
  }

  lemma {:induction false} ReplaceConcat(a: string, b: string, c: char, put: string)
    ensures Replace(a + b, c, put) == Replace(a, c, put) + Replace(b, c, put)
  {
    if a == "" {
      assert a + b == b;
    } else {
      ReplaceConcat(a[1..], b, c, put);
      assert (a + b)[1..] == a[1..] + b;
      Associates(if a[0] == c then put else [a[0]], Replace(a[1..], c, put), Replace(b, c, put));
    }
  }

  lemma EscapedConcat(a: string, b: string)
    ensures Escaped(a + b) == Escaped(a) + Escaped(b)
  {
    ReplaceConcat(a, b, '\\', "\\\\");
    var a1, b1 := Replace(a, '\\', "\\\\"), Replace(b, '\\', "\\\\");
    ReplaceConcat(a1, b1, '"', "\\\"");
    var a2, b2 := Replace(a1, '"', "\\\""), Replace(b1, '"', "\\\"");
    ReplaceConcat(a2, b2, '\n', "\\n");
    ReplaceConcat(Replace(a2, '\n', "\\n"), Replace(b2, '\n', "\\n"), '\t', "\\t");
  }

  lemma ReplaceOne(d: char, c: char, put: string)
    ensures Replace([d], c, put) == if d == c then put else [d]
  {
    assert Replace([d], c, put) == (if d == c then put else [d]) + Replace("", c, put);
  }

  lemma ReplaceTwo(d: char, e: char, c: char, put: string)
    ensures Replace([d, e], c, put) == (if d == c then put else [d]) + (if e == c then put else [e])
  {
    ReplaceConcat([d], [e], c, put);
    ReplaceOne(d, c, put);
    ReplaceOne(e, c, put);
    assert [d] + [e] == [d, e];
  }

  lemma EscapedOne(c: char)
    ensures Escaped([c]) == EscapedChar(c)
  {
    ReplaceOne(c, '\\', "\\\\");
    if c == '\\' {
      ReplaceTwo('\\', '\\', '"', "\\\"");
      ReplaceTwo('\\', '\\', '\n', "\\n");
      ReplaceTwo('\\', '\\', '\t', "\\t");
    } else {
      ReplaceOne(c, '"', "\\\"");
      if c == '"' {
        ReplaceTwo('\\', '"', '\n', "\\n");
        ReplaceTwo('\\', '"', '\t', "\\t");
      } else {
        ReplaceOne(c, '\n', "\\n");
        if c == '\n' {
          ReplaceTwo('\\', 'n', '\t', "\\t");
        } else {
          ReplaceOne(c, '\t', "\\t");
        }
      }
    }
  }

  /** The four replacements in a row are one escape per character: no pass undoes another. */
  lemma {:induction false} ReplacementsArePerChar(value: string)
    ensures Escaped(value) == PerChar(value)
  {
    if value != "" {
      ReplacementsArePerChar(value[1..]);
      EscapedConcat([value[0]], value[1..]);
      EscapedOne(value[0]);
      assert [value[0]] + value[1..] == value;
    }
  }

  // ---------------------------------------------------------------- reading back what was written

  /** The writer hands a raw character over as it is, so the reader must allow it. */
  predicate Writable(c: char) {
    NbJson(c) || c == '\n'
  }

  predicate AllWritable(s: string) {
    forall i :: 0 <= i < |s| ==> Writable(s[i])
  }

  function PieceOf(c: char): Piece {
    if c == '\\' || c == '"' || c == '\n' || c == '\t' then Escape(c) else Plain(c)
  }

  function PiecesOf(s: string): (r: seq<Piece>)
    ensures |r| == |s|
  {
    if s == "" then [] else [PieceOf(s[0])] + PiecesOf(s[1..])
  }

  lemma FirstOfEscaped(c: char, rest: string)
    requires Writable(c)
    ensures FirstPiece(EscapedChar(c) + rest) == Some((PieceOf(c), |EscapedChar(c)|))
  {
    var s := EscapedChar(c) + rest;
    assert s[0] == EscapedChar(c)[0];
    if |EscapedChar(c)| == 2 {
      assert s[1] == EscapedChar(c)[1] && s[1..][0] == s[1];
    }
  }

  lemma {:induction false} PiecesOfPerChar(s: string)
    requires AllWritable(s)
    ensures Pieces(PerChar(s)) == Some(PiecesOf(s))
  {
    if s != "" {
      assert Writable(s[0]);
      PiecesOfPerChar(s[1..]);
      FirstOfEscaped(s[0], PerChar(s[1..]));
      assert (EscapedChar(s[0]) + PerChar(s[1..]))[|EscapedChar(s[0])|..] == PerChar(s[1..]);
    }
  }

  lemma {:induction false} FoldPiecesOf(s: string, white: string)
    ensures Fold(PiecesOf(s), white, 0, false) == white + s
  {
    if s != "" {
      var c, rest := s[0], s[1..];
      assert PiecesOf(s)[0] == PieceOf(c) && PiecesOf(s)[1..] == PiecesOf(rest);
      Associates(white, [c], rest);
      assert [c] + rest == s;
      if c == ' ' {
        FoldPiecesOf(rest, white + [c]);
      } else {
        FoldPiecesOf(rest, "");
        assert "" + rest == rest;
      }
    }
  }

  /** Characters that reach the result without having been folded. */
  predicate NoReturns(pieces: seq<Piece>) {
    forall i :: 0 <= i < |pieces| ==> (pieces[i].Plain? || pieces[i].Escape?) ==> pieces[i].c != '\r'
  }

  lemma {:induction false} FoldNeverReturns(pieces: seq<Piece>, white: string, breaks: nat, joined: bool)
    requires NoReturns(pieces) && '\r' !in white
    ensures '\r' !in Fold(pieces, white, breaks, joined)
  {
    if pieces != [] {
      var rest := pieces[1..];
      match pieces[0]
      case Plain(c) =>
        assert pieces[0].c != '\r';
        if !White(c) {
          FoldNeverReturns(rest, "", 0, false);
        } else if breaks > 0 {
          FoldNeverReturns(rest, "", breaks, joined);
        } else {
          FoldNeverReturns(rest, white + [c], 0, false);
        }
      case Escape(c) =>
        assert pieces[0].c != '\r';
        FoldNeverReturns(rest, "", 0, false);
      case Break => FoldNeverReturns(rest, "", breaks + 1, joined);
      case Join => FoldNeverReturns(rest, "", 1, true);
    }
  }

  lemma PerCharStart(s: string)
    ensures PerChar(s) == "" || PerChar(s)[0] != '\n'
  {
    if s != "" {
      assert PerChar(s)[0] == EscapedChar(s[0])[0];
    }
  }

  lemma FirstOfReturn(rest: string)
    requires rest == "" || rest[0] != '\n'
    ensures FirstPiece("\r" + rest) == Some((Break, 1))
  {
  }

  /** What is not writable reads as a line break or not at all. */
  lemma {:induction false} PerCharNeverReturns(s: string)
    ensures Pieces(PerChar(s)).Some? ==> NoReturns(Pieces(PerChar(s)).value)
    ensures Pieces(PerChar(s)).Some? ==> forall i :: 0 <= i < |s| ==> Writable(s[i]) || s[i] == '\r'
  {
    if s != "" {
      PerCharNeverReturns(s[1..]);
      var c, tail := s[0], PerChar(s[1..]);
      assert (EscapedChar(c) + tail)[|EscapedChar(c)|..] == tail;
      if Writable(c) {
        FirstOfEscaped(c, tail);
      } else if c == '\r' {
        PerCharStart(s[1..]);
        FirstOfReturn(tail);
      } else {
        assert FirstPiece([c] + tail).None?;
      }
    }
  }

  lemma ReadQuoted(body: string)
    ensures Read(Quoted(body)) == ReadBody(body)
  {
    assert Quoted(body)[1..|Quoted(body)| - 1] == body;
  }

  /**
   * The escape branch: what is written is one line, and reading it back returns the string exactly
   * when every character of it may stand raw in a double-quoted scalar or is a newline.
   */
  lemma EscapesRoundTripIff(value: string)
    requires NeedsEscaping(value)
    ensures Read(YamlStr(value)) == Some(value) <==> AllWritable(value)
  {
    ReplacementsArePerChar(value);
    ReadQuoted(PerChar(value));
    if AllWritable(value) {
      PiecesOfPerChar(value);
      FoldPiecesOf(value, "");
      assert "" + value == value;
    } else if Read(YamlStr(value)) == Some(value) {
      PerCharNeverReturns(value);
      FoldNeverReturns(Pieces(PerChar(value)).value, "", 0, false);
      assert false;
    }
  }

  lemma {:induction false} WrittenOnOneLine(value: string)
    ensures '\n' !in PerChar(value) && '\t' !in PerChar(value)
  {
    if value != "" {
      WrittenOnOneLine(value[1..]);
    }
  }

  // ---------------------------------------------------------------- the branch that only quotes

  lemma {:induction false} PiecesAreFewer(s: string)
    ensures Pieces(s).Some? ==> |Pieces(s).value| <= |s|
    ensures Pieces(s).Some? && '\\' in s ==> |Pieces(s).value| < |s|
    decreases |s|
  {
    if s != "" {
      var first := FirstPiece(s);
      if first.Some? {
        PiecesAreFewer(s[first.value.1..]);
        if first.value.1 == 1 {
          assert s[0] != '\\';
        }
      }
    }
  }

  lemma {:induction false} FoldIsShort(pieces: seq<Piece>, white: string, breaks: nat, joined: bool)
    ensures |Fold(pieces, white, breaks, joined)| <= |white| + breaks + |pieces|
  {
    if pieces != [] {
      var rest := pieces[1..];
      match pieces[0]
      case Plain(c) =>
        if !White(c) {
          FoldIsShort(rest, "", 0, false);
        } else if breaks > 0 {
          FoldIsShort(rest, "", breaks, joined);
        } else {
          FoldIsShort(rest, white + [c], 0, false);
        }
      case Escape(_) => FoldIsShort(rest, "", 0, false);
      case Break => FoldIsShort(rest, "", breaks + 1, joined);
      case Join => FoldIsShort(rest, "", 1, true);
    }
  }

  lemma {:induction false} BareNeverReturns(s: string)
    requires '\\' !in s
    ensures Pieces(s).Some? ==> NoReturns(Pieces(s).value) && '"' !in s
    ensures Pieces(s).Some? ==> forall i :: 0 <= i < |s| ==> Writable(s[i]) || s[i] == '\r'
    decreases |s|
  {
    if s != "" && FirstPiece(s).Some? {
      var n := FirstPiece(s).value.1;
      assert s == s[..n] + s[n..];
      BareNeverReturns(s[n..]);
    }
  }

  lemma {:induction false} PerCharOfBare(s: string)
    requires forall i :: 0 <= i < |s| ==> s[i] !in "\\\"\n\t"
    ensures PerChar(s) == s
  {
    if s != "" {
      PerCharOfBare(s[1..]);
    }
  }

  /**
   * The branch that quotes without escaping: reading back returns the string exactly when it holds
   * no quote, no backslash and no character below U+0020. A string such as `say: "hi"` is lost.
   */
  lemma QuotesRoundTripIff(value: string)
    requires !NeedsEscaping(value) && NeedsQuoting(value)
    ensures Read(YamlStr(value)) == Some(value) <==> '"' !in value && '\\' !in value && AllWritable(value)
  {
    ReadQuoted(value);
    if '"' !in value && '\\' !in value && AllWritable(value) {
      PerCharOfBare(value);
      PiecesOfPerChar(value);
      FoldPiecesOf(value, "");
      assert "" + value == value;
    } else if Read(YamlStr(value)) == Some(value) {
      var pieces := Pieces(value).value;
      PiecesAreFewer(value);
      FoldIsShort(pieces, "", 0, false);
      BareNeverReturns(value);
      FoldNeverReturns(pieces, "", 0, false);
      assert false;
    }
  }

  // ---------------------------------------------------------------- what is written bare

  /** `c-printable` without line breaks, white space and the byte order mark (rules [1] to [34]). */
  predicate NsChar(c: char) {
    var n := c as int;
    || 0x21 <= n <= 0x7E || n == 0x85 || 0xA0 <= n <= 0xD7FF
    || (0xE000 <= n <= 0xFFFD && n != 0xFEFF) || 0x1_0000 <= n
  }

  predicate FlowIndicator(c: char) {
    c in ",[]{}"
  }

  /** `ns-plain-safe` inside a flow collection, where the writer's lists and mappings put their items. */
  predicate PlainSafe(c: char) {
    NsChar(c) && !FlowIndicator(c)
  }

  /** `ns-plain-first`: no indicator, or one of three that something follows at once. */
  predicate PlainFirst(s: string)
    requires s != ""
  {
    && NsChar(s[0])
    && (s[0] in "-?:,[]{}#&*!|>'\"%@`" ==> s[0] in "?:-" && |s| > 1 && PlainSafe(s[1]))
  }

  /** `ns-plain-char` at position `i`. */
  predicate PlainChar(s: string, i: nat)
    requires 0 < i < |s|
  {
    && PlainSafe(s[i])
    && (s[i] == ':' ==> i + 1 < |s| && PlainSafe(s[i + 1]))
    && (s[i] == '#' ==> NsChar(s[i - 1]))
  }

  /** `ns-plain-one-line` in a flow collection (section 7.3.3 of YAML 1.2.2). */
  predicate PlainScalar(s: string) {
    && s != "" && PlainFirst(s) && !White(s[|s| - 1])
    && (forall i :: 0 < i < |s| ==> White(s[i]) || PlainChar(s, i))
  }

  /**
   * What the writer leaves unchecked: an empty string, a space at either end, a first character that
   * only YAML reserves, a dash or question mark with a space behind it, a hash behind a space, and
   * characters YAML does not print.
   */
  predicate BareSafe(value: string) {
    && value != "" && value[0] != ' ' && value[|value| - 1] != ' '
    && value[0] !in "%@`"
    && (value[0] in "-?" ==> |value| > 1 && value[1] != ' ')
    && !Contains(value, ' ', '#')
    && (forall i :: 0 <= i < |value| ==> value[i] == ' ' || NsChar(value[i]))
  }

  lemma EscapedOnOneLine(value: string)
    ensures '\n' !in Quoted(Escaped(value)) && '\t' !in Quoted(Escaped(value))
  {
    ReplacementsArePerChar(value);
    WrittenOnOneLine(value);
    assert forall c :: c in Quoted(PerChar(value)) ==> c == '"' || c in PerChar(value);
  }

  lemma QuotedIsLonger(value: string)
    ensures Quoted(value) != value
  {
    assert |Quoted(value)| == |value| + 2;
  }

  lemma BareIsUnquoted(value: string)
    requires YamlStr(value) == value
    ensures !NeedsEscaping(value) && !NeedsQuoting(value)
  {
    EscapedOnOneLine(value);
    QuotedIsLonger(value);
  }

  lemma BareFirst(value: string)
    requires value != "" && !NeedsEscaping(value) && !NeedsQuoting(value)
    requires forall i :: 0 <= i < |value| ==> value[i] == ' ' || NsChar(value[i])
    ensures PlainFirst(value) <==>
              value[0] != ' ' && value[0] !in "%@`" && (value[0] in "-?" ==> |value| > 1 && value[1] != ' ')
  {
    assert value[0] == ':' ==> |value| > 1 && value[1] != ' ' by {
      assert Contains(value, ':', ' ') || |value| == 1 || value[1] != ' ' || value[0] != ':';
    }
    assert forall i :: 0 <= i < |value| ==> value[i] !in "{}[],";
  }

  lemma BareInside(value: string, i: nat)
    requires 0 < i < |value| && !NeedsEscaping(value) && !NeedsQuoting(value)
    requires forall k :: 0 <= k < |value| ==> value[k] == ' ' || NsChar(value[k])
    ensures White(value[i]) || PlainChar(value, i) <==> !(value[i - 1] == ' ' && value[i] == '#')
  {
    assert value[i] !in "{}[]," && value[i] != '\t';
    if value[i] == ':' {
      assert i + 1 < |value|;
      assert value[i + 1] != ' ' && value[i + 1] !in "{}[],";
    }
  }

  /**
   * A string written bare is a plain scalar exactly when it avoids what the writer leaves unchecked.
   * In particular a colon with a space behind it, a colon at the end and everything that starts or
   * ends a quotation, a collection, an alias, a tag, a comment or a block never go out bare.
   */
  lemma BareIsPlainIff(value: string)
    requires YamlStr(value) == value
    ensures PlainScalar(value) <==> BareSafe(value)
  {
    BareIsUnquoted(value);
    if value != "" && forall i :: 0 <= i < |value| ==> value[i] == ' ' || NsChar(value[i]) {
      BareFirst(value);
      forall i: nat | 0 < i < |value|
        ensures White(value[i]) || PlainChar(value, i) <==> !(value[i - 1] == ' ' && value[i] == '#')
      {
        BareInside(value, i);
      }
    } else if value != "" && PlainScalar(value) {
      forall i | 0 <= i < |value|
        ensures value[i] == ' ' || NsChar(value[i])
      {
        assert i > 0 ==> White(value[i]) || PlainChar(value, i);
      }
      assert false;
    }
  }
}
