/** Finding the JSON object in a model's reply (faya_result_compat.go). Texts are
    byte strings: a char stands for one byte of UTF-8. */
module Scanner {
  import opened Wrappers
  import opened Sanitizer

  // ---------- the scanner ----------

  datatype State = State(depth: int, inString: bool, escaped: bool)

  datatype Progress = Going(state: State) | Closed | Broken

  /** One byte of fayaBalancedJSONObjectAt. */
  function Step(s: State, c: char): Progress {
    if s.inString then
      Going(if s.escaped then s.(escaped := false)
            else if c == '\\' then s.(escaped := true)
            else if c == '"' then s.(inString := false)
            else s)
    else if c == '"' then Going(s.(inString := true))
    else if c == '{' then Going(s.(depth := s.depth + 1))
    else if c == '}' then (if s.depth == 1 then Closed else if s.depth < 1 then Broken else Going(s.(depth := s.depth - 1)))
    else Going(s)
  }

  /** How many bytes until the object closes. */
  function ObjectLength(t: string, s: State): (n: Option<nat>)
    ensures n.Some? ==> 1 <= n.value <= |t|
  {
    if t == "" then None
    else match Step(s, t[0])
      case Closed => Some(1)
      case Broken => None
      case Going(s') =>
        var rest := ObjectLength(t[1..], s');
        if rest.Some? then Some(rest.value + 1) else None
  }

  const OUTSIDE := State(0, false, false)

  function BalancedObject(raw: string, start: nat): Option<string>
    requires start <= |raw|
  {
    var n := ObjectLength(raw[start..], OUTSIDE);
    if n.Some? then Some(raw[start..start + n.value]) else None
  }

  method BalancedJSONObjectAt(raw: string, start: nat) returns (found: Option<string>)
    requires start <= |raw|
    ensures found == BalancedObject(raw, start)
  {
    var depth, inString, escaped := 0, false, false;
    var index := start;
    while index < |raw|
      invariant start <= index <= |raw|
      invariant ObjectLength(raw[start..], OUTSIDE) ==
                var n := ObjectLength(raw[index..], State(depth, inString, escaped));
                if n.Some? then Some(index - start + n.value) else None
    {
      var byte := raw[index];
      assert raw[index..][1..] == raw[index + 1..];
      index := index + 1;
      if inString {
        if escaped {
          escaped := false;
        } else if byte == '\\' {
          escaped := true;
        } else if byte == '"' {
          inString := false;
        }
      } else if byte == '"' {
        inString := true;
      } else if byte == '{' {
        depth := depth + 1;
      } else if byte == '}' {
        depth := depth - 1;
        if depth == 0 {
          return Some(raw[start..index]);
        }
        if depth < 0 {
          return None;
        }
      }
    }
    found := None;
  }

  // ---------- what JSON texts look like (RFC 8259) ----------

  /** One byte of a string, section 7: as it is, a short escape, or a code unit. */
  datatype Piece = Plain(c: char) | Short(c: char) | Unicode(hex: string)

  /** A text together with its layout: every token brings the blanks that follow it. */
  datatype Json =
    | Literal(text: string)                     // a number, true, false or null
    | Quoted(pieces: seq<Piece>)
    | Array(blank: string, items: seq<Item>)
    | Object(blank: string, members: seq<Member>)

  datatype Item = Item(value: Json, blank: string, afterComma: string)

  datatype Member = Member(name: seq<Piece>, afterName: string, afterColon: string, value: Json, blank: string, afterComma: string)

  predicate Hex(c: char) {
    '0' <= c <= '9' || 'a' <= c <= 'f' || 'A' <= c <= 'F'
  }

  predicate LegalPiece(p: Piece) {
    match p
    case Plain(c) => c as int >= 0x20 && c != '"' && c != '\\'
    case Short(c) => c in "\"\\/bfnrt"
    case Unicode(hex) => |hex| == 4 && forall i :: 0 <= i < 4 ==> Hex(hex[i])
  }

  predicate LegalPieces(ps: seq<Piece>) {
    forall i :: 0 <= i < |ps| ==> LegalPiece(ps[i])
  }

  /** Literals hold neither quotes nor braces. */
  predicate LegalLiteral(t: string) {
    forall i :: 0 <= i < |t| ==> t[i] != '"' && t[i] != '{' && t[i] != '}'
  }

  predicate Legal(v: Json) {
    match v
    case Literal(t) => LegalLiteral(t)
    case Quoted(ps) => LegalPieces(ps)
    case Array(blank, items) => Blank(blank) && forall i :: 0 <= i < |items| ==> LegalItem(items[i])
    case Object(blank, members) => Blank(blank) && forall i :: 0 <= i < |members| ==> LegalMember(members[i])
  }

  predicate LegalItem(item: Item) {
    Legal(item.value) && Blank(item.blank) && Blank(item.afterComma)
  }

  predicate LegalMember(m: Member) {
    LegalPieces(m.name) && Blank(m.afterName) && Blank(m.afterColon) && Legal(m.value) && Blank(m.blank) && Blank(m.afterComma)
  }

  predicate Blank(t: string) {
    forall i :: 0 <= i < |t| ==> Space(t[i])
  }

  function PrintPiece(p: Piece): string {
    match p
    case Plain(c) => [c]
    case Short(c) => ['\\', c]
    case Unicode(hex) => "\\u" + hex
  }

  function PrintPieces(ps: seq<Piece>): string {
    if ps == [] then "" else PrintPiece(ps[0]) + PrintPieces(ps[1..])
  }

  function PrintString(ps: seq<Piece>): string {
    "\"" + PrintPieces(ps) + "\""
  }

  function Print(v: Json): string
    decreases v, 0
  {
    match v
    case Literal(t) => t
    case Quoted(ps) => PrintString(ps)
    case Array(blank, items) => "[" + (blank + PrintItems(items)) + "]"
    case Object(blank, members) => "{" + (blank + PrintMembers(members)) + "}"
  }

  function PrintItems(items: seq<Item>): string
    decreases items, 1
  {
    if items == [] then ""
    else Print(items[0].value) + items[0].blank + (if |items| > 1 then "," + items[0].afterComma else "") + PrintItems(items[1..])
  }

  function PrintMembers(members: seq<Member>): string
    decreases members, 1
  {
    if members == [] then ""
    else PrintMember(members[0]) + (if |members| > 1 then "," + members[0].afterComma else "") + PrintMembers(members[1..])
  }

  function PrintMember(m: Member): string
    decreases m, 0
  {
    PrintString(m.name) + m.afterName + ":" + m.afterColon + Print(m.value) + m.blank
  }

  // ---------- the scanner passes over them ----------

  /** The state after all of t, if the object does not end inside it. */
  function Pass(t: string, s: State): Option<State> {
    if t == "" then Some(s)
    else
      var p := Step(s, t[0]);
      if p.Going? then Pass(t[1..], p.state) else None
  }

  lemma {:induction false} PassThenScan(t: string, u: string, s: State)
    requires Pass(t, s).Some?
    ensures ObjectLength(t + u, s) ==
            var n := ObjectLength(u, Pass(t, s).value);
            if n.Some? then Some(|t| + n.value) else None
  {
    if t == "" {
      assert t + u == u;
    } else {
      PassThenScan(t[1..], u, Step(s, t[0]).state);
      assert (t + u)[1..] == t[1..] + u;
    }
  }

  lemma {:induction false} PassConcat(t: string, u: string, s: State)
    requires Pass(t, s).Some?
    ensures Pass(t + u, s) == Pass(u, Pass(t, s).value)
  {
    if t == "" {
      assert t + u == u;
    } else {
      PassConcat(t[1..], u, Step(s, t[0]).state);
      assert (t + u)[1..] == t[1..] + u;
    }
  }

  /** t leaves the scanner where it was. */
  predicate Neutral(t: string, s: State) {
    Pass(t, s) == Some(s)
  }

  lemma NeutralConcat(t: string, u: string, s: State)
    requires Neutral(t, s) && Neutral(u, s)
    ensures Neutral(t + u, s)
  {
    PassConcat(t, u, s);
  }

  predicate Outside(s: State) {
    s.depth >= 1 && !s.inString && !s.escaped
  }

  lemma {:induction false} LiteralIsNeutral(t: string, s: State)
    requires LegalLiteral(t) && Outside(s)
    ensures Neutral(t, s)
  {
    if t != "" {
      LiteralIsNeutral(t[1..], s);
    }
  }

  lemma BlankIsNeutral(t: string, s: State)
    requires Blank(t) && Outside(s)
    ensures Neutral(t, s)
  {
    LiteralIsNeutral(t, s);
  }

  lemma {:induction false} PlainIsNeutral(t: string, s: State)
    requires s.inString && !s.escaped && forall i :: 0 <= i < |t| ==> t[i] != '"' && t[i] != '\\'
    ensures Neutral(t, s)
  {
    if t != "" {
      PlainIsNeutral(t[1..], s);
    }
  }

  lemma PieceIsNeutral(p: Piece, s: State)
    requires LegalPiece(p) && s.inString && !s.escaped
    ensures Neutral(PrintPiece(p), s)
  {
    match p
    case Plain(c) => PlainIsNeutral([c], s);
    case Short(c) =>
      assert PrintPiece(p)[1..] == [c] && [c][1..] == "";
      assert Pass([c], s.(escaped := true)) == Some(s);
    case Unicode(hex) =>
      assert PrintPiece(p)[1..] == "u" + hex && ("u" + hex)[1..] == hex;
      PlainIsNeutral(hex, s);
  }

  lemma {:induction false} PiecesAreNeutral(ps: seq<Piece>, s: State)
    requires LegalPieces(ps) && s.inString && !s.escaped
    ensures Neutral(PrintPieces(ps), s)
  {
    if ps != [] {
      PieceIsNeutral(ps[0], s);
      PiecesAreNeutral(ps[1..], s);
      NeutralConcat(PrintPiece(ps[0]), PrintPieces(ps[1..]), s);
    }
  }

  /** Braces, quotes and backslashes inside a string do not count. */
  lemma StringIsNeutral(ps: seq<Piece>, s: State)
    requires LegalPieces(ps) && Outside(s)
    ensures Neutral(PrintString(ps), s)
  {
    var inside := s.(inString := true);
    PiecesAreNeutral(ps, inside);
    var body := PrintPieces(ps);
    PassConcat(body, "\"", inside);
    assert PrintString(ps)[1..] == body + "\"";
  }

  /** Whatever value stands in an object, in whatever layout, leaves the scanner where it was. */
  lemma {:induction false} ValueIsNeutral(v: Json, s: State)
    requires Legal(v) && Outside(s)
    ensures Neutral(Print(v), s)
    decreases v, 0
  {
    match v
    case Literal(t) => LiteralIsNeutral(t, s);
    case Quoted(ps) => StringIsNeutral(ps, s);
    case Array(blank, items) =>
      BlankIsNeutral(blank, s);
      ItemsAreNeutral(items, s);
      NeutralConcat(blank, PrintItems(items), s);
      BracketedIsNeutral(blank + PrintItems(items), s);
    case Object(blank, members) =>
      var inner := s.(depth := s.depth + 1);
      BlankIsNeutral(blank, inner);
      MembersAreNeutral(members, inner);
      NeutralConcat(blank, PrintMembers(members), inner);
      BracedIsNeutral(blank + PrintMembers(members), s);
  }

  lemma BracketedIsNeutral(body: string, s: State)
    requires Neutral(body, s) && Outside(s)
    ensures Neutral("[" + body + "]", s)
  {
    LiteralIsNeutral("[", s);
    LiteralIsNeutral("]", s);
    NeutralConcat("[", body, s);
    NeutralConcat("[" + body, "]", s);
  }

  lemma BracedIsNeutral(body: string, s: State)
    requires Outside(s) && Neutral(body, s.(depth := s.depth + 1))
    ensures Neutral("{" + body + "}", s)
  {
    PassConcat(body, "}", s.(depth := s.depth + 1));
    PassConcat("{", body + "}", s);
    assert "{" + body + "}" == "{" + (body + "}");
  }

  lemma CommaIsNeutral(blank: string, more: bool, s: State)
    requires Blank(blank) && Outside(s)
    ensures Neutral(if more then "," + blank else "", s)
  {
    LiteralIsNeutral(",", s);
    BlankIsNeutral(blank, s);
    NeutralConcat(",", blank, s);
  }

  lemma {:induction false} ItemsAreNeutral(items: seq<Item>, s: State)
    requires (forall i :: 0 <= i < |items| ==> LegalItem(items[i])) && Outside(s)
    ensures Neutral(PrintItems(items), s)
    decreases items, 1
  {
    if items != [] {
      var item := items[0];
      assert LegalItem(item);
      var text, comma := Print(item.value), if |items| > 1 then "," + item.afterComma else "";
      ValueIsNeutral(item.value, s);
      BlankIsNeutral(item.blank, s);
      CommaIsNeutral(item.afterComma, |items| > 1, s);
      ItemsAreNeutral(items[1..], s);
      NeutralConcat(text, item.blank, s);
      NeutralConcat(text + item.blank, comma, s);
      NeutralConcat(text + item.blank + comma, PrintItems(items[1..]), s);
    }
  }

  lemma {:induction false} MembersAreNeutral(members: seq<Member>, s: State)
    requires (forall i :: 0 <= i < |members| ==> LegalMember(members[i])) && Outside(s)
    ensures Neutral(PrintMembers(members), s)
    decreases members, 1
  {
    if members != [] {
      var m := members[0];
      assert LegalMember(m);
      var comma := if |members| > 1 then "," + m.afterComma else "";
      MemberIsNeutral(m, s);
      CommaIsNeutral(m.afterComma, |members| > 1, s);
      MembersAreNeutral(members[1..], s);
      NeutralConcat(PrintMember(m), comma, s);
      NeutralConcat(PrintMember(m) + comma, PrintMembers(members[1..]), s);
    }
  }

  lemma {:induction false} MemberIsNeutral(m: Member, s: State)
    requires LegalMember(m) && Outside(s)
    ensures Neutral(PrintMember(m), s)
    decreases m, 0
  {
    var name, value := PrintString(m.name), Print(m.value);
    StringIsNeutral(m.name, s);
    BlankIsNeutral(m.afterName, s);
    LiteralIsNeutral(":", s);
    BlankIsNeutral(m.afterColon, s);
    ValueIsNeutral(m.value, s);
    BlankIsNeutral(m.blank, s);
    NeutralConcat(name, m.afterName, s);
    NeutralConcat(name + m.afterName, ":", s);
    NeutralConcat(name + m.afterName + ":", m.afterColon, s);
    NeutralConcat(name + m.afterName + ":" + m.afterColon, value, s);
    NeutralConcat(name + m.afterName + ":" + m.afterColon + value, m.blank, s);
  }

  lemma BodyScans(body: string, rest: string)
    requires Neutral(body, State(1, false, false))
    ensures ObjectLength("{" + body + "}" + rest, OUTSIDE) == Some(|body| + 2)
  {
    PassThenScan(body, "}" + rest, State(1, false, false));
    var tail := body + ("}" + rest);
    assert ("{" + tail)[1..] == tail;
    assert "{" + body + "}" + rest == "{" + tail;
  }

  lemma ObjectScans(v: Json, rest: string)
    requires v.Object? && Legal(v)
    ensures ObjectLength(Print(v) + rest, OUTSIDE) == Some(|Print(v)|)
  {
    var inner := State(1, false, false);
    BlankIsNeutral(v.blank, inner);
    MembersAreNeutral(v.members, inner);
    NeutralConcat(v.blank, PrintMembers(v.members), inner);
    BodyScans(v.blank + PrintMembers(v.members), rest);
  }

  /** Scanning undoes printing: whatever stands before and after a printed object,
      whatever its layout, and whatever braces, quotes and backslashes its strings
      hold, the scan returns it. */
  lemma ScanUndoesPrint(v: Json, before: string, rest: string)
    requires v.Object? && Legal(v)
    ensures BalancedObject(before + Print(v) + rest, |before|) == Some(Print(v))
  {
    var text := Print(v);
    ObjectScans(v, rest);
    assert (before + text + rest)[|before|..] == text + rest;
    assert (before + text + rest)[|before|..|before| + |text|] == text;
  }

  /** So no printed object is a proper prefix of another one's text. */
  lemma PrintedObjectsArePrefixFree(v: Json, w: Json, x: string, y: string)
    requires v.Object? && Legal(v) && w.Object? && Legal(w) && Print(v) + x == Print(w) + y
    ensures Print(v) == Print(w) && x == y
  {
    ScanUndoesPrint(v, "", x);
    ScanUndoesPrint(w, "", y);
    assert "" + Print(v) + x == Print(v) + x && "" + Print(w) + y == Print(w) + y;
    assert x == (Print(v) + x)[|Print(v)|..] && y == (Print(w) + y)[|Print(w)|..];
  }

  /** What a scan returns closes for the first time at its last byte. */
  lemma {:induction false} NothingClosesEarlier(t: string, s: State, m: nat)
    requires ObjectLength(t, s).Some? && m < ObjectLength(t, s).value
    ensures Pass(t[..m], s).Some? && ObjectLength(t[..m], s).None?
  {
    if m > 0 {
      NothingClosesEarlier(t[1..], Step(s, t[0]).state, m - 1);
      assert t[..m][1..] == t[1..][..m - 1];
    }
  }

  // ---------- the fenced envelope ----------

  const BOM := "\U{EF}\U{BB}\U{BF}"
  const MARKER := "```json"
  const FENCE := "```"

  predicate Ascii(t: string) {
    forall i :: 0 <= i < |t| ==> t[i] as int < 0x80
  }

  /** What a sequence of bytes from 0x80 on starts with, and how that is lowered. */
  datatype Rune = Rune(width: nat, lowered: string)

  /** strings.ToLower: ASCII byte by byte; `wide` reads the longer sequences, and
      nothing makes a letter keep its length there. */
  function LowerText(t: string, wide: string -> Rune): string {
    if t == "" then ""
    else if t[0] as int < 0x80 then [Lower(t[0])] + LowerText(t[1..], wide)
    else
      var r := wide(t);
      r.lowered + LowerText(t[if 1 <= r.width <= |t| then r.width else 1..], wide)
  }

  /** UTF-8: a sequence ends before the next ASCII byte, and depends on nothing from there on. */
  ghost predicate Utf8(wide: string -> Rune) {
    forall t, rest {:trigger wide(t + rest)} ::
      t != "" && t[0] as int >= 0x80 && (rest == "" || rest[0] as int < 0x80) ==> wide(t + rest) == wide(t) && 1 <= wide(t).width <= |t|
  }

  /** strings.Index */
  function IndexOf(t: string, pattern: string): Option<nat> {
    if pattern <= t then Some(0)
    else if t == "" then None
    else
      var rest := IndexOf(t[1..], pattern);
      if rest.Some? then Some(rest.value + 1) else None
  }

  function Trimmed(t: string): string {
    TrimRight(TrimLeft(t))
  }

  datatype Answer = Found(text: string) | NotFound | OutOfRange

  /** fayaGatewayEnvelopeCandidate. The marker is found in the lowered text but cut from
      the text itself; past its end, Go's slice expression panics. */
  function Candidate(raw: string, wide: string -> Rune): Answer {
    InTrimmed(Trimmed(if BOM <= raw then raw[|BOM|..] else raw), wide)
  }

  function InTrimmed(trimmed: string, wide: string -> Rune): Answer {
    if "{" <= trimmed then Found(trimmed)
    else
      var marker := IndexOf(LowerText(trimmed, wide), MARKER);
      if marker.None? then NotFound
      else FromMarker(trimmed, marker.value)
  }

  function FromMarker(trimmed: string, marker: nat): (a: Answer)
    ensures a.OutOfRange? <==> marker + |MARKER| > |trimmed|
  {
    if marker + |MARKER| > |trimmed| then OutOfRange else Fenced(trimmed[marker + |MARKER|..])
  }

  function Fenced(fenced: string): Answer {
    var start := IndexOf(fenced, "{");
    if start.None? || start.value > |fenced| || Trimmed(fenced[..start.value]) != "" then NotFound
    else
      var found := BalancedObject(fenced, start.value);
      if found.None? || start.value + |found.value| > |fenced| || Trimmed(fenced[start.value + |found.value|..]) != FENCE then NotFound
      else Found(found.value)
  }

  lemma {:induction false} IndexInside(t: string, pattern: string)
    ensures var i := IndexOf(t, pattern); i.Some? ==> i.value + |pattern| <= |t| && pattern <= t[i.value..]
  {
    if !(pattern <= t) && t != "" {
      IndexInside(t[1..], pattern);
    }
  }

  lemma {:induction false} LowerAscii(t: string, u: string, wide: string -> Rune)
    requires Ascii(t)
    ensures LowerText(t + u, wide) == LowerText(t, wide) + LowerText(u, wide) && |LowerText(t, wide)| == |t|
  {
    if t == "" {
      assert t + u == u;
    } else {
      LowerAscii(t[1..], u, wide);
      assert (t + u)[1..] == t[1..] + u;
    }
  }

  /** Lowering goes piece by piece if the second piece starts with an ASCII byte. */
  lemma {:induction false} LowerSplits(t: string, u: string, wide: string -> Rune)
    requires Utf8(wide) && (u == "" || u[0] as int < 0x80)
    ensures LowerText(t + u, wide) == LowerText(t, wide) + LowerText(u, wide)
    decreases |t|
  {
    if t == "" {
      assert t + u == u;
    } else if t[0] as int < 0x80 {
      LowerSplits(t[1..], u, wide);
      assert (t + u)[1..] == t[1..] + u;
    } else {
      var w := wide(t).width;
      assert wide(t + u) == wide(t);
      LowerSplits(t[w..], u, wide);
      assert (t + u)[w..] == t[w..] + u;
    }
  }

  /** The marker has no border, so before it no occurrence can reach into it. */
  lemma {:induction false} MarkerComesFirst(t: string, rest: string)
    requires IndexOf(t, MARKER).None?
    ensures IndexOf(t + MARKER + rest, MARKER) == Some(|t|)
  {
    var whole := t + MARKER + rest;
    if t == "" {
      assert whole == MARKER + rest;
      assert MARKER <= whole;
    } else {
      assert whole[1..] == t[1..] + MARKER + rest;
      MarkerComesFirst(t[1..], rest);
      if MARKER <= whole {
        MarkerInside(t, rest);
      }
    }
  }

  lemma MarkerInside(t: string, rest: string)
    requires t != "" && MARKER <= t + MARKER + rest
    ensures MARKER <= t
  {
    var whole := t + MARKER + rest;
    assert whole[..7] == MARKER;
    assert whole[3] == 'j' && whole[4] == 's' && whole[5] == 'o' && whole[6] == 'n';
    assert whole[|t|] == '`' && whole[|t| + 3] == 'j';
    assert |t| >= 7;
    assert t[..7] == whole[..7];
  }

  lemma {:induction false} TrimLeftBlank(lead: string, core: string)
    requires Blank(lead) && (core == "" || !Space(core[0]))
    ensures TrimLeft(lead + core) == core
  {
    if lead == "" {
      assert lead + core == core;
    } else {
      TrimLeftBlank(lead[1..], core);
      assert (lead + core)[1..] == lead[1..] + core;
    }
  }

  lemma {:induction false} TrimRightBlank(core: string, tail: string)
    requires Blank(tail) && (core == "" || !Space(core[|core| - 1]))
    ensures TrimRight(core + tail) == core
  {
    if tail == "" {
      assert core + tail == core;
    } else {
      TrimRightBlank(core, tail[..|tail| - 1]);
      assert (core + tail)[..|core + tail| - 1] == core + tail[..|tail| - 1];
    }
  }

  lemma TrimmedBlanks(lead: string, core: string, tail: string)
    requires Blank(lead) && Blank(tail) && core != "" && !Space(core[0]) && !Space(core[|core| - 1])
    ensures Trimmed(lead + core + tail) == core
  {
    assert lead + core + tail == lead + (core + tail);
    TrimLeftBlank(lead, core + tail);
    TrimRightBlank(core, tail);
  }

  lemma {:induction false} BraceComesFirst(blank: string, rest: string)
    requires Blank(blank) && "{" <= rest
    ensures IndexOf(blank + rest, "{") == Some(|blank|)
  {
    if blank == "" {
      assert blank + rest == rest;
    } else {
      BraceComesFirst(blank[1..], rest);
      assert (blank + rest)[0] == blank[0] && "{"[0] == '{';
      assert (blank + rest)[1..] == blank[1..] + rest;
    }
  }

  /** What stands between the marker and the end of the reply. */
  lemma FencedObject(v: Json, gap: string, tail: string)
    requires v.Object? && Legal(v) && Blank(gap) && Blank(tail)
    ensures Fenced(gap + Print(v) + tail + FENCE) == Found(Print(v))
  {
    var text := Print(v);
    var fenced := gap + text + tail + FENCE;
    assert fenced == gap + (text + tail + FENCE);
    BraceComesFirst(gap, text + tail + FENCE);
    assert fenced == gap + text + (tail + FENCE);
    ScanUndoesPrint(v, gap, tail + FENCE);
    assert fenced[..|gap|] == gap && fenced[|gap| + |text|..] == tail + FENCE;
    assert gap + "" == gap;
    TrimLeftBlank(gap, "");
    assert tail + FENCE + "" == tail + FENCE;
    TrimmedBlanks(tail, FENCE, "");
  }

  /** Prose that neither opens with a brace nor holds the marker itself. */
  ghost predicate PlainProse(prose: string, wide: string -> Rune) {
    && (prose == "" || (!Space(prose[0]) && prose[0] != '{'))
    && IndexOf(LowerText(prose, wide), MARKER).None?
  }

  predicate IsMarker(marker: string, wide: string -> Rune) {
    Ascii(marker) && LowerText(marker, wide) == MARKER
  }

  lemma FirstByte(marker: string, wide: string -> Rune)
    requires IsMarker(marker, wide)
    ensures |marker| == 7 && marker[0] == '`'
  {
    LowerAscii(marker, "", wide);
    assert LowerText(marker, wide)[0] == Lower(marker[0]);
  }

  lemma LowersAround(prose: string, marker: string, fenced: string, wide: string -> Rune)
    requires Utf8(wide) && Ascii(marker) && marker != ""
    ensures LowerText(prose + marker + fenced, wide) == LowerText(prose, wide) + LowerText(marker, wide) + LowerText(fenced, wide)
  {
    assert prose + marker + fenced == prose + (marker + fenced);
    LowerSplits(prose, marker + fenced, wide);
    LowerAscii(marker, fenced, wide);
  }

  /** Where the marker is found: after the lowered prose. */
  lemma MarkerIsFound(prose: string, marker: string, fenced: string, wide: string -> Rune)
    requires Utf8(wide) && PlainProse(prose, wide) && IsMarker(marker, wide)
    ensures IndexOf(LowerText(prose + marker + fenced, wide), MARKER) == Some(|LowerText(prose, wide)|)
  {
    FirstByte(marker, wide);
    LowersAround(prose, marker, fenced, wide);
    MarkerComesFirst(LowerText(prose, wide), LowerText(fenced, wide));
  }

  lemma NoBrace(prose: string, marker: string, fenced: string, wide: string -> Rune)
    requires PlainProse(prose, wide) && |marker| == 7 && marker[0] == '`'
    ensures !("{" <= prose + marker + fenced)
  {
    assert "{"[0] == '{';
    assert (prose + marker + fenced)[0] == (if prose == "" then marker[0] else prose[0]);
  }

  /** The cut is off by as much as lowering lengthens the prose: it runs past the end
      of the reply exactly if that is more than all that follows the marker, and it
      is where it should be exactly if the prose keeps its length. */
  lemma CutIff(prose: string, marker: string, fenced: string, wide: string -> Rune)
    requires Utf8(wide) && PlainProse(prose, wide) && IsMarker(marker, wide)
    ensures var trimmed, cut := prose + marker + fenced, |LowerText(prose, wide)| + |MARKER|;
            && (InTrimmed(trimmed, wide).OutOfRange? <==> |LowerText(prose, wide)| - |prose| > |fenced|)
            && (cut <= |trimmed| ==> InTrimmed(trimmed, wide) == Fenced(trimmed[cut..]))
            && (cut <= |trimmed| && trimmed[cut..] == fenced <==> |LowerText(prose, wide)| == |prose|)
  {
    FirstByte(marker, wide);
    NoBrace(prose, marker, fenced, wide);
    MarkerIsFound(prose, marker, fenced, wide);
    CutAt(prose + marker + fenced, |LowerText(prose, wide)|, wide);
    CutLengths(prose, marker, fenced, |LowerText(prose, wide)|);
  }

  lemma CutAt(trimmed: string, m: nat, wide: string -> Rune)
    requires !("{" <= trimmed) && IndexOf(LowerText(trimmed, wide), MARKER) == Some(m)
    ensures InTrimmed(trimmed, wide) == FromMarker(trimmed, m)
  {
  }

  lemma CutLengths(prose: string, marker: string, fenced: string, m: nat)
    requires |marker| == 7
    ensures m + 7 <= |prose + marker + fenced| ==> ((prose + marker + fenced)[m + 7..] == fenced <==> m == |prose|)
  {
    assert (prose + marker + fenced)[|prose| + 7..] == fenced;
  }

  lemma CutIsRight(prose: string, marker: string, fenced: string, wide: string -> Rune)
    requires Utf8(wide) && PlainProse(prose, wide) && IsMarker(marker, wide) && |LowerText(prose, wide)| == |prose|
    ensures InTrimmed(prose + marker + fenced, wide) == Fenced(fenced)
  {
    CutIff(prose, marker, fenced, wide);
  }

  /** A reply of plain prose whose lowering keeps its length and one fenced object, in
      any case of the marker and in any layout, yields that object, however its
      strings look. */
  lemma EnvelopeYieldsTheObject(lead: string, prose: string, marker: string, gap: string, v: Json,
                                tail: string, end: string, wide: string -> Rune)
    requires Utf8(wide) && PlainProse(prose, wide) && |LowerText(prose, wide)| == |prose| && !(BOM <= prose)
    requires IsMarker(marker, wide) && v.Object? && Legal(v)
    requires Blank(lead) && Blank(gap) && Blank(tail) && Blank(end)
    ensures var raw := lead + (prose + marker + (gap + Print(v) + tail + FENCE)) + end;
            Candidate(raw, wide) == Found(Print(v)) && Candidate(BOM + raw, wide) == Found(Print(v))
  {
    var fenced := gap + Print(v) + tail + FENCE;
    CutIsRight(prose, marker, fenced, wide);
    FencedObject(v, gap, tail);
    ReplyIsTrimmed(lead, prose, marker, fenced, end, wide);
  }

  lemma ReplyIsTrimmed(lead: string, prose: string, marker: string, fenced: string, end: string, wide: string -> Rune)
    requires Blank(lead) && Blank(end) && PlainProse(prose, wide) && IsMarker(marker, wide) && !(BOM <= prose)
    requires fenced != "" && fenced[|fenced| - 1] == '`'
    ensures var core := prose + marker + fenced;
            Candidate(lead + core + end, wide) == InTrimmed(core, wide) == Candidate(BOM + (lead + core + end), wide)
  {
    FirstByte(marker, wide);
    var core := prose + marker + fenced;
    assert core[0] == (if prose == "" then marker[0] else prose[0]);
    assert core[|core| - 1] == fenced[|fenced| - 1];
    NoBom("", prose, marker + fenced);
    assert "" + prose + (marker + fenced) == core;
    NoBom(lead, core, end);
    TrimmedBlanks(lead, core, end);
    assert (BOM + (lead + core + end))[|BOM|..] == lead + core + end;
  }

  /** No byte order mark arises from blanks, a text without one, and an ASCII byte. */
  lemma NoBom(lead: string, core: string, rest: string)
    requires Blank(lead) && !(BOM <= core)
    requires (rest != "" && rest[0] as int < 0x80) || (core != "" && core[|core| - 1] as int < 0x80)
    ensures !(BOM <= lead + core + rest)
  {
    var raw := lead + core + rest;
    if lead != "" {
      assert raw[0] == lead[0];
      AsciiIsNoBom(raw, 0);
    } else if |core| >= 3 {
      assert raw[..3] == core[..3];
    } else if rest != "" && rest[0] as int < 0x80 {
      assert raw[|core|] == rest[0];
      AsciiIsNoBom(raw, |core|);
    } else {
      assert raw[|core| - 1] == core[|core| - 1];
      AsciiIsNoBom(raw, |core| - 1);
    }
  }

  lemma AsciiIsNoBom(t: string, i: nat)
    requires i < 3 && i < |t| && t[i] as int < 0x80
    ensures !(BOM <= t)
  {
    assert BOM[i] as int >= 0x80;
  }

  /** The slice after the marker is in range as long as lowering does not lengthen the reply. */
  lemma InRangeUnlessLonger(trimmed: string, wide: string -> Rune)
    requires |LowerText(trimmed, wide)| <= |trimmed|
    ensures !InTrimmed(trimmed, wide).OutOfRange?
  {
    IndexInside(LowerText(trimmed, wide), MARKER);
  }

  lemma AsciiRepliesStayInRange(raw: string, wide: string -> Rune)
    requires Ascii(raw)
    ensures !Candidate(raw, wide).OutOfRange?
  {
    assert !(BOM <= raw) by {
      assert BOM[0] as int >= 0x80;
    }
    var trimmed := Trimmed(raw);
    TrimmedIsPart(raw);
    assert forall i :: 0 <= i < |trimmed| ==> trimmed[i] in trimmed;
    LowerAscii(trimmed, "", wide);
    assert trimmed + "" == trimmed;
    InRangeUnlessLonger(trimmed, wide);
  }

  lemma {:induction false} TrimmedIsPart(t: string)
    ensures forall c :: c in Trimmed(t) ==> c in t
  {
    TrimLeftIsPart(t);
    TrimRightIsPart(TrimLeft(t));
  }

  lemma {:induction false} TrimLeftIsPart(t: string)
    ensures forall c :: c in TrimLeft(t) ==> c in t
  {
    if t != "" && Space(t[0]) {
      TrimLeftIsPart(t[1..]);
    }
  }

  lemma {:induction false} TrimRightIsPart(t: string)
    ensures forall c :: c in TrimRight(t) ==> c in t
  {
    if t != "" && Space(t[|t| - 1]) {
      TrimRightIsPart(t[..|t| - 1]);
    }
  }

  // ---------- two letters that move the cut ----------

  /** A table with one letter in it. */
  function OneLetter(letter: string, lowered: string): string -> Rune {
    (t: string) => if letter <= t then Rune(|letter|, lowered) else Rune(1, "\U{EF}\U{BF}\U{BD}")
  }

  predicate Wide(t: string) {
    t != "" && forall i :: 0 <= i < |t| ==> t[i] as int >= 0x80
  }

  lemma OneLetterIsUtf8(letter: string, lowered: string)
    requires Wide(letter)
    ensures Utf8(OneLetter(letter, lowered))
  {
    var wide := OneLetter(letter, lowered);
    forall t, rest | t != "" && t[0] as int >= 0x80 && (rest == "" || rest[0] as int < 0x80)
      ensures wide(t + rest) == wide(t) && 1 <= wide(t).width <= |t|
    {
      assert |t| < |letter| ==> letter[|t|] as int >= 0x80;
      assert rest != "" ==> (t + rest)[|t|] == rest[0];
      assert |letter| <= |t| ==> (t + rest)[..|letter|] == t[..|letter|];
    }
  }

  lemma {:induction false} LowerUnchanged(t: string, wide: string -> Rune)
    requires forall i :: 0 <= i < |t| ==> t[i] as int < 0x80 && Lower(t[i]) == t[i]
    ensures LowerText(t, wide) == t
  {
    if t != "" {
      LowerUnchanged(t[1..], wide);
    }
  }

  lemma LowerMarker(wide: string -> Rune)
    ensures IsMarker(MARKER, wide)
  {
    LowerUnchanged(MARKER, wide);
  }

  lemma LetterIsLowered(letter: string, lowered: string)
    requires Wide(letter)
    ensures LowerText(letter, OneLetter(letter, lowered)) == lowered
  {
    assert letter[|letter|..] == "" && lowered + "" == lowered;
  }

  lemma TooShortForTheMarker(t: string)
    requires |t| < 7
    ensures IndexOf(t, MARKER).None?
  {
    IndexInside(t, MARKER);
  }

  /** A reply that is one such letter, the marker and whatever. */
  lemma LetterThenMarker(letter: string, lowered: string)
    requires Wide(letter) && |lowered| < 7
    ensures var wide := OneLetter(letter, lowered);
            Utf8(wide) && PlainProse(letter, wide) && IsMarker(MARKER, wide) && LowerText(letter, wide) == lowered
  {
    OneLetterIsUtf8(letter, lowered);
    LowerMarker(OneLetter(letter, lowered));
    LetterIsLowered(letter, lowered);
    TooShortForTheMarker(lowered);
  }

  /** Go lowers U+023A, two bytes, to U+2C65, three bytes. A reply of this letter and
      the marker makes the slice run past the end. */
  lemma LoweringCanRunPastTheEnd(letter: string, lowered: string)
    requires letter == "\U{C8}\U{BA}" && lowered == "\U{E2}\U{B1}\U{A5}"
    ensures Candidate(letter + MARKER, OneLetter(letter, lowered)).OutOfRange?
  {
    LetterThenMarker(letter, lowered);
    CutIff(letter, MARKER, "", OneLetter(letter, lowered));
    assert letter + MARKER + "" == letter + MARKER;
    NothingToTrim(letter, MARKER, OneLetter(letter, lowered));
  }

  lemma NothingToTrim(letter: string, marker: string, wide: string -> Rune)
    requires letter != "" && letter[0] as int >= 0x80 && !(BOM <= letter) && |marker| == 7 && marker[0] == '`' && marker[6] == 'n'
    ensures Candidate(letter + marker, wide) == InTrimmed(letter + marker, wide)
  {
    var raw := letter + marker;
    NoBom("", letter, marker);
    assert "" + letter + marker == raw;
    assert raw[|raw| - 1] == 'n' && raw[0] == letter[0];
    TrimmedBlanks("", raw, "");
    assert "" + raw + "" == raw;
  }

  /** Go lowers the Kelvin sign U+212A, three bytes, to k, one byte. The same object
      that is found without it is missed behind it: the cut starts inside the marker. */
  lemma LoweringCanMissTheObject(letter: string, lowered: string, fenced: string)
    requires letter == "\U{E2}\U{84}\U{AA}" && lowered == "k" && fenced == "{}```"
    ensures var wide := OneLetter(letter, lowered);
            InTrimmed(MARKER + fenced, wide) == Found("{}") && InTrimmed(letter + MARKER + fenced, wide) == NotFound
  {
    LetterThenMarker(letter, lowered);
    EmptyObject(fenced);
    ObjectWithoutLetter(fenced, OneLetter(letter, lowered));
    ObjectBehindLetter(letter, fenced, OneLetter(letter, lowered));
  }

  lemma ObjectWithoutLetter(fenced: string, wide: string -> Rune)
    requires Utf8(wide) && IsMarker(MARKER, wide)
    ensures InTrimmed(MARKER + fenced, wide) == Fenced(fenced)
  {
    IndexInside("", MARKER);
    CutIsRight("", MARKER, fenced, wide);
    assert "" + MARKER + fenced == MARKER + fenced;
  }

  lemma ObjectBehindLetter(letter: string, fenced: string, wide: string -> Rune)
    requires Utf8(wide) && PlainProse(letter, wide) && IsMarker(MARKER, wide) && |letter| == 3 && |LowerText(letter, wide)| == 1
    requires "{" <= fenced
    ensures InTrimmed(letter + MARKER + fenced, wide) == NotFound
  {
    CutIff(letter, MARKER, fenced, wide);
    TailOfMarker(letter, MARKER, fenced);
    ProseIsRefused(MARKER[5..], fenced);
  }

  lemma TailOfMarker(letter: string, marker: string, fenced: string)
    requires |letter| == 3 && |marker| == 7
    ensures (letter + marker + fenced)[8..] == marker[5..] + fenced
  {
  }

  lemma EmptyObject(fenced: string)
    requires fenced == "{}```"
    ensures Fenced(fenced) == Found("{}")
  {
    var v := Object("", []);
    FencedObject(v, "", "");
    assert Print(v) == "{}";
    assert "" + Print(v) + "" + FENCE == fenced;
  }

  lemma ProseIsRefused(prose: string, fenced: string)
    requires |prose| == 2 && prose[0] == 'o' && prose[1] == 'n' && "{" <= fenced
    ensures Fenced(prose + fenced) == NotFound
  {
    var text := prose + fenced;
    assert text[0] == 'o' && text[1] == 'n' && "{"[0] == '{';
    assert text[1..][1..] == fenced && text[1..][0] == 'n';
    assert IndexOf(text[1..], "{") == Some(1);
    assert IndexOf(text, "{") == Some(2);
    assert text[..2] == prose;
    assert TrimLeft(prose) == prose && TrimRight(prose) == prose;
  }
}
