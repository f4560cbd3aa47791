/**
 The Authentication-Results scanner of src/ingress.py: two character automata, proved against the
 grammar of nested comments (section 3.2.2 of RFC 5322) and quoted strings (section 3.2.4).
 */
module AuthResults {
  import opened Common

  // ---------------------------------------------------------------------------------------
  // The grammar
  // ---------------------------------------------------------------------------------------

  /** What follows an opening parenthesis, up to and including its own closing one. */
  datatype CommentBody = CEnd | CText(c: char, rest: CommentBody) | CPair(c: char, rest: CommentBody)
                       | CNest(inner: CommentBody, rest: CommentBody)

  /** What follows an opening quote, up to and including the closing one. */
  datatype QuotedBody = QEnd | QText(c: char, rest: QuotedBody) | QPair(c: char, rest: QuotedBody)

  /** A field value: plain characters, quoted strings and comments. */
  datatype Field = End | Plain(c: char, rest: Field) | Quoted(body: QuotedBody, rest: Field)
                 | Comment(hidden: CommentBody, rest: Field)

  ghost predicate CommentOk(b: CommentBody) {
    match b
    case CEnd => true
    case CText(c, rest) => c !in "()\\" && CommentOk(rest)
    case CPair(_, rest) => CommentOk(rest)
    case CNest(inner, rest) => CommentOk(inner) && CommentOk(rest)
  }

  ghost predicate QuotedOk(b: QuotedBody) {
    match b
    case QEnd => true
    case QText(c, rest) => c !in "\"\\" && QuotedOk(rest)
    case QPair(_, rest) => QuotedOk(rest)
  }

  ghost predicate FieldOk(f: Field) {
    match f
    case End => true
    case Plain(c, rest) => c !in "()\"" && FieldOk(rest)
    case Quoted(body, rest) => QuotedOk(body) && FieldOk(rest)
    case Comment(body, rest) => CommentOk(body) && FieldOk(rest)
  }

  function CommentText(b: CommentBody): string {
    match b
    case CEnd => ")"
    case CText(c, rest) => [c] + CommentText(rest)
    case CPair(c, rest) => ['\\', c] + CommentText(rest)
    case CNest(inner, rest) => "(" + CommentText(inner) + CommentText(rest)
  }

  function QuotedText(b: QuotedBody): string {
    match b
    case QEnd => "\""
    case QText(c, rest) => [c] + QuotedText(rest)
    case QPair(c, rest) => ['\\', c] + QuotedText(rest)
  }

  function FieldText(f: Field): string {
    match f
    case End => ""
    case Plain(c, rest) => [c] + FieldText(rest)
    case Quoted(body, rest) => "\"" + QuotedText(body) + FieldText(rest)
    case Comment(body, rest) => "(" + CommentText(body) + FieldText(rest)
  }

  /** The field with its comments taken out. */
  function Bare(f: Field): Field {
    match f
    case End => End
    case Plain(c, rest) => Plain(c, Bare(rest))
    case Quoted(body, rest) => Quoted(body, Bare(rest))
    case Comment(_, rest) => Bare(rest)
  }

  // ---------------------------------------------------------------------------------------
  // Removing comments
  // ---------------------------------------------------------------------------------------

  function Prepend(prefix: string, tail: Option<string>): Option<string> {
    if tail == None || prefix == "" then tail else Some(prefix + tail.value)
  }

  /** The first automaton: what it still outputs from here, or None if it will reject. */
  function Scan(s: string, depth: nat, quoted: bool, escaped: bool): Option<string> {
    if s == [] then (if depth > 0 || quoted || escaped then None else Some(""))
    else
      var c, rest := s[0], s[1..];
      if escaped then Prepend(if depth == 0 then [c] else "", Scan(rest, depth, quoted, false))
      else if c == '\\' && (depth > 0 || quoted) then
        Prepend(if depth == 0 then [c] else "", Scan(rest, depth, quoted, true))
      else if depth > 0 then
        Scan(rest, if c == '(' then depth + 1 else if c == ')' then depth - 1 else depth, quoted, false)
      else if quoted then Prepend([c], Scan(rest, 0, c != '"', false))
      else if c == '(' then Scan(rest, 1, false, false)
      else if c == ')' then None
      else Prepend([c], Scan(rest, 0, c == '"', false))
  }

  method WithoutComments(value: string) returns (result: Option<string>)
    ensures result == Scan(value, 0, false, false)
  {
    var out, depth: nat, quoted, escaped := "", 0, false, false;
    assert value[0..] == value;
    for i := 0 to |value|
      invariant Scan(value, 0, false, false) == Prepend(out, Scan(value[i..], depth, quoted, escaped))
    {
      var c := value[i];
      ghost var rest := value[i + 1..];
      assert value[i..][0] == c && value[i..][1..] == rest;
      ghost var before := out;
      if escaped {
        if depth == 0 { out := out + [c]; }
        escaped := false;
      } else if c == '\\' && (depth > 0 || quoted) {
        if depth == 0 { out := out + [c]; }
        escaped := true;
      } else if depth > 0 {
        if c == '(' { depth := depth + 1; } else if c == ')' { depth := depth - 1; }
      } else if quoted {
        out := out + [c];
        if c == '"' { quoted := false; }
      } else if c == '(' {
        depth := 1;
      } else if c == ')' {
        return None;
      } else {
        out := out + [c];
        if c == '"' { quoted := true; }
      }
      PrependTwice(before, [c], Scan(rest, depth, quoted, escaped));
    }
    assert value[|value|..] == [];
    if depth > 0 || quoted || escaped { return None; }
    assert out + "" == out;
    return Some(out);
  }

  lemma PrependTwice(a: string, b: string, tail: Option<string>)
    ensures Prepend(a, Prepend(b, tail)) == Prepend(a + b, tail)
  {
    if tail.Some? {
      assert a + (b + tail.value) == a + b + tail.value;
      assert a == "" ==> a + b == b;
      assert b == "" ==> a + b == a;
    }
  }

  /** One character, or one escaped character, inside a comment. */
  lemma ScanInComment(c: char, rest: string, depth: nat)
    requires depth > 0
    ensures c !in "()\\" ==> Scan([c] + rest, depth, false, false) == Scan(rest, depth, false, false)
    ensures Scan("(" + rest, depth, false, false) == Scan(rest, depth + 1, false, false)
    ensures Scan(")" + rest, depth, false, false) == Scan(rest, depth - 1, false, false)
  {
    assert ([c] + rest)[1..] == rest && ("(" + rest)[1..] == rest && (")" + rest)[1..] == rest;
  }

  lemma ScanPairInComment(c: char, rest: string, depth: nat)
    requires depth > 0
    ensures Scan(['\\', c] + rest, depth, false, false) == Scan(rest, depth, false, false)
  {
    assert (['\\', c] + rest)[1..][1..] == rest;
  }

  lemma {:induction false} ScanComment(b: CommentBody, rest: string, depth: nat)
    requires CommentOk(b) && depth > 0
    ensures Scan(CommentText(b) + rest, depth, false, false) == Scan(rest, depth - 1, false, false)
    decreases b
  {
    var s := CommentText(b) + rest;
    match b
    case CEnd => ScanInComment(')', rest, depth);
    case CText(c, b1) =>
      assert s == [c] + (CommentText(b1) + rest);
      ScanInComment(c, CommentText(b1) + rest, depth);
      ScanComment(b1, rest, depth);
    case CPair(c, b1) =>
      assert s == ['\\', c] + (CommentText(b1) + rest);
      ScanPairInComment(c, CommentText(b1) + rest, depth);
      ScanComment(b1, rest, depth);
    case CNest(inner, b1) =>
      assert s == "(" + (CommentText(inner) + (CommentText(b1) + rest));
      ScanInComment('(', CommentText(inner) + (CommentText(b1) + rest), depth);
      ScanComment(inner, CommentText(b1) + rest, depth + 1);
      ScanComment(b1, rest, depth);
  }

  /** One character, or one escaped character, inside a quoted string. */
  lemma ScanInQuotes(c: char, rest: string)
    requires c != '\\'
    ensures Scan([c] + rest, 0, true, false) == Prepend([c], Scan(rest, 0, c != '"', false))
  {
    assert ([c] + rest)[1..] == rest;
  }

  lemma ScanPairInQuotes(c: char, rest: string)
    ensures Scan(['\\', c] + rest, 0, true, false) == Prepend(['\\', c], Scan(rest, 0, true, false))
  {
    assert (['\\', c] + rest)[1..] == [c] + rest && ([c] + rest)[1..] == rest;
    PrependTwice(['\\'], [c], Scan(rest, 0, true, false));
    assert ['\\'] + [c] == ['\\', c];
  }

  lemma {:induction false} ScanQuoted(b: QuotedBody, rest: string)
    requires QuotedOk(b)
    ensures Scan(QuotedText(b) + rest, 0, true, false) == Prepend(QuotedText(b), Scan(rest, 0, false, false))
    decreases b
  {
    var s, tail := QuotedText(b) + rest, Scan(rest, 0, false, false);
    match b
    case QEnd => ScanInQuotes('"', rest);
    case QText(c, b1) =>
      assert s == [c] + (QuotedText(b1) + rest);
      ScanInQuotes(c, QuotedText(b1) + rest);
      ScanQuoted(b1, rest);
      PrependTwice([c], QuotedText(b1), tail);
    case QPair(c, b1) =>
      assert s == ['\\', c] + (QuotedText(b1) + rest);
      ScanPairInQuotes(c, QuotedText(b1) + rest);
      ScanQuoted(b1, rest);
      PrependTwice(['\\', c], QuotedText(b1), tail);
  }

  /** Every field of the grammar is accepted, and exactly its comments disappear. */
  lemma {:induction false} ScanField(f: Field)
    requires FieldOk(f)
    ensures Scan(FieldText(f), 0, false, false) == Some(FieldText(Bare(f)))
  {
    var s := FieldText(f);
    match f
    case End =>
    case Plain(c, rest) =>
      assert s[1..] == FieldText(rest);
      ScanField(rest);
    case Quoted(body, rest) =>
      assert s[1..] == QuotedText(body) + FieldText(rest);
      ScanQuoted(body, FieldText(rest));
      ScanField(rest);
      assert ['"'] + (QuotedText(body) + FieldText(Bare(rest))) == FieldText(Bare(f));
    case Comment(body, rest) =>
      assert s[1..] == CommentText(body) + FieldText(rest);
      ScanComment(body, FieldText(rest), 1);
      ScanField(rest);
  }

  /** The texts of a stack of open comments, innermost first. */
  function Texts(open: seq<CommentBody>): string {
    if open == [] then "" else CommentText(open[0]) + Texts(open[1..])
  }

  /** Whatever the automaton accepts is a field of the grammar. */
  lemma {:induction false} ParseField(s: string) returns (f: Field)
    requires Scan(s, 0, false, false).Some?
    ensures FieldOk(f) && FieldText(f) == s
    decreases |s|, 1
  {
    if s == [] { return End; }
    if s[0] == '(' {
      var open, rest := ParseComments(s[1..], 1);
      f := Comment(open[0], rest);
      TextsCons(open[0], []);
      assert open == [open[0]] + [] && CommentText(open[0]) + "" == CommentText(open[0]);
      assert s == "(" + s[1..] == "(" + CommentText(open[0]) + FieldText(rest);
    } else if s[0] == '"' {
      var body, rest := ParseQuoted(s[1..]);
      f := Quoted(body, rest);
      assert s == "\"" + s[1..] == "\"" + QuotedText(body) + FieldText(rest);
    } else {
      var rest := ParseField(s[1..]);
      f := Plain(s[0], rest);
      assert s == [s[0]] + s[1..];
    }
  }

  lemma {:induction false} ParseQuoted(s: string) returns (body: QuotedBody, f: Field)
    requires Scan(s, 0, true, false).Some?
    ensures QuotedOk(body) && FieldOk(f) && QuotedText(body) + FieldText(f) == s
    decreases |s|, 1
  {
    if s[0] == '\\' {
      assert s[1..] != [];
      body, f := ParseQuoted(s[1..][1..]);
      body := QPair(s[1], body);
    } else if s[0] == '"' {
      f := ParseField(s[1..]);
      body := QEnd;
    } else {
      body, f := ParseQuoted(s[1..]);
      body := QText(s[0], body);
    }
  }

  lemma TextsCons(b: CommentBody, open: seq<CommentBody>)
    ensures Texts([b] + open) == CommentText(b) + Texts(open)
  {
    assert ([b] + open)[1..] == open;
  }

  lemma Regroup(p: string, a: string, b: string, tail: string)
    ensures p + a + b + tail == p + (a + (b + tail))
    ensures a + b + tail == a + (b + tail)
  {
  }

  /** Extending the innermost open comment to the left. */
  lemma TextsExtend(prefix: string, b: CommentBody, open: seq<CommentBody>)
    requires open != [] && CommentText(b) == prefix + CommentText(open[0])
    ensures Texts([b] + open[1..]) == prefix + Texts(open)
  {
    TextsCons(b, open[1..]);
    TextsCons(open[0], open[1..]);
    assert [open[0]] + open[1..] == open;
    Regroup("", prefix, CommentText(open[0]), Texts(open[1..]));
  }

  /** Closing the innermost comment into the one around it. */
  lemma TextsNest(open: seq<CommentBody>)
    requires |open| >= 2
    ensures Texts([CNest(open[0], open[1])] + open[2..]) == "(" + Texts(open)
  {
    TextsCons(CNest(open[0], open[1]), open[2..]);
    TextsCons(open[1], open[2..]);
    TextsCons(open[0], open[1..]);
    assert [open[1]] + open[2..] == open[1..] && [open[0]] + open[1..] == open;
    Regroup("(", CommentText(open[0]), CommentText(open[1]), Texts(open[2..]));
  }

  ghost predicate Parses(s: string, depth: nat, open: seq<CommentBody>, f: Field) {
    && |open| == depth && (forall b | b in open :: CommentOk(b)) && FieldOk(f)
    && s == Texts(open) + FieldText(f)
  }

  lemma {:induction false} ParseComments(s: string, depth: nat) returns (open: seq<CommentBody>, f: Field)
    requires depth > 0 && Scan(s, depth, false, false).Some?
    ensures Parses(s, depth, open, f)
    decreases |s|, 1
  {
    if s[0] == '\\' {
      assert s[1..] != [] && s[1..][1..] == s[2..];
      open, f := ParseComments(s[2..], depth);
      assert s == [s[0], s[1]] + s[2..];
      ExtendParse([s[0], s[1]], CPair(s[1], open[0]), s[2..], depth, open, f);
      open := [CPair(s[1], open[0])] + open[1..];
    } else if s[0] == '(' {
      open, f := ParseComments(s[1..], depth + 1);
      assert s == "(" + s[1..];
      NestParse(s[1..], depth, open, f);
      open := [CNest(open[0], open[1])] + open[2..];
    } else if s[0] == ')' {
      open, f := ParseClosing(s, depth);
    } else {
      open, f := ParseComments(s[1..], depth);
      assert s == [s[0]] + s[1..];
      ExtendParse([s[0]], CText(s[0], open[0]), s[1..], depth, open, f);
      open := [CText(s[0], open[0])] + open[1..];
    }
  }

  lemma ExtendParse(prefix: string, b: CommentBody, s: string, depth: nat, open: seq<CommentBody>, f: Field)
    requires depth > 0 && Parses(s, depth, open, f)
    requires CommentText(b) == prefix + CommentText(open[0]) && (CommentOk(open[0]) ==> CommentOk(b))
    ensures Parses(prefix + s, depth, [b] + open[1..], f)
  {
    TextsExtend(prefix, b, open);
    assert prefix + (Texts(open) + FieldText(f)) == prefix + Texts(open) + FieldText(f);
    assert forall x | x in open[1..] :: x in open;
  }

  lemma NestParse(s: string, depth: nat, open: seq<CommentBody>, f: Field)
    requires depth > 0 && Parses(s, depth + 1, open, f)
    ensures Parses("(" + s, depth, [CNest(open[0], open[1])] + open[2..], f)
  {
    TextsNest(open);
    assert "(" + (Texts(open) + FieldText(f)) == "(" + Texts(open) + FieldText(f);
    assert forall x | x in open[2..] :: x in open;
  }

  lemma {:induction false} ParseClosing(s: string, depth: nat) returns (open: seq<CommentBody>, f: Field)
    requires depth > 0 && s != [] && s[0] == ')' && Scan(s, depth, false, false).Some?
    ensures Parses(s, depth, open, f)
    decreases |s|, 0
  {
    assert s == ")" + s[1..];
    if depth == 1 {
      f := ParseField(s[1..]);
      open := [CEnd];
      assert Texts(open) == ")" by { assert open[1..] == []; }
    } else {
      var outer, rest := ParseComments(s[1..], depth - 1);
      open, f := [CEnd] + outer, rest;
      assert open[1..] == outer;
    }
  }

  /**
   `_without_comments` agrees with the grammar: it returns `result` exactly when the value is a
   well-formed field whose text without comments is `result`, and rejects everything else.
   */
  lemma ScannerMeetsGrammar(value: string, result: string)
    ensures Scan(value, 0, false, false) == Some(result) <==>
              exists f :: FieldOk(f) && FieldText(f) == value && FieldText(Bare(f)) == result
  {
    if Scan(value, 0, false, false).Some? {
      var f := ParseField(value);
      ScanField(f);
    }
    forall f | FieldOk(f) && FieldText(f) == value ensures Scan(value, 0, false, false) == Some(FieldText(Bare(f))) {
      ScanField(f);
    }
  }

  lemma {:induction false} BareTwice(f: Field)
    requires FieldOk(f)
    ensures FieldOk(Bare(f)) && Bare(Bare(f)) == Bare(f)
  {
    match f
    case End =>
    case Plain(_, rest) => BareTwice(rest);
    case Quoted(_, rest) => BareTwice(rest);
    case Comment(_, rest) => BareTwice(rest);
  }

  /** Removing comments twice changes nothing more. */
  lemma ScannerIsIdempotent(value: string)
    requires Scan(value, 0, false, false).Some?
    ensures Scan(Scan(value, 0, false, false).value, 0, false, false) == Scan(value, 0, false, false)
  {
    var f := ParseField(value);
    ScanField(f);
    BareTwice(f);
    ScanField(Bare(f));
  }

  // ---------------------------------------------------------------------------------------
  // Segments
  // ---------------------------------------------------------------------------------------

  /** Extends the first piece of a split. */
  function Glue(prefix: string, pieces: Option<seq<string>>): Option<seq<string>> {
    if pieces == None || pieces.value == [] || prefix == "" then pieces
    else Some([prefix + pieces.value[0]] + pieces.value[1..])
  }

  /** The second automaton: the untrimmed pieces still to come, the first continuing the current one. */
  function Cut(s: string, quoted: bool, escaped: bool): (pieces: Option<seq<string>>)
    ensures pieces.Some? ==> pieces.value != []
  {
    if s == [] then (if quoted || escaped then None else Some([""]))
    else
      var c, rest := s[0], s[1..];
      if escaped then Glue([c], Cut(rest, quoted, false))
      else if c == '\\' && quoted then Glue([c], Cut(rest, quoted, true))
      else if c == '"' then Glue([c], Cut(rest, !quoted, false))
      else if c == ';' && !quoted then
        var more := Cut(rest, quoted, false);
        if more == None then None else Some([""] + more.value)
      else Glue([c], Cut(rest, quoted, false))
  }

  function StripAll(pieces: seq<string>): seq<string> {
    if pieces == [] then [] else [Strip(pieces[0])] + StripAll(pieces[1..])
  }

  /** `_auth_segments` as a value: the trimmed pieces of the comment-free text. */
  function Segments(value: string): Option<seq<string>> {
    var bare := Scan(value, 0, false, false);
    if bare == None then None
    else
      var pieces := Cut(bare.value, false, false);
      if pieces == None then None else Some(StripAll(pieces.value))
  }

  method AuthSegments(value: string) returns (result: Option<seq<string>>)
    ensures result == Segments(value)
  {
    var scanned := WithoutComments(value);
    if scanned == None { return None; }
    var bare := scanned.value;
    var segments: seq<string>, current, quoted, escaped := [], "", false, false;
    ghost var raw: seq<string> := [];
    assert bare[0..] == bare && forall p: seq<string> :: [] + p == p;
    for i := 0 to |bare|
      invariant segments == StripAll(raw)
      invariant Cut(bare, false, false) == After(raw, Glue(current, Cut(bare[i..], quoted, escaped)))
    {
      var c := bare[i];
      ghost var rest, was := bare[i + 1..], current;
      assert bare[i..][0] == c && bare[i..][1..] == rest;
      if escaped {
        current, escaped := current + [c], false;
      } else if c == '\\' && quoted {
        current, escaped := current + [c], true;
      } else if c == '"' {
        current, quoted := current + [c], !quoted;
      } else if c == ';' && !quoted {
        StripSnoc(raw, current);
        AfterSnoc(raw, current, Cut(rest, quoted, escaped));
        segments, raw := segments + [Strip(current)], raw + [current];
        current := "";
      } else {
        current := current + [c];
      }
      GlueTwice(was, [c], Cut(rest, quoted, escaped));
    }
    assert bare[|bare|..] == [];
    if quoted || escaped { return None; }
    StripSnoc(raw, current);
    assert current + "" == current && [""][1..] == [] && [current] + [] == [current];
    assert Cut(bare, false, false) == Some(raw + [current]);
    return Some(segments + [Strip(current)]);
  }

  /** Finished pieces in front of the pieces to come. */
  ghost function After(raw: seq<string>, pieces: Option<seq<string>>): Option<seq<string>> {
    if pieces == None then None else Some(raw + pieces.value)
  }

  lemma AfterSnoc(raw: seq<string>, current: string, more: Option<seq<string>>)
    requires more.Some? ==> more.value != []
    ensures After(raw, Glue(current, if more == None then None else Some([""] + more.value)))
         == After(raw + [current], more)
  {
    if more.Some? {
      assert ([""] + more.value)[1..] == more.value && current + "" == current;
      assert raw + ([current] + more.value) == raw + [current] + more.value;
    }
  }

  lemma GlueTwice(a: string, b: string, pieces: Option<seq<string>>)
    ensures Glue(a, Glue(b, pieces)) == Glue(a + b, pieces)
  {
    if pieces.Some? && pieces.value != [] {
      assert a + (b + pieces.value[0]) == a + b + pieces.value[0];
      assert a == "" ==> a + b == b;
      assert b == "" ==> a + b == a;
      assert ([b + pieces.value[0]] + pieces.value[1..])[1..] == pieces.value[1..];
    }
  }

  /** Each segment is its piece of the text without the space around it. */
  lemma {:induction false} SegmentsAreTrimmed(pieces: seq<string>)
    ensures |StripAll(pieces)| == |pieces| && forall i | 0 <= i < |pieces| :: IsTrimOf(StripAll(pieces)[i], pieces[i])
  {
    if pieces != [] {
      StripTrims(pieces[0]);
      SegmentsAreTrimmed(pieces[1..]);
      forall i | 0 <= i < |pieces| ensures IsTrimOf(StripAll(pieces)[i], pieces[i]) {
        if i > 0 { assert StripAll(pieces)[i] == StripAll(pieces[1..])[i - 1] && pieces[i] == pieces[1..][i - 1]; }
      }
    }
  }

  lemma {:induction false} StripSnoc(raw: seq<string>, current: string)
    ensures StripAll(raw + [current]) == StripAll(raw) + [Strip(current)]
  {
    if raw != [] {
      assert (raw + [current])[1..] == raw[1..] + [current];
      StripSnoc(raw[1..], current);
    } else {
      assert (raw + [current])[1..] == [];
    }
  }

  /** The field cut at every semicolon that stands outside quoted strings and comments. */
  ghost function Pieces(f: Field): (pieces: seq<Field>)
    ensures pieces != []
  {
    match f
    case End => [End]
    case Plain(c, rest) =>
      if c == ';' then [End] + Pieces(rest) else [Plain(c, Pieces(rest)[0])] + Pieces(rest)[1..]
    case Quoted(body, rest) => [Quoted(body, Pieces(rest)[0])] + Pieces(rest)[1..]
    case Comment(body, rest) => [Comment(body, Pieces(rest)[0])] + Pieces(rest)[1..]
  }

  ghost predicate NoPlainSemicolon(f: Field) {
    match f
    case End => true
    case Plain(c, rest) => c != ';' && NoPlainSemicolon(rest)
    case Quoted(_, rest) => NoPlainSemicolon(rest)
    case Comment(_, rest) => NoPlainSemicolon(rest)
  }

  ghost function TextsOf(fields: seq<Field>): seq<string> {
    seq(|fields|, i requires 0 <= i < |fields| => FieldText(fields[i]))
  }

  function Join(pieces: seq<string>): string
    requires pieces != []
  {
    if |pieces| == 1 then pieces[0] else pieces[0] + ";" + Join(pieces[1..])
  }

  lemma {:induction false} CutQuoted(b: QuotedBody, rest: string)
    requires QuotedOk(b)
    ensures Cut(QuotedText(b) + rest, true, false) == Glue(QuotedText(b), Cut(rest, false, false))
    decreases b
  {
    var s, tail := QuotedText(b) + rest, Cut(rest, false, false);
    match b
    case QEnd => assert s[1..] == rest;
    case QText(c, b1) =>
      assert s[1..] == QuotedText(b1) + rest;
      CutQuoted(b1, rest);
      GlueTwice([c], QuotedText(b1), tail);
    case QPair(c, b1) =>
      assert s[1..][1..] == QuotedText(b1) + rest;
      CutQuoted(b1, rest);
      GlueTwice([c], QuotedText(b1), tail);
      GlueTwice(['\\'], [c] + QuotedText(b1), tail);
      assert ['\\'] + ([c] + QuotedText(b1)) == QuotedText(b);
  }

  ghost predicate AreSegments(pieces: seq<Field>) {
    forall p | p in pieces :: FieldOk(p) && NoPlainSemicolon(p)
  }

  ghost predicate CutsRight(f: Field) {
    && Cut(FieldText(f), false, false) == Some(TextsOf(Pieces(f)))
    && AreSegments(Pieces(f))
    && Join(TextsOf(Pieces(f))) == FieldText(f)
  }

  /** Lengthening the first piece. */
  lemma NewHead(head: Field, prefix: string, pieces: seq<Field>)
    requires pieces != [] && AreSegments(pieces) && FieldText(head) == prefix + FieldText(pieces[0])
    requires FieldOk(pieces[0]) && NoPlainSemicolon(pieces[0]) ==> FieldOk(head) && NoPlainSemicolon(head)
    ensures AreSegments([head] + pieces[1..])
    ensures TextsOf([head] + pieces[1..]) == [prefix + TextsOf(pieces)[0]] + TextsOf(pieces)[1..]
    ensures Join(TextsOf([head] + pieces[1..])) == prefix + Join(TextsOf(pieces))
  {
    assert pieces[0] in pieces && forall p | p in pieces[1..] :: p in pieces;
    JoinGlue(prefix, TextsOf(pieces));
  }

  lemma CutPlain(c: char, rest: Field)
    requires c !in "()\"" && CutsRight(rest)
    ensures CutsRight(Plain(c, rest))
  {
    var pieces, texts := Pieces(rest), TextsOf(Pieces(rest));
    assert FieldText(Plain(c, rest))[1..] == FieldText(rest);
    if c == ';' {
      assert TextsOf([End] + pieces) == [""] + texts;
      assert ([""] + texts)[1..] == texts;
    } else {
      NewHead(Plain(c, pieces[0]), [c], pieces);
    }
  }

  lemma CutString(body: QuotedBody, rest: Field)
    requires QuotedOk(body) && CutsRight(rest)
    ensures CutsRight(Quoted(body, rest))
  {
    NewHead(Quoted(body, Pieces(rest)[0]), "\"" + QuotedText(body), Pieces(rest));
    CutsString(body, FieldText(rest), TextsOf(Pieces(rest)));
  }

  lemma CutsString(body: QuotedBody, rest: string, texts: seq<string>)
    requires QuotedOk(body) && texts != [] && Cut(rest, false, false) == Some(texts)
    ensures Cut("\"" + QuotedText(body) + rest, false, false) == Some(["\"" + QuotedText(body) + texts[0]] + texts[1..])
  {
    var s, glued := "\"" + QuotedText(body) + rest, [QuotedText(body) + texts[0]] + texts[1..];
    assert s[1..] == QuotedText(body) + rest;
    CutQuoted(body, rest);
    assert glued[1..] == texts[1..];
    assert "\"" + (QuotedText(body) + texts[0]) == "\"" + QuotedText(body) + texts[0];
  }

  /** The second automaton cuts a comment-free field exactly at its plain semicolons. */
  lemma {:induction false} CutField(f: Field)
    requires FieldOk(f) && Bare(f) == f
    ensures CutsRight(f)
  {
    match f
    case End => assert TextsOf([End]) == [""];
    case Plain(c, rest) =>
      CutField(rest);
      CutPlain(c, rest);
    case Quoted(body, rest) =>
      CutField(rest);
      CutString(body, rest);
    case Comment(_, rest) => BareIsSmaller(rest);
  }

  lemma JoinGlue(prefix: string, texts: seq<string>)
    requires texts != []
    ensures Join([prefix + texts[0]] + texts[1..]) == prefix + Join(texts)
  {
    var glued := [prefix + texts[0]] + texts[1..];
    assert glued[1..] == texts[1..];
    if |texts| > 1 { assert prefix + texts[0] + ";" + Join(texts[1..]) == prefix + (texts[0] + ";" + Join(texts[1..])); }
  }

  function Length(f: Field): nat {
    match f
    case End => 0
    case Plain(_, rest) => 1 + Length(rest)
    case Quoted(_, rest) => 1 + Length(rest)
    case Comment(_, rest) => 1 + Length(rest)
  }

  /** Taking comments out never adds a part, so a field with a comment is not bare. */
  lemma {:induction false} BareIsSmaller(f: Field)
    ensures Length(Bare(f)) <= Length(f)
  {
    match f
    case End =>
    case Plain(_, rest) => BareIsSmaller(rest);
    case Quoted(_, rest) => BareIsSmaller(rest);
    case Comment(_, rest) => BareIsSmaller(rest);
  }

  ghost predicate IsSegment(p: string) {
    exists f :: FieldOk(f) && FieldText(f) == p && NoPlainSemicolon(f)
  }

  /**
   `_auth_segments` rejects exactly what `_without_comments` rejects, so its own final test never
   fires; otherwise its untrimmed segments, joined by semicolons, are the comment-free text, and each
   is a well-formed field without a semicolon outside its quoted strings.
   */
  lemma SegmentsPartitionTheText(value: string)
    ensures Segments(value) == None <==> Scan(value, 0, false, false) == None
    ensures Scan(value, 0, false, false).Some? ==>
              var bare := Scan(value, 0, false, false).value;
              var pieces := Cut(bare, false, false);
              && pieces.Some? && Segments(value).Some? && |Segments(value).value| == |pieces.value|
              && (forall i | 0 <= i < |pieces.value| :: IsTrimOf(Segments(value).value[i], pieces.value[i]))
              && Join(pieces.value) == bare
              && forall p | p in pieces.value :: IsSegment(p)
  {
    if Scan(value, 0, false, false).Some? {
      var f := ParseField(value);
      ScanField(f);
      BareTwice(f);
      CutField(Bare(f));
      TextsAreSegments(Pieces(Bare(f)));
      SegmentsAreTrimmed(TextsOf(Pieces(Bare(f))));
    }
  }

  lemma TextsAreSegments(fields: seq<Field>)
    requires AreSegments(fields)
    ensures forall p | p in TextsOf(fields) :: IsSegment(p)
  {
    forall p | p in TextsOf(fields) ensures IsSegment(p) {
      var i :| 0 <= i < |fields| && TextsOf(fields)[i] == p;
      assert fields[i] in fields;
    }
  }
}
