/**
 * The bridge from a Gotify message to one Telegram call: fill the title
 * template, join title and body, look for a verification code in the whole
 * text, and send it as a message or, from the length limit on, as a file.
 */
module Bridge {
  import opened Wrappers
  import opened PyValues
  import opened Text
  import opened Markup
  import opened Sender
  import opened Utf8
  import opened Config

  // ---------------------------------------------------------------- str.format(app_name=…, title=…)

  datatype FieldName = AppName | Title

  /** A parsed template: literal characters and the two named fields. */
  datatype Piece = Char(c: char) | Slot(name: FieldName)

  /** What `str.format` raises for a template it cannot fill. */
  datatype FormatError =
    | KeyError(key: string)      // a field name other than app_name and title
    | IndexError                 // an empty or numeric field: there are no positional arguments
    | SingleOpenBrace            // ValueError: a '{' at the very end
    | SingleCloseBrace           // ValueError: a '}' not doubled and not closing a field
    | UnclosedField              // ValueError: expected '}' before end of string
    | UnexpectedOpenBrace        // ValueError: unexpected '{' in field name
    | Unsupported(field: string) // a conversion, format spec, attribute or index: not modelled

  /** The first `]` at or after position `i`, if any. */
  function CloseBracket(f: string, i: nat): (r: Option<nat>)
    requires i <= |f|
    ensures r.Some? ==> i <= r.value < |f| && f[r.value] == ']'
    ensures r.Some? ==> forall k | i <= k < r.value :: f[k] != ']'
    ensures r.None? ==> forall k | i <= k < |f| :: f[k] != ']'
    decreases |f| - i
  {
    if i == |f| then None else if f[i] == ']' then Some(i) else CloseBracket(f, i + 1)
  }

  /**
   * Where the name of the field opened at position 0 ends, read from position
   * `i` as Python's `parse_field` reads it: a `[` skips to the next `]`, a `{`
   * elsewhere is an error, a `}` ends the field, and a `:` or `!` starts a
   * format spec or a conversion, which this model does not format.
   */
  function FieldNameEnd(f: string, i: nat): (r: Result<nat, FormatError>)
    requires 1 <= i <= |f|
    ensures r.Ok? ==> i <= r.value < |f| && f[r.value] == '}'
    ensures r == Err(UnexpectedOpenBrace) ==> exists k | i <= k < |f| :: f[k] == '{'
    decreases |f| - i
  {
    if i == |f| then Err(UnclosedField)
    else if f[i] == '{' then Err(UnexpectedOpenBrace)
    else if f[i] == '}' then Ok(i)
    else if f[i] == ':' || f[i] == '!' then Err(Unsupported(f[1..i]))
    else if f[i] == '[' then
      match CloseBracket(f, i + 1)
      case None => Err(UnclosedField)
      case Some(k) => FieldNameEnd(f, k + 1)
    else FieldNameEnd(f, i + 1)
  }

  predicate HasFieldSyntax(s: string) {
    exists i | 0 <= i < |s| :: s[i] in {'{', '}', '[', '.', ':', '!'}
  }

  predicate AllDecimal(s: string) {
    forall i | 0 <= i < |s| :: IsDecimal(s[i])
  }

  /** The argument a replacement field names. */
  function FieldOf(name: string): (r: Result<FieldName, FormatError>)
    ensures r == Ok(AppName) <==> name == "app_name"
    ensures r == Ok(Title) <==> name == "title"
  {
    if HasFieldSyntax(name) then Err(Unsupported(name))
    else if name == "app_name" then Ok(AppName)
    else if name == "title" then Ok(Title)
    else if AllDecimal(name) then Err(IndexError)
    else Err(KeyError(name))
  }

  function Prepend(p: Piece, rest: Result<seq<Piece>, FormatError>): Result<seq<Piece>, FormatError> {
    match rest
    case Ok(ps) => Ok([p] + ps)
    case Err(e) => Err(e)
  }

  /** The template read left to right; the first problem met is the error. */
  function Parse(f: string): Result<seq<Piece>, FormatError>
    decreases |f|
  {
    if f == [] then Ok([])
    else if f[0] == '}' then
      if |f| >= 2 && f[1] == '}' then Prepend(Char('}'), Parse(f[2..])) else Err(SingleCloseBrace)
    else if f[0] == '{' then
      if |f| == 1 then Err(SingleOpenBrace)
      else if f[1] == '{' then Prepend(Char('{'), Parse(f[2..]))
      else
        match FieldNameEnd(f, 1)
        case Err(e) => Err(e)
        case Ok(j) =>
          match FieldOf(f[1..j])
          case Err(e) => Err(e)
          case Ok(name) => Prepend(Slot(name), Parse(f[j + 1..]))
    else Prepend(Char(f[0]), Parse(f[1..]))
  }

  /** The text one piece stands for, a field replaced by its argument as it is. */
  function PieceValue(p: Piece, appName: string, title: string): string {
    match p
    case Char(c) => [c]
    case Slot(AppName) => appName
    case Slot(Title) => title
  }

  /** The texts `text` gives the pieces, one after another. */
  function Concat(ps: seq<Piece>, text: Piece -> string): string {
    if ps == [] then [] else text(ps[0]) + Concat(ps[1..], text)
  }

  /** The text of the pieces, each field replaced by its argument as it is. */
  function Render(ps: seq<Piece>, appName: string, title: string): string {
    Concat(ps, p => PieceValue(p, appName, title))
  }

  /** `fmt.format(app_name=appName, title=title)`. */
  function Format(fmt: string, appName: string, title: string): Result<string, FormatError> {
    match Parse(fmt)
    case Ok(ps) => Ok(Render(ps, appName, title))
    case Err(e) => Err(e)
  }

  /** How one piece is written in a template: a brace doubled, a field by its name. */
  function PieceText(p: Piece): string {
    match p
    case Char(c) => if c == '{' || c == '}' then [c, c] else [c]
    case Slot(AppName) => "{app_name}"
    case Slot(Title) => "{title}"
  }

  /** A template that reads back as `ps`. */
  function Unparse(ps: seq<Piece>): string {
    Concat(ps, PieceText)
  }

  /** Characters that end or interrupt a field name. */
  predicate PlainNameChar(c: char) {
    c !in {'{', '}', '[', ':', '!'}
  }

  lemma {:induction false} FieldNameEndAt(f: string, i: nat, j: nat)
    requires 1 <= i <= j < |f| && f[j] == '}'
    requires forall k | i <= k < j :: PlainNameChar(f[k])
    ensures FieldNameEnd(f, i) == Ok(j)
    decreases j - i
  {
    if i < j {
      FieldNameEndAt(f, i + 1, j);
    }
  }

  /** A `{` inside a field name, before anything ends it, is the ValueError "unexpected '{' in field name". */
  lemma {:induction false} FieldNameOpenBrace(f: string, i: nat, j: nat)
    requires 1 <= i <= j < |f| && f[j] == '{'
    requires forall k | i <= k < j :: PlainNameChar(f[k])
    ensures FieldNameEnd(f, i) == Err(UnexpectedOpenBrace)
    decreases j - i
  {
    if i < j {
      FieldNameOpenBrace(f, i + 1, j);
    }
  }

  /** So a template such as `{a{b}c}` is rejected with that error, whatever follows. */
  lemma OpenBraceInField(name: string, rest: string, appName: string, title: string)
    requires name != [] && forall k | 0 <= k < |name| :: PlainNameChar(name[k])
    ensures Format("{" + name + "{" + rest, appName, title) == Err(UnexpectedOpenBrace)
  {
    var f := "{" + name + "{" + rest;
    FieldNameOpenBrace(f, 1, |name| + 1);
  }

  lemma ParseField(name: string, field: FieldName, rest: string)
    requires name == (if field == AppName then "app_name" else "title")
    ensures Parse(PieceText(Slot(field)) + rest) == Prepend(Slot(field), Parse(rest))
  {
    var f := "{" + name + "}" + rest;
    assert PieceText(Slot(field)) + rest == f;
    var j := |name| + 1;
    FieldNameEndAt(f, 1, j);
    assert f[1..j] == name;
    assert f[j + 1..] == rest;
  }

  lemma ParseChar(c: char, rest: string)
    ensures Parse(PieceText(Char(c)) + rest) == Prepend(Char(c), Parse(rest))
  {
    var f := PieceText(Char(c)) + rest;
    assert f[0] == c;
    if c == '{' || c == '}' {
      assert f[1] == c && f[2..] == rest;
    } else {
      assert f[1..] == rest;
    }
  }

  /** The first piece reads back first, and reading goes on after its text. */
  lemma ParsePiece(p: Piece, rest: string)
    ensures Parse(PieceText(p) + rest) == Prepend(p, Parse(rest))
  {
    match p
    case Char(c) => ParseChar(c, rest);
    case Slot(AppName) => ParseField("app_name", AppName, rest);
    case Slot(Title) => ParseField("title", Title, rest);
  }

  /** Reading back a written template gives the same pieces. */
  lemma {:induction false} ParseUnparse(ps: seq<Piece>)
    ensures Parse(Unparse(ps)) == Ok(ps)
  {
    if ps != [] {
      ParseUnparse(ps[1..]);
      ParsePiece(ps[0], Unparse(ps[1..]));
      assert [ps[0]] + ps[1..] == ps;
    }
  }

  /** Any template built from text and the two fields formats to the text with the arguments inserted. */
  lemma FormatUnparse(ps: seq<Piece>, appName: string, title: string)
    ensures Format(Unparse(ps), appName, title) == Ok(Render(ps, appName, title))
  {
    ParseUnparse(ps);
  }

  function LiteralPieces(s: string): (ps: seq<Piece>)
    ensures |ps| == |s| && forall i | 0 <= i < |s| :: ps[i] == Char(s[i])
  {
    seq(|s|, i requires 0 <= i < |s| => Char(s[i]))
  }

  /** Concatenation works piece by piece. */
  lemma {:induction false} ConcatAppend(a: seq<Piece>, b: seq<Piece>, text: Piece -> string)
    ensures Concat(a + b, text) == Concat(a, text) + Concat(b, text)
    decreases |a|
  {
    if a == [] {
      assert a + b == b;
    } else {
      ConcatAppend(a[1..], b, text);
      assert (a + b)[0] == a[0] && (a + b)[1..] == a[1..] + b;
    }
  }

  lemma RenderAppend(a: seq<Piece>, b: seq<Piece>, appName: string, title: string)
    ensures Render(a + b, appName, title) == Render(a, appName, title) + Render(b, appName, title)
  {
    ConcatAppend(a, b, p => PieceValue(p, appName, title));
  }

  lemma UnparseAppend(a: seq<Piece>, b: seq<Piece>)
    ensures Unparse(a + b) == Unparse(a) + Unparse(b)
  {
    ConcatAppend(a, b, PieceText);
  }

  lemma {:induction false} LiteralPiecesText(s: string, appName: string, title: string)
    requires forall i | 0 <= i < |s| :: s[i] != '{' && s[i] != '}'
    ensures Render(LiteralPieces(s), appName, title) == s
    ensures Unparse(LiteralPieces(s)) == s
  {
    if s != [] {
      LiteralPiecesText(s[1..], appName, title);
      assert LiteralPieces(s)[1..] == LiteralPieces(s[1..]);
      assert [s[0]] + s[1..] == s;
    }
  }

  /** The pieces of a template `head{app_name}mid{title}`. */
  function TitlePieces(head: string, mid: string): seq<Piece> {
    LiteralPieces(head) + [Slot(AppName)] + LiteralPieces(mid) + [Slot(Title)]
  }

  predicate BraceFree(s: string) {
    forall i | 0 <= i < |s| :: s[i] != '{' && s[i] != '}'
  }

  lemma TitlePiecesText(head: string, mid: string, appName: string, title: string)
    requires BraceFree(head) && BraceFree(mid)
    ensures Unparse(TitlePieces(head, mid)) == head + "{app_name}" + mid + "{title}"
    ensures Render(TitlePieces(head, mid), appName, title) == head + appName + mid + title
  {
    var h := LiteralPieces(head);
    var m := LiteralPieces(mid);
    LiteralPiecesText(head, appName, title);
    LiteralPiecesText(mid, appName, title);
    UnparseAppend(h + [Slot(AppName)] + m, [Slot(Title)]);
    UnparseAppend(h + [Slot(AppName)], m);
    UnparseAppend(h, [Slot(AppName)]);
    RenderAppend(h + [Slot(AppName)] + m, [Slot(Title)], appName, title);
    RenderAppend(h + [Slot(AppName)], m, appName, title);
    RenderAppend(h, [Slot(AppName)], appName, title);
  }

  /** The default title: app name and title go in as they are, braces and all. */
  lemma DefaultTitle(appName: string, title: string)
    ensures Format(DefaultTitleFormat, appName, title) == Ok("[Gotify→" + appName + "] - " + title)
  {
    var head, mid := "[Gotify→", "] - ";
    assert BraceFree(head) && BraceFree(mid);
    TitlePiecesText(head, mid, appName, title);
    assert head + "{app_name}" + mid + "{title}" == DefaultTitleFormat;
    FormatUnparse(TitlePieces(head, mid), appName, title);
  }

  /** A field with any other name is a KeyError. */
  lemma UnknownField(name: string, rest: string, appName: string, title: string)
    requires name != [] && name != "app_name" && name != "title"
    requires forall i | 0 <= i < |name| :: name[i] != '{' && name[i] != '}' && name[i] !in {'[', '.', ':', '!'}
    requires !IsDecimal(name[0])
    ensures Format("{" + name + "}" + rest, appName, title) == Err(KeyError(name))
  {
    var f := "{" + name + "}" + rest;
    var j := |name| + 1;
    FieldNameEndAt(f, 1, j);
    assert f[1..j] == name;
  }

  // ---------------------------------------------------------------- compose_message

  const Separator := "\n\n"

  /** `compose_message`: the filled title, and the title and body joined by a blank line. */
  function ComposeMessage(fmt: string, appName: string, title: string, body: string)
    : (r: Result<(string, string), FormatError>)
    ensures r.Ok? <==> Format(fmt, appName, title).Ok?
    ensures r.Ok? ==> r.value.0 == Format(fmt, appName, title).value
    ensures r.Ok? ==> var (formatted, full) := r.value;
      |full| == |formatted| + 2 + |body| &&
      full[..|formatted|] == formatted && full[|formatted|..|formatted| + 2] == Separator &&
      full[|formatted| + 2..] == body
  {
    match Format(fmt, appName, title)
    case Err(e) => Err(e)
    case Ok(formatted) =>
      var full := formatted + Separator + body;
      assert full[..|formatted|] == formatted;
      assert full[|formatted|..|formatted| + 2] == Separator;
      assert full[|formatted| + 2..] == body;
      Ok((formatted, full))
  }

  // ---------------------------------------------------------------- send_message

  /** The one sender call `send_message` makes, with its arguments. */
  datatype Plan =
    | TextPlan(message: string, markup: Option<Value>)
    | DocumentPlan(title: string, content: string, markup: Option<Value>)

  /** `build_copy_code_markup(code) if code else None`, with the code taken from `text`. */
  function CodeMarkup(text: string): (r: Option<Value>)
    ensures r.Some? <==> ExtractVerificationCode(text).Some?
    ensures r.Some? ==> r == Some(BuildCopyCodeMarkup(ExtractVerificationCode(text).value))
  {
    var code := ExtractVerificationCode(text);
    if code.Some? && code.value != [] then Some(BuildCopyCodeMarkup(code.value)) else None
  }

  /** The routing of `send_message`: a document from `limit` characters on, a text message below. */
  function PlanSend(fmt: string, limit: int, appName: string, title: string, body: string)
    : (r: Result<Plan, FormatError>)
    ensures r.Ok? <==> Format(fmt, appName, title).Ok?
    ensures r.Ok? ==>
      var (formatted, full) := ComposeMessage(fmt, appName, title, body).value;
      (r.value.DocumentPlan? <==> |full| >= limit) &&
      (r.value.DocumentPlan? ==> r.value.title == formatted && r.value.content == full) &&
      (r.value.TextPlan? ==> r.value.message == full) &&
      r.value.markup == CodeMarkup(full)
  {
    match ComposeMessage(fmt, appName, title, body)
    case Err(e) => Err(e)
    case Ok((formatted, full)) =>
      var markup := CodeMarkup(full);
      if |full| >= limit then Ok(DocumentPlan(formatted, full, markup)) else Ok(TextPlan(full, markup))
  }

  /** One character under the limit still goes as a text message; at the limit it goes as a file. */
  lemma LimitBoundary(fmt: string, limit: int, appName: string, title: string, body: string)
    requires Format(fmt, appName, title).Ok?
    ensures var full := ComposeMessage(fmt, appName, title, body).value.1;
      (|full| == limit - 1 ==> PlanSend(fmt, limit, appName, title, body).value.TextPlan?) &&
      (|full| == limit ==> PlanSend(fmt, limit, appName, title, body).value.DocumentPlan?)
  {
  }

  /** The length limit picks the route only: the button is the same either way. */
  lemma MarkupIndependentOfRoute(fmt: string, limit1: int, limit2: int, appName: string, title: string, body: string)
    requires Format(fmt, appName, title).Ok?
    ensures PlanSend(fmt, limit1, appName, title, body).value.markup ==
            PlanSend(fmt, limit2, appName, title, body).value.markup
  {
  }

  /** With the default template, the code is looked for in the title line as well as in the body. */
  lemma MarkupFromWholeMessage(limit: int, appName: string, title: string, body: string)
    ensures PlanSend(DefaultTitleFormat, limit, appName, title, body).Ok?
    ensures PlanSend(DefaultTitleFormat, limit, appName, title, body).value.markup ==
            CodeMarkup("[Gotify→" + appName + "] - " + title + Separator + body)
  {
    DefaultTitle(appName, title);
  }

  /**
   * `send_message`: make the one call the plan names and return its result.
   * `outcomes` are the POST outcomes that call would meet, `chatId` is
   * `telegram.chat_id`, `fmt` and `limit` the configured template and length.
   */
  method SendMessage(outcomes: seq<Outcome>, chatId: Value, fmt: string, limit: int,
                     appName: string, title: string, body: string)
    returns (r: Result<bool, FormatError>, req: Option<Request>)
    requires |outcomes| > MaxManualRetries
    ensures r.Err? <==> Format(fmt, appName, title).Err?
    ensures r.Ok? ==> r.value == Deliver(outcomes, 0).sent
    ensures r.Ok? <==> req.Some?
    ensures r.Ok? ==> var plan := PlanSend(fmt, limit, appName, title, body).value;
      match plan
      case TextPlan(message, markup) => TextRequestFor(req.value, chatId, message, markup)
      case DocumentPlan(formatted, content, markup) =>
        DocumentRequestFor(req.value, chatId, formatted, content, markup) &&
        Decode(req.value.document.value.bytes) == Some(content)
  {
    var plan := PlanSend(fmt, limit, appName, title, body);
    if plan.Err? {
      return Err(plan.error), None;
    }
    match plan.value
    case TextPlan(message, markup) =>
      var sent, request := SendTextMessage(outcomes, chatId, message, markup);
      r, req := Ok(sent), Some(request);
    case DocumentPlan(formatted, content, markup) =>
      var sent, request := SendDocument(outcomes, chatId, formatted, content, markup);
      r, req := Ok(sent), Some(request);
  }
}
