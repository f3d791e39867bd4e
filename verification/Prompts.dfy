/** The placeholder language of voice/prompts.py: `{{ name }}` inside a template. */
module Prompts {
  import opened Base
  import opened Models

  const SUPPORTED := {
    "call_id", "called_phone_number", "caller_name", "caller_phone_number", "constraints_json",
    "context_json", "direction", "greeting_json", "language", "may_accept_costs", "may_commit",
    "may_disclose_json", "may_transfer", "objective", "organization_name", "outcome_json",
    "permissions_json", "target_name", "target_phone_number"}

  /** A piece of a template: a character that stands for itself, or a placeholder with the white
      space around its name. */
  datatype Piece = Char(c: char) | Hole(left: string, name: string, right: string) {
    function Text(): string {
      match this
      case Char(c) => [c]
      case Hole(left, name, right) => "{{" + left + name + right + "}}"
    }
  }

  predicate Lower(c: char) {
    'a' <= c <= 'z'
  }

  const IsBlank: char -> bool := (c: char) => IsSpace(c)
  const InName: char -> bool := (c: char) => Lower(c) || '0' <= c <= '9' || c == '_'

  predicate All(s: string, kind: char -> bool) {
    forall c <- s :: kind(c)
  }

  predicate IsName(name: string) {
    name != [] && Lower(name[0]) && All(name, InName)
  }

  predicate IsPiece(p: Piece) {
    p.Hole? ==> All(p.left, IsBlank) && IsName(p.name) && All(p.right, IsBlank)
  }

  // ---- The regular expression ----

  /** What a greedy class repetition consumes. */
  function TakeWhile(s: string, kind: char -> bool): (r: string)
    ensures r <= s && All(r, kind)
    ensures |r| < |s| ==> !kind(s[|r|])
  {
    if s != [] && kind(s[0]) then [s[0]] + TakeWhile(s[1..], kind) else []
  }

  /** The pattern at the start of a text. No two neighbouring parts of it share a character, so no
      backtracking finds another match. */
  function MatchHole(text: string): (r: Option<Piece>)
    ensures r.Some? ==> r.value.Hole? && |r.value.Text()| <= |text|
  {
    if !("{{" <= text) then None
    else
      var left := TakeWhile(text[2..], IsBlank);
      var atName := text[2..][|left|..];
      var name := TakeWhile(atName, InName);
      var atRight := atName[|name|..];
      var right := TakeWhile(atRight, IsBlank);
      if name == [] || !Lower(name[0]) || !("}}" <= atRight[|right|..]) then None
      else Some(Hole(left, name, right))
  }

  /** `findall` and `sub`: leftmost matches, one after the other. */
  function Scan(text: string): seq<Piece>
    decreases |text|
  {
    if text == [] then []
    else
      var hole := MatchHole(text);
      if hole.Some? then [hole.value] + Scan(text[|hole.value.Text()|..]) else [Char(text[0])] + Scan(text[1..])
  }

  // ---- Templates ----

  function Source(pieces: seq<Piece>): string {
    if pieces == [] then [] else pieces[0].Text() + Source(pieces[1..])
  }

  /** `sub("", text)` */
  function Remainder(pieces: seq<Piece>): string {
    if pieces == [] then []
    else (if pieces[0].Char? then [pieces[0].c] else []) + Remainder(pieces[1..])
  }

  /** `sub(values, text)`: a value is inserted as it is. */
  function Fill(pieces: seq<Piece>, values: map<string, string>): string
    requires Names(pieces) <= values.Keys
  {
    if pieces == [] then []
    else (if pieces[0].Char? then [pieces[0].c] else values[pieces[0].name]) + Fill(pieces[1..], values)
  }

  function Names(pieces: seq<Piece>): set<string> {
    set p | p in pieces && p.Hole? :: p.name
  }

  predicate Contains(text: string, pair: string) {
    exists i :: 0 <= i <= |text| && pair <= text[i..]
  }

  /** `_PromptTemplate.load`, given the decoded file. */
  function Load(file: string): Result<string> {
    var text := Strip(file);
    if text == [] then Err(InvalidTemplate)
    else if !(Names(Scan(text)) <= SUPPORTED) then Err(InvalidTemplate)
    else if Contains(Remainder(Scan(text)), "{{") || Contains(Remainder(Scan(text)), "}}") then Err(InvalidTemplate)
    else Ok(text)
  }

  /** `_PromptTemplate.render` */
  function Render(text: string, values: map<string, string>): Result<string> {
    if !(Names(Scan(text)) <= values.Keys) then Err(MissingValue)
    else
      var rendered := Strip(Fill(Scan(text), values));
      if rendered == [] then Err(InvalidTemplate) else Ok(rendered)
  }

  // ---- Well-formed templates, without the scanner ----

  /** A reading of the text as characters and supported placeholders, in which no brace pair is left
      once the placeholders are taken out. */
  ghost predicate Reads(pieces: seq<Piece>, text: string) {
    && Source(pieces) == text
    && (forall p <- pieces :: IsPiece(p))
    && Names(pieces) <= SUPPORTED
    && !Contains(Remainder(pieces), "{{") && !Contains(Remainder(pieces), "}}")
  }

  lemma {:induction false} TakeAll(a: string, rest: string, kind: char -> bool)
    requires All(a, kind) && (rest == [] || !kind(rest[0]))
    ensures TakeWhile(a + rest, kind) == a
  {
    if a == [] {
      assert a + rest == rest;
    } else {
      assert (a + rest)[1..] == a[1..] + rest;
      assert a[0] in a;
      TakeAll(a[1..], rest, kind);
    }
  }

  lemma Regroup(a: string, b: string, c: string, d: string, e: string, rest: string)
    ensures a + b + c + d + e + rest == a + (b + (c + (d + (e + rest))))
  {
  }

  lemma Behind(r: string, rest: string)
    ensures (r + rest)[|r|..] == rest && r <= r + rest
  {
  }

  lemma Front(r: string, s: string)
    requires r <= s
    ensures s == r + s[|r|..]
  {
  }

  /** Neighbouring parts of a placeholder share no character. */
  lemma PartsDiffer(p: Piece)
    requires p.Hole? && IsPiece(p)
    ensures !IsBlank(p.name[0]) && !IsBlank('}') && !InName('}')
    ensures p.right != [] ==> !InName(p.right[0])
  {
    assert p.right != [] ==> IsBlank(p.right[0]);
  }

  lemma MatchParts(left: string, name: string, right: string, rest: string)
    requires All(left, IsBlank) && IsName(name) && All(right, IsBlank)
    requires !IsBlank(name[0]) && !IsBlank('}') && !InName('}') && (right != [] ==> !InName(right[0]))
    ensures MatchHole("{{" + (left + (name + (right + ("}}" + rest))))) == Some(Hole(left, name, right))
  {
    hide All, Lower, IsSpace, IsBlank, InName;
    var end := "}}" + rest;
    var atRight := right + end;
    var atName := name + atRight;
    TakeAll(left, atName, IsBlank);
    TakeAll(name, atRight, InName);
    TakeAll(right, end, IsBlank);
    hide TakeWhile;
    Behind("{{", left + atName);
    Behind(left, atName);
    Behind(name, atRight);
    Behind(right, end);
  }

  /** The pattern finds every placeholder, whatever follows it. */
  lemma HoleMatches(p: Piece, rest: string)
    requires p.Hole? && IsPiece(p)
    ensures MatchHole(p.Text() + rest) == Some(p)
  {
    PartsDiffer(p);
    hide All, IsSpace, Lower, IsBlank, InName, MatchHole;
    Regroup("{{", p.left, p.name, p.right, "}}", rest);
    MatchParts(p.left, p.name, p.right, rest);
  }

  /** What the pattern matches is a placeholder at the start of the text. */
  lemma MatchIsPiece(text: string)
    requires MatchHole(text).Some?
    ensures var p := MatchHole(text).value; IsPiece(p) && p.Text() <= text
  {
    hide All, IsSpace;
    var p := MatchHole(text).value;
    var atLeft := text[2..];
    var atName := atLeft[|p.left|..];
    var atRight := atName[|p.name|..];
    var atEnd := atRight[|p.right|..];
    Front("{{", text);
    Front(p.left, atLeft);
    Front(p.name, atName);
    Front(p.right, atRight);
    Front("}}", atEnd);
    hide MatchHole, TakeWhile;
    Regroup("{{", p.left, p.name, p.right, "}}", atEnd[2..]);
    assert text == p.Text() + atEnd[2..];
  }

  lemma ScanStep(text: string)
    requires text != []
    ensures var p := if MatchHole(text).Some? then MatchHole(text).value else Char(text[0]);
            p.Text() <= text && p.Text() != [] && IsPiece(p) && Scan(text) == [p] + Scan(text[|p.Text()|..])
  {
    if MatchHole(text).Some? {
      MatchIsPiece(text);
    }
    hide MatchHole, All, IsName;
  }

  lemma {:induction false} ScanReads(text: string)
    ensures Source(Scan(text)) == text && forall p <- Scan(text) :: IsPiece(p)
    decreases |text|
  {
    if text != [] {
      ScanStep(text);
      var p := if MatchHole(text).Some? then MatchHole(text).value else Char(text[0]);
      hide MatchHole, IsPiece, Scan;
      ScanReads(text[|p.Text()|..]);
      Front(p.Text(), text);
    }
  }

  /** After an opening brace pair a placeholder goes on with white space or its name. */
  lemma NoThirdBrace(text: string)
    requires MatchHole(text).Some?
    ensures |text| > 2 && text[..2] == "{{" && text[2] != '{'
  {
    var p := MatchHole(text).value;
    MatchIsPiece(text);
    hide MatchHole;
    assert text[..|p.Text()|] == p.Text();
    assert text[2] == p.Text()[2] == if p.left == [] then p.name[0] else p.left[0];
    assert p.left != [] ==> p.left[0] in p.left;
  }

  lemma ContainsLater(c: char, text: string, pair: string)
    requires Contains(text, pair)
    ensures Contains([c] + text, pair)
  {
    var i :| 0 <= i <= |text| && pair <= text[i..];
    assert ([c] + text)[i + 1..] == text[i..];
  }

  /** A text of pieces that starts with an opening brace as a character and goes on with another
      brace has a third one, or keeps a pair once the placeholders are out. */
  lemma SecondBrace(pieces: seq<Piece>)
    requires pieces != [] && pieces[0] == Char('{') && |Source(pieces)| > 2 && Source(pieces)[1] == '{'
    ensures Source(pieces)[2] == '{' || Contains(Remainder(pieces), "{{")
  {
    var rest := pieces[1..];
    assert rest != [];
    if rest[0].Char? {
      assert Remainder(pieces) == ['{'] + (['{'] + Remainder(rest[1..]));
      assert "{{" <= Remainder(pieces)[0..];
    } else {
      assert rest[0].Text()[1] == '{';
    }
  }

  /** A reading never takes the first brace of a placeholder for a character. */
  lemma CharStaysChar(pieces: seq<Piece>, text: string)
    requires Reads(pieces, text) && pieces != [] && pieces[0].Char?
    ensures MatchHole(text).None?
  {
    if MatchHole(text).Some? {
      NoThirdBrace(text);
      hide MatchHole;
      SecondBrace(pieces);
    }
  }

  /** A reading of a template is the one the scanner finds. */
  lemma {:induction false} ReadingIsScan(pieces: seq<Piece>, text: string)
    requires Reads(pieces, text)
    ensures pieces == Scan(text)
    decreases |pieces|
  {
    hide MatchHole, Remainder, Contains, IsPiece, Names;
    if pieces != [] {
      var first, rest := pieces[0], pieces[1..];
      var after := text[|first.Text()|..];
      assert text == first.Text() + Source(rest) && after == Source(rest);
      assert pieces == [first] + rest;
      if first.Char? {
        CharStaysChar(pieces, text);
      } else {
        HoleMatches(first, after);
      }
      TailReads(pieces);
      ReadingIsScan(rest, after);
    }
  }

  lemma TailReads(pieces: seq<Piece>)
    requires Reads(pieces, Source(pieces)) && pieces != []
    ensures Reads(pieces[1..], Source(pieces[1..]))
  {
    if Contains(Remainder(pieces[1..]), "{{") {
      TailClean(pieces, "{{");
    }
    if Contains(Remainder(pieces[1..]), "}}") {
      TailClean(pieces, "}}");
    }
    hide Contains, IsPiece, Remainder, Source;
  }

  lemma TailClean(pieces: seq<Piece>, pair: string)
    requires pieces != [] && Contains(Remainder(pieces[1..]), pair)
    ensures Contains(Remainder(pieces), pair)
  {
    hide Contains;
    if pieces[0].Char? {
      ContainsLater(pieces[0].c, Remainder(pieces[1..]), pair);
    } else {
      assert Remainder(pieces) == Remainder(pieces[1..]);
    }
  }

  /** A file is accepted exactly when its stripped text is not empty and can be read as characters
      and supported placeholders, and then there is exactly one way to read it. */
  lemma AcceptedIffReadable(file: string)
    ensures Load(file).Ok? <==> Strip(file) != [] && exists pieces :: Reads(pieces, Strip(file))
    ensures forall p, q :: Reads(p, Strip(file)) && Reads(q, Strip(file)) ==> p == q
  {
    var text := Strip(file);
    ScanReads(text);
    forall p | Reads(p, text) ensures p == Scan(text) {
      ReadingIsScan(p, text);
    }
    if Load(file).Ok? {
      assert Reads(Scan(text), text);
    }
  }

  // ---- Rendering ----

  lemma {:induction false} BlankStrips(s: string)
    ensures Strip(s) == [] <==> All(s, IsBlank)
    decreases |s|
  {
    if s != [] {
      if IsSpace(s[0]) {
        BlankStrips(s[1..]);
        assert s == [s[0]] + s[1..];
      } else {
        assert s[0] in s;
        StripKeepsFirst(s);
      }
    }
  }

  lemma {:induction false} StripKeepsFirst(s: string)
    requires s != [] && !IsSpace(s[0])
    ensures StripRight(s) != []
    decreases |s|
  {
    if IsSpace(s[|s| - 1]) {
      StripKeepsFirst(s[..|s| - 1]);
    }
  }

  lemma {:induction false} FillConcat(a: seq<Piece>, b: seq<Piece>, values: map<string, string>)
    requires Names(a + b) <= values.Keys
    ensures Names(a) <= values.Keys && Names(b) <= values.Keys
    ensures Fill(a + b, values) == Fill(a, values) + Fill(b, values)
    decreases |a|
  {
    SubNames(a, a + b);
    SubNames(b, a + b);
    if a == [] {
      assert a + b == b;
    } else {
      assert (a + b)[1..] == a[1..] + b;
      SubNames(a[1..] + b, a + b);
      FillConcat(a[1..], b, values);
    }
  }

  lemma SubNames(a: seq<Piece>, b: seq<Piece>)
    requires forall p <- a :: p in b
    ensures Names(a) <= Names(b)
  {
  }

  /** An accepted template renders with every set of values that covers the supported names: the
      unique reading is filled in one pass and stripped, and rendering fails exactly when that
      leaves nothing but white space. */
  lemma RenderFillsTheReading(file: string, pieces: seq<Piece>, values: map<string, string>)
    requires Load(file).Ok? && Reads(pieces, Load(file).value) && SUPPORTED <= values.Keys
    ensures var filled := Fill(pieces, values);
            Render(Load(file).value, values) == if All(filled, IsBlank) then Err(InvalidTemplate) else Ok(Strip(filled))
  {
    ReadingIsScan(pieces, Load(file).value);
    BlankStrips(Fill(pieces, values));
  }

  /** A placeholder is replaced by its value verbatim, whatever braces the value holds, and what is
      around it is filled independently. */
  lemma ValuesAreNotScanned(before: seq<Piece>, hole: Piece, behind: seq<Piece>, values: map<string, string>)
    requires hole.Hole? && Names(before + [hole] + behind) <= values.Keys
    ensures Names(before) <= values.Keys && Names(behind) <= values.Keys && hole.name in values
    ensures Fill(before + [hole] + behind, values) == Fill(before, values) + values[hole.name] + Fill(behind, values)
  {
    var all := before + [hole] + behind;
    FillConcat(before + [hole], behind, values);
    FillConcat(before, [hole], values);
    assert hole in all;
    assert Fill([hole], values) == values[hole.name];
  }

  // ---- The values ----

  /** What `_template_values` reads from the call; the JSON texts are carried as they are. */
  datatype Facts = Facts(
    callId: string,
    calledNumber: Option<Json>,
    callerName: Option<Json>,
    organization: Option<Json>,
    targetNumber: string,
    targetName: Option<string>,
    direction: Direction,
    objective: string,
    permissions: Permissions,
    constraintsJson: string,
    contextJson: string,
    discloseJson: string,
    permissionsJson: string)

  function Shown(value: Option<Json>, default: string): string {
    match value
    case Some(Str(s, _)) => if s == "" then default else s
    case Some(Raw(text, truthy)) => if truthy then text else default
    case None => default
  }

  function Bool(b: bool): string {
    if b then "true" else "false"
  }

  function TemplateValues(f: Facts, language: string): map<string, string> {
    map[
      "call_id" := f.callId,
      "called_phone_number" := Shown(f.calledNumber, "unbekannt"),
      "caller_name" := Shown(f.callerName, ""),
      "caller_phone_number" := f.targetNumber,
      "constraints_json" := f.constraintsJson,
      "context_json" := f.contextJson,
      "direction" := if f.direction.Inbound? then "inbound" else "outbound",
      "greeting_json" := "",
      "language" := language,
      "may_accept_costs" := Bool(f.permissions.mayAcceptCosts),
      "may_commit" := Bool(f.permissions.mayCommit),
      "may_disclose_json" := f.discloseJson,
      "may_transfer" := Bool(f.permissions.mayTransfer),
      "objective" := f.objective,
      "organization_name" := Shown(f.organization, "unbekannte Organisation"),
      "outcome_json" := "",
      "permissions_json" := f.permissionsJson,
      "target_name" := if f.targetName.GetOr("") == "" then "unbekannt" else f.targetName.value,
      "target_phone_number" := f.targetNumber]
  }

  /** What the placeholders of the call itself show. */
  lemma CallShows(f: Facts, language: string)
    ensures var v := TemplateValues(f, language);
            && "call_id" in v && v["call_id"] == f.callId
            && "objective" in v && v["objective"] == f.objective
            && "language" in v && v["language"] == language
            && "target_phone_number" in v && v["target_phone_number"] == f.targetNumber
            && "caller_phone_number" in v && v["caller_phone_number"] == f.targetNumber
  {
    hide Shown, Bool;
  }

  /** What the placeholders of its rules show. */
  lemma RulesShow(f: Facts, language: string)
    ensures var v := TemplateValues(f, language);
            && "constraints_json" in v && v["constraints_json"] == f.constraintsJson
            && "context_json" in v && v["context_json"] == f.contextJson
            && "permissions_json" in v && v["permissions_json"] == f.permissionsJson
            && "may_disclose_json" in v && v["may_disclose_json"] == f.discloseJson
  {
    hide Shown, Bool;
  }

  /** What the placeholders of a choice show. */
  lemma ChoicesShow(f: Facts, language: string)
    ensures var v := TemplateValues(f, language);
            && "direction" in v && v["direction"] == (if f.direction == Inbound then "inbound" else "outbound")
            && "may_commit" in v && v["may_commit"] == (if f.permissions.mayCommit then "true" else "false")
            && "may_transfer" in v && v["may_transfer"] == (if f.permissions.mayTransfer then "true" else "false")
            && "may_accept_costs" in v
            && v["may_accept_costs"] == (if f.permissions.mayAcceptCosts then "true" else "false")
  {
    hide Shown;
  }

  /** What the placeholders of a name show that may be missing or empty. */
  lemma NamesShow(f: Facts, language: string)
    ensures var v := TemplateValues(f, language);
            && "target_name" in v
            && v["target_name"] == (if f.targetName in {None, Some("")} then "unbekannt" else f.targetName.value)
            && "caller_name" in v && v["caller_name"] == Shown(f.callerName, "")
            && "organization_name" in v && v["organization_name"] == Shown(f.organization, "unbekannte Organisation")
            && "called_phone_number" in v && v["called_phone_number"] == Shown(f.calledNumber, "unbekannt")
  {
    hide Shown, Bool;
  }

  /** Rendering a loaded template for a call never misses a value, also with the greeting or the
      outcome filled in. */
  lemma NoValueIsMissing(file: string, f: Facts, language: string, extra: map<string, string>)
    requires Load(file).Ok?
    ensures Render(Load(file).value, TemplateValues(f, language) + extra) != Err(MissingValue)
  {
    hide TemplateValues;
    ValuesCoverSupported(f, language);
    AcceptedIffReadable(file);
    var pieces :| Reads(pieces, Strip(file));
    RenderFillsTheReading(file, pieces, TemplateValues(f, language) + extra);
  }

  lemma ValuesCoverSupported(f: Facts, language: string)
    ensures SUPPORTED == TemplateValues(f, language).Keys
  {
  }
}
