/**
 The macro token syntax of the Sentinel macro service: scanning a query for
 `${name}` tokens wrapped in backticks (`get_used_macros`, a non-overlapping
 left-to-right `re.findall`) and replacing every occurrence of one name's token
 (`replace_macro`, a left-to-right non-overlapping `re.sub`).

 Besides the scanner itself the module defines templates: texts assembled from
 plain pieces and macro references. On templates the scanner and the replacement
 have a direct, position-free meaning, proved below.
 */
module MacroScan {
  import opened Base

  /** The character class `[a-zA-Z-0-9]`: ASCII letters, the hyphen and digits. */
  predicate IsNameChar(c: char) {
    ('a' <= c <= 'z') || ('A' <= c <= 'Z') || ('0' <= c <= '9') || c == '-'
  }

  predicate IsMacroName(name: string) {
    |name| > 0 && forall i :: 0 <= i < |name| ==> IsNameChar(name[i])
  }

  /** The token that references macro `name`. */
  function Token(name: string): string {
    "`${" + name + "}`"
  }

  /** The characters every token starts with. */
  const OPENING: string := "`${"

  /** Length of the longest prefix of `s` made of name characters. */
  function NameRun(s: string): (n: nat)
    ensures n <= |s|
    ensures forall i :: 0 <= i < n ==> IsNameChar(s[i])
    ensures n < |s| ==> !IsNameChar(s[n])
    decreases |s|
  {
    if |s| > 0 && IsNameChar(s[0]) then 1 + NameRun(s[1..]) else 0
  }

  /** The pattern anchored at the start of `s`: the referenced name when `s` begins with a token. */
  function TokenAt(s: string): (r: Option<string>)
    ensures r.Some? ==> IsMacroName(r.value) && IsPrefix(Token(r.value), s)
  {
    if IsPrefix(OPENING, s) then
      var n := NameRun(s[3..]);
      if 0 < n && 3 + n + 2 <= |s| && s[3 + n] == '}' && s[3 + n + 1] == '`' then
        assert s[..|Token(s[3..3 + n])|] == Token(s[3..3 + n]);
        Some(s[3..3 + n])
      else None
    else None
  }

  /** `get_used_macros`: the names of all tokens found by a left-to-right,
      non-overlapping scan, in order and with repetitions. */
  function UsedMacros(s: string): (names: seq<string>)
    ensures forall i :: 0 <= i < |names| ==> IsMacroName(names[i])
    ensures !Occurs(OPENING, s) ==> names == []
    decreases |s|
  {
    if |s| == 0 then []
    else match TokenAt(s)
      case Some(name) => [name] + UsedMacros(s[|Token(name)|..])
      case None => UsedMacros(s[1..])
  }

  /** Python's `re.sub` with a literal pattern: every non-overlapping occurrence of
      `pattern`, found scanning left to right, becomes `replacement`. */
  function ReplaceAll(text: string, pattern: string, replacement: string): (r: string)
    requires |pattern| > 0
    ensures !Occurs(pattern, text) ==> r == text
    ensures replacement == pattern ==> r == text
    decreases |text|
  {
    if |text| == 0 then ""
    else if IsPrefix(pattern, text) then
      assert text == pattern + text[|pattern|..];
      replacement + ReplaceAll(text[|pattern|..], pattern, replacement)
    else [text[0]] + ReplaceAll(text[1..], pattern, replacement)
  }

  /** A replacement `re.sub` copies verbatim: one without backslashes. */
  predicate Literal(replacement: string) {
    forall i :: 0 <= i < |replacement| ==> replacement[i] != '\\'
  }

  /** `replace_macro`: every token for `name` replaced by `replacement`. */
  function ReplaceMacro(text: string, name: string, replacement: string): (r: string)
    requires IsMacroName(name)
    requires Literal(replacement)
    ensures !Occurs(Token(name), text) ==> r == text
    ensures replacement == Token(name) ==> r == text
  {
    ReplaceAll(text, Token(name), replacement)
  }

  /** Every name can be replaced by its content. */
  predicate Replaceable(names: seq<string>, contentOf: string -> string) {
    forall i :: 0 <= i < |names| ==> IsMacroName(names[i]) && Literal(contentOf(names[i]))
  }

  /** Each name of `names` replaced in turn, each in the text the previous
      replacements produced. */
  function ReplaceEach(text: string, names: seq<string>, contentOf: string -> string): string
    requires Replaceable(names, contentOf)
    decreases |names|
  {
    if |names| == 0 then text
    else ReplaceEach(ReplaceMacro(text, names[0], contentOf(names[0])), names[1..], contentOf)
  }

  // ---------------------------------------------------------------------------
  // Templates

  datatype Piece = Text(text: string) | Ref(name: string)

  /** Text without backticks: no token can start inside it. */
  predicate Plain(t: string) {
    forall i :: 0 <= i < |t| ==> t[i] != '`'
  }

  /** Text without backticks or dollar signs: it can neither start a token nor
      complete one whose opening backtick precedes it. */
  predicate Inert(t: string) {
    forall i :: 0 <= i < |t| ==> t[i] != '`' && t[i] != '$'
  }

  predicate PieceWith(p: Piece, textOk: string -> bool) {
    match p
    case Text(t) => textOk(t)
    case Ref(name) => IsMacroName(name)
  }

  /** Plain text and well-formed references. */
  predicate IsTemplate(ps: seq<Piece>) {
    forall i :: 0 <= i < |ps| ==> PieceWith(ps[i], Plain)
  }

  /** Inert text and well-formed references. */
  predicate IsInertTemplate(ps: seq<Piece>) {
    forall i :: 0 <= i < |ps| ==> PieceWith(ps[i], Inert)
  }

  function RenderPiece(p: Piece): string {
    match p
    case Text(t) => t
    case Ref(name) => Token(name)
  }

  function Render(ps: seq<Piece>): string
    decreases |ps|
  {
    if |ps| == 0 then "" else RenderPiece(ps[0]) + Render(ps[1..])
  }

  function RefNames(ps: seq<Piece>): seq<string>
    decreases |ps|
  {
    if |ps| == 0 then []
    else (if ps[0].Ref? then [ps[0].name] else []) + RefNames(ps[1..])
  }

  function SubstPiece(p: Piece, name: string, content: string): Piece {
    if p == Ref(name) then Text(content) else p
  }

  /** The template with every reference to `name` turned into the text `content`. */
  function Subst(ps: seq<Piece>, name: string, content: string): (r: seq<Piece>)
    ensures |r| == |ps|
    ensures forall i :: 0 <= i < |ps| ==> r[i] == SubstPiece(ps[i], name, content)
    decreases |ps|
  {
    if |ps| == 0 then [] else [SubstPiece(ps[0], name, content)] + Subst(ps[1..], name, content)
  }

  function ResolvePiece(p: Piece, contentOf: string -> string): Piece {
    match p
    case Text(t) => p
    case Ref(name) => Text(contentOf(name))
  }

  /** The template with every reference turned into its content. */
  function Resolve(ps: seq<Piece>, contentOf: string -> string): (r: seq<Piece>)
    ensures |r| == |ps|
    ensures forall i :: 0 <= i < |ps| ==> r[i] == ResolvePiece(ps[i], contentOf)
    decreases |ps|
  {
    if |ps| == 0 then [] else [ResolvePiece(ps[0], contentOf)] + Resolve(ps[1..], contentOf)
  }

  /** Every reference of `ps` names a member of `names`. */
  predicate RefsWithin(ps: seq<Piece>, names: seq<string>) {
    forall i :: 0 <= i < |ps| && ps[i].Ref? ==> ps[i].name in names
  }

  // ---------------------------------------------------------------------------
  // Scanning

  lemma {:induction false} NameRunExact(t: string, k: nat)
    requires k < |t|
    requires forall i :: 0 <= i < k ==> IsNameChar(t[i])
    requires !IsNameChar(t[k])
    ensures NameRun(t) == k
    decreases k
  {
    if k > 0 {
      NameRunExact(t[1..], k - 1);
    }
  }

  /** The anchored pattern recognises exactly the texts that start with a token,
      and the name it reports is the one in that token. */
  lemma TokenAtComplete(name: string, rest: string)
    requires IsMacroName(name)
    ensures TokenAt(Token(name) + rest) == Some(name)
  {
    var s := Token(name) + rest;
    assert s[..3] == OPENING;
    assert s[3..] == name + "}`" + rest;
    NameRunExact(s[3..], |name|);
    assert s[3..3 + |name|] == name;
  }

  lemma {:induction false} UsedMacrosSkipsPlain(t: string, rest: string)
    requires Plain(t)
    ensures UsedMacros(t + rest) == UsedMacros(rest)
    decreases |t|
  {
    if |t| > 0 {
      var s := t + rest;
      assert s[0] == t[0];
      assert TokenAt(s) == None;
      assert s[1..] == t[1..] + rest;
      UsedMacrosSkipsPlain(t[1..], rest);
    } else {
      assert t + rest == rest;
    }
  }

  lemma UsedMacrosAfterToken(name: string, rest: string)
    requires IsMacroName(name)
    ensures UsedMacros(Token(name) + rest) == [name] + UsedMacros(rest)
  {
    TokenAtComplete(name, rest);
    assert (Token(name) + rest)[|Token(name)|..] == rest;
  }

  /** On a template the scanner reports exactly its references, in order and with
      repetitions: text outside the tokens contributes nothing. */
  lemma {:induction false} UsedMacrosOfTemplate(ps: seq<Piece>)
    requires IsTemplate(ps)
    ensures UsedMacros(Render(ps)) == RefNames(ps)
    decreases |ps|
  {
    if |ps| > 0 {
      assert IsTemplate(ps[1..]) by {
        forall i | 0 <= i < |ps[1..]| ensures PieceWith(ps[1..][i], Plain) {
          assert ps[1..][i] == ps[i + 1];
        }
      }
      UsedMacrosOfTemplate(ps[1..]);
      assert PieceWith(ps[0], Plain);
      match ps[0]
      case Text(t) =>
        UsedMacrosSkipsPlain(t, Render(ps[1..]));
      case Ref(name) =>
        UsedMacrosAfterToken(name, Render(ps[1..]));
    }
  }

  /** A text with no opening sequence references nothing. */
  lemma NoOpeningNoMacros(s: string)
    requires !Occurs(OPENING, s)
    ensures UsedMacros(s) == []
  {
  }

  // ---------------------------------------------------------------------------
  // Replacement

  lemma {:induction false} ReplaceAllSkipsText(t: string, rest: string, pattern: string, replacement: string)
    requires |pattern| > 0
    requires forall i :: 0 <= i < |t| ==> t[i] != pattern[0]
    ensures ReplaceAll(t + rest, pattern, replacement) == t + ReplaceAll(rest, pattern, replacement)
    decreases |t|
  {
    if |t| > 0 {
      var s := t + rest;
      assert s[0] == t[0];
      assert !IsPrefix(pattern, s);
      assert s[1..] == t[1..] + rest;
      ReplaceAllSkipsText(t[1..], rest, pattern, replacement);
    } else {
      assert t + rest == rest;
    }
  }

  /** The token of one name is never a prefix of a text that starts with the token of another. */
  lemma TokensDiffer(name: string, other: string, rest: string)
    requires IsMacroName(name) && IsMacroName(other) && name != other
    ensures !IsPrefix(Token(name), Token(other) + rest)
  {
    var p := Token(name);
    var s := Token(other) + rest;
    if |p| <= |s| {
      if |name| == |other| {
        assert p[3..3 + |name|] == name;
        assert s[3..3 + |other|] == other;
        assert s[..|p|][3..3 + |name|] == other;
      } else if |name| < |other| {
        assert p[3 + |name|] == '}';
        assert s[3 + |name|] == other[|name|];
      } else {
        assert p[3 + |other|] == name[|other|];
        assert s[3 + |other|] == '}';
      }
    }
  }

  /** A rendered inert template never starts with a dollar sign. */
  lemma {:induction false} RenderStart(ps: seq<Piece>)
    requires IsInertTemplate(ps)
    ensures |Render(ps)| == 0 || Render(ps)[0] != '$'
    decreases |ps|
  {
    if |ps| > 0 {
      assert PieceWith(ps[0], Inert);
      assert IsInertTemplate(ps[1..]) by {
        forall i | 0 <= i < |ps[1..]| ensures PieceWith(ps[1..][i], Inert) {
          assert ps[1..][i] == ps[i + 1];
        }
      }
      RenderStart(ps[1..]);
    }
  }

  /** The token of `other` passes through the replacement of `name` unchanged,
      provided what follows it does not start with a dollar sign. */
  lemma ReplaceSkipsOtherToken(name: string, other: string, rest: string, replacement: string)
    requires IsMacroName(name) && IsMacroName(other) && name != other
    requires |rest| == 0 || rest[0] != '$'
    ensures ReplaceAll(Token(other) + rest, Token(name), replacement)
         == Token(other) + ReplaceAll(rest, Token(name), replacement)
  {
    var pattern := Token(name);
    var s := Token(other) + rest;
    TokensDiffer(name, other, rest);
    var inner := "${" + other + "}";
    assert s[1..] == inner + ("`" + rest);
    ReplaceAllSkipsText(inner, "`" + rest, pattern, replacement);
    ReplaceSkipsClosingTick(name, rest, replacement);
    var tail := ReplaceAll(rest, pattern, replacement);
    assert ReplaceAll(s, pattern, replacement) == [s[0]] + ReplaceAll(s[1..], pattern, replacement);
    assert ReplaceAll(s[1..], pattern, replacement) == inner + ("`" + tail);
    assert [s[0]] + (inner + ("`" + tail)) == ([s[0]] + inner + "`") + tail;
    assert [s[0]] + inner + "`" == Token(other);
  }

  // ---------------------------------------------------------------------------
  // Tokens sharing a backtick

  /** In "`${a}`${b}`" the scan takes the whole token of `a`, closing backtick
      included, so `b` is not found there. */
  lemma SharedTickScan(a: string, b: string)
    requires IsMacroName(a) && IsMacroName(b)
    ensures UsedMacros(Token(a) + "${" + b + "}`") == [a]
  {
    var inner := "${" + b + "}";
    var rest := inner + "`";
    assert Token(a) + "${" + b + "}`" == Token(a) + rest;
    UsedMacrosAfterToken(a, rest);
    BracedNamePlain(b);
    UsedMacrosSkipsPlain(inner, "`");
    LoneTickUsesNothing();
  }

  /** "`${b}``${a}`${b}`" scans as `b`, `a`; replacing `b` and then `a` in
      turn substitutes `b` twice and leaves `a`'s token, now unclosed, in
      place. */
  lemma SharedTickInQuery(a: string, b: string, ca: string, cb: string)
    requires IsMacroName(a) && IsMacroName(b) && a != b
    requires Literal(ca) && Literal(cb) && Inert(cb)
    ensures var query := Token(b) + Token(a) + "${" + b + "}`";
      && UsedMacros(query) == [b, a]
      && ReplaceMacro(query, b, cb) == cb + "`${" + a + "}" + cb
      && ReplaceMacro(cb + "`${" + a + "}" + cb, a, ca) == cb + "`${" + a + "}" + cb
  {
    SharedTickQueryScan(a, b);
    SharedTickQueryReplaced(a, b, cb);
    InertPrefixKept(a, cb, ca);
  }

  /** The scan of "`${b}``${a}`${b}`". */
  lemma SharedTickQueryScan(a: string, b: string)
    requires IsMacroName(a) && IsMacroName(b)
    ensures UsedMacros(Token(b) + Token(a) + "${" + b + "}`") == [b, a]
  {
    var tail := Token(a) + "${" + b + "}`";
    assert Token(b) + Token(a) + "${" + b + "}`" == Token(b) + tail;
    UsedMacrosAfterToken(b, tail);
    SharedTickScan(a, b);
  }

  /** The replacement of `b` in "`${b}``${a}`${b}`". */
  lemma SharedTickQueryReplaced(a: string, b: string, cb: string)
    requires IsMacroName(a) && IsMacroName(b) && a != b
    ensures ReplaceAll(Token(b) + Token(a) + "${" + b + "}`", Token(b), cb) == cb + "`${" + a + "}" + cb
  {
    var tail := Token(a) + "${" + b + "}`";
    assert Token(b) + Token(a) + "${" + b + "}`" == Token(b) + tail;
    LeadingTokenReplaced(b, tail, cb);
    SharedTickReplaced(a, b, cb);
  }

  /** A text starting with the token of `name` starts, once replaced, with
      the replacement. */
  lemma LeadingTokenReplaced(name: string, rest: string, replacement: string)
    requires IsMacroName(name)
    ensures ReplaceAll(Token(name) + rest, Token(name), replacement)
         == replacement + ReplaceAll(rest, Token(name), replacement)
  {
    var pattern, s := Token(name), Token(name) + rest;
    assert s[..|pattern|] == pattern && s[|pattern|..] == rest;
  }

  /** The unclosed token of `a` between two copies of an inert text survives
      the replacement of `a`. */
  lemma InertPrefixKept(a: string, t: string, replacement: string)
    requires IsMacroName(a) && Inert(t)
    ensures ReplaceAll(t + "`${" + a + "}" + t, Token(a), replacement) == t + "`${" + a + "}" + t
  {
    var unclosed := "`${" + a + "}" + t;
    assert t + "`${" + a + "}" + t == t + unclosed;
    ReplaceAllSkipsText(t, unclosed, Token(a), replacement);
    UnclosedTokenKept(a, t, replacement);
  }

  /** "${b}" holds no backtick. */
  lemma BracedNamePlain(b: string)
    requires IsMacroName(b)
    ensures Plain("${" + b + "}")
  {
    var inner := "${" + b + "}";
    forall i | 0 <= i < |inner| ensures inner[i] != '`' {
      if 2 <= i < 2 + |b| {
        assert inner[i] == b[i - 2];
      }
    }
  }

  /** A lone backtick references nothing. */
  lemma LoneTickUsesNothing()
    ensures UsedMacros("`") == []
  {
    assert !IsPrefix(OPENING, "`");
    assert "`"[1..] == "";
  }

  /** Yet the replacement of `b` finds "`${b}`" in the same text, starting at
      the closing backtick of `a`'s token, and consumes that backtick. */
  lemma SharedTickReplaced(a: string, b: string, replacement: string)
    requires IsMacroName(a) && IsMacroName(b) && a != b
    ensures ReplaceAll(Token(a) + "${" + b + "}`", Token(b), replacement) == "`${" + a + "}" + replacement
  {
    var s, pattern := Token(a) + "${" + b + "}`", Token(b);
    var head := "${" + a + "}";
    SharedTickSplit(a, b);
    TokensDiffer(b, a, "${" + b + "}`");
    ClosedHeadReplaced(a, b, replacement);
    assert ReplaceAll(s, pattern, replacement) == [s[0]] + ReplaceAll(s[1..], pattern, replacement);
  }

  /** The shared-tick text is a backtick, then `a`'s token without its
      backticks, then `b`'s whole token. */
  lemma SharedTickSplit(a: string, b: string)
    ensures var s := Token(a) + "${" + b + "}`";
      && s == Token(a) + ("${" + b + "}`")
      && |s| > 0 && s[0] == '`' && s[1..] == "${" + a + "}" + Token(b)
  {
  }

  /** Past the first backtick, the text up to `b`'s token is copied and the
      token becomes the replacement. */
  lemma ClosedHeadReplaced(a: string, b: string, replacement: string)
    requires IsMacroName(a)
    ensures ReplaceAll("${" + a + "}" + Token(b), Token(b), replacement) == "${" + a + "}" + replacement
  {
    ReplaceAllSkipsText("${" + a + "}", Token(b), Token(b), replacement);
    PatternAloneReplaced(Token(b), replacement);
  }

  /** A text that is the pattern itself becomes the replacement. */
  lemma PatternAloneReplaced(pattern: string, replacement: string)
    requires |pattern| > 0
    ensures ReplaceAll(pattern, pattern, replacement) == replacement
  {
    assert pattern[..|pattern|] == pattern && pattern[|pattern|..] == "";
    assert ReplaceAll(pattern, pattern, replacement) == replacement + ReplaceAll("", pattern, replacement);
  }

  /** A token left without its closing backtick is no longer replaced. */
  lemma UnclosedTokenKept(a: string, t: string, replacement: string)
    requires IsMacroName(a) && Inert(t)
    ensures ReplaceAll("`${" + a + "}" + t, Token(a), replacement) == "`${" + a + "}" + t
  {
    var s, pattern := "`${" + a + "}" + t, Token(a);
    assert !IsPrefix(pattern, s) by {
      if |pattern| <= |s| {
        assert pattern[|a| + 4] == '`';
        assert s[|a| + 4] == t[0];
      }
    }
    var rest := "${" + a + "}" + t;
    assert s[1..] == rest;
    ReplaceAllSkipsText(rest, "", pattern, replacement);
    assert rest + "" == rest;
  }

  /** The closing backtick of a token is copied when no dollar sign follows. */
  lemma ReplaceSkipsClosingTick(name: string, rest: string, replacement: string)
    requires IsMacroName(name)
    requires |rest| == 0 || rest[0] != '$'
    ensures ReplaceAll("`" + rest, Token(name), replacement) == "`" + ReplaceAll(rest, Token(name), replacement)
  {
    var pattern, tail := Token(name), "`" + rest;
    assert !IsPrefix(pattern, tail) by {
      if |pattern| <= |tail| {
        assert pattern[1] == '$';
        assert tail[1] == rest[0];
      }
    }
    assert tail[1..] == rest;
  }

  /** On an inert template, replacing the token of `name` turns exactly the
      references to `name` into the replacement and leaves every other piece
      (text and other references) as it was. */
  lemma {:induction false} ReplaceMacroOfTemplate(ps: seq<Piece>, name: string, replacement: string)
    requires IsInertTemplate(ps)
    requires IsMacroName(name) && Literal(replacement)
    ensures ReplaceMacro(Render(ps), name, replacement) == Render(Subst(ps, name, replacement))
    decreases |ps|
  {
    if |ps| > 0 {
      assert IsInertTemplate(ps[1..]) by {
        forall i | 0 <= i < |ps[1..]| ensures PieceWith(ps[1..][i], Inert) {
          assert ps[1..][i] == ps[i + 1];
        }
      }
      ReplaceMacroOfTemplate(ps[1..], name, replacement);
      assert Subst(ps, name, replacement)[1..] == Subst(ps[1..], name, replacement);
      var rest := Render(ps[1..]);
      assert PieceWith(ps[0], Inert);
      match ps[0]
      case Text(t) =>
        ReplaceAllSkipsText(t, rest, Token(name), replacement);
      case Ref(other) =>
        if other == name {
          assert (Token(name) + rest)[|Token(name)|..] == rest;
        } else {
          RenderStart(ps[1..]);
          ReplaceSkipsOtherToken(name, other, rest, replacement);
        }
    }
  }

  lemma {:induction false} RefNamesWithin(ps: seq<Piece>)
    ensures RefsWithin(ps, RefNames(ps))
    decreases |ps|
  {
    if |ps| > 0 {
      RefNamesWithin(ps[1..]);
      forall i | 0 <= i < |ps| && ps[i].Ref? ensures ps[i].name in RefNames(ps) {
        if i > 0 {
          assert ps[i] == ps[1..][i - 1];
        }
      }
    }
  }

  /** Resolving leaves a template without references as it is. */
  lemma ResolveWithoutRefs(ps: seq<Piece>, contentOf: string -> string)
    requires RefsWithin(ps, [])
    ensures Resolve(ps, contentOf) == ps
  {
  }

  /** On an inert template whose references are all among `names`, and whose
      contents are inert too, replacing the names one after the other turns
      every reference into its content and changes nothing else: the sequential
      replacement equals the simultaneous resolution. */
  lemma {:induction false} ReplaceEachOfTemplate(ps: seq<Piece>, names: seq<string>, contentOf: string -> string)
    requires IsInertTemplate(ps)
    requires RefsWithin(ps, names)
    requires Replaceable(names, contentOf)
    requires forall i :: 0 <= i < |names| ==> Inert(contentOf(names[i]))
    ensures ReplaceEach(Render(ps), names, contentOf) == Render(Resolve(ps, contentOf))
    decreases |names|
  {
    if |names| == 0 {
      ResolveWithoutRefs(ps, contentOf);
    } else {
      var name, content := names[0], contentOf(names[0]);
      var ps' := Subst(ps, name, content);
      ReplaceMacroOfTemplate(ps, name, content);
      assert IsInertTemplate(ps') by {
        forall i | 0 <= i < |ps'| ensures PieceWith(ps'[i], Inert) {
          assert PieceWith(ps[i], Inert);
        }
      }
      assert RefsWithin(ps', names[1..]) by {
        forall i | 0 <= i < |ps'| && ps'[i].Ref? ensures ps'[i].name in names[1..] {
          assert ps'[i] == ps[i] && ps[i].name != name;
          assert ps[i].name in names;
        }
      }
      assert Replaceable(names[1..], contentOf) by {
        forall i | 0 <= i < |names[1..]| ensures IsMacroName(names[1..][i]) && Literal(contentOf(names[1..][i])) {
          assert names[1..][i] == names[i + 1];
        }
      }
      forall i | 0 <= i < |names[1..]| ensures Inert(contentOf(names[1..][i])) {
        assert names[1..][i] == names[i + 1];
      }
      ReplaceEachOfTemplate(ps', names[1..], contentOf);
      assert Resolve(ps', contentOf) == Resolve(ps, contentOf);
    }
  }
}
