/**
  From a tokenised condition line to the checked condition: the tag list, the
  template with one placeholder per tag, the filled-in formula and the dry run
  (`tags_and_source_template` and `make_check_funk`, e621dl_lib/local.py and
  e621dl/local.py).

  The source builds Python text and runs it with `exec`. Here the template is a
  sequence of lexemes (`CondFormula.Lexeme`), filling it in is `Fill`, and `exec`
  is `CondFormula.Parse` followed by `CondFormula.Eval`. The two text renderings of
  the template used by the two versions are modelled too, and shown to be the
  renderings of the same lexemes.
*/
module CondCompiler {
  import opened Wrappers
  import opened CondScanner
  import opened CondFormula

  /** Why a condition is rejected (the source prints a message and exits). */
  datatype CondError =
    | ScanFailed(reason: ScanError)  // bad escape, or `~` starting a token
    | SyntaxError                    // the generated text is not a Python expression
    | DryRunFailed                   // evaluating it on its own tags raises

  // ---------------------------------------------------------------------------
  // Tokens: operators and tags
  // ---------------------------------------------------------------------------

  /** Python's `t in s` on strings: `t` occurs in `s` as a contiguous piece. */
  predicate IsSubstring(t: string, s: string)
  {
    t <= s || (s != [] && IsSubstring(t, s[1..]))
  }

  /** The source's operator test `token in '-|&()'`, a substring test. */
  predicate IsOperatorToken(t: string)
  {
    IsSubstring(t, "-|&()")
  }

  /** The intended test: the token is one operator character. */
  predicate IsSingleOperator(t: string)
  {
    |t| == 1 && IsOperatorChar(t[0])
  }

  /** On the tokens the tokeniser yields, the substring test is exactly "one operator
      character": a longer piece of `-|&()` would hold an unescaped `|&()` that is not
      a token of its own. */
  lemma OperatorTokenIsSingle(t: string)
    requires TokOK(t)
    ensures IsOperatorToken(t) <==> IsSingleOperator(t)
  {
    var s := "-|&()";
    assert s[1..] == "|&()" && s[2..] == "&()" && s[3..] == "()" && s[4..] == ")";
    assert s[5..] == [];
    assert IsSubstring(t, s[5..]) == (t <= s[5..]);
    assert IsSubstring(t, s[4..]) == (t <= s[4..] || IsSubstring(t, s[5..]));
    assert IsSubstring(t, s[3..]) == (t <= s[3..] || IsSubstring(t, s[4..]));
    assert IsSubstring(t, s[2..]) == (t <= s[2..] || IsSubstring(t, s[3..]));
    assert IsSubstring(t, s[1..]) == (t <= s[1..] || IsSubstring(t, s[2..]));
    assert IsOperatorToken(t) == (t <= s || IsSubstring(t, s[1..]));
    if |t| > 1 {
      assert TokRule(t, 1);
    }
  }

  /** `token.replace('\\', '')`. */
  function Unescape(t: string): (u: string)
    ensures |u| <= |t| && '\\' !in u
    ensures forall c :: c in u <==> c in t && c != '\\'
  {
    if t == [] then []
    else (if t[0] == '\\' then [] else [t[0]]) + Unescape(t[1..])
  }

  /** The lexeme a token stands for in the template: a placeholder for a tag, or the
      operator (`-` is `not`, `|` is `or`, `&` is `and`). */
  function LexemeOf(t: string): Lexeme
  {
    if !IsOperatorToken(t) then Hole
    else if t == "-" then NotOp
    else if t == "|" then OrOp
    else if t == "&" then AndOp
    else if t == "(" then Open
    else Close
  }

  /** The template: one lexeme per token. */
  function Template(tokens: seq<string>): (tpl: seq<Lexeme>)
    ensures |tpl| == |tokens|
    ensures forall k :: 0 <= k < |tpl| ==> tpl[k] == LexemeOf(tokens[k])
  {
    if tokens == [] then [] else [LexemeOf(tokens[0])] + Template(tokens[1..])
  }

  /** The returned tag list: the tokens that fail the operator test, in order, with
      their backslashes removed. */
  function TagsOf(tokens: seq<string>): seq<string>
  {
    if tokens == [] then []
    else (if IsOperatorToken(tokens[0]) then [] else [Unescape(tokens[0])]) + TagsOf(tokens[1..])
  }

  /** Reference definition of the tag list: the tokens that are not a single operator
      character, unescaped. */
  function TagTokens(tokens: seq<string>): seq<string>
  {
    if tokens == [] then []
    else (if IsSingleOperator(tokens[0]) then [] else [Unescape(tokens[0])]) + TagTokens(tokens[1..])
  }

  /** On tokeniser output the tag list is exactly the non-operator tokens. */
  lemma {:induction false} TagsOfIsTagTokens(tokens: seq<string>)
    requires forall t :: t in tokens ==> TokOK(t)
    ensures TagsOf(tokens) == TagTokens(tokens)
  {
    if tokens != [] {
      OperatorTokenIsSingle(tokens[0]);
      TagsOfIsTagTokens(tokens[1..]);
    }
  }

  /** A template lexeme is a placeholder exactly where the token is a tag, and an
      operator token becomes its operator. */
  lemma LexemeOfToken(t: string)
    requires TokOK(t)
    ensures LexemeOf(t) == Hole <==> !IsSingleOperator(t)
    ensures t == "-" ==> LexemeOf(t) == NotOp
    ensures t == "|" ==> LexemeOf(t) == OrOp
    ensures t == "&" ==> LexemeOf(t) == AndOp
    ensures t == "(" ==> LexemeOf(t) == Open
    ensures t == ")" ==> LexemeOf(t) == Close
  {
    OperatorTokenIsSingle(t);
    if t == ")" {
      assert IsSingleOperator(t);
    }
  }

  // ---------------------------------------------------------------------------
  // Filling the template: `source_template.format(*tags)`
  // ---------------------------------------------------------------------------

  /** The number of placeholders. */
  function Holes(tpl: seq<Lexeme>): nat
  {
    if tpl == [] then 0 else (if tpl[0] == Hole then 1 else 0) + Holes(tpl[1..])
  }

  /** The tags of the `Word` lexemes, in order. */
  function Words(ls: seq<Lexeme>): seq<string>
  {
    if ls == [] then [] else (if ls[0].Word? then [ls[0].tag] else []) + Words(ls[1..])
  }

  /** The template has no tags written into it yet. */
  predicate Unfilled(tpl: seq<Lexeme>)
  {
    forall k :: 0 <= k < |tpl| ==> !tpl[k].Word?
  }

  /** `str.format` with automatic numbering, from the `n`-th argument on: too few
      arguments raise `IndexError` (`None`); surplus ones are ignored. */
  function FillFrom(tpl: seq<Lexeme>, tags: seq<string>, n: nat): (r: Option<seq<Lexeme>>)
    requires n <= |tags|
    ensures r.Some? <==> n + Holes(tpl) <= |tags|
    ensures r.Some? ==> |r.value| == |tpl| && Holes(r.value) == 0
    ensures r.Some? && Unfilled(tpl) ==> Words(r.value) == tags[n..n + Holes(tpl)]
  {
    if tpl == [] then Some([])
    else if tpl[0] == Hole then
      if n < |tags| then
        match FillFrom(tpl[1..], tags, n + 1)
        case None => None
        case Some(rest) => Some([Word(tags[n])] + rest)
      else None
    else
      match FillFrom(tpl[1..], tags, n)
      case None => None
      case Some(rest) => Some([tpl[0]] + rest)
  }

  /** The whole `format` call. Filling succeeds iff there are enough tags, and the
      `k`-th placeholder receives the `k`-th tag. */
  function Fill(tpl: seq<Lexeme>, tags: seq<string>): (r: Option<seq<Lexeme>>)
    ensures r.Some? <==> Holes(tpl) <= |tags|
    ensures r.Some? && Unfilled(tpl) ==> Words(r.value) == tags[..Holes(tpl)]
  {
    FillFrom(tpl, tags, 0)
  }

  /** A tag Python can hold in a one-line string literal: a line feed or a carriage
      return ends the line inside the literal, and `exec` refuses a null character. */
  predicate FitsOneLineLiteral(tag: string)
  {
    forall k :: 0 <= k < |tag| ==> tag[k] != '\n' && tag[k] != '\r' && tag[k] != '\0'
  }

  /** `make_check_funk`: fill the template and `exec` the resulting text; `None` is
      a failure of either step, including a filled-in tag that cannot stand inside
      its quotes. The check function is the formula, read with `Eval`. */
  function MakeCheck(style: LeafStyle, tpl: seq<Lexeme>, tags: seq<string>): Option<Formula>
  {
    match Fill(tpl, tags)
    case None => None
    case Some(ls) =>
      if forall t :: t in Words(ls) ==> FitsOneLineLiteral(t) then Parse(style, ls) else None
  }

  /** The template of a tokenised line has exactly one placeholder per returned tag,
      so filling it with those tags never runs short. */
  lemma {:induction false} HolesMatchTags(tokens: seq<string>)
    ensures Holes(Template(tokens)) == |TagsOf(tokens)|
    ensures Unfilled(Template(tokens))
  {
    if tokens != [] {
      HolesMatchTags(tokens[1..]);
      assert Template(tokens)[1..] == Template(tokens[1..]);
    }
  }

  // ---------------------------------------------------------------------------
  // The whole compiler
  // ---------------------------------------------------------------------------

  /** `tags_and_source_template`: tokenise, build tags and template, and validate by a
      dry run of the check on the condition's own tags, which must not raise. */
  function Compile(style: LeafStyle, line: string): Result<(seq<Lexeme>, seq<string>), CondError>
  {
    match Tokenise(line)
    case Err(e) => Err(ScanFailed(e))
    case Ok(tokens) =>
      var tpl, tags := Template(tokens), TagsOf(tokens);
      match MakeCheck(style, tpl, tags)
      case None => Err(SyntaxError)
      case Some(f) => if Eval(f, tags).None? then Err(DryRunFailed) else Ok((tpl, tags))
  }

  /** Scanner errors are passed on unchanged, and only they produce `ScanFailed`. */
  lemma CompileScanErrors(style: LeafStyle, line: string)
    ensures Tokenise(line).Err? <==> Compile(style, line).Err? && Compile(style, line).error.ScanFailed?
    ensures Tokenise(line).Err? ==> Compile(style, line) == Err(ScanFailed(Tokenise(line).error))
  {
  }

  /** An accepted condition returns, as tags, the non-operator tokens of the line with
      backslashes removed; its template has one placeholder per tag; and the check
      built from that template and those tags evaluates without raising on them. */
  lemma CompileAccepted(style: LeafStyle, line: string)
    requires Compile(style, line).Ok?
    ensures var (tpl, tags) := Compile(style, line).value;
      && Tokenise(line).Ok?
      && tags == TagTokens(Tokenise(line).value)
      && tpl == Template(Tokenise(line).value)
      && Holes(tpl) == |tags|
      && (forall t :: t in tags ==> FitsOneLineLiteral(t))
      && MakeCheck(style, tpl, tags).Some?
      && Eval(MakeCheck(style, tpl, tags).value, tags).Some?
  {
    var tokens := Tokenise(line).value;
    TokeniseShape(line);
    TagsOfIsTagTokens(tokens);
    HolesMatchTags(tokens);
    CompiledWordsAreTags(style, line);
  }

  /** A condition with a tag holding a line break or a null character is rejected as a
      syntax error: the dry run's `exec` fails on the filled-in text. */
  lemma UnsafeTagRejected(style: LeafStyle, line: string, t: string)
    requires Tokenise(line).Ok? && t in TagsOf(Tokenise(line).value) && !FitsOneLineLiteral(t)
    ensures Compile(style, line) == Err(SyntaxError)
  {
    CompiledWordsAreTags(style, line);
  }

  /** Every tag the user wrote, once compiled, is looked up literally: the filled-in
      lexemes carry the returned tags in order. */
  lemma CompiledWordsAreTags(style: LeafStyle, line: string)
    requires Tokenise(line).Ok?
    ensures var tokens := Tokenise(line).value;
      Fill(Template(tokens), TagsOf(tokens)).Some?
      && Words(Fill(Template(tokens), TagsOf(tokens)).value) == TagsOf(tokens)
  {
    var tokens := Tokenise(line).value;
    HolesMatchTags(tokens);
    assert TagsOf(tokens)[..|TagsOf(tokens)|] == TagsOf(tokens);
  }

  /** A template that fills in to a fully parenthesised clean formula compiles to that
      formula, in either version, and the resulting check is the formula's boolean
      meaning on every tag list. */
  lemma MakeCheckOfPrinted(style: LeafStyle, tpl: seq<Lexeme>, tags: seq<string>, f: Formula)
    requires Clean(f) && Fill(tpl, tags) == Some(Print(f))
    ensures MakeCheck(style, tpl, tags) ==
      if forall t :: t in Words(Print(f)) ==> FitsOneLineLiteral(t) then Some(f) else None
    ensures forall post: seq<string> :: Eval(f, post) == Some(Holds(f, post))
  {
    ParsePrint(style, f);
    forall post: seq<string>
      ensures Eval(f, post) == Some(Holds(f, post))
    {
      CleanEvalHolds(f, post);
    }
  }

  /** The dry run does not catch every call: in `a | b c` (with the `('{}' in tags)`
      text) the call `b(c)` is skipped because `a` is true on the condition's own
      tags, so the condition is accepted and then raises on a post without `a`. */
  lemma DryRunMissesCall(a: string, b: string, c: string)
    requires a != b && a != c
    requires FitsOneLineLiteral(a) && FitsOneLineLiteral(b) && FitsOneLineLiteral(c)
    ensures var tpl := [Hole, OrOp, Hole, Hole];
      var f := Or(Tag(a), Call(Tag(b), Some(Tag(c))));
      && MakeCheck(InTags, tpl, [a, b, c]) == Some(f)
      && Eval(f, [a, b, c]) == Some(true)
      && Eval(f, [b, c]) == None
  {
    var ls := [Word(a), OrOp, Word(b), Word(c)];
    FillDryRun(a, b, c);
    ParseDryRun(a, b, c);
    assert Words(ls) == [a, b, c] by {
      assert ls[1..] == [OrOp, Word(b), Word(c)] && ls[2..] == [Word(b), Word(c)];
      assert ls[3..] == [Word(c)] && ls[4..] == [];
    }
    assert Parse(InTags, ls) == Some(Or(Tag(a), Call(Tag(b), Some(Tag(c)))));
  }

  lemma FillDryRun(a: string, b: string, c: string)
    ensures Fill([Hole, OrOp, Hole, Hole], [a, b, c]) == Some([Word(a), OrOp, Word(b), Word(c)])
  {
    var tags := [a, b, c];
    assert FillFrom([], tags, 3) == Some([]);
    assert [Word(c)] + [] == [Word(c)];
    assert FillFrom([Hole], tags, 2) == Some([Word(c)]);
    assert [Word(b)] + [Word(c)] == [Word(b), Word(c)];
    assert FillFrom([Hole, Hole], tags, 1) == Some([Word(b), Word(c)]);
    assert [OrOp] + [Word(b), Word(c)] == [OrOp, Word(b), Word(c)];
    assert FillFrom([OrOp, Hole, Hole], tags, 1) == Some([OrOp, Word(b), Word(c)]);
    assert [Word(a)] + [OrOp, Word(b), Word(c)] == [Word(a), OrOp, Word(b), Word(c)];
  }

  lemma ParseDryRun(a: string, b: string, c: string)
    ensures Parse(InTags, [Word(a), OrOp, Word(b), Word(c)]) == Some(Or(Tag(a), Call(Tag(b), Some(Tag(c)))))
  {
    var ls := [Word(a), OrOp, Word(b), Word(c)];
    var call := Call(Tag(b), Some(Tag(c)));
    assert ParseTrailers(InTags, ls, 4, call) == Some((call, 4));
    assert ParseTrailers(InTags, ls, 3, Tag(b)) == Some((call, 4));
    assert ParsePrimary(InTags, ls, 2) == Some((call, 4));
    OrOfPrimary(InTags, ls, 2, call, 4);
    assert ParseTrailers(InTags, ls, 1, Tag(a)) == Some((Tag(a), 1));
    assert ParsePrimary(InTags, ls, 0) == Some((Tag(a), 1));
    assert ParseNot(InTags, ls, 0) == Some((Tag(a), 1));
    AndOfOne(InTags, ls, 0, Tag(a), 1);
    OrOfTwo(InTags, ls, 0, Tag(a), 1, call, 4);
  }

  // ---------------------------------------------------------------------------
  // The template as text
  // ---------------------------------------------------------------------------

  /** `s.replace(c, r)` for a one-character `c`. */
  function ReplaceChar(s: string, c: char, r: string): string
  {
    if s == [] then [] else (if s[0] == c then r else [s[0]]) + ReplaceChar(s[1..], c, r)
  }

  lemma {:induction false} ReplaceCharAppend(a: string, b: string, c: char, r: string)
    ensures ReplaceChar(a + b, c, r) == ReplaceChar(a, c, r) + ReplaceChar(b, c, r)
  {
    if a == [] {
      assert a + b == b;
    } else {
      assert (a + b)[0] == a[0] && (a + b)[1..] == a[1..] + b;
      ReplaceCharAppend(a[1..], b, c, r);
    }
  }

  lemma {:induction false} ReplaceCharAbsent(s: string, c: char, r: string)
    requires c !in s
    ensures ReplaceChar(s, c, r) == s
  {
    if s != [] {
      ReplaceCharAbsent(s[1..], c, r);
    }
  }

  /** The three replacements of e621dl/local.py, in their order. */
  function ReplaceOperators(s: string): string
  {
    ReplaceChar(ReplaceChar(ReplaceChar(s, '-', " not "), '|', " or "), '&', " and ")
  }

  lemma ReplaceOperatorsAppend(a: string, b: string)
    ensures ReplaceOperators(a + b) == ReplaceOperators(a) + ReplaceOperators(b)
  {
    ReplaceCharAppend(a, b, '-', " not ");
    ReplaceCharAppend(ReplaceChar(a, '-', " not "), ReplaceChar(b, '-', " not "), '|', " or ");
    var a2 := ReplaceChar(ReplaceChar(a, '-', " not "), '|', " or ");
    var b2 := ReplaceChar(ReplaceChar(b, '-', " not "), '|', " or ");
    ReplaceCharAppend(a2, b2, '&', " and ");
  }

  /** The placeholder text of each version. */
  function Placeholder(style: LeafStyle): string
  {
    match style
    case InTags => "('{}' in tags)"
    case CheckCall => "check('{}',tags)"
  }

  /** How one template lexeme reads in the generated text. */
  function LexemeText(style: LeafStyle, l: Lexeme): string
  {
    match l
    case Hole => Placeholder(style)
    case Word(t) => t
    case NotOp => " not "
    case AndOp => " and "
    case OrOp => " or "
    case Open => "("
    case Close => ")"
  }

  function TemplateText(style: LeafStyle, tpl: seq<Lexeme>): string
  {
    if tpl == [] then [] else LexemeText(style, tpl[0]) + TemplateText(style, tpl[1..])
  }

  /** e621dl_lib/local.py: each token becomes a placeholder or its operator word, and
      the pieces are joined. */
  function NewTemplateText(tokens: seq<string>): string
  {
    if tokens == [] then []
    else
      var t := tokens[0];
      var piece := if !IsOperatorToken(t) then Placeholder(InTags)
                   else if t == "-" then " not " else if t == "|" then " or "
                   else if t == "&" then " and " else t;
      piece + NewTemplateText(tokens[1..])
  }

  /** e621dl/local.py: tags become placeholders, the pieces are joined, and then the
      operator characters are replaced throughout the joined text. */
  function OldTemplateText(tokens: seq<string>): string
  {
    ReplaceOperators(Concat(OldPieces(tokens)))
  }

  function OldPieces(tokens: seq<string>): seq<string>
  {
    if tokens == [] then []
    else [if IsOperatorToken(tokens[0]) then tokens[0] else Placeholder(CheckCall)] + OldPieces(tokens[1..])
  }

  /** Both versions' template texts are the rendering of the same lexemes: the list
      rewrite of e621dl_lib/local.py directly, and the whole-text replacement of
      e621dl/local.py because the `check('{}',tags)` placeholder holds no `-`, `|` or
      `&`. */
  lemma TemplateTexts(tokens: seq<string>)
    requires forall t :: t in tokens ==> TokOK(t)
    ensures NewTemplateText(tokens) == TemplateText(InTags, Template(tokens))
    ensures OldTemplateText(tokens) == TemplateText(CheckCall, Template(tokens))
  {
    NewTemplateTextRenders(tokens);
    OldTemplateTextRenders(tokens);
  }

  lemma {:induction false} NewTemplateTextRenders(tokens: seq<string>)
    requires forall t :: t in tokens ==> TokOK(t)
    ensures NewTemplateText(tokens) == TemplateText(InTags, Template(tokens))
  {
    if tokens != [] {
      NewTemplateTextRenders(tokens[1..]);
      assert Template(tokens)[1..] == Template(tokens[1..]);
      LexemeOfToken(tokens[0]);
    }
  }

  lemma {:induction false} OldTemplateTextRenders(tokens: seq<string>)
    requires forall t :: t in tokens ==> TokOK(t)
    ensures OldTemplateText(tokens) == TemplateText(CheckCall, Template(tokens))
  {
    if tokens != [] {
      var t := tokens[0];
      OldTemplateTextRenders(tokens[1..]);
      assert Template(tokens)[1..] == Template(tokens[1..]);
      ReplaceOperatorsAppend(OldPieces(tokens)[0], Concat(OldPieces(tokens[1..])));
      OldPieceText(t);
    }
  }

  /** One token of the old template, after the replacements. */
  lemma OldPieceText(t: string)
    requires TokOK(t)
    ensures ReplaceOperators(if IsOperatorToken(t) then t else Placeholder(CheckCall))
            == LexemeText(CheckCall, LexemeOf(t))
  {
    OperatorTokenIsSingle(t);
    LexemeOfToken(t);
    if !IsOperatorToken(t) {
      PlaceholderUnchanged();
    } else {
      assert t == [t[0]];
      OperatorCharText(t[0]);
    }
  }

  /** An operator character on its own, after the replacements: its word, or itself
      for a parenthesis. */
  lemma OperatorCharText(c: char)
    requires IsOperatorChar(c)
    ensures c == '-' ==> ReplaceOperators([c]) == " not "
    ensures c == '|' ==> ReplaceOperators([c]) == " or "
    ensures c == '&' ==> ReplaceOperators([c]) == " and "
    ensures c == '(' || c == ')' ==> ReplaceOperators([c]) == [c]
  {
    if c == '-' {
      ReplaceOneChar('-', " not ");
      ReplaceCharAbsent(" not ", '|', " or ");
      ReplaceCharAbsent(" not ", '&', " and ");
    } else if c == '|' {
      ReplaceCharAbsent("|", '-', " not ");
      ReplaceOneChar('|', " or ");
      ReplaceCharAbsent(" or ", '&', " and ");
    } else if c == '&' {
      ReplaceCharAbsent("&", '-', " not ");
      ReplaceCharAbsent("&", '|', " or ");
      ReplaceOneChar('&', " and ");
    } else {
      NoOperatorsUnchanged([c]);
    }
  }

  lemma ReplaceOneChar(c: char, r: string)
    ensures ReplaceChar([c], c, r) == r
  {
    assert [c][1..] == [];
    assert r + [] == r;
  }

  lemma PlaceholderUnchanged()
    ensures ReplaceOperators(Placeholder(CheckCall)) == Placeholder(CheckCall)
  {
    NoOperatorsUnchanged(Placeholder(CheckCall));
  }

  lemma NoOperatorsUnchanged(s: string)
    requires '-' !in s && '|' !in s && '&' !in s
    ensures ReplaceOperators(s) == s
  {
    ReplaceCharAbsent(s, '-', " not ");
    ReplaceCharAbsent(s, '|', " or ");
    ReplaceCharAbsent(s, '&', " and ");
  }
}
