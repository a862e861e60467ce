/**
  The boolean formula behind a tag condition. The source turns a condition into Python
  text and runs it with `exec`; this module replaces that with an explicit syntax tree,
  a parser for the lexemes the source can produce, and a recursive evaluator with
  Python's meaning:

  - `not` binds tighter than `and`, which binds tighter than `or`; `and`/`or` group to
    the left and short-circuit;
  - a tag leaf is exact membership of the tag in the post's tag list;
  - `()` is the empty tuple, which is false; an empty condition compiles to
    `return` with no value, which is `None`, also false;
  - an atom directly followed by `(` (or, with the `('{}' in tags)` leaf, by another
    tag) is a call; calling a bool or a tuple raises `TypeError` when evaluated.
*/
module CondFormula {
  import opened Wrappers

  /** The units of the generated Python text: a tag placeholder (`Hole`, before the
      tags are filled in), a tag, `not`, `and`, `or`, `(` and `)`. */
  datatype Lexeme = Hole | Word(tag: string) | NotOp | AndOp | OrOp | Open | Close

  /** How a tag is written in the text: `('{}' in tags)` (e621dl_lib/local.py) starts
      with `(`, so a tag right after an atom is a call; `check('{}',tags)`
      (e621dl/local.py) starts with a name, so it is a syntax error there. */
  datatype LeafStyle = InTags | CheckCall

  datatype Formula =
    | Tag(name: string)
    | Not(arg: Formula)
    | And(left: Formula, right: Formula)
    | Or(left: Formula, right: Formula)
    | Unit                                     // `()` or the empty condition: false
    | Call(callee: Formula, argument: Option<Formula>)  // an atom applied like a function

  // ---------------------------------------------------------------------------
  // Meaning
  // ---------------------------------------------------------------------------

  /** Python's evaluation of the formula against a post's tags: `None` when it raises. */
  function Eval(f: Formula, tags: seq<string>): Option<bool>
  {
    match f
    case Tag(n) => Some(n in tags)
    case Not(a) =>
      (match Eval(a, tags)
       case None => None
       case Some(b) => Some(!b))
    case And(l, r) =>
      (match Eval(l, tags)
       case None => None
       case Some(b) => if !b then Some(false) else Eval(r, tags))
    case Or(l, r) =>
      (match Eval(l, tags)
       case None => None
       case Some(b) => if b then Some(true) else Eval(r, tags))
    case Unit => Some(false)
    case Call(_, _) => None
  }

  /** A formula of the clean grammar: no calls. */
  predicate Clean(f: Formula)
  {
    match f
    case Tag(_) => true
    case Not(a) => Clean(a)
    case And(l, r) => Clean(l) && Clean(r)
    case Or(l, r) => Clean(l) && Clean(r)
    case Unit => true
    case Call(_, _) => false
  }

  /** The textbook boolean meaning of a clean formula. */
  predicate Holds(f: Formula, tags: seq<string>)
  {
    match f
    case Tag(n) => n in tags
    case Not(a) => !Holds(a, tags)
    case And(l, r) => Holds(l, tags) && Holds(r, tags)
    case Or(l, r) => Holds(l, tags) || Holds(r, tags)
    case Unit => false
    case Call(_, _) => false
  }

  /** On the clean grammar Python's evaluation never raises and agrees with the
      boolean meaning. */
  lemma {:induction false} CleanEvalHolds(f: Formula, tags: seq<string>)
    requires Clean(f)
    ensures Eval(f, tags) == Some(Holds(f, tags))
  {
    match f
    case Tag(_) =>
    case Not(a) => CleanEvalHolds(a, tags);
    case And(l, r) => CleanEvalHolds(l, tags); CleanEvalHolds(r, tags);
    case Or(l, r) => CleanEvalHolds(l, tags); CleanEvalHolds(r, tags);
    case Unit =>
    case Call(_, _) =>
  }

  /** The tags a formula mentions, left to right. */
  function Leaves(f: Formula): seq<string>
  {
    match f
    case Tag(n) => [n]
    case Not(a) => Leaves(a)
    case And(l, r) => Leaves(l) + Leaves(r)
    case Or(l, r) => Leaves(l) + Leaves(r)
    case Unit => []
    case Call(c, a) => Leaves(c) + (if a.Some? then Leaves(a.value) else [])
  }

  /** A formula evaluates the same on two tag lists that agree on the tags it
      mentions. */
  lemma {:induction false} EvalDependsOnLeaves(f: Formula, t1: seq<string>, t2: seq<string>)
    requires forall n :: n in Leaves(f) ==> (n in t1 <==> n in t2)
    ensures Eval(f, t1) == Eval(f, t2)
  {
    match f
    case Tag(_) =>
    case Not(a) => EvalDependsOnLeaves(a, t1, t2);
    case And(l, r) => EvalDependsOnLeaves(l, t1, t2); EvalDependsOnLeaves(r, t1, t2);
    case Or(l, r) => EvalDependsOnLeaves(l, t1, t2); EvalDependsOnLeaves(r, t1, t2);
    case Unit =>
    case Call(_, _) =>
  }

  // ---------------------------------------------------------------------------
  // Parsing the generated text (at the level of its lexemes)
  //
  //   or_test  := and_test ('or' and_test)*
  //   and_test := not_test ('and' not_test)*
  //   not_test := 'not' not_test | primary
  //   primary  := atom trailer*
  //   atom     := tag | '(' ')' | '(' or_test ')'
  //   trailer  := '(' ')' | '(' or_test ')' | tag      -- the last only for InTags
  // ---------------------------------------------------------------------------

  function ParseOr(style: LeafStyle, ls: seq<Lexeme>, i: nat): (r: Option<(Formula, nat)>)
    requires i <= |ls|
    ensures r.Some? ==> i < r.value.1 <= |ls|
    decreases |ls| - i, 3
  {
    match ParseAnd(style, ls, i)
    case None => None
    case Some((left, j)) => ParseOrRest(style, ls, j, left)
  }

  function ParseOrRest(style: LeafStyle, ls: seq<Lexeme>, i: nat, left: Formula): (r: Option<(Formula, nat)>)
    requires i <= |ls|
    ensures r.Some? ==> i <= r.value.1 <= |ls|
    decreases |ls| - i, 0
  {
    if i < |ls| && ls[i] == OrOp then
      match ParseAnd(style, ls, i + 1)
      case None => None
      case Some((right, j)) => ParseOrRest(style, ls, j, Or(left, right))
    else Some((left, i))
  }

  function ParseAnd(style: LeafStyle, ls: seq<Lexeme>, i: nat): (r: Option<(Formula, nat)>)
    requires i <= |ls|
    ensures r.Some? ==> i < r.value.1 <= |ls|
    decreases |ls| - i, 2
  {
    match ParseNot(style, ls, i)
    case None => None
    case Some((left, j)) => ParseAndRest(style, ls, j, left)
  }

  function ParseAndRest(style: LeafStyle, ls: seq<Lexeme>, i: nat, left: Formula): (r: Option<(Formula, nat)>)
    requires i <= |ls|
    ensures r.Some? ==> i <= r.value.1 <= |ls|
    decreases |ls| - i, 0
  {
    if i < |ls| && ls[i] == AndOp then
      match ParseNot(style, ls, i + 1)
      case None => None
      case Some((right, j)) => ParseAndRest(style, ls, j, And(left, right))
    else Some((left, i))
  }

  function ParseNot(style: LeafStyle, ls: seq<Lexeme>, i: nat): (r: Option<(Formula, nat)>)
    requires i <= |ls|
    ensures r.Some? ==> i < r.value.1 <= |ls|
    decreases |ls| - i, 1
  {
    if i < |ls| && ls[i] == NotOp then
      match ParseNot(style, ls, i + 1)
      case None => None
      case Some((a, j)) => Some((Not(a), j))
    else ParsePrimary(style, ls, i)
  }

  /** An atom and the calls applied to it. */
  function ParsePrimary(style: LeafStyle, ls: seq<Lexeme>, i: nat): (r: Option<(Formula, nat)>)
    requires i <= |ls|
    ensures r.Some? ==> i < r.value.1 <= |ls|
    decreases |ls| - i, 0
  {
    if i == |ls| then None
    else match ls[i]
      case Word(n) => ParseTrailers(style, ls, i + 1, Tag(n))
      case Open =>
        if i + 1 < |ls| && ls[i + 1] == Close then ParseTrailers(style, ls, i + 2, Unit)
        else
          (match ParseOr(style, ls, i + 1)
           case None => None
           case Some((inner, j)) =>
             if j < |ls| && ls[j] == Close then ParseTrailers(style, ls, j + 1, inner) else None)
      case _ => None
  }

  /** The next lexeme begins a call on the atom before it. */
  predicate StartsTrailer(style: LeafStyle, l: Lexeme)
  {
    l == Open || (style == InTags && l.Word?)
  }

  function ParseTrailers(style: LeafStyle, ls: seq<Lexeme>, i: nat, callee: Formula): (r: Option<(Formula, nat)>)
    requires i <= |ls|
    ensures r.Some? ==> i <= r.value.1 <= |ls|
    decreases |ls| - i, 0
  {
    if i < |ls| && ls[i].Word? && style == InTags then
      ParseTrailers(style, ls, i + 1, Call(callee, Some(Tag(ls[i].tag))))
    else if i < |ls| && ls[i] == Open then
      if i + 1 < |ls| && ls[i + 1] == Close then ParseTrailers(style, ls, i + 2, Call(callee, None))
      else
        match ParseOr(style, ls, i + 1)
        case None => None
        case Some((arg, j)) =>
          if j < |ls| && ls[j] == Close then ParseTrailers(style, ls, j + 1, Call(callee, Some(arg))) else None
    else Some((callee, i))
  }

  /** The body of the generated `def f(tags): return ...`: empty (None), or one
      expression that uses up every lexeme; anything else is a syntax error. */
  function Parse(style: LeafStyle, ls: seq<Lexeme>): Option<Formula>
  {
    if ls == [] then Some(Unit)
    else
      match ParseOr(style, ls, 0)
      case None => None
      case Some((f, j)) => if j == |ls| then Some(f) else None
  }

  // ---------------------------------------------------------------------------
  // Printing, and parsing what was printed
  // ---------------------------------------------------------------------------

  /** A fully parenthesised rendering of a clean formula. */
  function Print(f: Formula): (ls: seq<Lexeme>)
    ensures |ls| > 0 && (ls[0].Word? || ls[0] == Open)
  {
    match f
    case Tag(n) => [Word(n)]
    case Not(a) => [Open, NotOp] + Print(a) + [Close]
    case And(l, r) => [Open] + Print(l) + [AndOp] + Print(r) + [Close]
    case Or(l, r) => [Open] + Print(l) + [OrOp] + Print(r) + [Close]
    case Unit => [Open, Close]
    case Call(c, _) => [Open, Close]
  }

  /** `ls` holds `p` at position `i`. */
  predicate At(ls: seq<Lexeme>, i: nat, p: seq<Lexeme>)
  {
    i + |p| <= |ls| && ls[i..i + |p|] == p
  }

  /** Nothing that would extend the atom follows position `j`. */
  predicate Ends(style: LeafStyle, ls: seq<Lexeme>, j: nat)
  {
    j >= |ls| || !StartsTrailer(style, ls[j])
  }

  /** Facts about the part of `ls` that holds `p`. */
  lemma AtPart(ls: seq<Lexeme>, i: nat, p: seq<Lexeme>, a: nat, b: nat)
    requires At(ls, i, p) && a <= b <= |p|
    ensures At(ls, i + a, p[a..b])
    ensures a < |p| ==> ls[i + a] == p[a]
  {
    forall k | 0 <= k < b - a
      ensures ls[i + a..i + b][k] == p[a..b][k]
    {
      assert ls[i + a + k] == ls[i..i + |p|][a + k];
    }
    if a < |p| {
      assert ls[i + a] == ls[i..i + |p|][a];
    }
  }

  /** Nothing extends the atom that ends at `i`. */
  lemma TrailersEnd(style: LeafStyle, ls: seq<Lexeme>, i: nat, callee: Formula)
    requires i <= |ls| && Ends(style, ls, i)
    ensures ParseTrailers(style, ls, i, callee) == Some((callee, i))
  {
  }

  /** An atom that no `and`/`or` follows is a whole `and_test` and `or_test`. */
  lemma OrOfPrimary(style: LeafStyle, ls: seq<Lexeme>, i: nat, f: Formula, j: nat)
    requires i < |ls| && ls[i] != NotOp
    requires ParsePrimary(style, ls, i) == Some((f, j))
    requires j == |ls| || (ls[j] != AndOp && ls[j] != OrOp)
    ensures ParseAnd(style, ls, i) == Some((f, j))
    ensures ParseOr(style, ls, i) == Some((f, j))
  {
    assert ParseNot(style, ls, i) == Some((f, j));
    assert ParseAndRest(style, ls, j, f) == Some((f, j));
  }

  /** `( inner )` that nothing extends is an atom. */
  lemma PrimaryOfParens(style: LeafStyle, ls: seq<Lexeme>, i: nat, inner: Formula, j: nat)
    requires i + 1 < |ls| && ls[i] == Open && ls[i + 1] != Close
    requires ParseOr(style, ls, i + 1) == Some((inner, j))
    requires j < |ls| && ls[j] == Close && Ends(style, ls, j + 1)
    ensures ParsePrimary(style, ls, i) == Some((inner, j + 1))
  {
    TrailersEnd(style, ls, j + 1, inner);
  }

  /** Where the parts of `( not pa )` sit, `pa` ending at `ja`. */
  lemma NotParts(ls: seq<Lexeme>, i: nat, pa: seq<Lexeme>, ja: nat)
    requires |pa| > 0 && ja == i + 2 + |pa| && At(ls, i, [Open, NotOp] + pa + [Close])
    ensures ja < |ls| && ls[i] == Open && ls[i + 1] == NotOp
    ensures At(ls, i + 2, pa) && ls[i + 2] == pa[0] && ls[ja] == Close
  {
    var p := [Open, NotOp] + pa + [Close];
    assert p[2..2 + |pa|] == pa;
    AtPart(ls, i, p, 0, 0);
    AtPart(ls, i, p, 1, 1);
    AtPart(ls, i, p, 2, 2 + |pa|);
    AtPart(ls, i, p, 2 + |pa|, 2 + |pa|);
  }

  /** Where the parts of `( pl op pr )` sit, `pl` ending at `jl` and `pr` at `jr`. */
  lemma BinaryParts(ls: seq<Lexeme>, i: nat, pl: seq<Lexeme>, op: Lexeme, pr: seq<Lexeme>, jl: nat, jr: nat)
    requires |pl| > 0 && |pr| > 0 && jl == i + 1 + |pl| && jr == jl + 1 + |pr|
    requires At(ls, i, [Open] + pl + [op] + pr + [Close])
    ensures jr < |ls| && ls[i] == Open && ls[jl] == op && ls[jr] == Close
    ensures At(ls, i + 1, pl) && ls[i + 1] == pl[0]
    ensures At(ls, jl + 1, pr) && ls[jl + 1] == pr[0]
  {
    var p := [Open] + pl + [op] + pr + [Close];
    var m := 1 + |pl|;
    assert p[1..m] == pl;
    assert p[m + 1..m + 1 + |pr|] == pr;
    AtPart(ls, i, p, 0, 0);
    AtPart(ls, i, p, 1, m);
    AtPart(ls, i, p, m, m);
    AtPart(ls, i, p, m + 1, m + 1 + |pr|);
    AtPart(ls, i, p, m + 1 + |pr|, m + 1 + |pr|);
  }

  /** A printed clean formula, from `i` to `j`, is read back as one atom. */
  lemma {:induction false} ParsePrintedPrimary(style: LeafStyle, f: Formula, ls: seq<Lexeme>, i: nat, j: nat)
    requires Clean(f) && j == i + |Print(f)| && At(ls, i, Print(f)) && Ends(style, ls, j)
    ensures ParsePrimary(style, ls, i) == Some((f, j))
    decreases f, 1
  {
    match f
    case Tag(n) =>
      AtPart(ls, i, Print(f), 0, 0);
      TrailersEnd(style, ls, j, f);
    case Unit =>
      AtPart(ls, i, Print(f), 0, 0);
      AtPart(ls, i, Print(f), 1, 1);
      TrailersEnd(style, ls, j, f);
    case Not(a) => ParsePrintedNot(style, a, ls, i, j);
    case And(l, r) => ParsePrintedAnd(style, l, r, ls, i, j);
    case Or(l, r) => ParsePrintedOr(style, l, r, ls, i, j);
  }

  lemma {:induction false} ParsePrintedNot(style: LeafStyle, a: Formula, ls: seq<Lexeme>, i: nat, j: nat)
    requires Clean(a) && j == i + |Print(Not(a))| && At(ls, i, Print(Not(a))) && Ends(style, ls, j)
    ensures ParsePrimary(style, ls, i) == Some((Not(a), j))
    decreases Not(a), 0
  {
    var ja := j - 1;
    NotParts(ls, i, Print(a), ja);
    ParsePrintedPrimary(style, a, ls, i + 2, ja);
    NotOfPrinted(style, ls, i, a, ja);
  }

  lemma {:induction false} ParsePrintedAnd(style: LeafStyle, l: Formula, r: Formula, ls: seq<Lexeme>, i: nat, j: nat)
    requires Clean(l) && Clean(r) && j == i + |Print(And(l, r))| && At(ls, i, Print(And(l, r)))
    requires Ends(style, ls, j)
    ensures ParsePrimary(style, ls, i) == Some((And(l, r), j))
    decreases And(l, r), 0
  {
    var jl := i + 1 + |Print(l)|;
    var jr := j - 1;
    BinaryParts(ls, i, Print(l), AndOp, Print(r), jl, jr);
    ParsePrintedPrimary(style, l, ls, i + 1, jl);
    ParsePrintedPrimary(style, r, ls, jl + 1, jr);
    AndOfPrinted(style, ls, i, l, r, jl, jr);
  }

  lemma {:induction false} ParsePrintedOr(style: LeafStyle, l: Formula, r: Formula, ls: seq<Lexeme>, i: nat, j: nat)
    requires Clean(l) && Clean(r) && j == i + |Print(Or(l, r))| && At(ls, i, Print(Or(l, r)))
    requires Ends(style, ls, j)
    ensures ParsePrimary(style, ls, i) == Some((Or(l, r), j))
    decreases Or(l, r), 0
  {
    var jl := i + 1 + |Print(l)|;
    var jr := j - 1;
    BinaryParts(ls, i, Print(l), OrOp, Print(r), jl, jr);
    ParsePrintedPrimary(style, l, ls, i + 1, jl);
    ParsePrintedPrimary(style, r, ls, jl + 1, jr);
    OrOfPrinted(style, ls, i, l, r, jl, jr);
  }

  lemma NotOfPrinted(style: LeafStyle, ls: seq<Lexeme>, i: nat, a: Formula, ja: nat)
    requires i + 2 < ja < |ls| && ls[i] == Open && ls[i + 1] == NotOp && ls[ja] == Close
    requires ls[i + 2] != NotOp && ParsePrimary(style, ls, i + 2) == Some((a, ja))
    requires Ends(style, ls, ja + 1)
    ensures ParsePrimary(style, ls, i) == Some((Not(a), ja + 1))
  {
    assert ParseNot(style, ls, i + 2) == Some((a, ja));
    assert ParseNot(style, ls, i + 1) == Some((Not(a), ja));
    assert ParseAndRest(style, ls, ja, Not(a)) == Some((Not(a), ja));
    assert ParseAnd(style, ls, i + 1) == Some((Not(a), ja));
    assert ParseOr(style, ls, i + 1) == Some((Not(a), ja));
    PrimaryOfParens(style, ls, i, Not(a), ja);
  }

  lemma AndOfPrinted(style: LeafStyle, ls: seq<Lexeme>, i: nat, l: Formula, r: Formula, jl: nat, jr: nat)
    requires i + 1 < jl < jl + 1 < jr < |ls|
    requires ls[i] == Open && ls[jl] == AndOp && ls[jr] == Close
    requires ls[i + 1] != NotOp && ls[i + 1] != Close && ls[jl + 1] != NotOp
    requires ParsePrimary(style, ls, i + 1) == Some((l, jl))
    requires ParsePrimary(style, ls, jl + 1) == Some((r, jr))
    requires Ends(style, ls, jr + 1)
    ensures ParsePrimary(style, ls, i) == Some((And(l, r), jr + 1))
  {
    assert ParseNot(style, ls, i + 1) == Some((l, jl));
    assert ParseNot(style, ls, jl + 1) == Some((r, jr));
    assert ParseAndRest(style, ls, jr, And(l, r)) == Some((And(l, r), jr));
    assert ParseAndRest(style, ls, jl, l) == Some((And(l, r), jr));
    assert ParseAnd(style, ls, i + 1) == Some((And(l, r), jr));
    assert ParseOr(style, ls, i + 1) == Some((And(l, r), jr));
    PrimaryOfParens(style, ls, i, And(l, r), jr);
  }

  lemma OrOfPrinted(style: LeafStyle, ls: seq<Lexeme>, i: nat, l: Formula, r: Formula, jl: nat, jr: nat)
    requires i + 1 < jl < jl + 1 < jr < |ls|
    requires ls[i] == Open && ls[jl] == OrOp && ls[jr] == Close
    requires ls[i + 1] != NotOp && ls[i + 1] != Close && ls[jl + 1] != NotOp
    requires ParsePrimary(style, ls, i + 1) == Some((l, jl))
    requires ParsePrimary(style, ls, jl + 1) == Some((r, jr))
    requires Ends(style, ls, jr + 1)
    ensures ParsePrimary(style, ls, i) == Some((Or(l, r), jr + 1))
  {
    OrOfPrimary(style, ls, jl + 1, r, jr);
    assert ParseNot(style, ls, i + 1) == Some((l, jl));
    assert ParseAndRest(style, ls, jl, l) == Some((l, jl));
    assert ParseAnd(style, ls, i + 1) == Some((l, jl));
    assert ParseOrRest(style, ls, jr, Or(l, r)) == Some((Or(l, r), jr));
    assert ParseOrRest(style, ls, jl, l) == Some((Or(l, r), jr));
    assert ParseOr(style, ls, i + 1) == Some((Or(l, r), jr));
    PrimaryOfParens(style, ls, i, Or(l, r), jr);
  }

  /** Round trip: printing a clean formula and parsing the result gives it back, in
      either leaf style. */
  lemma ParsePrint(style: LeafStyle, f: Formula)
    requires Clean(f)
    ensures Parse(style, Print(f)) == Some(f)
  {
    var p := Print(f);
    assert At(p, 0, p) by { assert p[0..|p|] == p; }
    ParsePrintedPrimary(style, f, p, 0, |p|);
    OrOfPrimary(style, p, 0, f, |p|);
  }

  // ---------------------------------------------------------------------------
  // Precedence
  // ---------------------------------------------------------------------------

  lemma NotOfAtom(style: LeafStyle, ls: seq<Lexeme>, i: nat, f: Formula, j: nat)
    requires i < |ls| && ls[i] != NotOp && ParsePrimary(style, ls, i) == Some((f, j))
    ensures ParseNot(style, ls, i) == Some((f, j))
  {
  }

  lemma AndOfTwo(style: LeafStyle, ls: seq<Lexeme>, i: nat, x: Formula, j1: nat, y: Formula, j2: nat)
    requires j1 < |ls| && ls[j1] == AndOp && i <= |ls|
    requires ParseNot(style, ls, i) == Some((x, j1)) && ParseNot(style, ls, j1 + 1) == Some((y, j2))
    requires j2 == |ls| || ls[j2] != AndOp
    ensures ParseAnd(style, ls, i) == Some((And(x, y), j2))
  {
    assert ParseAndRest(style, ls, j2, And(x, y)) == Some((And(x, y), j2));
    assert ParseAndRest(style, ls, j1, x) == Some((And(x, y), j2));
  }

  lemma AndOfOne(style: LeafStyle, ls: seq<Lexeme>, i: nat, x: Formula, j: nat)
    requires i <= |ls| && ParseNot(style, ls, i) == Some((x, j))
    requires j == |ls| || ls[j] != AndOp
    ensures ParseAnd(style, ls, i) == Some((x, j))
  {
    assert ParseAndRest(style, ls, j, x) == Some((x, j));
  }

  lemma OrOfTwo(style: LeafStyle, ls: seq<Lexeme>, i: nat, x: Formula, j1: nat, y: Formula, j2: nat)
    requires j1 < |ls| && ls[j1] == OrOp && i <= |ls|
    requires ParseAnd(style, ls, i) == Some((x, j1)) && ParseAnd(style, ls, j1 + 1) == Some((y, j2))
    requires j2 == |ls| || ls[j2] != OrOp
    ensures ParseOr(style, ls, i) == Some((Or(x, y), j2))
  {
    assert ParseOrRest(style, ls, j2, Or(x, y)) == Some((Or(x, y), j2));
    assert ParseOrRest(style, ls, j1, x) == Some((Or(x, y), j2));
  }

  lemma OrOfOne(style: LeafStyle, ls: seq<Lexeme>, i: nat, x: Formula, j: nat)
    requires i <= |ls| && ParseAnd(style, ls, i) == Some((x, j))
    requires j == |ls| || ls[j] != OrOp
    ensures ParseOr(style, ls, i) == Some((x, j))
  {
    assert ParseOrRest(style, ls, j, x) == Some((x, j));
  }

  /** Where the parts of `pa x pb y pc` sit. */
  lemma FiveParts(pa: seq<Lexeme>, x: Lexeme, pb: seq<Lexeme>, y: Lexeme, pc: seq<Lexeme>)
    ensures var ls := pa + [x] + pb + [y] + pc;
      var ja := |pa|; var jb := ja + 1 + |pb|;
      |ls| == jb + 1 + |pc| && At(ls, 0, pa) && ls[ja] == x && At(ls, ja + 1, pb)
      && ls[jb] == y && At(ls, jb + 1, pc)
      && (|pa| > 0 ==> ls[0] == pa[0]) && (|pb| > 0 ==> ls[ja + 1] == pb[0])
      && (|pc| > 0 ==> ls[jb + 1] == pc[0])
  {
    var ls := pa + [x] + pb + [y] + pc;
    var ja := |pa|;
    var jb := ja + 1 + |pb|;
    assert ls[0..ja] == pa;
    assert ls[ja + 1..jb] == pb;
    assert ls[jb + 1..|ls|] == pc;
  }

  /** `a or b and c` reads as `a or (b and c)`. */
  lemma AndBindsTighterThanOr(style: LeafStyle, a: Formula, b: Formula, c: Formula)
    requires Clean(a) && Clean(b) && Clean(c)
    ensures Parse(style, Print(a) + [OrOp] + Print(b) + [AndOp] + Print(c)) == Some(Or(a, And(b, c)))
  {
    var pa, pb, pc := Print(a), Print(b), Print(c);
    FiveParts(pa, OrOp, pb, AndOp, pc);
    OrOfAnd(style, pa + [OrOp] + pb + [AndOp] + pc, a, b, c, |pa|, |pa| + 1 + |pb|);
  }

  lemma OrOfAnd(style: LeafStyle, ls: seq<Lexeme>, a: Formula, b: Formula, c: Formula, ja: nat, jb: nat)
    requires Clean(a) && Clean(b) && Clean(c)
    requires ja == |Print(a)| && jb == ja + 1 + |Print(b)| && |ls| == jb + 1 + |Print(c)|
    requires At(ls, 0, Print(a)) && ls[ja] == OrOp && At(ls, ja + 1, Print(b))
    requires ls[jb] == AndOp && At(ls, jb + 1, Print(c))
    requires ls[0] == Print(a)[0] && ls[ja + 1] == Print(b)[0] && ls[jb + 1] == Print(c)[0]
    ensures Parse(style, ls) == Some(Or(a, And(b, c)))
  {
    PrintedNot(style, a, ls, 0, ja);
    AndOfOne(style, ls, 0, a, ja);
    PrintedAndPair(style, ls, b, c, ja + 1, jb, |ls|);
    OrOfTwo(style, ls, 0, a, ja, And(b, c), |ls|);
  }

  /** A printed clean formula is a whole `not_test`. */
  lemma PrintedNot(style: LeafStyle, f: Formula, ls: seq<Lexeme>, i: nat, j: nat)
    requires Clean(f) && j == i + |Print(f)| && At(ls, i, Print(f)) && Ends(style, ls, j)
    requires i < |ls| && ls[i] == Print(f)[0]
    ensures ParseNot(style, ls, i) == Some((f, j))
  {
    ParsePrintedPrimary(style, f, ls, i, j);
    NotOfAtom(style, ls, i, f, j);
  }

  /** Printed `b`, `and`, printed `c`, with no `and` after: one `and_test`. */
  lemma PrintedAndPair(style: LeafStyle, ls: seq<Lexeme>, b: Formula, c: Formula, i: nat, jb: nat, jc: nat)
    requires Clean(b) && Clean(c)
    requires jb == i + |Print(b)| && jc == jb + 1 + |Print(c)| && jc <= |ls|
    requires At(ls, i, Print(b)) && ls[jb] == AndOp && At(ls, jb + 1, Print(c))
    requires ls[i] == Print(b)[0] && ls[jb + 1] == Print(c)[0]
    requires Ends(style, ls, jc) && (jc == |ls| || ls[jc] != AndOp)
    ensures ParseAnd(style, ls, i) == Some((And(b, c), jc))
  {
    PrintedNot(style, b, ls, i, jb);
    PrintedNot(style, c, ls, jb + 1, jc);
    AndOfTwo(style, ls, i, b, jb, c, jc);
  }

  /** `not a and b` reads as `(not a) and b`. */
  lemma NotBindsTighterThanAnd(style: LeafStyle, a: Formula, b: Formula)
    requires Clean(a) && Clean(b)
    ensures Parse(style, [NotOp] + Print(a) + [AndOp] + Print(b)) == Some(And(Not(a), b))
  {
    var pa, pb := Print(a), Print(b);
    NotAndParts(pa, pb);
    AndOfNot(style, [NotOp] + pa + [AndOp] + pb, a, b, 1 + |pa|);
  }

  /** Where the parts of `not pa and pb` sit. */
  lemma NotAndParts(pa: seq<Lexeme>, pb: seq<Lexeme>)
    requires |pa| > 0 && |pb| > 0
    ensures var ls := [NotOp] + pa + [AndOp] + pb; var ja := 1 + |pa|;
      |ls| == ja + 1 + |pb| && ls[0] == NotOp && At(ls, 1, pa) && ls[ja] == AndOp
      && At(ls, ja + 1, pb) && ls[1] == pa[0] && ls[ja + 1] == pb[0]
  {
    var ls := [NotOp] + pa + [AndOp] + pb;
    var ja := 1 + |pa|;
    assert ls[1..ja] == pa;
    assert ls[ja + 1..|ls|] == pb;
  }

  lemma AndOfNot(style: LeafStyle, ls: seq<Lexeme>, a: Formula, b: Formula, ja: nat)
    requires Clean(a) && Clean(b)
    requires ja == 1 + |Print(a)| && |ls| == ja + 1 + |Print(b)|
    requires ls[0] == NotOp && At(ls, 1, Print(a)) && ls[ja] == AndOp && At(ls, ja + 1, Print(b))
    requires ls[1] == Print(a)[0] && ls[ja + 1] == Print(b)[0]
    ensures Parse(style, ls) == Some(And(Not(a), b))
  {
    assert ParseNot(style, ls, 0) == Some((Not(a), ja)) by {
      PrintedNot(style, a, ls, 1, ja);
    }
    assert ParseNot(style, ls, ja + 1) == Some((b, |ls|)) by {
      PrintedNot(style, b, ls, ja + 1, |ls|);
    }
    AndOfTwo(style, ls, 0, Not(a), ja, b, |ls|);
    OrOfOne(style, ls, 0, And(Not(a), b), |ls|);
  }

  /** Two tags side by side: a call in the `('{}' in tags)` text, a syntax error in the
      `check('{}',tags)` text. */
  lemma AdjacentTags(a: string, b: string)
    ensures Parse(InTags, [Word(a), Word(b)]) == Some(Call(Tag(a), Some(Tag(b))))
    ensures Parse(CheckCall, [Word(a), Word(b)]) == None
  {
    var ls := [Word(a), Word(b)];
    var c := Call(Tag(a), Some(Tag(b)));
    assert ParseTrailers(InTags, ls, 2, c) == Some((c, 2));
    assert ParseTrailers(InTags, ls, 1, Tag(a)) == Some((c, 2));
    assert ParsePrimary(InTags, ls, 0) == Some((c, 2));
    OrOfPrimary(InTags, ls, 0, c, 2);
    assert ParseTrailers(CheckCall, ls, 1, Tag(a)) == Some((Tag(a), 1));
    assert ParsePrimary(CheckCall, ls, 0) == Some((Tag(a), 1));
    OrOfPrimary(CheckCall, ls, 0, Tag(a), 1);
  }
}
