/**
  The character loop of `tags_and_source_template`: it copies a condition line into
  a buffer (`new_line`), putting spaces around every operator character that is not
  escaped, and rejects a bad escape and a `~` that starts a token. The buffer is then
  split on spaces into tokens.

  The loop is identical in e621dl_lib/local.py and e621dl/local.py (apart from how the
  warning is printed), so it is modelled once.
*/
module CondScanner {
  import opened Wrappers

  /** Why the tokeniser gives up (the source prints a message and exits). */
  datatype ScanError =
    | BadEscape     // `\` followed by something other than `|&()`
    | LeadingTilde  // `~` as the first character of a token

  /** The characters `\` may escape. */
  predicate Escapable(c: char) { c in "|&()" }

  /** The characters that act as operators when not escaped. */
  predicate IsOperatorChar(c: char) { c in "-|&()" }

  /** The characters the source warns about (the warning changes nothing). */
  predicate IsForbiddenChar(c: char) { c in "%,#*" }

  // ---------------------------------------------------------------------------
  // Specification of the loop
  // ---------------------------------------------------------------------------

  /** The character before position `i` of the line, with a space in front of the line. */
  function Prev(line: string, i: nat): char
    requires i < |line|
  {
    if i == 0 then ' ' else line[i - 1]
  }

  /** One pass of the loop body: `prev`/`cur` are a pair of consecutive characters of
      the space-prefixed line, `acc` is `new_line` so far. */
  function Step(prev: char, cur: char, acc: string): Result<string, ScanError>
    requires |acc| > 0
  {
    if prev == '\\' then
      if !Escapable(cur) then Err(BadEscape) else Ok(acc + [cur])
    else if IsOperatorChar(cur) then
      if cur == '-' && acc[|acc| - 1] != ' ' then Ok(acc + [cur])
      else Ok(acc + [' ', cur, ' '])
    else if cur == '~' && acc[|acc| - 1] == ' ' then Err(LeadingTilde)
    else Ok(acc + [cur])
  }

  /** `new_line` after the first `n` passes of the loop (or the error that ended it). */
  function ScanPrefix(line: string, n: nat): (r: Result<string, ScanError>)
    requires n <= |line|
    ensures r.Ok? ==> |r.value| > 0 && r.value[0] == ' '
  {
    if n == 0 then Ok(" ")
    else
      match ScanPrefix(line, n - 1)
      case Err(e) => Err(e)
      case Ok(acc) => Step(Prev(line, n - 1), line[n - 1], acc)
  }

  /** The whole loop: the joined `new_line`, or the error. */
  function Scan(line: string): Result<string, ScanError>
  {
    ScanPrefix(line, |line|)
  }

  /** `[t for t in s.split(' ') if t]`: the maximal runs of non-space characters. */
  function SplitSpaces(s: string): seq<string>
  {
    if s == [] then []
    else if s[0] == ' ' then SplitSpaces(s[1..])
    else
      var n := TokenEnd(s);
      [s[..n]] + SplitSpaces(s[n..])
  }

  /** The length of the run of non-space characters that starts `s`. */
  function TokenEnd(s: string): (n: nat)
    requires s != [] && s[0] != ' '
    ensures 0 < n <= |s|
    ensures forall k :: 0 <= k < n ==> s[k] != ' '
    ensures n < |s| ==> s[n] == ' '
  {
    if |s| == 1 || s[1] == ' ' then 1 else 1 + TokenEnd(s[1..])
  }

  /** The tokens of a condition line, or the error that rejected it. */
  function Tokenise(line: string): Result<seq<string>, ScanError>
  {
    match Scan(line)
    case Err(e) => Err(e)
    case Ok(s) => Ok(SplitSpaces(s))
  }

  // ---------------------------------------------------------------------------
  // The loop itself
  // ---------------------------------------------------------------------------

  /** The character loop, as the source runs it over `zip(line[:-1], line[1:])` of the
      space-prefixed line. */
  method ScanLine(line: string) returns (r: Result<string, ScanError>)
    ensures r == Scan(line)
  {
    var padded := [' '] + line;
    var newLine := " ";
    var i := 0;
    while i < |line|
      invariant 0 <= i <= |line|
      invariant ScanPrefix(line, i) == Ok(newLine)
    {
      var prev, cur := padded[i], padded[i + 1];
      assert prev == Prev(line, i) && cur == line[i];
      if prev == '\\' {
        if cur !in "|&()" {
          ErrorSticks(line, i + 1, |line|);
          return Err(BadEscape);
        }
        newLine := newLine + [cur];
      } else if cur in "-|&()" {
        if cur == '-' && newLine[|newLine| - 1] != ' ' {
          newLine := newLine + [cur];
        } else {
          newLine := newLine + [' ', cur, ' '];
        }
      } else if cur == '~' && newLine[|newLine| - 1] == ' ' {
        ErrorSticks(line, i + 1, |line|);
        return Err(LeadingTilde);
      } else {
        newLine := newLine + [cur];
      }
      i := i + 1;
    }
    return Ok(newLine);
  }

  /** Once a pass fails, the loop has failed with that error. */
  lemma {:induction false} ErrorSticks(line: string, n: nat, m: nat)
    requires n <= m <= |line|
    requires ScanPrefix(line, n).Err?
    ensures ScanPrefix(line, m) == ScanPrefix(line, n)
    decreases m - n
  {
    if n < m {
      ErrorSticks(line, n + 1, m);
    }
  }

  // ---------------------------------------------------------------------------
  // What is rejected
  // ---------------------------------------------------------------------------

  /** A `\` before anything but `|&()` rejects the line. */
  lemma BadEscapeRejected(line: string, i: nat)
    requires i + 1 < |line| && line[i] == '\\' && !Escapable(line[i + 1])
    ensures Scan(line).Err?
  {
    if ScanPrefix(line, i + 1).Err? {
      ErrorSticks(line, i + 1, |line|);
    } else {
      assert Prev(line, i + 1) == '\\';
      assert ScanPrefix(line, i + 2) == Err(BadEscape);
      ErrorSticks(line, i + 2, |line|);
    }
  }

  /** A `~` at the start of the line, after a space, after an unescaped `|&()`, or
      after an unescaped `-` that itself starts a token (as in `-~b`) starts a token,
      and rejects the line. After a `-` inside a tag (`a-~b`) it does not. */
  lemma TildeAtTokenStartRejected(line: string, i: nat)
    requires i < |line| && line[i] == '~'
    requires || i == 0 || line[i - 1] == ' '
             || (Escapable(line[i - 1]) && Prev(line, i - 1) != '\\')
             || (&& line[i - 1] == '-' && Prev(line, i - 1) != '\\'
                 && (i == 1 || line[i - 2] == ' ' || (Escapable(line[i - 2]) && Prev(line, i - 2) != '\\')))
    ensures Scan(line).Err?
  {
    if ScanPrefix(line, i).Err? {
      ErrorSticks(line, i, |line|);
    } else {
      var acc := ScanPrefix(line, i).value;
      if i > 0 {
        assert ScanPrefix(line, i - 1).Ok?;
        if line[i - 1] == ' ' {
          assert Prev(line, i - 1) != '\\';  // a space after `\` is a bad escape
        } else if line[i - 1] == '-' {
          var j := i - 1;
          assert ScanPrefix(line, j).Ok?;
          var before := ScanPrefix(line, j).value;
          if j > 0 {
            assert ScanPrefix(line, j - 1).Ok?;
            if line[j - 1] == ' ' {
              assert Prev(line, j - 1) != '\\';
            }
          }
          assert before[|before| - 1] == ' ';
          assert acc == before + [' ', '-', ' '];
        }
      }
      assert acc[|acc| - 1] == ' ';
      assert ScanPrefix(line, i + 1) == Err(LeadingTilde);
      ErrorSticks(line, i + 1, |line|);
    }
  }

  /** A `-` inside a tag does not start a token, so a `~` after it is kept: `a-~b` is
      one tag. */
  lemma TildeInsideTagAccepted()
    ensures Scan("a-~b") == Ok(" a-~b")
  {
    var line := "a-~b";
    assert line[0] == 'a' && line[1] == '-' && line[2] == '~' && line[3] == 'b';
    assert ScanPrefix(line, 1) == Ok(" " + ['a']);
    assert ScanPrefix(line, 2) == Ok(" " + ['a'] + ['-']);
    assert ScanPrefix(line, 3) == Ok(" " + ['a'] + ['-'] + ['~']);
    assert ScanPrefix(line, 4) == Ok(" " + ['a'] + ['-'] + ['~'] + ['b']);
    assert " " + ['a'] + ['-'] + ['~'] + ['b'] == " a-~b";
  }

  /** An accepted line has every `\` followed by `|&()` (or at the very end). */
  lemma AcceptedEscapesValid(line: string, i: nat)
    requires Scan(line).Ok?
    requires i + 1 < |line| && line[i] == '\\'
    ensures Escapable(line[i + 1])
  {
    if !Escapable(line[i + 1]) {
      BadEscapeRejected(line, i);
    }
  }

  // ---------------------------------------------------------------------------
  // The shape of the buffer
  // ---------------------------------------------------------------------------

  /** Position `k` follows a space (or starts the string): it starts a token. */
  predicate StartsToken(s: string, k: nat)
    requires k < |s|
  {
    k == 0 || s[k - 1] == ' '
  }

  /** Position `k` stands alone, with a space on each side. */
  predicate Isolated(s: string, k: nat)
    requires k < |s|
  {
    StartsToken(s, k) && k + 1 < |s| && s[k + 1] == ' '
  }

  /** What the loop guarantees about each character it has written. */
  predicate CharRule(s: string, k: nat)
    requires k < |s|
  {
    && (Escapable(s[k]) ==> (k > 0 && s[k - 1] == '\\') || Isolated(s, k))
    && (s[k] == '-' ==> !StartsToken(s, k) || Isolated(s, k))
    && (s[k] == '~' ==> !StartsToken(s, k))
  }

  predicate CharOK(s: string)
  {
    forall k :: 0 <= k < |s| ==> CharRule(s, k)
  }

  /** Spaces are dropped; every other character is kept, in order. */
  function RemoveSpaces(s: string): (r: string)
  {
    if s == [] then []
    else (if s[0] == ' ' then [] else [s[0]]) + RemoveSpaces(s[1..])
  }

  lemma {:induction false} RemoveSpacesAppend(a: string, b: string)
    ensures RemoveSpaces(a + b) == RemoveSpaces(a) + RemoveSpaces(b)
  {
    if a == [] {
      assert a + b == b;
    } else {
      assert (a + b)[0] == a[0];
      assert (a + b)[1..] == a[1..] + b;
      RemoveSpacesAppend(a[1..], b);
    }
  }

  /** Appending keeps the rule of every earlier character. */
  lemma CharRuleAppend(s: string, x: string, k: nat)
    requires k < |s| && CharRule(s, k)
    ensures CharRule(s + x, k)
  {
    assert (s + x)[k] == s[k];
    if k > 0 { assert (s + x)[k - 1] == s[k - 1]; }
    if k + 1 < |s| { assert (s + x)[k + 1] == s[k + 1]; }
  }

  /** The spaces put around an operator are not part of the line's content. */
  lemma PaddingRemoved(c: char)
    requires c != ' '
    ensures RemoveSpaces([' ', c, ' ']) == RemoveSpaces([c])
  {
    var x := [' ', c, ' '];
    assert x[1..] == [c, ' '] && [c, ' '][1..] == [' '] && [' '][1..] == [];
    assert [c][1..] == [];
    assert RemoveSpaces([' ']) == [];
    assert RemoveSpaces([c, ' ']) == RemoveSpaces([c]);
  }

  /** The invariant of the loop: the buffer obeys the character rules, ends with the
      last `\` read, and has lost no non-space character of the line. */
  lemma {:induction false} ScanPrefixShape(line: string, n: nat)
    requires n <= |line|
    requires ScanPrefix(line, n).Ok?
    ensures CharOK(ScanPrefix(line, n).value)
    ensures n > 0 && line[n - 1] == '\\' ==> ScanPrefix(line, n).value[|ScanPrefix(line, n).value| - 1] == '\\'
    ensures RemoveSpaces(ScanPrefix(line, n).value) == RemoveSpaces(line[..n])
  {
    if n == 0 {
      assert ScanPrefix(line, 0).value == " ";
      assert CharRule(" ", 0);
    } else {
      ScanPrefixShape(line, n - 1);
      var acc := ScanPrefix(line, n - 1).value;
      var prev, cur := Prev(line, n - 1), line[n - 1];
      var out := ScanPrefix(line, n).value;
      assert line[..n] == line[..n - 1] + [cur];
      RemoveSpacesAppend(line[..n - 1], [cur]);
      var x: string;
      if prev == '\\' {
        x := [cur];
        assert acc[|acc| - 1] == '\\';
      } else if IsOperatorChar(cur) && !(cur == '-' && acc[|acc| - 1] != ' ') {
        x := [' ', cur, ' '];
      } else {
        x := [cur];
      }
      assert out == acc + x;
      assert RemoveSpaces(out) == RemoveSpaces(line[..n]) by {
        RemoveSpacesAppend(acc, x);
        if |x| == 3 {
          PaddingRemoved(cur);
        }
      }
      forall k | 0 <= k < |out|
        ensures CharRule(out, k)
      {
        if k < |acc| {
          CharRuleAppend(acc, x, k);
        }
      }
    }
  }

  // ---------------------------------------------------------------------------
  // The shape of the tokens
  // ---------------------------------------------------------------------------

  /** What holds of each token the tokeniser yields. */
  predicate TokRule(t: string, k: nat)
    requires k < |t|
  {
    && t[k] != ' '
    && (Escapable(t[k]) ==> (k > 0 && t[k - 1] == '\\') || |t| == 1)
    && (t[k] == '-' ==> k > 0 || |t| == 1)
    && (t[k] == '~' ==> k > 0)
  }

  predicate TokOK(t: string)
  {
    |t| > 0 && forall k :: 0 <= k < |t| ==> TokRule(t, k)
  }

  /** Cutting the buffer right after a space, or at a space, keeps the rules. */
  lemma CharOKSuffix(s: string, j: nat)
    requires CharOK(s) && j <= |s|
    requires j == 0 || s[j - 1] == ' ' || j == |s| || s[j] == ' '
    ensures CharOK(s[j..])
  {
    var u := s[j..];
    forall k | 0 <= k < |u|
      ensures CharRule(u, k)
    {
      assert CharRule(s, j + k);
      if k > 0 { assert u[k - 1] == s[j + k - 1]; }
      if k + 1 < |u| { assert u[k + 1] == s[j + k + 1]; }
    }
  }

  /** Splitting a buffer that obeys the character rules yields well-formed tokens,
      and loses nothing but spaces. */
  lemma {:induction false} SplitShape(s: string)
    requires CharOK(s)
    ensures forall t :: t in SplitSpaces(s) ==> TokOK(t)
    ensures Concat(SplitSpaces(s)) == RemoveSpaces(s)
    decreases |s|
  {
    if s == [] {
    } else if s[0] == ' ' {
      CharOKSuffix(s, 1);
      SplitShape(s[1..]);
    } else {
      var n := TokenEnd(s);
      var t := s[..n];
      forall k | 0 <= k < |t|
        ensures TokRule(t, k)
      {
        assert CharRule(s, k);
        if k > 0 { assert s[k - 1] == t[k - 1]; }
      }
      CharOKSuffix(s, n);
      SplitShape(s[n..]);
      assert s == t + s[n..];
      RemoveSpacesAppend(t, s[n..]);
      NoSpacesKept(t);
    }
  }

  /** A string without spaces is its own space-free form. */
  lemma {:induction false} NoSpacesKept(t: string)
    requires forall k :: 0 <= k < |t| ==> t[k] != ' '
    ensures RemoveSpaces(t) == t
  {
    if t != [] {
      NoSpacesKept(t[1..]);
    }
  }

  function Concat(ts: seq<string>): string
  {
    if ts == [] then [] else ts[0] + Concat(ts[1..])
  }

  /** The tokens of an accepted line are well formed, none starts with `~`, an
      unescaped `|&()` or a leading `-` is a token of its own, and joined together
      they are the line without its spaces. */
  lemma TokeniseShape(line: string)
    requires Tokenise(line).Ok?
    ensures forall t :: t in Tokenise(line).value ==> TokOK(t) && t[0] != '~'
    ensures Concat(Tokenise(line).value) == RemoveSpaces(line)
  {
    ScanPrefixShape(line, |line|);
    assert line[..|line|] == line;
    SplitShape(Scan(line).value);
    forall t | t in Tokenise(line).value
      ensures t[0] != '~'
    {
      assert TokRule(t, 0);
    }
  }
}
