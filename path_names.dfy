/**
  The string and date helpers around file names: cleaning a section name into a
  directory name, building a download path, the earliest date of a search, and
  reading a post id back out of a file name.

  Both versions of `local.py` are covered where they differ (`substitute_illegals`,
  `make_path`). `str.lower` is modelled on ASCII letters, `int()` on an optional sign
  followed by ASCII digits, and a date as its proleptic Gregorian ordinal.
*/
module PathNames {
  import opened Wrappers

  // ---------------------------------------------------------------------------
  // Characters
  // ---------------------------------------------------------------------------

  /** `str.lower` on one character (ASCII letters only). */
  function Lower(c: char): (r: char)
    ensures 'A' <= c <= 'Z' ==> r as int == c as int + 32
    ensures !('A' <= c <= 'Z') ==> r == c
    ensures !('A' <= r <= 'Z')
  {
    if 'A' <= c <= 'Z' then (c as int + 32) as char else c
  }

  function LowerString(s: string): (r: string)
    ensures |r| == |s| && forall k :: 0 <= k < |s| ==> r[k] == Lower(s[k])
  {
    if s == [] then [] else [Lower(s[0])] + LowerString(s[1..])
  }

  /** Characters e621dl_lib/local.py replaces by `_` in directory names. */
  predicate IsIllegal(c: char) { c in ":*?\"<>|" }

  /** Path separators, which e621dl_lib/local.py turns into `/` in directory names. */
  predicate IsSlash(c: char) { c in "\\/" }

  /** Characters replaced by `_` in file names (and, in e621dl/local.py, in directory
      names too). */
  predicate IsIllegalInName(c: char) { IsIllegal(c) || IsSlash(c) }

  /** `substitute_illegals` of e621dl_lib/local.py. */
  function SubstituteIllegals(c: char): (r: char)
    ensures IsIllegal(c) ==> r == '_'
    ensures IsSlash(c) ==> r == '/'
    ensures !IsIllegalInName(c) ==> r == c
  {
    var c1 := if IsIllegal(c) then '_' else c;
    if IsSlash(c1) then '/' else c1
  }

  /** `substitute_illegals` of e621dl/local.py. */
  function SubstituteIllegalsOld(c: char): (r: char)
    ensures IsIllegalInName(c) ==> r == '_'
    ensures !IsIllegalInName(c) ==> r == c
  {
    if c in "\\:*?\"<>|/" then '_' else c
  }

  // ---------------------------------------------------------------------------
  // Names and paths
  // ---------------------------------------------------------------------------

  /** `substitute_illegals_filename`. */
  function SubstituteIllegalsFilename(s: string): (r: string)
  {
    if s == [] then []
    else [if IsIllegalInName(s[0]) then '_' else s[0]] + SubstituteIllegalsFilename(s[1..])
  }

  /** The file name keeps its length, every legal character in place, and loses every
      illegal one. */
  lemma {:induction false} FilenameCleaned(s: string)
    ensures var r := SubstituteIllegalsFilename(s);
      && |r| == |s|
      && (forall k :: 0 <= k < |s| ==> r[k] == (if IsIllegalInName(s[k]) then '_' else s[k]))
      && (forall c :: c in r ==> !IsIllegalInName(c))
  {
    if s != [] {
      FilenameCleaned(s[1..]);
    }
  }

  /** Cleaning a file name twice is cleaning it once. */
  lemma FilenameCleanIdempotent(s: string)
    ensures SubstituteIllegalsFilename(SubstituteIllegalsFilename(s)) == SubstituteIllegalsFilename(s)
  {
    var r := SubstituteIllegalsFilename(s);
    FilenameCleaned(s);
    FilenameCleaned(r);
  }

  function MapSubstitute(s: string): (r: string)
    ensures |r| == |s| && forall k :: 0 <= k < |s| ==> r[k] == SubstituteIllegals(s[k])
  {
    if s == [] then [] else [SubstituteIllegals(s[0])] + MapSubstitute(s[1..])
  }

  function MapSubstituteOld(s: string): (r: string)
    ensures |r| == |s| && forall k :: 0 <= k < |s| ==> r[k] == SubstituteIllegalsOld(s[k])
  {
    if s == [] then [] else [SubstituteIllegalsOld(s[0])] + MapSubstituteOld(s[1..])
  }

  /** `make_new_dir` (e621dl_lib/local.py), without creating the directory: the section
      name with illegal characters replaced, separators unified to `/`, lowercased. */
  function MakeNewDir(dirName: string): string
  {
    LowerString(MapSubstitute(dirName))
  }

  /** The cleaned directory name of e621dl_lib/local.py keeps its length, has no
      illegal character, no backslash and no upper-case letter, and keeps a `/`
      exactly where the section name had a separator. */
  lemma MakeNewDirClean(dirName: string)
    ensures var r := MakeNewDir(dirName);
      && |r| == |dirName|
      && (forall k :: 0 <= k < |r| ==> !IsIllegal(r[k]) && r[k] != '\\' && !('A' <= r[k] <= 'Z'))
      && (forall k :: 0 <= k < |r| ==> (r[k] == '/' <==> IsSlash(dirName[k])))
  {
  }

  /** `make_path` of e621dl_lib/local.py. */
  function MakePath(dirName: string, filename: string): string
  {
    "downloads/" + MakeNewDir(dirName) + "/" + SubstituteIllegalsFilename(filename)
  }

  /** The new path ends in the cleaned file name, after a `/`: the file name cannot
      add a directory level, whatever separators it held. */
  lemma MakePathLastComponent(dirName: string, filename: string)
    ensures var p, f := MakePath(dirName, filename), SubstituteIllegalsFilename(filename); var n := |f|;
      && p[..10] == "downloads/"
      && p[|p| - n..] == f
      && p[|p| - n - 1] == '/'
      && forall k :: |p| - n <= k < |p| ==> p[k] != '/' && p[k] != '\\'
  {
    var d, f := MakeNewDir(dirName), SubstituteIllegalsFilename(filename);
    FilenameCleaned(filename);
    var p := MakePath(dirName, filename);
    assert p == ("downloads/" + d + "/") + f;
    forall k | |p| - |f| <= k < |p|
      ensures p[k] != '/' && p[k] != '\\'
    {
      assert p[k] == f[k - (|p| - |f|)];
      assert p[k] in f;
    }
  }

  /** The directory part of the old `make_path`. */
  function CleanDirNameOld(dirName: string): string
  {
    LowerString(MapSubstituteOld(dirName))
  }

  /** `make_path(dir_name, filename, ext)` of e621dl/local.py, without creating the
      directory. */
  function MakePathOld(dirName: string, filename: string, ext: string): string
  {
    "downloads/" + CleanDirNameOld(dirName) + "/" + filename + "." + ext
  }

  /** The old directory segment is one path component: no `/` or `\`, no illegal
      character, no upper-case letter, and as long as the section name. */
  lemma OldDirIsOneComponent(dirName: string)
    ensures var r := CleanDirNameOld(dirName);
      |r| == |dirName| && forall k :: 0 <= k < |r| ==> !IsIllegalInName(r[k]) && !('A' <= r[k] <= 'Z')
  {
  }

  /** The old path is `downloads/`, the cleaned section name, `/`, and the file name
      with its extension, so the section directory and the file are recovered from it. */
  lemma MakePathOldParts(dirName: string, filename: string, ext: string)
    ensures var p := MakePathOld(dirName, filename, ext); var n := |dirName|;
      && p[..10] == "downloads/"
      && p[10..10 + n] == CleanDirNameOld(dirName)
      && p[10 + n] == '/'
      && p[11 + n..] == filename + "." + ext
  {
    var d := CleanDirNameOld(dirName);
    var p := MakePathOld(dirName, filename, ext);
    assert p == "downloads/" + d + "/" + (filename + "." + ext);
  }

  /** Within one section and extension, different file names give different paths. */
  lemma MakePathOldInjective(dirName: string, f1: string, f2: string, ext: string)
    requires MakePathOld(dirName, f1, ext) == MakePathOld(dirName, f2, ext)
    ensures f1 == f2
  {
    var n := |dirName|;
    MakePathOldParts(dirName, f1, ext);
    MakePathOldParts(dirName, f2, ext);
    var t1, t2 := f1 + "." + ext, f2 + "." + ext;
    assert t1 == t2;
    assert f1 == t1[..|t1| - |ext| - 1];
    assert f2 == t2[..|t2| - |ext| - 1];
  }

  // ---------------------------------------------------------------------------
  // Dates
  // ---------------------------------------------------------------------------

  /** `get_date(days_to_check)` as a date ordinal, with today's ordinal as a
      parameter (the formatting with `strftime` is not modelled). */
  function GetDate(days: int, today: int): (r: int)
    requires today >= 1
    ensures 1 <= r <= today
  {
    var ordinal := today - (days - 1);
    if ordinal < 1 then 1 else if ordinal > today then today else ordinal
  }

  /** The earliest date is `days - 1` days before today when that is a valid date not
      in the future, and the nearest such date otherwise; one day means today. */
  lemma GetDateClamps(days: int, today: int)
    requires today >= 1
    ensures 1 <= today - (days - 1) <= today ==> GetDate(days, today) == today - (days - 1)
    ensures days <= 1 ==> GetDate(days, today) == today
    ensures days >= today ==> GetDate(days, today) == 1
  {
  }

  /** Looking further back never gives a later date. */
  lemma GetDateMonotone(d1: int, d2: int, today: int)
    requires today >= 1 && d1 <= d2
    ensures GetDate(d2, today) <= GetDate(d1, today)
  {
  }

  // ---------------------------------------------------------------------------
  // Post ids in file names (e621dl_lib/local.py, `get_files_dict`)
  // ---------------------------------------------------------------------------

  /** The extension of a file still being downloaded. */
  const PartialExt := "request"

  /** The position of the first `d` in `s`. */
  function IndexOf(s: string, d: char): (k: nat)
    requires d in s
    ensures k < |s| && s[k] == d && d !in s[..k]
  {
    if s[0] == d then 0 else 1 + IndexOf(s[1..], d)
  }

  /** `s.split(d)`: the pieces between the separators; always at least one. */
  function Split(s: string, d: char): (parts: seq<string>)
    ensures |parts| >= 1
    decreases |s|
  {
    if d !in s then [s]
    else
      var k := IndexOf(s, d);
      [s[..k]] + Split(s[k + 1..], d)
  }

  /** The first separator is the one the characterisation points at. */
  lemma IndexOfAt(s: string, d: char, k: nat)
    requires k < |s| && s[k] == d && d !in s[..k]
    ensures IndexOf(s, d) == k
  {
  }

  /** Splitting at the first separator: the piece before it, then the rest split. */
  lemma SplitAt(s: string, d: char, k: nat)
    requires k < |s| && s[k] == d && d !in s[..k]
    ensures Split(s, d) == [s[..k]] + Split(s[k + 1..], d)
  {
    IndexOfAt(s, d, k);
  }

  /** The slices of `x + [d] + y` around a position inside `x` or at the separator. */
  lemma AroundSlices(x: string, d: char, y: string, j: nat)
    requires j <= |x|
    ensures (x + [d] + y)[..j] == x[..j]
    ensures j < |x| ==> (x + [d] + y)[j] == x[j] && (x + [d] + y)[j + 1..] == x[j + 1..] + [d] + y
    ensures j == |x| ==> (x + [d] + y)[j] == d && (x + [d] + y)[j + 1..] == y
  {
  }

  /** Splitting at a separator splits both sides. */
  lemma {:induction false} SplitAround(x: string, d: char, y: string)
    ensures Split(x + [d] + y, d) == Split(x, d) + Split(y, d)
    decreases |x|
  {
    if d !in x {
      SplitAroundFirst(x, d, y);
    } else {
      var j := IndexOf(x, d);
      SplitAround(x[j + 1..], d, y);
      SplitAroundLater(x, d, y, j);
    }
  }

  /** The separator added is the first one: it ends the first piece. */
  lemma SplitAroundFirst(x: string, d: char, y: string)
    requires d !in x
    ensures Split(x + [d] + y, d) == Split(x, d) + Split(y, d)
  {
    AroundSlices(x, d, y, |x|);
    assert x[..|x|] == x;
    SplitAt(x + [d] + y, d, |x|);
  }

  /** `x` has a separator of its own at `j`: both sides lose the same first piece. */
  lemma SplitAroundLater(x: string, d: char, y: string, j: nat)
    requires j < |x| && x[j] == d && d !in x[..j]
    requires Split(x[j + 1..] + [d] + y, d) == Split(x[j + 1..], d) + Split(y, d)
    ensures Split(x + [d] + y, d) == Split(x, d) + Split(y, d)
  {
    var head, tail := x[..j], x[j + 1..];
    assert Split(x + [d] + y, d) == [head] + Split(tail + [d] + y, d) by {
      AroundSlices(x, d, y, j);
      SplitAt(x + [d] + y, d, j);
    }
    assert Split(x, d) == [head] + Split(tail, d) by {
      SplitAt(x, d, j);
    }
    ConsAppend(head, Split(tail, d), Split(y, d));
  }

  lemma ConsAppend<T>(h: T, a: seq<T>, b: seq<T>)
    ensures [h] + (a + b) == ([h] + a) + b
  {
  }

  /** The decimal digits of a natural number, as `str(n)` writes them. */
  function NatToString(n: nat): (s: string)
    ensures |s| >= 1 && AllDigits(s)
  {
    if n < 10 then [Digit(n)] else NatToString(n / 10) + [Digit(n % 10)]
  }

  function Digit(d: nat): (c: char)
    requires d < 10
    ensures '0' <= c <= '9' && c as int - '0' as int == d
  {
    ('0' as int + d) as char
  }

  predicate AllDigits(s: string)
  {
    forall k :: 0 <= k < |s| ==> '0' <= s[k] <= '9'
  }

  /** The value of a string of decimal digits. */
  function DigitsValue(s: string): nat
    requires AllDigits(s)
  {
    if s == [] then 0
    else DigitsValue(s[..|s| - 1]) * 10 + (s[|s| - 1] as int - '0' as int)
  }

  /** `int(s)` for an optional sign followed by at least one digit; anything else
      raises (`None`). */
  function ParseInt(s: string): Option<int>
  {
    if |s| > 0 && (s[0] == '-' || s[0] == '+') then
      if |s| > 1 && AllDigits(s[1..]) then
        var v: int := DigitsValue(s[1..]);
        Some(if s[0] == '-' then -v else v)
      else None
    else if |s| > 0 && AllDigits(s) then Some(DigitsValue(s))
    else None
  }

  /** `str(n)` read back by `int()` is `n`. */
  lemma {:induction false} NatToStringRoundTrip(n: nat)
    ensures AllDigits(NatToString(n)) && DigitsValue(NatToString(n)) == n
    ensures ParseInt(NatToString(n)) == Some(n)
  {
    var s := NatToString(n);
    if n >= 10 {
      NatToStringRoundTrip(n / 10);
      assert s[..|s| - 1] == NatToString(n / 10);
    }
    assert s[0] != '-' && s[0] != '+';
  }

  /** The id part of a file name: the second-to-last dot-separated piece, or the
      third-to-last when the name ends in `.request`; `None` where the source would
      raise (too few pieces, or a piece `int()` rejects). */
  function FileId(name: string): Option<int>
  {
    var parts := Split(name, '.');
    if parts[|parts| - 1] == PartialExt then
      if |parts| >= 3 then ParseInt(parts[|parts| - 3]) else None
    else if |parts| >= 2 then ParseInt(parts[|parts| - 2]) else None
  }

  /** A file saved as `[prefix.]id.ext`, finished or still `.request`, gives its id
      back, whatever dots the prefix holds. */
  lemma FileIdRoundTrip(prefix: string, id: nat, ext: string, partial: bool)
    requires '.' !in ext && ext != PartialExt
    ensures var base := (if prefix == [] then [] else prefix + ".") + NatToString(id) + "." + ext;
      FileId(if partial then base + "." + PartialExt else base) == Some(id)
  {
    var idText := NatToString(id);
    NatToStringRoundTrip(id);
    var base := (if prefix == [] then [] else prefix + ".") + idText + "." + ext;
    var parts := BaseParts(prefix, idText, ext);
    if partial {
      PartialParts(base, parts);
    }
  }

  /** `id.ext` splits into the id and the extension. */
  lemma TailParts(idText: string, ext: string)
    requires '.' !in ext && '.' !in idText
    ensures Split(idText + "." + ext, '.') == [idText, ext]
  {
    SplitAround(idText, '.', ext);
    assert idText + "." + ext == idText + ['.'] + ext;
  }

  /** The pieces of `[prefix.]id.ext` end with the id and the extension. */
  lemma BaseParts(prefix: string, idText: string, ext: string) returns (parts: seq<string>)
    requires '.' !in ext && '.' !in idText
    ensures var base := (if prefix == [] then [] else prefix + ".") + idText + "." + ext;
      Split(base, '.') == parts && |parts| >= 2
      && parts[|parts| - 2] == idText && parts[|parts| - 1] == ext
  {
    var tail := idText + "." + ext;
    TailParts(idText, ext);
    if prefix != [] {
      var base := prefix + "." + idText + "." + ext;
      assert base == prefix + ['.'] + tail;
      SplitAround(prefix, '.', tail);
      parts := Split(prefix, '.') + [idText, ext];
    } else {
      assert [] + idText + "." + ext == tail;
      parts := [idText, ext];
    }
  }

  /** Appending `.request` appends one piece. */
  lemma PartialParts(base: string, parts: seq<string>)
    requires Split(base, '.') == parts
    ensures Split(base + "." + PartialExt, '.') == parts + [PartialExt]
  {
    assert base + "." + PartialExt == base + ['.'] + PartialExt;
    SplitAround(base, '.', PartialExt);
    assert '.' !in PartialExt by {
      assert forall k :: 0 <= k < |PartialExt| ==> PartialExt[k] != '.';
    }
    assert Split(PartialExt, '.') == [PartialExt];
  }
}
