/**
  The per-post decisions of e621dl.py: reading the tag lists of a configuration
  section, the whitelist / blacklist / anylist tests, the ordered acceptance chain of
  a search and of the prefilter, the largest `days` value, the file name of a post and
  the search cursor.

  `fnmatch` (shell-style matching of a tag against a mask) is a parameter, so every
  property here holds whatever matching it does. A condition is a `CondFormula.Formula`
  evaluated by `CondFormula.Eval`; a section without one has `lambda x: True`.
*/
module PostFilter {
  import opened Wrappers
  import opened PathNames
  import opened CondFormula

  // ---------------------------------------------------------------------------
  // Words of a configuration value
  // ---------------------------------------------------------------------------

  /** The characters Python's `str.split()` and `str.strip()` treat as whitespace: the
      ASCII tab, line feed, vertical tab, form feed, carriage return, the separators
      0x1C-0x1F and space, and the Unicode spaces and line separators. */
  predicate IsWhitespace(c: char)
  {
    var n := c as int;
    (9 <= n <= 13) || (0x1C <= n <= 0x20) || n == 0x85 || n == 0xA0 || n == 0x1680
    || (0x2000 <= n <= 0x200A) || n == 0x2028 || n == 0x2029 || n == 0x202F || n == 0x205F
    || n == 0x3000
  }

  /** The length of the run of non-whitespace characters that starts `s`. */
  function WordEnd(s: string): (n: nat)
    requires s != [] && !IsWhitespace(s[0])
    ensures 0 < n <= |s|
    ensures forall k :: 0 <= k < n ==> !IsWhitespace(s[k])
    ensures n < |s| ==> IsWhitespace(s[n])
  {
    if |s| == 1 || IsWhitespace(s[1]) then 1 else 1 + WordEnd(s[1..])
  }

  /** `s.split()`: the maximal runs of non-whitespace characters. */
  function SplitWords(s: string): seq<string>
    decreases |s|
  {
    if s == [] then []
    else if IsWhitespace(s[0]) then SplitWords(s[1..])
    else
      var n := WordEnd(s);
      [s[..n]] + SplitWords(s[n..])
  }

  /** `s` without its whitespace. */
  function RemoveWhitespace(s: string): string
  {
    if s == [] then [] else (if IsWhitespace(s[0]) then [] else [s[0]]) + RemoveWhitespace(s[1..])
  }

  function Join(ws: seq<string>): string
  {
    if ws == [] then [] else ws[0] + Join(ws[1..])
  }

  /** The words are non-empty and free of whitespace, and together they are the text
      without its whitespace. */
  lemma {:induction false} SplitWordsShape(s: string)
    ensures forall w :: w in SplitWords(s) ==> w != [] && forall k :: 0 <= k < |w| ==> !IsWhitespace(w[k])
    ensures Join(SplitWords(s)) == RemoveWhitespace(s)
    decreases |s|
  {
    if s == [] {
    } else if IsWhitespace(s[0]) {
      SplitWordsShape(s[1..]);
    } else {
      var n := WordEnd(s);
      SplitWordsShape(s[n..]);
      assert s == s[..n] + s[n..];
      RemoveWhitespaceAppend(s[..n], s[n..]);
      NoWhitespaceKept(s[..n]);
    }
  }

  lemma {:induction false} RemoveWhitespaceAppend(a: string, b: string)
    ensures RemoveWhitespace(a + b) == RemoveWhitespace(a) + RemoveWhitespace(b)
    decreases |a|
  {
    if a == [] {
      assert a + b == b;
    } else {
      assert (a + b)[0] == a[0];
      assert (a + b)[1..] == a[1..] + b;
      var head := if IsWhitespace(a[0]) then [] else [a[0]];
      assert RemoveWhitespace(a + b) == head + RemoveWhitespace(a[1..] + b);
      assert RemoveWhitespace(a) == head + RemoveWhitespace(a[1..]);
      RemoveWhitespaceAppend(a[1..], b);
    }
  }

  lemma {:induction false} NoWhitespaceKept(w: string)
    requires forall k :: 0 <= k < |w| ==> !IsWhitespace(w[k])
    ensures RemoveWhitespace(w) == w
  {
    if w != [] {
      NoWhitespaceKept(w[1..]);
    }
  }

  function ReplaceCommas(s: string): (r: string)
    ensures |r| == |s| && forall k :: 0 <= k < |s| ==> r[k] == (if s[k] == ',' then ' ' else s[k])
  {
    if s == [] then [] else [if s[0] == ',' then ' ' else s[0]] + ReplaceCommas(s[1..])
  }

  /** `value.replace(',', ' ').lower().strip().split()`: the words of a tag list. */
  function ConfigWords(value: string): seq<string>
  {
    SplitWords(LowerString(ReplaceCommas(value)))
  }

  /** Every word of a tag list is non-empty, without whitespace, commas or upper-case
      letters, and the words hold every other character of the value, lowercased. */
  lemma ConfigWordsShape(value: string)
    ensures forall w :: w in ConfigWords(value) ==>
      w != [] && forall k :: 0 <= k < |w| ==> !IsWhitespace(w[k]) && w[k] != ',' && !('A' <= w[k] <= 'Z')
    ensures Join(ConfigWords(value)) == RemoveWhitespace(LowerString(ReplaceCommas(value)))
  {
    var s := LowerString(ReplaceCommas(value));
    SplitWordsShape(s);
    forall w | w in SplitWords(s)
      ensures forall k :: 0 <= k < |w| ==> w[k] != ',' && !('A' <= w[k] <= 'Z')
    {
      WordsComeFrom(s, w);
    }
  }

  /** Every character of a word is a character of the text. */
  lemma {:induction false} WordsComeFrom(s: string, w: string)
    requires w in SplitWords(s)
    ensures forall k :: 0 <= k < |w| ==> w[k] in s
    decreases |s|
  {
    if IsWhitespace(s[0]) {
      WordsComeFrom(s[1..], w);
    } else {
      var n := WordEnd(s);
      if w != s[..n] {
        WordsComeFrom(s[n..], w);
      }
    }
  }

  // ---------------------------------------------------------------------------
  // Tag lists of a section
  // ---------------------------------------------------------------------------

  /** What a section's `tags` option contributes: tags to require, `-tag`s to
      exclude, `~tag`s of which one is enough. */
  datatype TagLists = TagLists(whitelist: seq<string>, blacklist: seq<string>, anylist: seq<string>)

  /** The three list comprehensions of e621dl.py:181-183 (and 42-44); `None` where a
      tag is empty and `tag[0]` raises. */
  function SplitConfigTags(tags: seq<string>): Option<TagLists>
  {
    if tags == [] then Some(TagLists([], [], []))
    else if tags[0] == [] then None
    else
      match SplitConfigTags(tags[1..])
      case None => None
      case Some(r) =>
        var t := tags[0];
        Some(if t[0] == '-' then r.(blacklist := [t[1..]] + r.blacklist)
             else if t[0] == '~' then r.(anylist := [t[1..]] + r.anylist)
             else r.(whitelist := [t] + r.whitelist))
  }

  /** The split fails exactly on an empty tag; otherwise `-x` gives `x` in the
      blacklist, `~x` gives `x` in the anylist, any other tag is in the whitelist as
      it is, and no tag is lost or duplicated. */
  lemma {:induction false} SplitConfigTagsSpec(tags: seq<string>)
    ensures SplitConfigTags(tags).None? <==> [] in tags
    ensures SplitConfigTags(tags).Some? ==> var r := SplitConfigTags(tags).value;
      && |r.whitelist| + |r.blacklist| + |r.anylist| == |tags|
      && (forall x :: x in r.whitelist <==> x in tags && x[0] != '-' && x[0] != '~')
      && (forall x :: x in r.blacklist <==> ['-'] + x in tags)
      && (forall x :: x in r.anylist <==> ['~'] + x in tags)
  {
    if tags != [] && tags[0] != [] {
      SplitConfigTagsSpec(tags[1..]);
      var t := tags[0];
      assert t == [t[0]] + t[1..];
      assert tags == [t] + tags[1..];
    }
  }

  // ---------------------------------------------------------------------------
  // Whitelist, blacklist, anylist
  // ---------------------------------------------------------------------------

  /** `fnmatch(tag, mask)`. */
  type Matcher = (string, string) -> bool

  /** `any(fnmatch(tag, mask) for tag in tags)`. */
  function SomeTagMatches(fnmatch: Matcher, tags: seq<string>, mask: string): bool
  {
    tags != [] && (fnmatch(tags[0], mask) || SomeTagMatches(fnmatch, tags[1..], mask))
  }

  /** `all(any(fnmatch(tag, mask) for tag in tags) for mask in masks)`. */
  function EveryMaskMatched(fnmatch: Matcher, tags: seq<string>, masks: seq<string>): bool
  {
    masks == [] || (SomeTagMatches(fnmatch, tags, masks[0]) && EveryMaskMatched(fnmatch, tags, masks[1..]))
  }

  /** `[x for x in tags if any(fnmatch(x, y) for y in masks)]` is non-empty. */
  function SomeTagMatchesSome(fnmatch: Matcher, tags: seq<string>, masks: seq<string>): bool
  {
    tags != [] && (MatchesSomeMask(fnmatch, tags[0], masks) || SomeTagMatchesSome(fnmatch, tags[1..], masks))
  }

  /** `any(fnmatch(x, y) for y in masks)`. */
  function MatchesSomeMask(fnmatch: Matcher, tag: string, masks: seq<string>): bool
  {
    masks != [] && (fnmatch(tag, masks[0]) || MatchesSomeMask(fnmatch, tag, masks[1..]))
  }

  lemma {:induction false} SomeTagMatchesIff(fnmatch: Matcher, tags: seq<string>, mask: string)
    ensures SomeTagMatches(fnmatch, tags, mask) <==> exists k :: 0 <= k < |tags| && fnmatch(tags[k], mask)
  {
    if tags != [] {
      SomeTagMatchesIff(fnmatch, tags[1..], mask);
      if exists k :: 0 <= k < |tags| && fnmatch(tags[k], mask) {
        var k :| 0 <= k < |tags| && fnmatch(tags[k], mask);
        if k > 0 { assert fnmatch(tags[1..][k - 1], mask); }
      }
    }
  }

  lemma {:induction false} MatchesSomeMaskIff(fnmatch: Matcher, tag: string, masks: seq<string>)
    ensures MatchesSomeMask(fnmatch, tag, masks) <==> exists j :: 0 <= j < |masks| && fnmatch(tag, masks[j])
  {
    if masks != [] {
      MatchesSomeMaskIff(fnmatch, tag, masks[1..]);
      if exists j :: 0 <= j < |masks| && fnmatch(tag, masks[j]) {
        var j :| 0 <= j < |masks| && fnmatch(tag, masks[j]);
        if j > 0 { assert fnmatch(tag, masks[1..][j - 1]); }
      }
    }
  }

  /** Some tag matches some mask. */
  predicate AnyPairMatches(fnmatch: Matcher, tags: seq<string>, masks: seq<string>)
  {
    exists k, j :: 0 <= k < |tags| && 0 <= j < |masks| && fnmatch(tags[k], masks[j])
  }

  lemma {:induction false} SomeTagMatchesSomeIff(fnmatch: Matcher, tags: seq<string>, masks: seq<string>)
    ensures SomeTagMatchesSome(fnmatch, tags, masks) <==> AnyPairMatches(fnmatch, tags, masks)
  {
    if tags != [] {
      SomeTagMatchesSomeIff(fnmatch, tags[1..], masks);
      MatchesSomeMaskIff(fnmatch, tags[0], masks);
      if AnyPairMatches(fnmatch, tags, masks) {
        var k, j :| 0 <= k < |tags| && 0 <= j < |masks| && fnmatch(tags[k], masks[j]);
        if k > 0 { assert fnmatch(tags[1..][k - 1], masks[j]); }
      }
      if AnyPairMatches(fnmatch, tags[1..], masks) {
        var k, j :| 0 <= k < |tags[1..]| && 0 <= j < |masks| && fnmatch(tags[1..][k], masks[j]);
        assert fnmatch(tags[k + 1], masks[j]);
      }
    }
  }

  /** The whitelist test (e621dl.py:57, 272): passed when the list is empty or every
      mask matches some tag. */
  predicate WhitelistPasses(fnmatch: Matcher, tags: seq<string>, whitelist: seq<string>)
  {
    !(whitelist != [] && !EveryMaskMatched(fnmatch, tags, whitelist))
  }

  /** The blacklist test (e621dl.py:60, 280): hit when the list is non-empty and some
      tag matches some mask. */
  predicate BlacklistHit(fnmatch: Matcher, tags: seq<string>, blacklist: seq<string>)
  {
    blacklist != [] && SomeTagMatchesSome(fnmatch, tags, blacklist)
  }

  /** The anylist test (e621dl.py:63, 284): missed when the list is non-empty and no
      tag matches any mask. */
  predicate AnylistMissed(fnmatch: Matcher, tags: seq<string>, anylist: seq<string>)
  {
    anylist != [] && !SomeTagMatchesSome(fnmatch, tags, anylist)
  }

  /** The whitelist passes exactly when each of its masks matches at least one tag;
      an empty whitelist always passes. */
  lemma {:induction false} WhitelistPassesIff(fnmatch: Matcher, tags: seq<string>, whitelist: seq<string>)
    ensures WhitelistPasses(fnmatch, tags, whitelist) <==>
      forall j :: 0 <= j < |whitelist| ==> exists k :: 0 <= k < |tags| && fnmatch(tags[k], whitelist[j])
  {
    EveryMaskMatchedIff(fnmatch, tags, whitelist);
  }

  lemma {:induction false} EveryMaskMatchedIff(fnmatch: Matcher, tags: seq<string>, masks: seq<string>)
    ensures EveryMaskMatched(fnmatch, tags, masks) <==>
      forall j :: 0 <= j < |masks| ==> exists k :: 0 <= k < |tags| && fnmatch(tags[k], masks[j])
  {
    if masks != [] {
      EveryMaskMatchedIff(fnmatch, tags, masks[1..]);
      SomeTagMatchesIff(fnmatch, tags, masks[0]);
      if forall j :: 0 <= j < |masks| ==> exists k :: 0 <= k < |tags| && fnmatch(tags[k], masks[j]) {
        forall j | 0 <= j < |masks[1..]|
          ensures exists k :: 0 <= k < |tags| && fnmatch(tags[k], masks[1..][j])
        {
          assert masks[1..][j] == masks[j + 1];
        }
      }
    }
  }

  /** The blacklist rejects exactly when some tag matches some of its masks; an empty
      blacklist rejects nothing. */
  lemma BlacklistHitIff(fnmatch: Matcher, tags: seq<string>, blacklist: seq<string>)
    ensures BlacklistHit(fnmatch, tags, blacklist) <==> AnyPairMatches(fnmatch, tags, blacklist)
  {
    SomeTagMatchesSomeIff(fnmatch, tags, blacklist);
  }

  /** The anylist rejects exactly when it is non-empty and no tag matches any of its
      masks. */
  lemma AnylistMissedIff(fnmatch: Matcher, tags: seq<string>, anylist: seq<string>)
    ensures AnylistMissed(fnmatch, tags, anylist) <==> anylist != [] && !AnyPairMatches(fnmatch, tags, anylist)
  {
    SomeTagMatchesSomeIff(fnmatch, tags, anylist);
  }

  // ---------------------------------------------------------------------------
  // Posts, searches and the acceptance chain
  // ---------------------------------------------------------------------------

  /** The fields of a post the downloader reads; `tags` is the space-separated tag
      string, `daysAgo` the whole days since it was created. */
  datatype Post = Post(
    id: nat,
    tags: string,
    rating: string,
    score: int,
    favCount: int,
    daysAgo: int,
    md5: string,
    fileExt: string,
    fileUrl: string)

  /** One search section of the configuration, with its defaults filled in. */
  datatype Search = Search(
    directory: string,
    tags: seq<string>,
    ratings: seq<string>,
    minScore: int,
    minFavs: int,
    earliestDate: int,
    daysAgo: int,
    blacklist: seq<string>,
    whitelist: seq<string>,
    anylist: seq<string>,
    cond: Option<Formula>)

  /** What the section's condition function returns for the tags: `lambda x: True`
      when there is none, otherwise the formula's value; `None` when it raises. */
  function CondResult(cond: Option<Formula>, tags: seq<string>): Option<bool>
  {
    match cond
    case None => Some(true)
    case Some(f) => Eval(f, tags)
  }

  /** The outcome of the acceptance chain for one post. */
  datatype Verdict =
    | Accepted
    | MissingTag        // a whitelist mask matches no tag
    | WrongRating
    | Blacklisted
    | MissingAny        // no anylist mask matches
    | LowScore
    | LowFavs
    | FailedCondition
    | TooOld
    | ConditionRaised   // the condition raised; nothing catches it

  /** The chain of e621dl.py:269-297, tried in the source's order; the blacklist is the
      global one followed by the section's. */
  function Judge(fnmatch: Matcher, post: Post, search: Search, globalBlacklist: seq<string>): Verdict
  {
    var tags := SplitWords(post.tags);
    var blacklist := globalBlacklist + search.blacklist;
    if !WhitelistPasses(fnmatch, tags, search.whitelist) then MissingTag
    else if post.rating !in search.ratings then WrongRating
    else if BlacklistHit(fnmatch, tags, blacklist) then Blacklisted
    else if AnylistMissed(fnmatch, tags, search.anylist) then MissingAny
    else if post.score < search.minScore then LowScore
    else if post.favCount < search.minFavs then LowFavs
    else
      match CondResult(search.cond, tags)
      case None => ConditionRaised
      case Some(false) => FailedCondition
      case Some(true) => if post.daysAgo >= search.daysAgo then TooOld else Accepted
  }

  /** Everything a post needs to reach the download branch. */
  predicate Wanted(fnmatch: Matcher, post: Post, search: Search, globalBlacklist: seq<string>)
  {
    var tags := SplitWords(post.tags);
    && (forall j :: 0 <= j < |search.whitelist| ==>
          exists k :: 0 <= k < |tags| && fnmatch(tags[k], search.whitelist[j]))
    && post.rating in search.ratings
    && !AnyPairMatches(fnmatch, tags, globalBlacklist + search.blacklist)
    && (search.anylist == [] || AnyPairMatches(fnmatch, tags, search.anylist))
    && post.score >= search.minScore
    && post.favCount >= search.minFavs
    && CondResult(search.cond, tags) == Some(true)
    && post.daysAgo < search.daysAgo
  }

  /** A post is accepted exactly when it is wanted; the condition raises exactly when
      every earlier test passed and evaluating it fails. */
  lemma JudgeSpec(fnmatch: Matcher, post: Post, search: Search, globalBlacklist: seq<string>)
    ensures Judge(fnmatch, post, search, globalBlacklist) == Accepted <==> Wanted(fnmatch, post, search, globalBlacklist)
    ensures Judge(fnmatch, post, search, globalBlacklist) == ConditionRaised ==>
      CondResult(search.cond, SplitWords(post.tags)).None?
  {
    var tags := SplitWords(post.tags);
    WhitelistPassesIff(fnmatch, tags, search.whitelist);
    BlacklistHitIff(fnmatch, tags, globalBlacklist + search.blacklist);
    AnylistMissedIff(fnmatch, tags, search.anylist);
  }

  /** The whitelist, blacklist and anylist tests do not depend on the order of the
      masks: the source builds them as sets. Shown for the blacklist, the others
      follow the same way. */
  lemma BlacklistOrderFree(fnmatch: Matcher, tags: seq<string>, b1: seq<string>, b2: seq<string>)
    requires multiset(b1) == multiset(b2)
    ensures BlacklistHit(fnmatch, tags, b1) == BlacklistHit(fnmatch, tags, b2)
  {
    BlacklistHitIff(fnmatch, tags, b1);
    BlacklistHitIff(fnmatch, tags, b2);
    if AnyPairMatches(fnmatch, tags, b1) {
      var k, j :| 0 <= k < |tags| && 0 <= j < |b1| && fnmatch(tags[k], b1[j]);
      assert b1[j] in multiset(b2);
      var j2 :| 0 <= j2 < |b2| && b2[j2] == b1[j];
    }
    if AnyPairMatches(fnmatch, tags, b2) {
      var k, j :| 0 <= k < |tags| && 0 <= j < |b2| && fnmatch(tags[k], b2[j]);
      assert b2[j] in multiset(b1);
      var j1 :| 0 <= j1 < |b1| && b1[j1] == b2[j];
    }
  }

  /** The prefilter's chain (e621dl.py:54-70): whitelist, blacklist, anylist and
      condition only. */
  function PrefilterJudge(fnmatch: Matcher, post: Post, lists: TagLists, cond: Option<Formula>): Verdict
  {
    var tags := SplitWords(post.tags);
    if !WhitelistPasses(fnmatch, tags, lists.whitelist) then MissingTag
    else if BlacklistHit(fnmatch, tags, lists.blacklist) then Blacklisted
    else if AnylistMissed(fnmatch, tags, lists.anylist) then MissingAny
    else
      match CondResult(cond, tags)
      case None => ConditionRaised
      case Some(false) => FailedCondition
      case Some(true) => Accepted
  }

  /** Everything a post needs to pass the prefilter. */
  predicate PrefilterWanted(fnmatch: Matcher, post: Post, lists: TagLists, cond: Option<Formula>)
  {
    var tags := SplitWords(post.tags);
    && (forall j :: 0 <= j < |lists.whitelist| ==>
          exists k :: 0 <= k < |tags| && fnmatch(tags[k], lists.whitelist[j]))
    && !AnyPairMatches(fnmatch, tags, lists.blacklist)
    && (lists.anylist == [] || AnyPairMatches(fnmatch, tags, lists.anylist))
    && CondResult(cond, tags) == Some(true)
  }

  /** The prefilter keeps a post exactly when its tag lists and condition accept it. */
  lemma PrefilterJudgeSpec(fnmatch: Matcher, post: Post, lists: TagLists, cond: Option<Formula>)
    ensures PrefilterJudge(fnmatch, post, lists, cond) == Accepted <==> PrefilterWanted(fnmatch, post, lists, cond)
  {
    var tags := SplitWords(post.tags);
    WhitelistPassesIff(fnmatch, tags, lists.whitelist);
    BlacklistHitIff(fnmatch, tags, lists.blacklist);
    AnylistMissedIff(fnmatch, tags, lists.anylist);
  }

  /** The prefilter's lists (e621dl.py:42-44): its tags split as a section's are, with
      the global blacklist in front of its `-tag`s. */
  function PrefilterLists(prefilter: seq<string>, globalBlacklist: seq<string>): Option<TagLists>
  {
    match SplitConfigTags(prefilter)
    case None => None
    case Some(r) => Some(r.(blacklist := globalBlacklist + r.blacklist))
  }

  // ---------------------------------------------------------------------------
  // Search age
  // ---------------------------------------------------------------------------

  /** `max_days_ago` (e621dl.py:109, 136, 190): starting from the default of one day,
      the largest `days` value met in the configuration. */
  method MaxDaysAgo(days: seq<int>) returns (m: int)
    ensures m >= 1
    ensures forall k :: 0 <= k < |days| ==> days[k] <= m
    ensures m == 1 || exists k :: 0 <= k < |days| && days[k] == m
  {
    m := 1;
    var i := 0;
    while i < |days|
      invariant 0 <= i <= |days|
      invariant m >= 1
      invariant forall k :: 0 <= k < i ==> days[k] <= m
      invariant m == 1 || exists k :: 0 <= k < i && days[k] == m
    {
      if days[i] > m {
        m := days[i];
      }
      i := i + 1;
    }
  }

  // ---------------------------------------------------------------------------
  // File names and the cursor
  // ---------------------------------------------------------------------------

  /** The name part before the extension: `{id}.{md5}` or `{id}`. */
  function Stem(post: Post, includeMd5: bool): string
  {
    if includeMd5 then NatToString(post.id) + "." + post.md5 else NatToString(post.id)
  }

  /** `'{}.{}.{}'.format(id, md5, ext)` or `'{}.{}'.format(id, ext)` (e621dl.py:299-304). */
  function Filename(post: Post, includeMd5: bool): string
  {
    Stem(post, includeMd5) + "." + post.fileExt
  }

  /** The path the post is saved to: the section's directory and the stem, through the
      three-argument `make_path`. */
  function PostPath(directory: string, post: Post, includeMd5: bool): string
  {
    MakePathOld(directory, Stem(post, includeMd5), post.fileExt)
  }

  /** The path is the section directory followed by exactly the file name that is
      looked up in the index. */
  lemma PathEndsWithFilename(directory: string, post: Post, includeMd5: bool)
    ensures PostPath(directory, post, includeMd5) ==
      "downloads/" + CleanDirNameOld(directory) + "/" + Filename(post, includeMd5)
  {
    var d := CleanDirNameOld(directory);
    var stem := Stem(post, includeMd5);
    assert "downloads/" + d + "/" + stem + "." + post.fileExt
        == "downloads/" + d + "/" + (stem + "." + post.fileExt);
  }

  /** The file name begins with the post id, so the id is read back from its first
      dot-separated piece. */
  lemma FilenameStartsWithId(post: Post, includeMd5: bool)
    ensures ParseInt(Split(Filename(post, includeMd5), '.')[0]) == Some(post.id)
  {
    var idText := NatToString(post.id);
    NatToStringRoundTrip(post.id);
    var rest := if includeMd5 then post.md5 + "." + post.fileExt else post.fileExt;
    IdFirst(post, includeMd5, idText, rest);
    DigitsHaveNoDot(idText);
    SplitAround(idText, '.', rest);
  }

  lemma IdFirst(post: Post, includeMd5: bool, idText: string, rest: string)
    requires idText == NatToString(post.id)
    requires rest == if includeMd5 then post.md5 + "." + post.fileExt else post.fileExt
    ensures Filename(post, includeMd5) == idText + ['.'] + rest
  {
  }

  lemma DigitsHaveNoDot(s: string)
    requires AllDigits(s)
    ensures '.' !in s
  {
    assert forall k :: 0 <= k < |s| ==> s[k] != '.';
  }

  /** The cursor after a page (e621dl.py:264-267): 0 after a short page, which ends the
      search, otherwise the id of the page's last post. */
  function NextCursor(results: seq<Post>, maxResults: nat): (c: int)
    requires maxResults >= 1
    ensures |results| < maxResults ==> c == 0
    ensures |results| >= maxResults ==> c == results[|results| - 1].id
  {
    if |results| < maxResults then 0 else results[|results| - 1].id
  }
}
