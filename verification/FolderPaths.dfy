/** Folder path normalisation and the component-wise folder filter. */
module FolderPaths {

  /** The characters Python's str.strip removes. */
  predicate IsSpace(c: char) {
    || '\t' <= c <= '\r'
    || '\U{1c}' <= c <= ' '
    || c == '\U{85}' || c == '\U{a0}' || c == '\U{1680}'
    || '\U{2000}' <= c <= '\U{200a}'
    || c == '\U{2028}' || c == '\U{2029}' || c == '\U{202f}' || c == '\U{205f}' || c == '\U{3000}'
  }

  function ReplaceBackslashes(s: string): (r: string)
    ensures |r| == |s|
    ensures forall i :: 0 <= i < |s| ==> r[i] == if s[i] == '\\' then '/' else s[i]
  {
    seq(|s|, i requires 0 <= i < |s| => if s[i] == '\\' then '/' else s[i])
  }

  function StripLeft(s: string): (r: string)
    ensures |r| <= |s| && r == s[|s| - |r|..]
    ensures r != "" ==> !IsSpace(r[0])
  {
    if s != "" && IsSpace(s[0]) then StripLeft(s[1..]) else s
  }

  function StripRight(s: string): (r: string)
    ensures r <= s
    ensures r != "" ==> !IsSpace(r[|r| - 1])
  {
    if s != "" && IsSpace(s[|s| - 1]) then StripRight(s[..|s| - 1]) else s
  }

  function Strip(s: string): (r: string)
    ensures |r| <= |s|
  {
    StripRight(StripLeft(s))
  }

  function StripTrailingSlashes(s: string): (r: string)
    ensures r <= s
    ensures r != "" ==> r[|r| - 1] != '/'
  {
    if s != "" && s[|s| - 1] == '/' then StripTrailingSlashes(s[..|s| - 1]) else s
  }

  /** The last part of normalisation: a leading slash, and no trailing ones. */
  function Rooted(trimmed: string): (r: string)
    ensures |r| <= |trimmed| + 1
    ensures r == "" || r[0] == '/'
    ensures |r| > 1 ==> r[|r| - 1] != '/'
  {
    if trimmed == "" then "/"
    else
      var rooted := if trimmed[0] == '/' then trimmed else "/" + trimmed;
      if |rooted| > 1 then StripTrailingSlashes(rooted) else rooted
  }

  function Normalize(path: string): string {
    Rooted(Strip(ReplaceBackslashes(path)))
  }

  /** The comparison the code makes once both paths are normalised. */
  predicate SameOrBelow(selected: string, item: string) {
    item == selected || selected + "/" <= item
  }

  predicate FolderPathMatches(selected: string, item: string) {
    SameOrBelow(Normalize(selected), Normalize(item))
  }

  /** One selected path against one item: the set membership test on normalised
      paths, then the prefix test, which normalises the selected path again. */
  predicate Selects(folderPath: string, itemPath: string) {
    Normalize(itemPath) == Normalize(folderPath) || FolderPathMatches(Normalize(folderPath), itemPath)
  }

  predicate MatchesAnyFolder(folderPaths: seq<string>, itemPath: string) {
    exists f :: f in folderPaths && Selects(f, itemPath)
  }

  // ----- component-wise meaning of the comparison -----

  /** Splitting one more character. */
  function AddChar(parts: seq<string>, c: char): (r: seq<string>)
    requires parts != []
    ensures r != []
  {
    if c == '/' then parts + [""]
    else parts[..|parts| - 1] + [parts[|parts| - 1] + [c]]
  }

  /** Python's s.split("/"). */
  function Split(s: string): (parts: seq<string>)
    ensures parts != []
  {
    if s == "" then [""] else AddChar(Split(s[..|s| - 1]), s[|s| - 1])
  }

  function Join(parts: seq<string>): string
    requires parts != []
  {
    if |parts| == 1 then parts[0] else Join(parts[..|parts| - 1]) + "/" + parts[|parts| - 1]
  }

  lemma JoinAddChar(parts: seq<string>, c: char)
    requires parts != []
    ensures Join(AddChar(parts, c)) == Join(parts) + [c]
  {
    var grown := AddChar(parts, c);
    if c == '/' {
      assert grown[..|grown| - 1] == parts;
    } else {
      assert grown[..|grown| - 1] == parts[..|parts| - 1];
    }
  }

  lemma {:induction false} JoinSplit(s: string)
    ensures Join(Split(s)) == s
  {
    if s != "" {
      var init, last := s[..|s| - 1], s[|s| - 1];
      JoinSplit(init);
      JoinAddChar(Split(init), last);
      assert s == init + [last];
    }
  }

  lemma {:induction false} JoinConcat(a: seq<string>, b: seq<string>)
    requires a != [] && b != []
    ensures Join(a + b) == Join(a) + "/" + Join(b)
  {
    var init := b[..|b| - 1];
    assert (a + b)[..|a + b| - 1] == a + init;
    if |b| == 1 {
      assert a + init == a;
    } else {
      JoinConcat(a, init);
    }
  }

  lemma AddCharConcat(a: seq<string>, b: seq<string>, c: char)
    requires b != []
    ensures AddChar(a + b, c) == a + AddChar(b, c)
  {
    assert (a + b)[..|a + b| - 1] == a + b[..|b| - 1];
  }

  lemma SplitSnoc(s: string, c: char)
    ensures Split(s + [c]) == AddChar(Split(s), c)
  {
    assert (s + [c])[..|s|] == s;
  }

  lemma {:induction false} SplitConcat(a: string, b: string)
    ensures Split(a + ['/'] + b) == Split(a) + Split(b)
  {
    if b == "" {
      SplitSnoc(a, '/');
      assert a + ['/'] + b == a + ['/'];
    } else {
      SplitConcat(a, b[..|b| - 1]);
      SplitConcatSnoc(a, b[..|b| - 1], b[|b| - 1]);
      assert b == b[..|b| - 1] + [b[|b| - 1]];
    }
  }

  lemma SplitConcatSnoc(a: string, b: string, c: char)
    requires Split(a + ['/'] + b) == Split(a) + Split(b)
    ensures Split(a + ['/'] + (b + [c])) == Split(a) + Split(b + [c])
  {
    SplitSnoc(a + ['/'] + b, c);
    SplitSnoc(b, c);
    assert a + ['/'] + (b + [c]) == (a + ['/'] + b) + [c];
    AddCharConcat(Split(a), Split(b), c);
  }

  lemma BelowHasComponentPrefix(selected: string, rest: string)
    ensures Split(selected) <= Split(selected + ['/'] + rest)
  {
    SplitConcat(selected, rest);
  }

  lemma ComponentPrefixIsBelow(selected: string, item: string, rest: seq<string>)
    requires Split(item) == Split(selected) + rest
    ensures item == selected || (rest != [] && item == selected + "/" + Join(rest))
  {
    JoinSplit(selected);
    JoinSplit(item);
    if rest == [] {
      assert Split(item) == Split(selected);
    } else {
      JoinConcat(Split(selected), rest);
    }
  }

  /** Folder matching is component-wise, for all strings. */
  lemma SameOrBelowIsComponentPrefix(selected: string, item: string)
    ensures SameOrBelow(selected, item) <==> Split(selected) <= Split(item)
  {
    if selected + "/" <= item {
      var rest := item[|selected| + 1..];
      assert item == selected + ['/'] + rest;
      BelowHasComponentPrefix(selected, rest);
    }
    if Split(selected) <= Split(item) {
      ComponentPrefixIsBelow(selected, item, Split(item)[|Split(selected)|..]);
    }
  }

  // ----- normal forms -----

  predicate NormalForm(s: string) {
    s == "/"
    || (|s| > 1 && s[0] == '/' && '\\' !in s && !IsSpace(s[|s| - 1]) && s[|s| - 1] != '/')
  }

  lemma StripKeepsSolid(s: string)
    requires s != "" && !IsSpace(s[0]) && !IsSpace(s[|s| - 1])
    ensures Strip(s) == s
  {
  }

  lemma {:induction false} StripLeftKeepsOut(s: string, c: char)
    requires c !in s
    ensures c !in StripLeft(s)
  {
    if s != "" && IsSpace(s[0]) {
      StripLeftKeepsOut(s[1..], c);
    }
  }

  lemma PrefixKeepsOut(s: string, r: string, c: char)
    requires r <= s && c !in s
    ensures c !in r
  {
  }

  lemma RootedKeepsOut(s: string, c: char)
    requires c !in s && c != '/'
    ensures c !in Rooted(s)
  {
    if s != "" {
      var rooted := if s[0] == '/' then s else "/" + s;
      assert c !in rooted;
      PrefixKeepsOut(rooted, StripTrailingSlashes(rooted), c);
    }
  }

  lemma NormalizeHasNoBackslash(s: string)
    ensures '\\' !in Normalize(s)
  {
    var slashed := ReplaceBackslashes(s);
    StripLeftKeepsOut(slashed, '\\');
    PrefixKeepsOut(StripLeft(slashed), Strip(slashed), '\\');
    RootedKeepsOut(Strip(slashed), '\\');
  }

  lemma NormalizeShape(s: string)
    ensures Normalize(s) == "" || Normalize(s)[0] == '/'
    ensures |Normalize(s)| > 1 ==> Normalize(s)[|Normalize(s)| - 1] != '/'
    ensures |Normalize(s)| <= |s| + 1
  {
  }

  lemma RootedAlready(s: string)
    requires s != "" && s[0] == '/'
    ensures |Rooted(s)| <= |s|
  {
  }

  lemma NothingReplaced(s: string)
    requires '\\' !in s
    ensures ReplaceBackslashes(s) == s
  {
  }

  lemma {:induction false} StripRightKeepsRoot(s: string)
    requires s != "" && !IsSpace(s[0])
    ensures StripRight(s) != "" && StripRight(s)[0] == s[0]
  {
    if IsSpace(s[|s| - 1]) {
      StripRightKeepsRoot(s[..|s| - 1]);
    }
  }

  lemma NormalizeRooted(s: string)
    requires s != "" && s[0] == '/' && '\\' !in s
    ensures Normalize(s) == Rooted(StripRight(s))
    ensures StripRight(s) != "" && StripRight(s)[0] == '/'
    ensures |Normalize(s)| <= |StripRight(s)|
  {
    NothingReplaced(s);
    StripRightKeepsRoot(s);
    RootedAlready(StripRight(s));
  }

  lemma EndsSolid(s: string)
    requires |s| > 1 && s[0] == '/' && '\\' !in s && IsSpace(s[|s| - 1])
    ensures Normalize(s) != s
  {
    NormalizeRooted(s);
    assert StripRight(s) <= s[..|s| - 1];
  }

  /** Normalisation is not idempotent; its fixpoints are exactly the normal forms. */
  lemma FixpointsAreNormalForms(s: string)
    ensures Normalize(s) == s <==> NormalForm(s)
  {
    if NormalForm(s) {
      assert ReplaceBackslashes(s) == s;
      StripKeepsSolid(s);
    }
    if Normalize(s) == s {
      NormalizeShape(s);
      NormalizeHasNoBackslash(s);
      if |s| > 1 && s[0] == '/' && IsSpace(s[|s| - 1]) {
        EndsSolid(s);
      }
    }
  }

  lemma RootedKeepsOrShrinks(s: string)
    requires s != "" && s[0] == '/'
    ensures Rooted(s) == s || |Rooted(s)| < |s|
  {
  }

  /** A path that one pass produced either settles, shrinks, or is empty and becomes the root. */
  lemma SecondPassShrinks(s: string)
    requires s != "" && s[0] == '/' && '\\' !in s
    ensures Normalize(s) == s || |Normalize(s)| < |s|
  {
    NormalizeRooted(s);
    RootedKeepsOrShrinks(StripRight(s));
  }

  function Repeat<T>(f: T -> T, x: T, n: nat): T {
    if n == 0 then x else f(Repeat(f, x, n - 1))
  }

  lemma {:induction false} RepeatFrom<T>(f: T -> T, x: T, n: nat)
    ensures Repeat(f, f(x), n) == Repeat(f, x, n + 1)
  {
    if n > 0 {
      RepeatFrom(f, x, n - 1);
    }
  }

  /** n passes of normalisation. */
  function Iterate(s: string, n: nat): string {
    Repeat(Normalize, s, n)
  }

  lemma IterateFrom(s: string, n: nat)
    ensures Iterate(Normalize(s), n) == Iterate(s, n + 1)
  {
    RepeatFrom(Normalize, s, n);
  }

  lemma {:induction false} SettlesOnceRooted(s: string)
    requires s == "" || s[0] == '/'
    requires '\\' !in s
    ensures exists n :: 0 <= n <= |s| + 1 && NormalForm(Iterate(s, n))
    decreases |s|
  {
    if s == "" {
      assert Iterate(s, 1) == Normalize(Iterate(s, 0));
      assert NormalForm(Iterate(s, 1));
    } else if NormalForm(s) {
      assert NormalForm(Iterate(s, 0));
    } else {
      FixpointsAreNormalForms(s);
      SecondPassShrinks(s);
      NormalizeShape(s);
      NormalizeHasNoBackslash(s);
      SettlesOnceRooted(Normalize(s));
      var n :| 0 <= n <= |Normalize(s)| + 1 && NormalForm(Iterate(Normalize(s), n));
      IterateFrom(s, n);
      assert NormalForm(Iterate(s, n + 1));
    }
  }

  /** Every path settles on a normal form, after at most two passes more than its length plus one. */
  lemma NormalizationSettles(s: string)
    ensures exists n :: 0 <= n <= |s| + 3 && NormalForm(Iterate(s, n))
  {
    NormalizeShape(s);
    NormalizeHasNoBackslash(s);
    SettlesOnceRooted(Normalize(s));
    var n :| 0 <= n <= |Normalize(s)| + 1 && NormalForm(Iterate(Normalize(s), n));
    IterateFrom(s, n);
    assert NormalForm(Iterate(s, n + 1));
  }

  lemma NormalizeTrimmed(s: string)
    requires |s| > 1 && '\\' !in s && !IsSpace(s[0]) && !IsSpace(s[|s| - 1])
    ensures Normalize(s) == StripTrailingSlashes(if s[0] == '/' then s else "/" + s)
  {
    assert ReplaceBackslashes(s) == s;
    StripKeepsSolid(s);
  }

  /** White space after a normal path is dropped. */
  lemma TrailingSpaceDropped(s: string, c: char)
    requires NormalForm(s) && IsSpace(c)
    ensures Normalize(s + [c]) == s
  {
    var longer := s + [c];
    NormalizeRooted(longer);
    assert longer[..|longer| - 1] == s;
    FixpointsAreNormalForms(s);
    NormalizeRooted(s);
    assert StripRight(longer) == StripRight(s);
  }

  /** The same characters, one by one. */
  predicate Spells(s: string, t: string) {
    |s| == |t| && forall i :: 0 <= i < |s| ==> s[i] == t[i]
  }

  lemma OnlySlashes(s: string)
    requires |s| == 2 && s[0] == '/' && s[1] == '/'
    ensures |Normalize(s)| == 0
  {
    NormalizeTrimmed(s);
    assert StripTrailingSlashes(s) == StripTrailingSlashes(s[..1]) == StripTrailingSlashes(s[..1][..0]);
  }

  lemma OneSlashStripped(s: string)
    requires |s| > 1 && s[|s| - 1] == '/' && s[|s| - 2] != '/'
    ensures StripTrailingSlashes(s) == s[..|s| - 1]
  {
  }

  predicate TwoSlashes(s: string) {
    |s| == 2 && s[0] == '/' && s[1] == '/'
  }

  /** Slashes alone become the empty path and then the root. */
  lemma SlashesSettleLater(s: string)
    requires TwoSlashes(s)
    ensures |Normalize(s)| == 0 && |Normalize(Normalize(s))| == 1
  {
    OnlySlashes(s);
    EmptyBecomesRoot(Normalize(s));
  }

  /** A normal path followed by white space and a slash loses first the one, then the other. */
  lemma SpacedSettlesLater(path: string, c: char)
    requires NormalForm(path) && |path| > 1 && IsSpace(c)
    ensures Normalize(path + [c] + ['/']) == path + [c]
    ensures Normalize(path + [c]) == path
  {
    var s := path + [c] + ['/'];
    NormalizeTrimmed(s);
    OneSlashStripped(s);
    TrailingSpaceDropped(path, c);
  }

  /** A normal path followed by white space and a slash. */
  predicate Spaced(s: string) {
    |s| > 3 && NormalForm(s[..|s| - 2]) && IsSpace(s[|s| - 2]) && s[|s| - 1] == '/'
  }

  lemma SpacedIsUnsettled(s: string)
    requires Spaced(s)
    ensures |Normalize(Normalize(s))| != |Normalize(s)|
  {
    var path, c := s[..|s| - 2], s[|s| - 2];
    assert s == path + [c] + ['/'];
    SpacedSettlesLater(path, c);
  }

  lemma SpacedExample() returns (s: string)
    ensures Spells(s, "/a /") && Spaced(s)
  {
    s := seq(4, i => if i == 0 || i == 3 then '/' else if i == 1 then 'a' else ' ');
  }

  lemma SlashesExample() returns (s: string)
    ensures Spells(s, "//") && TwoSlashes(s)
  {
    s := seq(2, _ => '/');
  }

  /** Two inputs on which a second pass changes the result. */
  lemma NormalizationIsNotIdempotent() returns (slashes: string, spaced: string)
    ensures Spells(slashes, "//") && |Normalize(Normalize(slashes))| != |Normalize(slashes)|
    ensures Spells(spaced, "/a /") && |Normalize(Normalize(spaced))| != |Normalize(spaced)|
  {
    slashes := SlashesExample();
    SlashesSettleLater(slashes);
    spaced := SpacedExample();
    SpacedIsUnsettled(spaced);
  }

  lemma {:induction false} TrailingSlashesOfRooted(t: string)
    ensures StripTrailingSlashes("/" + t) == if StripTrailingSlashes(t) == "" then "" else "/" + StripTrailingSlashes(t)
  {
    var rooted := "/" + t;
    if t == "" {
      assert rooted[..0] == "";
    } else if t[|t| - 1] == '/' {
      TrailingSlashesOfRooted(t[..|t| - 1]);
      assert rooted[..|rooted| - 1] == "/" + t[..|t| - 1];
    }
  }

  lemma {:induction false} OnlySlashesAreStripped(t: string)
    requires t != "" && t[0] != '/'
    ensures StripTrailingSlashes(t) != ""
  {
    if t[|t| - 1] == '/' {
      OnlySlashesAreStripped(t[..|t| - 1]);
    }
  }

  /** A stripped path that is empty, is the root, or is more than slashes and does
      not end in white space before its trailing slashes. */
  predicate SettlesStripped(t: string) {
    var u := StripTrailingSlashes(t);
    t == "" || t == "/" || (u != "" && !IsSpace(u[|u| - 1]))
  }

  predicate SettlesAtOnce(path: string) {
    SettlesStripped(Strip(ReplaceBackslashes(path)))
  }

  /** What the last part of normalisation makes of a stripped path. */
  lemma RootedMeaning(t: string)
    requires t != "" && t != "/"
    ensures var u := StripTrailingSlashes(t);
            Rooted(t) == if u == "" then "" else if t[0] == '/' then u else "/" + u
  {
    if t[0] != '/' {
      TrailingSlashesOfRooted(t);
      OnlySlashesAreStripped(t);
    }
  }

  lemma RootedIsNormalExactlyWhen(t: string)
    requires '\\' !in Rooted(t)
    ensures NormalForm(Rooted(t)) <==> SettlesStripped(t)
  {
    if t != "" && t != "/" {
      RootedMeaning(t);
      TrimmedIsNormalExactlyWhen(t, StripTrailingSlashes(t), Rooted(t));
    }
  }

  lemma TrimmedIsNormalExactlyWhen(t: string, u: string, r: string)
    requires t != "" && u <= t && (u != "" ==> u[|u| - 1] != '/') && '\\' !in r
    requires r == if u == "" then "" else if t[0] == '/' then u else "/" + u
    ensures NormalForm(r) <==> u != "" && !IsSpace(u[|u| - 1])
  {
    if u != "" {
      assert r[|r| - 1] == u[|u| - 1];
    }
  }

  lemma NormalFormExactlyWhen(s: string)
    ensures NormalForm(Normalize(s)) <==> SettlesAtOnce(s)
  {
    NormalizeHasNoBackslash(s);
    RootedIsNormalExactlyWhen(Strip(ReplaceBackslashes(s)));
  }

  /** A second pass changes nothing if and only if the path settles at once. */
  lemma IdempotentExactlyWhen(s: string)
    ensures Normalize(Normalize(s)) == Normalize(s) <==> SettlesAtOnce(s)
  {
    FixpointsAreNormalForms(Normalize(s));
    NormalFormExactlyWhen(s);
  }

  /** What the folder filter selects, in terms of components. */
  lemma SelectionIsComponentWise(folderPath: string, itemPath: string)
    ensures Selects(folderPath, itemPath)
       <==> Normalize(itemPath) == Normalize(folderPath)
            || Split(Normalize(Normalize(folderPath))) <= Split(Normalize(itemPath))
  {
    SameOrBelowIsComponentPrefix(Normalize(Normalize(folderPath)), Normalize(itemPath));
  }

  /** Selecting one path that normalisation leaves alone. */
  lemma FixpointSelects(folderPath: string, itemPath: string)
    requires Normalize(folderPath) == folderPath
    ensures MatchesAnyFolder([folderPath], itemPath) <==> SameOrBelow(folderPath, Normalize(itemPath))
  {
    assert folderPath in [folderPath];
    assert Selects(folderPath, itemPath) <==> SameOrBelow(folderPath, Normalize(itemPath));
  }

  lemma RootIsNormal()
    ensures Normalize("/") == "/"
  {
    FixpointsAreNormalForms("/");
  }

  /** Selecting the root selects no ordinary subfolder: only the root itself and
      paths that still begin with two slashes after normalisation. */
  lemma RootSelectsAlmostNothing(itemPath: string)
    ensures MatchesAnyFolder(["/"], itemPath)
       <==> Normalize(itemPath) == "/" || "//" <= Normalize(itemPath)
  {
    RootIsNormal();
    FixpointSelects("/", itemPath);
    assert "/" + "/" == "//";
  }

  lemma NormalPath(s: string)
    requires |s| > 1 && s[0] == '/' && '\\' !in s && !IsSpace(s[|s| - 1]) && s[|s| - 1] != '/'
    ensures Normalize(s) == s
  {
    FixpointsAreNormalForms(s);
  }

  lemma RootLeavesOut(itemPath: string)
    requires |itemPath| == 2 && itemPath[0] == '/' && itemPath[1] == 'a'
    ensures Normalize(itemPath) == itemPath
    ensures !MatchesAnyFolder(["/"], itemPath)
  {
    NormalPath(itemPath);
    RootSelectsAlmostNothing(itemPath);
  }

  /** In particular selecting the root leaves out a top-level folder. */
  lemma RootSelectsNoSubfolder() returns (itemPath: string)
    ensures itemPath == "/a" && !MatchesAnyFolder(["/"], itemPath)
  {
    itemPath := seq(2, i => if i == 0 then '/' else 'a');
    RootLeavesOut(itemPath);
  }

  /** A selected path that settles at once selects the items whose normalised
      components start with its own. */
  lemma SettledSelectionIsComponentWise(folderPath: string, itemPath: string)
    requires SettlesAtOnce(folderPath)
    ensures Selects(folderPath, itemPath) <==> Split(Normalize(folderPath)) <= Split(Normalize(itemPath))
  {
    IdempotentExactlyWhen(folderPath);
    SelectionIsComponentWise(folderPath, itemPath);
  }

  /** For any other selected path some item is judged differently. */
  lemma UnsettledSelectionDiffers(folderPath: string) returns (itemPath: string)
    requires !SettlesAtOnce(folderPath)
    ensures Selects(folderPath, itemPath) != (Split(Normalize(folderPath)) <= Split(Normalize(itemPath)))
  {
    var once := Normalize(folderPath);
    IdempotentExactlyWhen(folderPath);
    if once == "" {
      itemPath := EmptySelectionDiffers(folderPath);
    } else {
      NormalizeShape(folderPath);
      NormalizeHasNoBackslash(folderPath);
      SecondPassShrinks(once);
      itemPath := once;
      SelectionIsComponentWise(folderPath, once);
    }
    SameOrBelowIsComponentPrefix(once, Normalize(itemPath));
  }

  lemma EmptySelectionDiffers(folderPath: string) returns (itemPath: string)
    requires |Normalize(folderPath)| == 0
    ensures !Selects(folderPath, itemPath) && SameOrBelow(Normalize(folderPath), Normalize(itemPath))
  {
    itemPath := seq(2, i => if i == 0 then '/' else 'a');
    RootLeavesOut(itemPath);
    EmptyBecomesRoot(Normalize(folderPath));
    BelowNothingButTheEmpty(Normalize(folderPath), Normalize(Normalize(folderPath)), itemPath);
  }

  lemma BelowNothingButTheEmpty(empty: string, root: string, item: string)
    requires |empty| == 0 && |root| == 1 && |item| == 2 && item[0] == '/' && item[1] == 'a'
    ensures item != empty && SameOrBelow(empty, item) && !SameOrBelow(root, item)
  {
    assert (root + "/")[1] == '/';
  }

  lemma EmptyBecomesRoot(s: string)
    requires |s| == 0
    ensures |Normalize(s)| == 1 && Normalize(s)[0] == '/'
  {
  }

  /** So the filter works on the components of singly normalised paths, for every
      item, if and only if the selected path settles at once. */
  lemma SelectionNormalizesOnceExactlyWhen(folderPath: string)
    ensures (forall itemPath ::
               Selects(folderPath, itemPath) <==> Split(Normalize(folderPath)) <= Split(Normalize(itemPath)))
       <==> SettlesAtOnce(folderPath)
  {
    if SettlesAtOnce(folderPath) {
      forall itemPath
        ensures Selects(folderPath, itemPath) <==> Split(Normalize(folderPath)) <= Split(Normalize(itemPath))
      {
        SettledSelectionIsComponentWise(folderPath, itemPath);
      }
    } else {
      var itemPath := UnsettledSelectionDiffers(folderPath);
    }
  }
}
