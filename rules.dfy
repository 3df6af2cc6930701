/**
 * `module.rules`: one rule whose `oneOf` list is tried in order, the first
 * rule whose conditions hold deciding the loaders of a module path.
 */
module Rules {
  import opened Wrappers
  import opened Strings
  import opened Policies

  /** A regular expression of the rule table, as a string predicate. */
  datatype Condition = SuffixTest(suffix: string) | SubstringTest(fragment: string)

  predicate Holds(c: Condition, path: string)
  {
    match c
    case SuffixTest(suffix) => EndsWith(path, suffix)
    case SubstringTest(fragment) => Contains(path, fragment)
  }

  /** A condition list holds when one of its conditions does. */
  predicate AnyHolds(cs: seq<Condition>, path: string)
  {
    exists i | 0 <= i < |cs| :: Holds(cs[i], path)
  }

  datatype LoaderOptions =
    | NoOptions
    | UrlLoaderOptions(limit: nat, outputPath: string, name: string)
    | TsLoaderOptions(transpileOnly: bool)
    | FileLoaderOptions(name: string)

  datatype UseEntry = UseEntry(loader: string, options: LoaderOptions)

  /** A rule: an absent `test` accepts every path; an empty `exclude`
      excludes none. */
  datatype Rule = Rule(test: Option<seq<Condition>>, exclude: seq<Condition>, use: seq<UseEntry>)

  predicate Matches(rule: Rule, path: string)
  {
    (rule.test.None? || AnyHolds(rule.test.value, path)) && !AnyHolds(rule.exclude, path)
  }

  /** One `$`-anchored test per suffix. */
  function SuffixTests(suffixes: seq<string>): (cs: seq<Condition>)
    ensures |cs| == |suffixes|
    ensures forall i :: 0 <= i < |cs| ==> cs[i] == SuffixTest(suffixes[i])
  {
    seq(|suffixes|, i requires 0 <= i < |suffixes| => SuffixTest(suffixes[i]))
  }

  /** The image suffixes; ".jpg" and ".jpeg" come from one optional-letter pattern. */
  const ImageSuffixes := [".bmp", ".gif", ".jpg", ".jpeg", ".png"]
  /** The TypeScript suffixes. */
  const TsSuffixes := [".ts", ".tsx"]
  /** The suffixes file-loader excludes: script, HTML and JSON files. */
  const CodeSuffixes := [".js", ".mjs", ".jsx", ".ts", ".tsx", ".html", ".json"]
  /** The directory the TypeScript rule excludes, matched anywhere in the path. */
  const NodeModules := "node_modules"

  const ImageTests := SuffixTests(ImageSuffixes)
  const TsTests := SuffixTests(TsSuffixes)
  const TsExclude := [SubstringTest(NodeModules)]
  const CodeTests := SuffixTests(CodeSuffixes)

  const UrlLoader := "url-loader"
  const CacheLoader := "cache-loader"
  const TsLoader := "ts-loader"
  const FileLoader := "file-loader"

  /** The `oneOf` list for a mode, in declaration order. */
  function OneOfRules(webpackEnv: string): seq<Rule>
  {
    [ Rule(Some(ImageTests), [],
           [UseEntry(UrlLoader, UrlLoaderOptions(10000, "static/media", "[name].[hash:8].[ext]"))]),
      Rule(Some(TsTests), TsExclude,
           [UseEntry(CacheLoader, NoOptions), UseEntry(TsLoader, TsLoaderOptions(TranspileOnly(webpackEnv)))]),
      Rule(None, CodeTests,
           [UseEntry(FileLoader, FileLoaderOptions("static/media/[name].[hash:8].[ext]"))]) ]
  }

  /** The index of the first rule at or after `from` that matches `path`. */
  function FirstMatchFrom(rules: seq<Rule>, path: string, from: nat): (r: Option<nat>)
    requires from <= |rules|
    ensures r.Some? ==> from <= r.value < |rules| && Matches(rules[r.value], path)
    ensures forall j :: from <= j < |rules| && (r.None? || j < r.value) ==> !Matches(rules[j], path)
    decreases |rules| - from
  {
    if from == |rules| then None
    else if Matches(rules[from], path) then Some(from)
    else FirstMatchFrom(rules, path, from + 1)
  }

  /** `oneOf`: the first matching rule, if any. */
  function FirstMatch(rules: seq<Rule>, path: string): (r: Option<nat>)
    ensures r.Some? ==> r.value < |rules| && Matches(rules[r.value], path)
    ensures r.Some? ==> forall j :: 0 <= j < r.value ==> !Matches(rules[j], path)
    ensures r.None? <==> forall j :: 0 <= j < |rules| ==> !Matches(rules[j], path)
  {
    FirstMatchFrom(rules, path, 0)
  }

  /** The loaders the configuration applies to `path`, in declaration
      order, or `None` when no rule of the list applies. */
  function Resolve(webpackEnv: string, path: string): Option<seq<UseEntry>>
  {
    var rules := OneOfRules(webpackEnv);
    match FirstMatch(rules, path)
    case None => None
    case Some(i) => Some(rules[i].use)
  }

  function LoaderNames(use: seq<UseEntry>): (names: seq<string>)
    ensures |names| == |use|
    ensures forall i :: 0 <= i < |use| ==> names[i] == use[i].loader
  {
    if use == [] then [] else [use[0].loader] + LoaderNames(use[1..])
  }

  predicate IsImage(path: string)
  {
    || EndsWith(path, ".bmp") || EndsWith(path, ".gif") || EndsWith(path, ".jpg")
    || EndsWith(path, ".jpeg") || EndsWith(path, ".png")
  }

  predicate IsTypeScript(path: string)
  {
    EndsWith(path, ".ts") || EndsWith(path, ".tsx")
  }

  predicate IsCodeOrMarkup(path: string)
  {
    || EndsWith(path, ".js") || EndsWith(path, ".mjs") || EndsWith(path, ".jsx")
    || IsTypeScript(path) || EndsWith(path, ".html") || EndsWith(path, ".json")
  }

  /** The routing the table is meant to implement, written as plain cases. */
  function ExpectedLoaders(path: string): Option<seq<string>>
  {
    if IsImage(path) then Some([UrlLoader])
    else if IsTypeScript(path) && !Contains(path, NodeModules) then Some([CacheLoader, TsLoader])
    else if !IsCodeOrMarkup(path) then Some([FileLoader])
    else None
  }

  /** A condition list of suffix tests holds exactly when the path ends
      with one of the suffixes. */
  lemma SuffixTestsHold(suffixes: seq<string>, path: string)
    ensures AnyHolds(SuffixTests(suffixes), path) <==> exists i | 0 <= i < |suffixes| :: EndsWith(path, suffixes[i])
  {
  }

  /** Five suffix tests, written out, hold exactly when one of the listed
      suffixes does. Stated over arbitrary strings so that the solver never
      compares the literal suffixes of the table with each other. */
  lemma EndsWithOneOfFive(path: string, a: string, b: string, c: string, d: string, e: string)
    ensures (exists i | 0 <= i < 5 :: EndsWith(path, [a, b, c, d, e][i]))
        <==> (|| EndsWith(path, a) || EndsWith(path, b) || EndsWith(path, c)
              || EndsWith(path, d) || EndsWith(path, e))
  {
    var cs := [a, b, c, d, e];
    if exists i | 0 <= i < 5 :: EndsWith(path, cs[i]) {
      var i :| 0 <= i < 5 && EndsWith(path, cs[i]);
      assert cs[i] in {a, b, c, d, e};
    }
    if EndsWith(path, a) { assert EndsWith(path, cs[0]); }
    else if EndsWith(path, b) { assert EndsWith(path, cs[1]); }
    else if EndsWith(path, c) { assert EndsWith(path, cs[2]); }
    else if EndsWith(path, d) { assert EndsWith(path, cs[3]); }
    else if EndsWith(path, e) { assert EndsWith(path, cs[4]); }
  }

  /** The same for seven suffixes. */
  lemma EndsWithOneOfSeven(path: string, a: string, b: string, c: string, d: string, e: string, f: string, g: string)
    ensures (exists i | 0 <= i < 7 :: EndsWith(path, [a, b, c, d, e, f, g][i]))
        <==> (|| EndsWith(path, a) || EndsWith(path, b) || EndsWith(path, c)
              || EndsWith(path, d) || EndsWith(path, e) || EndsWith(path, f)
              || EndsWith(path, g))
  {
    var cs := [a, b, c, d, e, f, g];
    if exists i | 0 <= i < 7 :: EndsWith(path, cs[i]) {
      var i :| 0 <= i < 7 && EndsWith(path, cs[i]);
      assert cs[i] in {a, b, c, d, e, f, g};
    }
    if EndsWith(path, a) { assert EndsWith(path, cs[0]); }
    else if EndsWith(path, b) { assert EndsWith(path, cs[1]); }
    else if EndsWith(path, c) { assert EndsWith(path, cs[2]); }
    else if EndsWith(path, d) { assert EndsWith(path, cs[3]); }
    else if EndsWith(path, e) { assert EndsWith(path, cs[4]); }
    else if EndsWith(path, f) { assert EndsWith(path, cs[5]); }
    else if EndsWith(path, g) { assert EndsWith(path, cs[6]); }
  }

  lemma ImageTestsHold(path: string)
    ensures AnyHolds(ImageTests, path) <==> IsImage(path)
  {
    SuffixTestsHold(ImageSuffixes, path);
    EndsWithOneOfFive(path, ".bmp", ".gif", ".jpg", ".jpeg", ".png");
  }

  /** The same for two suffixes. */
  lemma EndsWithOneOfTwo(path: string, a: string, b: string)
    ensures (exists i | 0 <= i < 2 :: EndsWith(path, [a, b][i]))
        <==> (EndsWith(path, a) || EndsWith(path, b))
  {
    var cs := [a, b];
    if exists i | 0 <= i < 2 :: EndsWith(path, cs[i]) {
      var i :| 0 <= i < 2 && EndsWith(path, cs[i]);
      assert cs[i] in {a, b};
    }
    if EndsWith(path, a) { assert EndsWith(path, cs[0]); }
    else if EndsWith(path, b) { assert EndsWith(path, cs[1]); }
  }

  lemma TsTestsHold(path: string)
    ensures AnyHolds(TsTests, path) <==> IsTypeScript(path)
  {
    SuffixTestsHold(TsSuffixes, path);
    EndsWithOneOfTwo(path, ".ts", ".tsx");
  }

  /** No TypeScript path is an image path: their suffixes end in
      different characters. */
  lemma TypeScriptIsNotImage(path: string)
    requires IsTypeScript(path)
    ensures !IsImage(path)
  {
    var last := path[|path| - 1];
    if EndsWith(path, ".ts") { EndsWithLast(path, ".ts"); }
    if EndsWith(path, ".tsx") { EndsWithLast(path, ".tsx"); }
    assert last == 's' || last == 'x';
    if EndsWith(path, ".bmp") { EndsWithLast(path, ".bmp"); }
    if EndsWith(path, ".gif") { EndsWithLast(path, ".gif"); }
    if EndsWith(path, ".jpg") { EndsWithLast(path, ".jpg"); }
    if EndsWith(path, ".jpeg") { EndsWithLast(path, ".jpeg"); }
    if EndsWith(path, ".png") { EndsWithLast(path, ".png"); }
  }

  lemma NodeModulesExcludeHolds(path: string)
    ensures AnyHolds(TsExclude, path) <==> Contains(path, NodeModules)
  {
    if Contains(path, NodeModules) { assert Holds(TsExclude[0], path); }
  }

  lemma CodeSuffixesHold(path: string)
    ensures AnyHolds(CodeTests, path) <==> IsCodeOrMarkup(path)
  {
    SuffixTestsHold(CodeSuffixes, path);
    EndsWithOneOfSeven(path, ".js", ".mjs", ".jsx", ".ts", ".tsx", ".html", ".json");
  }

  /** The rule table routes every path exactly as the plain cases say, in
      every mode: images to url-loader, TypeScript outside node_modules to
      cache-loader then ts-loader, everything else to file-loader unless it
      is code, HTML or JSON, which no rule takes. */
  lemma ResolveMatchesExpected(webpackEnv: string, path: string)
    ensures match Resolve(webpackEnv, path)
            case None => ExpectedLoaders(path).None?
            case Some(use) => ExpectedLoaders(path) == Some(LoaderNames(use))
  {
    var rules := OneOfRules(webpackEnv);
    ImageTestsHold(path);
    TsTestsHold(path);
    NodeModulesExcludeHolds(path);
    CodeSuffixesHold(path);
    assert Matches(rules[0], path) <==> IsImage(path);
    assert Matches(rules[1], path) <==> IsTypeScript(path) && !Contains(path, NodeModules);
    assert Matches(rules[2], path) <==> !IsCodeOrMarkup(path);
    match FirstMatch(rules, path)
    case None =>
    case Some(i) =>
      var names := LoaderNames(rules[i].use);
      if i == 0 { assert names == [UrlLoader]; }
      else if i == 1 { assert names == [CacheLoader, TsLoader]; }
      else { assert names == [FileLoader]; }
  }

  /** A TypeScript file inside node_modules is taken by no rule: the
      TypeScript rule excludes it and file-loader excludes its suffix. */
  lemma TypeScriptInNodeModulesUnrouted(webpackEnv: string, path: string)
    requires IsTypeScript(path) && Contains(path, NodeModules)
    ensures Resolve(webpackEnv, path).None?
  {
    ResolveMatchesExpected(webpackEnv, path);
    TypeScriptIsNotImage(path);
  }

  /** ts-loader is told to skip type checking exactly in development. */
  lemma TsLoaderTranspileOnly(webpackEnv: string, path: string)
    requires IsTypeScript(path) && !Contains(path, NodeModules)
    ensures Resolve(webpackEnv, path).Some?
    ensures var use := Resolve(webpackEnv, path).value;
            |use| == 2 && use[1].options == TsLoaderOptions(ParseMode(webpackEnv) == Development)
  {
    ResolveMatchesExpected(webpackEnv, path);
    TypeScriptIsNotImage(path);
  }
}
