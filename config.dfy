/**
 * `module.exports`: the configuration built for one mode argument, reduced
 * to the parts that are computed from the mode and the environment.
 */
module WebpackConfig {
  import opened Wrappers
  import opened Strings
  import opened ProcessEnv
  import opened ClientEnv
  import opened Policies
  import opened Rules

  datatype Config = Config(
    mode: string,
    filename: JsOption,
    devtool: JsOption,
    rules: seq<Rule>,
    clientEnv: map<string, string>,
    cacheType: JsOption)

  /** The configuration for `webpackEnv`; `env` is the process environment
      both `getClientEnv` and the `GENERATE_SOURCEMAP` test read. */
  function ConfigFor(webpackEnv: string, env: Env): (c: Config)
    ensures c.mode == webpackEnv && NodeEnvName in c.clientEnv && c.clientEnv[NodeEnvName] == webpackEnv
    ensures |c.rules| == 3
  {
    Config(
      webpackEnv,
      OutputFilename(webpackEnv),
      Devtool(webpackEnv, ShouldUseSourceMap(env)),
      OneOfRules(webpackEnv),
      ClientEnvOf(webpackEnv, env),
      CacheType(webpackEnv))
  }

  /** Production: hashed bundle names, a full source map unless
      GENERATE_SOURCEMAP is "false", a persistent cache and a type-checking
      ts-loader. */
  lemma ProductionConfig(env: Env)
    ensures var c := ConfigFor(ProductionName, env);
            && c.filename == JsString(HashedBundleName)
            && c.devtool == (if ShouldUseSourceMap(env) then JsString(FullSourceMap) else JsFalse)
            && c.cacheType == JsString(FilesystemCache)
            && c.rules[1].use[1].options == TsLoaderOptions(false)
  {
  }

  /** Development: a fixed bundle name, a cheap source map whatever the
      flag says, a memory cache and a transpile-only ts-loader. */
  lemma DevelopmentConfig(env: Env)
    ensures var c := ConfigFor(DevelopmentName, env);
            && c.filename == JsString(FixedBundleName)
            && c.devtool == JsString(CheapSourceMap)
            && c.cacheType == JsString(MemoryCache)
            && c.rules[1].use[1].options == TsLoaderOptions(true)
  {
  }

  /** Any other mode string: the three `cond && value` settings are `false`
      and ts-loader type-checks; the rule table itself is unchanged. */
  lemma OtherModeConfig(webpackEnv: string, env: Env)
    requires webpackEnv != DevelopmentName && webpackEnv != ProductionName
    ensures var c := ConfigFor(webpackEnv, env);
            && c.filename == JsFalse && c.devtool == JsFalse && c.cacheType == JsFalse
            && c.rules == OneOfRules(ProductionName)
  {
  }

  /** A production build with one client variable and one private one:
      only the client variable and the mode reach the bundle, and with
      GENERATE_SOURCEMAP unset the full source map is emitted. */
  lemma ProductionScenario()
    ensures var env := [("REACT_APP_X", "1"), ("SECRET", "2")];
            var c := ConfigFor(ProductionName, env);
            && c.clientEnv == map[NodeEnvName := ProductionName, "REACT_APP_X" := "1"]
            && c.devtool == JsString(FullSourceMap)
            && c.cacheType == JsString(FilesystemCache)
  {
  }

  /** A PNG goes to url-loader alone, even inside node_modules. */
  lemma RouteImage(webpackEnv: string)
    ensures Resolve(webpackEnv, "node_modules/logo.png").Some?
    ensures LoaderNames(Resolve(webpackEnv, "node_modules/logo.png").value) == [UrlLoader]
  {
    ResolveMatchesExpected(webpackEnv, "node_modules/logo.png");
    assert IsImage("node_modules/logo.png");
  }

  /** An asset with an unknown suffix goes to file-loader. */
  lemma RouteOtherAsset(webpackEnv: string)
    ensures Resolve(webpackEnv, "app.data").Some?
    ensures LoaderNames(Resolve(webpackEnv, "app.data").value) == [FileLoader]
  {
    ResolveMatchesExpected(webpackEnv, "app.data");
    assert !IsImage("app.data");
    assert !IsTypeScript("app.data");
    assert !IsCodeOrMarkup("app.data");
  }

  /** HTML is excluded from file-loader and taken by no rule. */
  lemma RouteHtml(webpackEnv: string)
    ensures Resolve(webpackEnv, "index.html").None?
  {
    ResolveMatchesExpected(webpackEnv, "index.html");
    assert !IsImage("index.html");
    assert !IsTypeScript("index.html");
    assert IsCodeOrMarkup("index.html");
  }
}
