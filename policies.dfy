/**
 * The settings chosen by comparing the mode argument with "development"
 * and "production": output file name, `devtool`, `cache.type` and
 * ts-loader's `transpileOnly`. The configuration writes them with the
 * JavaScript idiom `cond && value`, which yields `false` when `cond` fails,
 * so a mode that is neither of the two gives `false` for the first three.
 */
module Policies {
  import opened Wrappers
  import opened ProcessEnv

  /** The mode argument, classified. */
  datatype Mode = Development | Production | Other(name: string)

  const DevelopmentName := "development"
  const ProductionName := "production"

  predicate IsEnvDevelopment(webpackEnv: string) { webpackEnv == DevelopmentName }
  predicate IsEnvProduction(webpackEnv: string) { webpackEnv == ProductionName }

  function ParseMode(webpackEnv: string): Mode
  {
    if IsEnvDevelopment(webpackEnv) then Development
    else if IsEnvProduction(webpackEnv) then Production
    else Other(webpackEnv)
  }

  function ModeName(mode: Mode): string
  {
    match mode
    case Development => DevelopmentName
    case Production => ProductionName
    case Other(name) => name
  }

  /** `Other` never carries one of the two recognised names. */
  predicate ValidMode(mode: Mode)
  {
    mode.Other? ==> mode.name != DevelopmentName && mode.name != ProductionName
  }

  /** Classifying a mode string loses nothing: the string is recovered. */
  lemma ParseModeRoundTrip(webpackEnv: string)
    ensures ValidMode(ParseMode(webpackEnv))
    ensures ModeName(ParseMode(webpackEnv)) == webpackEnv
  {
  }

  /** Every valid mode is the classification of its own name. */
  lemma ModeNameRoundTrip(mode: Mode)
    requires ValidMode(mode)
    ensures ParseMode(ModeName(mode)) == mode
  {
  }

  /** A setting that is either a string or the JavaScript value `false`. */
  datatype JsOption = JsFalse | JsString(value: string)

  /** JavaScript's `cond && value` for a string `value`. */
  function And(cond: bool, value: string): JsOption
  {
    if cond then JsString(value) else JsFalse
  }

  const HashedBundleName := "static/js/[name].[contenthash:8].js"
  const FixedBundleName := "static/js/bundle.js"
  const FullSourceMap := "source-map"
  const CheapSourceMap := "cheap-module-source-map"
  const MemoryCache := "memory"
  const FilesystemCache := "filesystem"
  const GenerateSourcemapName := "GENERATE_SOURCEMAP"

  /** Source maps stay on unless GENERATE_SOURCEMAP is exactly the text "false". */
  function ShouldUseSourceMap(env: Env): (flag: bool)
    ensures GenerateSourcemapName !in EnvMap(env) ==> flag
    ensures !flag <==> GenerateSourcemapName in EnvMap(env) && EnvMap(env)[GenerateSourcemapName] == "false"
  {
    var dict := EnvMap(env);
    !(GenerateSourcemapName in dict && dict[GenerateSourcemapName] == "false")
  }

  /** `output.filename` */
  function OutputFilename(webpackEnv: string): (r: JsOption)
    ensures match ParseMode(webpackEnv)
            case Production => r == JsString(HashedBundleName)
            case Development => r == JsString(FixedBundleName)
            case Other(_) => r == JsFalse
  {
    if IsEnvProduction(webpackEnv) then JsString(HashedBundleName)
    else And(IsEnvDevelopment(webpackEnv), FixedBundleName)
  }

  /** `devtool` */
  function Devtool(webpackEnv: string, shouldUseSourceMap: bool): (r: JsOption)
    ensures match ParseMode(webpackEnv)
            case Production => r == if shouldUseSourceMap then JsString(FullSourceMap) else JsFalse
            case Development => r == JsString(CheapSourceMap)
            case Other(_) => r == JsFalse
  {
    if IsEnvProduction(webpackEnv) then
      if shouldUseSourceMap then JsString(FullSourceMap) else JsFalse
    else And(IsEnvDevelopment(webpackEnv), CheapSourceMap)
  }

  /** `cache.type` */
  function CacheType(webpackEnv: string): (r: JsOption)
    ensures match ParseMode(webpackEnv)
            case Development => r == JsString(MemoryCache)
            case Production => r == JsString(FilesystemCache)
            case Other(_) => r == JsFalse
  {
    if IsEnvDevelopment(webpackEnv) then JsString(MemoryCache)
    else And(IsEnvProduction(webpackEnv), FilesystemCache)
  }

  /** ts-loader's `transpileOnly` */
  function TranspileOnly(webpackEnv: string): (r: bool)
    ensures r <==> ParseMode(webpackEnv) == Development
  {
    if IsEnvDevelopment(webpackEnv) then true else false
  }

  /** Only the exact text "false" turns source maps off: an absent variable,
      "FALSE", "0" or the empty string all leave them on. */
  lemma OnlyExactFalseDisablesSourceMaps(env: Env, value: string)
    requires value != "false"
    ensures ShouldUseSourceMap(env + [(GenerateSourcemapName, value)])
    ensures !ShouldUseSourceMap(env + [(GenerateSourcemapName, "false")])
  {
  }
}
