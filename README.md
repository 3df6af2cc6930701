# Build-configuration resolver of a React/TypeScript webpack setup

This project models the computed part of `webpack.config.js`. The file exports a
function of the build mode (`webpackEnv`). Given that mode and the process
environment, the function returns a webpack configuration. The model covers:

- **client environment** (`getClientEnv`): the variables whose name starts with
  `REACT_APP` in any letter case, on top of a seed entry `NODE_ENV` that holds the
  mode. The source's `reduce` writes into an accumulator, so it is modelled as a
  loop (`ClientEnv.GetClientEnv`). That loop is proved equal to a declarative
  definition (`ClientEnv.ClientEnvOf`);
- **mode-gated settings**: `output.filename`, `devtool` (gated by
  `GENERATE_SOURCEMAP`), `cache.type` and ts-loader's `transpileOnly`. The source
  writes the `cond && value` idiom, so a mode other than `"development"` or
  `"production"` gives `false` (`JsFalse`) for the first three;
- **`oneOf` rule table**: the three rules are tried in order and the first match
  wins. Each regular expression becomes an explicit suffix or substring test. A
  generic first-match interpreter (`Rules.FirstMatch`) runs over the declared
  table. It is proved to agree, for every path and every mode, with a plain case
  analysis (`Rules.ExpectedLoaders`);
- **manifest `generate` callback**: the emitted files are folded over the seed,
  so the last write wins. The `main` entrypoint's files are filtered by the
  unanchored `/\.map/` test;
- **the composed configuration** (`WebpackConfig.ConfigFor`).

The process environment is an explicit parameter. It is a sequence of
name/value pairs in `Object.keys` order (`ProcessEnv.Env`), and its dictionary
view is `ProcessEnv.EnvMap`. `GENERATE_SOURCEMAP` is read from that same
environment.

Facts about the code that the model keeps:

- An unrecognised mode is not an error. The configuration is still built, with
  `false` for the file name, `devtool` and `cache.type`, and a type-checking
  ts-loader.
- `NODE_ENV` holds the mode string exactly as it was passed (`"production"`).
  No `REACT_APP` name can be `NODE_ENV` (`ClientEnv.NodeEnvIsNotClientName`), so
  the seed entry is never overwritten.
- Entrypoints are filtered by the file name: any name containing `.map`
  anywhere is dropped.

## Model

| member | source | states |
|---|---|---|
| ProcessEnv.EnvMap | webpack.config.js:18-22 | `process.env` as a dictionary: its keys are exactly the names listed in the environment |
| ProcessEnv.EnvMapLastWins | webpack.config.js:22 | the value read for a name is the one given by its last entry |
| ClientEnv.NodeEnvIsNotClientName | webpack.config.js:19-25 | `NODE_ENV` fails `/^REACT_APP/i`, so no environment entry can overwrite the seed |
| ClientEnv.ClientNameExamples | webpack.config.js:19 | the prefix test ignores case (`react_App_…` passes) but requires the prefix at the start, with its underscore |
| ClientEnv.ClientNames | webpack.config.js:18-19 | the filtered key list holds exactly the environment names that pass the `REACT_APP` test |
| ClientEnv.ClientEnvOf | webpack.config.js:15-29 | the client env holds `NODE_ENV` equal to the mode argument, plus exactly the `REACT_APP` names with their values copied unchanged, and no other key |
| ClientEnv.GetClientEnv | webpack.config.js:20-26 | the reduce loop, seeded with `{ NODE_ENV }`, produces exactly `ClientEnvOf` |
| Policies.ParseModeRoundTrip | webpack.config.js:32-33 | classifying the mode string into development/production/other loses nothing |
| Policies.ModeNameRoundTrip | webpack.config.js:32-33 | every valid classified mode comes back from its own name |
| Policies.ShouldUseSourceMap | webpack.config.js:13 | source maps are off exactly when `GENERATE_SOURCEMAP` is the text `"false"`; an absent variable leaves them on |
| Policies.OnlyExactFalseDisablesSourceMaps | webpack.config.js:13 | any value other than exactly `"false"` keeps source maps on, and `"false"` turns them off |
| Policies.OutputFilename | webpack.config.js:41-43 | hashed name in production, `static/js/bundle.js` in development, `false` for any other mode |
| Policies.Devtool | webpack.config.js:53-57 | production gives `source-map` when the flag is on and `false` when it is off; development gives `cheap-module-source-map` whatever the flag; any other mode gives `false` |
| Policies.CacheType | webpack.config.js:122-124 | `memory` in development, `filesystem` in production, `false` otherwise |
| Policies.TranspileOnly | webpack.config.js:80 | true exactly when the mode is development |
| Rules.SuffixTestsHold | webpack.config.js:64 | a list of `$`-anchored suffix tests holds exactly when the path ends with one of the suffixes |
| Rules.ImageTestsHold | webpack.config.js:64 | the image test holds exactly for `.bmp`, `.gif`, `.jpg`, `.jpeg` and `.png` paths |
| Rules.TsTestsHold | webpack.config.js:73 | the TypeScript test holds exactly for `.ts` and `.tsx` paths |
| Rules.NodeModulesExcludeHolds | webpack.config.js:74 | the TypeScript exclusion holds exactly for paths containing `node_modules` anywhere |
| Rules.CodeSuffixesHold | webpack.config.js:87 | file-loader's exclusions hold exactly for `.js`/`.mjs`/`.jsx`/`.ts`/`.tsx`/`.html`/`.json` paths |
| Rules.FirstMatchFrom | webpack.config.js:62 | the result is a matching rule at or after the start, and no rule between the start and it matches; `None` means that no rule from the start on matches |
| Rules.FirstMatch | webpack.config.js:62 | `oneOf` picks at most one rule: the matching rule with the lowest index, or none exactly when no rule matches |
| Rules.ResolveMatchesExpected | webpack.config.js:60-94 | in every mode, images go to url-loader; TypeScript outside node_modules goes to cache-loader then ts-loader; anything else that is not code, HTML or JSON goes to file-loader; the rest gets no rule |
| Rules.TypeScriptInNodeModulesUnrouted | webpack.config.js:73-87 | a `.ts` or `.tsx` file under node_modules is taken by no rule: the TypeScript rule excludes it and file-loader excludes its suffix |
| Rules.TsLoaderTranspileOnly | webpack.config.js:75-83 | a routed TypeScript file gets ts-loader second in its chain, with `transpileOnly` true exactly in development |
| Manifest.ManifestFiles | webpack.config.js:106-109 | the folded manifest's keys are the seed's keys plus the emitted names |
| Manifest.ManifestFilesLastWins | webpack.config.js:106-109 | a name emitted several times maps to the path of its last occurrence |
| Manifest.ManifestFilesKeepsSeed | webpack.config.js:106-109 | a seed key that no emitted file names keeps its seed value |
| Manifest.ManifestFilesAppend | webpack.config.js:106-109 | folding two batches one after the other equals folding their concatenation |
| Manifest.EntryFiles | webpack.config.js:110-112 | the entry list never grows, and no kept name contains `.map`; a name is kept exactly when it is listed and contains no `.map` |
| Manifest.EntryFilesKeepsOrder | webpack.config.js:110-112 | the kept names are a subsequence of `entrypoints.main`, in the same order |
| Manifest.EntryFilesAppend | webpack.config.js:110-112 | the filter distributes over concatenation |
| Manifest.EntryFilesIdempotent | webpack.config.js:110-112 | filtering twice is filtering once |
| Manifest.EntryFilesUnanchoredMapTest | webpack.config.js:111 | `.map` anywhere in a name drops the file (`a.map.js` too), while `sitemap.js` is kept |
| Manifest.Generate | webpack.config.js:105-114 | fails exactly when there is no `main` entrypoint; otherwise `files` is the last-wins fold of the emitted files over the seed (its keys the seed's plus every emitted name), and `entrypoints` keeps exactly the names of `main` that contain no `.map`, in their order |
| WebpackConfig.ConfigFor | webpack.config.js:31-37 | the configuration's mode is the argument, and its client env's `NODE_ENV` equals it |
| WebpackConfig.ProductionConfig | webpack.config.js:41-43 | production: hashed names, `source-map` unless the flag is off, filesystem cache, type-checking ts-loader |
| WebpackConfig.DevelopmentConfig | webpack.config.js:53-57 | development: fixed bundle name, cheap source map, memory cache, transpile-only ts-loader |
| WebpackConfig.OtherModeConfig | webpack.config.js:41-43 | another mode: file name, `devtool` and cache type are `false`, and the rule table is the production one |
| WebpackConfig.ProductionScenario | webpack.config.js:15-29 | production with `REACT_APP_X=1` and `SECRET=2` exposes only `NODE_ENV` and `REACT_APP_X`, with a full source map and a filesystem cache |
| WebpackConfig.RouteImage | webpack.config.js:63-71 | a PNG goes to url-loader alone, even under node_modules |
| WebpackConfig.RouteOtherAsset | webpack.config.js:85-91 | an asset with an unknown suffix goes to file-loader |
| WebpackConfig.RouteHtml | webpack.config.js:87 | an HTML file is taken by no rule |

## Left out

- `require("dotenv").config()` loads a `.env` file into the environment. This is file I/O. The environment is a parameter and is taken as already loaded.
- `path.resolve` of the entry, output, public and HTML paths depends on the filesystem. These paths are not modelled.
- `JSON.stringify` of the client env is library serialisation. The model returns the map that gets serialised, so key order in the JSON text is not modelled. The wrapping `{"process.env": …}` object is left out as well.
- The plugin constructors (`DefinePlugin`, `HtmlWebpackPlugin`, `WebpackManifestPlugin`, `ForkTsCheckerWebpackPlugin`) are library code. Only the `generate` callback's logic is modelled.
- `devServer` is network serving. `stats` and `resolve.extensions` are pass-through constants with no computed behaviour.
- Loader options (`limit`, `outputPath`, the `name` templates) are kept as constant data. Hashing and template substitution happen inside webpack.
- The order in which webpack runs a loader chain (last listed runs first) is webpack's own behaviour. The model keeps each chain in declared order.
- Regular expressions are replaced by suffix, substring and ASCII case-insensitive prefix predicates. These are equivalent for the patterns in this file.
- Manifest.FileDescriptor keeps only `name` and `path`, the two fields the callback reads.
