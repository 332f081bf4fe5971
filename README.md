# nwb core, modelled in Dafny

This project models the deterministic core of nwb, a toolkit for React apps, React components and npm web modules. It covers four areas:

- **The user config report.** An accumulator of path-addressed config errors, deprecation warnings and hints. It also records where the config came from and renders a report, line by line.
- **The Webpack helpers.** These are:
  - the UMD banner and the externals config;
  - formatting of compiler messages, and the rule that picks which errors to show;
  - the gzipped file-size listing: filtered, padded and sorted largest first;
  - the plan of what is logged after a build.
- **Project creation.** This covers:
  - the version stamped into templates and the project-type check;
  - npm module preferences read from command-line flags;
  - the `nwb.config.js` object written for module projects;
  - dependency pinning to a version;
  - the ordered task lists of app and module projects;
  - the guard chains of `nwb new` and `nwb init`;
  - the Babel config and tasks of `nwb build-react-component`.
- **The React project config.** Flag precedence chooses the compat library: Inferno over Preact over plain React. That choice decides the compat packages, the display name and the module aliases. The build and serve Babel preset lists, which a production flag and the hot-reloading flags switch, are modelled too.

Command-line arguments are a record of positional arguments and a map of flag values (`cli_args.dfy`). Each flag value is `Absent`, a `Bool` or a `Str`, so `=== false`, `!== true`, truthiness and `String(v)` can each be stated exactly. Effects become data:

- Console output is the sequence of logged lines.
- Project creation is the ordered list of tasks it would run.
- Filesystem checks, `path.resolve`, `modulePath`, `util.inspect` and the css-loader rewrite are function parameters.
- The package version, the project types, gzip sizes and their labels are plain inputs.
- Terminal styling is the identity.

Files:

- `wrappers.dfy`: `Option` and `Result`.
- `text.dfy`: the string operations the code relies on (`indexOf` and `includes`, a first-occurrence `replace`, `split`/`join`, decimal rendering).
- `seq_facts.dfy`: sequence regrouping facts used by the proofs.
- `cli_args.dfy`: the argument record.
- `user_config_report.dfy`: the `Report` class and its rendering.
- `webpack_utils.dfy`: the Webpack helpers.
- `create_project.dfy`: project creation.
- `react.dfy`: the React project config.
- `new_command.dfy`, `init_command.dfy`, `build_react_component.dfy`: the three commands.

## Model

| member | source | states |
|---|---|---|
| UserConfigReport.Report.constructor | src/config/UserConfigReport.js:9-16 | A new report stores `configFileExists` and `configPath` as given, has empty errors, deprecations and hints, and no argument overrides |
| UserConfigReport.Report.Deprecated | src/config/UserConfigReport.js:18-20 | Appends exactly one `{path, messages}` at the end of the deprecations; every other field is unchanged |
| UserConfigReport.Report.Error | src/config/UserConfigReport.js:22-24 | Appends exactly one `{path, value, message}` at the end of the errors; every other field is unchanged |
| UserConfigReport.Report.Hint | src/config/UserConfigReport.js:34-36 | Appends exactly one `{path, messages}` at the end of the hints; every other field is unchanged |
| UserConfigReport.Report.HasErrors | src/config/UserConfigReport.js:26-28 | True iff the error list is non-empty |
| UserConfigReport.Report.HasSomethingToReport | src/config/UserConfigReport.js:30-32 | True iff some list is non-empty; implied by `HasErrors` |
| UserConfigReport.Report.GetConfigSource | src/config/UserConfigReport.js:38-50 | One of four results, one for each combination of config file present or not and argument overrides present or not |
| UserConfigReport.RenderReport | src/config/UserConfigReport.js:52-101 | Every report starts with the config-source title and a blank line and has at least one more line |
| UserConfigReport.Report.GetReport | src/config/UserConfigReport.js:52-101 | The lines pushed one by one are exactly the rendered report of the current state; the text is those lines joined with newlines |
| UserConfigReport.NothingToReport | src/config/UserConfigReport.js:55-61 | With no records, the report is the title, a blank line and the all-clear line, and nothing else |
| UserConfigReport.ReportSplit | src/config/UserConfigReport.js:55-98 | A non-empty report is the title and a blank line, then the error, deprecation and hint sections in that order |
| UserConfigReport.ReportSectionOrder | src/config/UserConfigReport.js:63-98 | The line after the title and blank line is the heading of the first non-empty section (errors, then deprecations, then hints) |
| UserConfigReport.HeadingCountPrefix | src/config/UserConfigReport.js:64-65 | A heading starts with a digit iff its section has more than one entry; one entry gives the bare noun, more give `<n> <noun>s` |
| UserConfigReport.ReportLineCount | src/config/UserConfigReport.js:63-98 | Report length: 3 lines when empty; otherwise 2 for the title, 2 per non-empty heading, 3 per error and 2 + \|messages\| per notice |
| UserConfigReport.ReportWithErrors | src/config/UserConfigReport.js:63-72 | With errors, the heading and blank line come right after the title, then the error blocks, then the other sections |
| UserConfigReport.ReportErrorLines | src/config/UserConfigReport.js:68-72 | The k-th error occupies lines 4+3k to 6+3k in recording order: `✖ path = inspect(value)`, the indented message, and a blank line |
| UserConfigReport.ErrorBlocksLength | src/config/UserConfigReport.js:68-72 | Every error contributes exactly three lines |
| UserConfigReport.ErrorBlocksAt | src/config/UserConfigReport.js:68-72 | The three lines of the k-th error sit at offset 3k of the error blocks |
| UserConfigReport.NoticeBlocksLength | src/config/UserConfigReport.js:79-85 | Every deprecation or hint contributes two lines plus one per message |
| UserConfigReport.IndentedAt | src/config/UserConfigReport.js:81-83 | One line per message, in order, each prefixed by two spaces |
| UserConfigReport.AppendIndented | src/config/UserConfigReport.js:81-83 | The inner `forEach` loop appends exactly the indented messages |
| UserConfigReport.AppendNoticeBlocks | src/config/UserConfigReport.js:79-85 | The `forEach` loop over notices appends exactly their blocks, in order |
| UserConfigReport.AppendNoticeSection | src/config/UserConfigReport.js:74-85 | Appends the heading (only for a non-empty list) and then the notice blocks |
| UserConfigReport.AppendErrorBlocks | src/config/UserConfigReport.js:68-72 | The `forEach` loop over errors appends exactly their blocks, in order |
| UserConfigReport.AppendErrorSection | src/config/UserConfigReport.js:63-72 | Appends the error heading (only when there are errors) and then the error blocks |
| WebpackUtils.S | src/webpackUtils.js:12 | The suffix is empty iff the count is 1, and `s` otherwise |
| WebpackUtils.CreateBanner | src/webpackUtils.js:17-26 | The string built step by step equals the banner specification |
| WebpackUtils.BannerShape | src/webpackUtils.js:17-26 | Starts with `<name> v<version>`; ends with the license line iff a license is set; otherwise ends with the homepage part; for newline-free fields it is multi-line iff licensed |
| WebpackUtils.CreateExternals | src/webpackUtils.js:31-43 | Exactly the input's keys; each value is `{root: global, commonjs2: pkg, commonjs: pkg, amd: pkg}`; an omitted argument gives an empty map |
| WebpackUtils.FormatMessage | src/webpackUtils.js:45-60 | A message holding neither the Babel syntax-error text nor the file-not-found text is only passed through the css-loader rewrite |
| WebpackUtils.IsLikelyASyntaxError | src/webpackUtils.js:62-64 | True iff `Syntax error:` occurs somewhere in the message |
| WebpackUtils.FormatMessages | src/webpackUtils.js:66-70 | One formatted message per input message |
| WebpackUtils.FormatMessagesAt | src/webpackUtils.js:66-70 | The k-th output is `<type> in ` followed by the formatted k-th message, so order is kept |
| WebpackUtils.FormattedMessagePrefix | src/webpackUtils.js:68 | Every formatted message starts with `<type> in ` |
| WebpackUtils.SyntaxErrorsSpec | src/webpackUtils.js:101 | The filter yields an order-preserving subsequence; each message containing `Syntax error:` keeps its number of occurrences and every other message is dropped |
| WebpackUtils.ShownErrorsSelection | src/webpackUtils.js:97-102 | With a syntax error present, exactly the syntax errors are shown, each as often as it occurs; otherwise all errors; order is kept and something is shown iff there are errors |
| WebpackUtils.LogErrorsAndWarnings | src/webpackUtils.js:87-118 | The logged lines, including the reassignment of `formattedErrors`, equal the specified output |
| WebpackUtils.ShownErrorsPrefix | src/webpackUtils.js:91-106 | Every error that can be shown is a formatted error, not a warning |
| WebpackUtils.ErrorsHideWarnings | src/webpackUtils.js:94-108 | With errors, the summary line comes first, then a blank line before each shown message, and every shown message is an error, so no warning is logged |
| WebpackUtils.WarningsListed | src/webpackUtils.js:110-117 | With only warnings, the summary comes first, then every warning, formatted, in order, each after a blank line |
| WebpackUtils.MessageLinesAt | src/webpackUtils.js:103-106 | Each message is logged after an empty line, in order |
| WebpackUtils.AppendMessages | src/webpackUtils.js:103-106 | The `forEach` loop appends exactly the message lines |
| WebpackUtils.CssJsAssetsSpec | src/webpackUtils.js:75 | The asset filter yields an order-preserving subsequence; each CSS or JS asset keeps its number of occurrences and every other asset is dropped |
| WebpackUtils.CssJsAssetsMember | src/webpackUtils.js:75 | An asset survives the filter iff it is in the list and its name ends in `.css` or `.js` |
| WebpackUtils.DetailsOfAllAt | src/webpackUtils.js:76-84 | The map gives one details record per kept asset, the k-th from the k-th asset |
| WebpackUtils.GetFileDetailsMembers | src/webpackUtils.js:72-85 | A file's details are listed iff they come from a `.css` or `.js` asset |
| WebpackUtils.AllFileDetailsMembers | src/webpackUtils.js:125-127 | The concatenation holds exactly the CSS and JS assets of every stats object |
| WebpackUtils.AllFileDetailsConcat | src/webpackUtils.js:125-127 | The details of several stats objects are each object's details, concatenated in order |
| WebpackUtils.WithoutRuntimeChunksCount | src/webpackUtils.js:127-129 | A runtime chunk is dropped entirely; every other file keeps its number of occurrences |
| WebpackUtils.WithoutRuntimeChunksOrder | src/webpackUtils.js:127-129 | The filtered files are an order-preserving subsequence of the input |
| WebpackUtils.WithoutRuntimeChunksMembers | src/webpackUtils.js:127-129 | The filter keeps exactly the files whose names do not look like `runtime.<hash>.js` |
| WebpackUtils.ListedFilesExactly | src/webpackUtils.js:125-129 | A file is listed iff it is a CSS or JS asset of one of the stats and is not a runtime chunk; the listed files keep the order and the number of occurrences of those details |
| WebpackUtils.Longest | src/webpackUtils.js:131-139 | The maximum of \|dir + name\| over the files, reached by one of them; 0 for no files |
| WebpackUtils.Pad | src/webpackUtils.js:140 | All spaces; \|dir + name\| + \|pad\| equals the longest length |
| WebpackUtils.InsertBySize | src/webpackUtils.js:146 | Inserting adds exactly the new file (length and multiset) |
| WebpackUtils.InsertBySizeSorted | src/webpackUtils.js:146 | Inserting into a largest-first list keeps it largest first |
| WebpackUtils.SortBySize | src/webpackUtils.js:145-146 | The sort is a permutation of the files |
| WebpackUtils.SortBySizeSorted | src/webpackUtils.js:145-146 | The sorted files are in non-increasing size |
| WebpackUtils.SortedFits | src/webpackUtils.js:131-146 | Every sorted file fits the longest length computed before sorting, so every pad is defined |
| WebpackUtils.FileLineShape | src/webpackUtils.js:152-155 | Every listing line has the same width up to its size label and ends with that label |
| WebpackUtils.FileLinesAt | src/webpackUtils.js:145-156 | One line per file, in order |
| WebpackUtils.FileLinesShape | src/webpackUtils.js:145-156 | Every line has the common width and ends with its own file's size label |
| WebpackUtils.AppendFileLines | src/webpackUtils.js:145-156 | The `forEach` loop appends exactly the file lines |
| WebpackUtils.LogGzippedFileSizes | src/webpackUtils.js:124-159 | The logged lines equal the listing of the listed files |
| WebpackUtils.FileListingLayout | src/webpackUtils.js:131-158 | Header, blank line, then one line per file of the size-sorted list, then a blank line. The k-th line is the k-th sorted file's line, as wide as the padded longest path plus its own size label, and ends with that label; every pad is defined |
| WebpackUtils.FramedLinesAt | src/webpackUtils.js:142-158 | Between a header, a blank line and a closing blank line, the k-th line is the k-th file's line, of the common width, ending with its size label |
| WebpackUtils.BuildResultsPlan | src/webpackUtils.js:161-185 | File sizes are logged iff there are no errors, and errors/warnings iff there are either; a spinner step occurs iff a spinner is given; the last step is the listing or the messages |
| CreateProject.NwbVersion | src/createProject.js:21 | The template version always ends in `.x` |
| CreateProject.NwbVersionPieces | src/createProject.js:21 | The version is the first piece, then `.<second piece>` if there is one, then `.x` |
| CreateProject.NwbVersionOfSemver | src/createProject.js:21 | `major.minor.patch` gives `major.minor.x` |
| CreateProject.ValidateProjectType | src/createProject.js:121-128 | Returns normally iff the type is a non-empty listed string; a falsy type gets the "must be provided" message; any other type gets "must be one of" |
| CreateProject.EsModulesFlag | src/createProject.js:46 | False iff the flag is `false` or its string form is one of `0`, `false`, `no`, `nope`, `off`; true when the flag is absent |
| CreateProject.UmdFlag | src/createProject.js:49 | The flag's value when it is a string, and `false` otherwise |
| CreateProject.NpmModulePrefsAsWritten | src/createProject.js:42-83 | When skipping, the derived flags; when prompting, a question skipped because its flag is present leaves its preference absent |
| CreateProject.SkipPrompt | src/createProject.js:53-55 | Forcing with `-f` or `--force` skips the questions; not skipping means at least one of the two flags is missing |
| CreateProject.NpmModulePrefs | src/createProject.js:42-83 | The corrected preferences are always defined: a boolean ES modules choice, and a string global or `false` for UMD |
| CreateProject.UmdFlagLostAsWritten | src/createProject.js:57-82 | With `--umd=MyLib` alone, the code as written drops the UMD global |
| CreateProject.EsModulesFlagLostAsWritten | src/createProject.js:57-82 | With `--es-modules` alone, the code as written does not enable ES modules |
| CreateProject.PrefsHonourFlags | src/createProject.js:42-83 | Corrected preferences: a present flag, or skipping, decides its preference; otherwise the answer decides |
| CreateProject.ForcedDefaultPrefs | tests/createProject-test.js:6-21 | With `-f` alone the preferences are `{esModules: true, umd: false}` |
| CreateProject.PrefsAgreeWhenNothingSkipped | src/createProject.js:53-82 | When no flag's question is skipped, both versions give the same ES modules choice and the same UMD truthiness. They are equal when skipping or when the UMD question is accepted. Declining it gives `false` in the corrected version and no value as written |
| CreateProject.ModuleProjectConfigFor | src/createProject.js:141-147 | A config exists iff the type is `react-component` or `web-module`; otherwise destructuring fails |
| CreateProject.ModuleNwbConfig | src/createProject.js:215-221 | `{type, npm: {esModules, umd}}`; `umd` is `{global, externals}` iff the UMD preference is truthy, and `false` otherwise |
| CreateProject.Pin | src/createProject.js:226 | Pinning keeps the number of packages |
| CreateProject.PinAt | src/createProject.js:166-168 | The k-th pinned package is the k-th package followed by `@<version>` |
| CreateProject.PinRoundTrip | src/createProject.js:226 | For a name without `@`, the text before the first `@` of its pinned form is the name |
| CreateProject.ModuleProjectPlan | src/createProject.js:202-241 | Given the preferences its callback receives, a plan exists iff the type is a module type; it has four tasks and ends with Git initialisation |
| CreateProject.ModuleUmdLostAsWritten | src/createProject.js:205-221 | With `--umd=MyLib` alone, the config written from the as-written preferences has no UMD build; from the corrected ones it is `{global: 'MyLib', externals: {react: 'React'}}` |
| CreateProject.CreateModuleProject | src/createProject.js:202-241 | Given the preferences its callback receives, the reassignments of `devDependencies` and `templateVars` produce exactly the specified module task list |
| CreateProject.ModuleProjectShape | src/createProject.js:202-241 | Given the preferences its callback receives: succeeds iff the type is a module type. Tasks in order: copy template, write config, install dev dependencies, init Git. Externals `{react: 'React'}` only for components. React is pinned iff `--react` is given |
| CreateProject.AppTypeIsPrefix | src/createProject.js:153 | The app type is the text before the first `-` |
| CreateProject.AppProjectPlan | src/createProject.js:152-197 | A plan exists iff the app type has a config; it has three or four tasks and ends with Git initialisation |
| CreateProject.CreateAppProject | src/createProject.js:152-197 | Building the tasks and then `unshift`ing the questions produces exactly the specified app task list |
| CreateProject.AppProjectShape | src/createProject.js:152-197 | Questions come first iff the config has questions and creation is not forced. Then copy template, install, init Git. Dependencies are pinned to the app-type flag iff it is given and the list is non-empty |
| CreateProject.CreateProject | src/createProject.js:243-249 | A type ending in `-app` takes the app path; anything else takes the module path |
| CreateProject.GitCommands | src/createProject.js:89-116 | No command with `--no-git`, in an existing repository or without Git; otherwise `git init`, `git add .` and a commit naming the version |
| React.CompatDependencies | src/react/index.js:59-67 | Inferno's five packages if requested, else Preact's two if requested, else none |
| React.CompatName | src/react/index.js:69-77 | The same precedence: Inferno, then Preact, then `React` |
| React.Name | src/react/index.js:102-107 | The compat name only for commands starting with `build`; `React` otherwise |
| React.QuickDependencies | src/react/index.js:124-130 | Always starts with `react`, `react-dom`; the compat packages follow only for `build*` commands |
| React.CompatChoiceAgrees | src/react/index.js:28-77 | Compat packages, name and aliases all follow the same choice; a non-build command's default title is `React App` |
| React.BuildResolveAliases | src/react/index.js:28-47 | `react` and `react-dom` alias to the same place; Inferno gives exactly those two keys; Preact adds `create-react-class` |
| React.BuildPresets | src/react/index.js:18-24 | The React preset first, then `react-prod` iff production, and nothing else |
| React.ServePresets | src/react/index.js:113-122 | React and dev presets first; the hot reloading preset is present unless `hmr` or `hmre` is exactly `false`, so it is present when neither flag is given |
| React.BuildResolve | src/react/index.js:28-47 | A `resolve` entry exists iff Inferno or Preact is requested |
| React.PathJoin | src/react/index.js:39 | An empty directory gives the rest unchanged; otherwise the directory, one separator, then the rest |
| React.CommandConfig.constructor | src/react/index.js:7-11 | A config holding the given presets and no `resolve` entry |
| React.CommandConfig.PushPreset | src/react/index.js:23 | Appends one preset; `resolve` is unchanged |
| React.GetBaseConfig | src/react/index.js:6-12 | A fresh config with only the React preset |
| React.AliasPath | src/react/index.js:26 | Without `useModulePath`, the identity; with it, `modulePath` |
| React.GetBuildConfig | src/react/index.js:18-50 | A fresh config whose presets and `resolve` equal the build specifications |
| React.GetServeConfig | src/react/index.js:113-122 | A fresh config with the serve presets and no `resolve` |
| React.RepeatedConfigs | src/react/index.js:6-12 | Successive calls return distinct objects, so presets never accumulate across calls |
| React.ReactAppType | src/react/index.js:94-100 | `react-app` loads the `react` config |
| React.ReactDependenciesPinned | src/react/index.js:94-96 | React and React DOM, pinned to `--react` when given |
| React.ReactAppPlan | src/react/index.js:94-100 | A `react-app` never asks questions: copy template, install React and React DOM, init Git |
| NewCommand.Article | src/commands/new.js:29-30 | `an` iff the type starts with a vowel, otherwise `a` |
| NewCommand.New | src/commands/new.js:8-32 | A created project has a listed type and a non-empty name whose directory does not exist, and is created in `path.resolve(name)` |
| NewCommand.NewGuardOrder | src/commands/new.js:8-32 | Checks in order: usage, type, name, existing directory; the first failure decides the message; creation happens iff all pass, into `path.resolve(name)` |
| NewCommand.NewCreatesListedType | src/commands/new.js:13-31 | A created project has a listed, non-empty type and a non-empty name, taken from the positional arguments |
| InitCommand.TrimTrailingSeparators | src/commands/init.js:21 | A prefix of the path that does not end in a separator; everything removed is a separator |
| InitCommand.Basename | src/commands/init.js:21 | The base name holds no separator and is a suffix of the path with its trailing separators removed |
| InitCommand.LastSegment | src/commands/init.js:21 | A separator-free suffix, preceded by a separator when shorter than the path |
| InitCommand.BasenameShape | src/commands/init.js:19-22 | The base name holds no separator and is non-empty unless the path is only separators |
| InitCommand.Init | src/commands/init.js:7-27 | A created project has a listed type and is created in the cwd |
| InitCommand.InitGuardOrder | src/commands/init.js:7-27 | Usage, then type; creation happens iff both pass, in the cwd, with the given name or the cwd's base name |
| InitCommand.InitNeedsNoName | src/commands/init.js:19-22 | `init` never reports a missing name |
| InitCommand.InitCreatesWhatNewCreates | src/commands/init.js:7-27 | Whatever `new` creates, `init` creates too, with the same type and name |
| BuildReactComponent.BuildModule | src/commands/build-react-component.js:11-43 | The config and tasks built step by step equal their specifications |
| BuildReactComponent.ComponentBuildConfig | src/commands/build-react-component.js:12-33 | The Babel config is always the React preset at stage 1; the dev and prod settings are present together or not at all |
| BuildReactComponent.ComponentBuildTasks | src/commands/build-react-component.js:35-42 | One or two tasks, the module build first |
| BuildReactComponent.PropTypesHandling | src/commands/build-react-component.js:12-33 | Presets `[react]` and stage 1 always. The dev wrap and prod strip come together, iff neither keep flag is exactly `true` |
| BuildReactComponent.TaskOrder | src/commands/build-react-component.js:35-42 | The module build is first. The demo build follows iff neither demo flag is `false` and the demo directory exists. At most two tasks |
| Text.FindFrom | src/webpackUtils.js:63 | The first occurrence at or after the start index, or none |
| Text.ContainsIff | src/webpackUtils.js:63 | `includes` holds iff the text occurs somewhere |
| Text.ReplaceFirst | src/webpackUtils.js:48-57 | A string pattern replaces only its first occurrence; no occurrence leaves the text unchanged |
| Text.ReplaceFirstInserts | src/webpackUtils.js:48-52 | After replacing an occurring pattern, the replacement occurs |
| Text.JoinEndsWithLast | src/createProject.js:21 | Joining a non-empty list followed by one more piece ends with the separator and that piece |
| Text.Split | src/createProject.js:21 | At least one piece, and no piece holds the separator |
| Text.JoinSplit | src/createProject.js:21 | Joining the split pieces with the separator gives the string back |
| Text.SplitHead | src/createProject.js:153 | The first piece is the text before the first separator |
| Text.NatToString | src/config/UserConfigReport.js:64 | Non-empty, all digits, no leading zero |
| Text.NatToStringRoundTrip | src/config/UserConfigReport.js:64 | The decimal value of the rendered count is the count |
| Text.Spaces | src/webpackUtils.js:140 | `n` spaces, as `Array(n + 1).join(' ')` gives |

## Left out

- Terminal styling (`chalk`) is the identity, and the `figures` glyphs are their Unicode characters. `util.inspect` is a parameter, and `log()`'s `console.log` is not modelled.
- The `pluralise` helper of `src/utils.js` is not part of this model. The report uses the same `n == 1` rule as `webpackUtils.js`'s local `s`.
- `inquirer` prompts are the `Replies` and `answered` parameters. The prompt defaults, answer validation (rejecting a whitespace-only UMD name) and prompt errors are not modelled.
- Template copying, the created-file log, `writeConfigFile`/`toSource`, `install`, `exec` and the spinners are effects. They appear only as tasks carrying their data. Their failures, and the callbacks of `runSeries` and `process.nextTick`, are not modelled.
- `initGit` is modelled as the Git commands it runs. Whether `.git` exists and whether `git --version` succeeds are inputs. The handling of a failed command is left out.
- `constants.js` is not part of this model. `PROJECT_TYPES` is a parameter, in insertion order. `REACT_COMPONENT` and `WEB_MODULE` are assumed to be `react-component` and `web-module`.
- CreateProject.ModuleProjectConfigFor: the error text stands in for the engine's `TypeError` message. Object prototype keys such as `constructor` are not modelled as config entries.
- CreateProject.AppProjectPlan: `require('./' + appType)` is a map parameter from app type to `AppProjectConfig`. A missing module is an error whose exact text is not modelled.
- `minimist`'s parsing is not modelled: positional arguments are strings, and flag values are absent, boolean or string. Numeric-looking arguments, which `minimist` turns into numbers, are not modelled.
- React.PathJoin: `path.join` is modelled as plain concatenation with one separator, without normalising `..`, `.` or repeated separators.
- `path.resolve` is a parameter. `path.basename` takes the text after the last `/` with trailing separators ignored. `path.sep` is `/`.
- `getFileDetails`: `path.relative`/`path.dirname`/`path.basename` of an asset are inputs (`dir`, `name`), as are `gzipSize` and `filesize`. `stats.toJson` is the `errors` and `warnings` lists, and `hasErrors`/`hasWarnings` mean those lists are non-empty.
- The `/^.*css-loader.*!/gm` rewrite of `formatMessage` is the `stripCssLoader` parameter.
- `Array.prototype.sort` is modelled as a stable sort, largest first. Engines with an unstable sort may order equal sizes differently.
- `getQuickConfig`'s `renderShim` and its aliases, `getQuickBuildConfig`/`getQuickServeConfig`, `getKarmaTestConfig`, `getProjectDefaults` and `getBuildDependencies` are not modelled beyond `DefaultTitle`. They are `require.resolve`/`modulePath` results merged into objects, or direct aliases of modelled members.
- `NODE_ENV === 'production'` is the `production` parameter, and `require.resolve` results are constant strings.
- WebpackUtils.Longest: lengths count Unicode code points, whereas JavaScript's `.length` counts UTF-16 code units. A path holding a character outside the Basic Multilingual Plane is therefore one shorter here, and the padding of the other lines can differ from nwb's.
- WebpackUtils.Pad: the same code-point count applies to the pad length.
- UserConfigReport.Report.constructor: the `= {}` default of the options object and an omitted `configPath` are not modelled. The model always takes a boolean and a string.
- The JSON key order of objects written to disk is not modelled; maps and datatypes carry no order.

## Findings

| source | as written | input that shows it | evidently intended | confidence | as-written member | corrected member |
|---|---|---|---|---|---|---|
| src/createProject.js:57-82 | When questions are asked, the preferences are `inquirer`'s answers alone. A question skipped by `when` because its flag was given leaves no answer, so the UMD global from the flag is lost and no UMD build is configured | `nwb new react-component my-lib --umd=MyLib` (without `-f` and without `--es-modules`) | The preference of a skipped question is the value derived from its flag (`umd` from line 49) | not executed; relies on inquirer omitting answers to skipped questions | CreateProject.UmdFlagLostAsWritten | CreateProject.PrefsHonourFlags |
| src/createProject.js:57-82 | Likewise, `--es-modules` alone skips the ES modules question, and the missing answer turns the ES modules build off | `nwb new web-module my-lib --es-modules` (without `-f` and without `--umd`) | `esModules` is the value derived at line 46 whenever the flag is given | not executed; relies on inquirer omitting answers to skipped questions | CreateProject.EsModulesFlagLostAsWritten | CreateProject.PrefsHonourFlags |
