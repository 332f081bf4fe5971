/**
 * The React project config (`src/react/index.js`): which compatibility
 * library a command uses (Inferno over Preact over plain React), the packages
 * and display name that follow from it, and the Babel presets and module
 * aliases of the build and serve configs.
 *
 * `NODE_ENV === 'production'` is the parameter `production`; the results of
 * `require.resolve` are the constant strings below, and `modulePath` is a
 * function parameter.
 */
module React {
  import opened Wrappers
  import opened Text
  import opened CliArgs
  import CreateProject

  const BABEL_PRESET_REACT := "babel-preset-react"
  const REACT_DEV_PRESET := "./react-dev-preset"
  const REACT_HMRE_PRESET := "./react-hmre-preset"

  const BASE_DEPENDENCIES := ["react", "react-dom"]
  const INFERNO_DEPENDENCIES :=
    ["inferno", "inferno-compat", "inferno-clone-vnode", "inferno-create-class", "inferno-create-element"]
  const PREACT_DEPENDENCIES := ["preact", "preact-compat"]

  predicate UsesInferno(args: Args)
  {
    Truthy(Flag(args, "inferno")) || Truthy(Flag(args, "inferno-compat"))
  }

  predicate UsesPreact(args: Args)
  {
    Truthy(Flag(args, "preact")) || Truthy(Flag(args, "preact-compat"))
  }

  /** `getCompatDependencies`. */
  function CompatDependencies(args: Args): (r: seq<string>)
    ensures UsesInferno(args) ==> r == INFERNO_DEPENDENCIES
    ensures !UsesInferno(args) && UsesPreact(args) ==> r == PREACT_DEPENDENCIES
    ensures r == [] <==> !UsesInferno(args) && !UsesPreact(args)
  {
    if UsesInferno(args) then INFERNO_DEPENDENCIES
    else if UsesPreact(args) then PREACT_DEPENDENCIES
    else []
  }

  /** `getCompatName`. */
  function CompatName(args: Args): (r: string)
    ensures UsesInferno(args) ==> r == "Inferno (React compat)"
    ensures !UsesInferno(args) && UsesPreact(args) ==> r == "Preact (React compat)"
    ensures r == "React" <==> !UsesInferno(args) && !UsesPreact(args)
  {
    if UsesInferno(args) then "Inferno (React compat)"
    else if UsesPreact(args) then "Preact (React compat)"
    else "React"
  }

  /** `/^build/.test(args._[0])`; a missing command tests its string form, `undefined`. */
  predicate IsBuildCommand(args: Args)
  {
    StartsWith(ToJsString(Positional(args, 0)), "build")
  }

  /** `getName`: the compat library's name for build commands, React otherwise. */
  function Name(args: Args): (r: string)
    ensures IsBuildCommand(args) ==> r == CompatName(args)
    ensures !IsBuildCommand(args) ==> r == "React"
  {
    if IsBuildCommand(args) then CompatName(args) else "React"
  }

  /** The `defaultTitle` of the quick-command config. */
  function DefaultTitle(args: Args): string
  {
    Name(args) + " App"
  }

  /** `getQuickDependencies`: React and React DOM, then the compat packages for build commands. */
  method QuickDependencies(args: Args) returns (deps: seq<string>)
    ensures |deps| >= 2 && deps[..2] == BASE_DEPENDENCIES
    ensures deps[2..] == if IsBuildCommand(args) then CompatDependencies(args) else []
  {
    deps := BASE_DEPENDENCIES;
    if IsBuildCommand(args) {
      deps := deps + CompatDependencies(args);
    }
  }

  /** The compat library decides packages, name and aliases alike, and a build command names what it installs. */
  lemma CompatChoiceAgrees(args: Args, aliasPath: string -> string)
    ensures CompatDependencies(args) == [] <==> CompatName(args) == "React"
    ensures CompatDependencies(args) == [] <==> BuildResolve(args, aliasPath).None?
    ensures CompatDependencies(args) != [] ==>
      CompatDependencies(args)[0] == if UsesInferno(args) then "inferno" else "preact"
    ensures !IsBuildCommand(args) ==> DefaultTitle(args) == "React App"
  {
  }

  // ------------------------------------------------------------ build configs

  datatype Resolve = Resolve(alias: map<string, string>)

  /** `path.join(dir, rest)` for a directory that does not end in a separator. */
  function PathJoin(dir: string, rest: string): (r: string)
    ensures dir == "" ==> r == rest
    ensures dir != "" ==> |r| == |dir| + 1 + |rest| && StartsWith(r, dir + "/") && EndsWith(r, rest)
  {
    if dir == "" then rest else dir + "/" + rest
  }

  /** The `resolve` entry of `getBuildConfig`: Inferno, then Preact, take over React's module names. */
  function BuildResolve(args: Args, aliasPath: string -> string): (r: Option<Resolve>)
    ensures r.None? <==> !UsesInferno(args) && !UsesPreact(args)
  {
    if UsesInferno(args) then
      Some(Resolve(map["react" := aliasPath("inferno-compat"), "react-dom" := aliasPath("inferno-compat")]))
    else if UsesPreact(args) then
      var preactCompatPath := PathJoin(aliasPath("preact-compat"), "dist/preact-compat");
      Some(Resolve(map["react" := preactCompatPath, "react-dom" := preactCompatPath,
                       "create-react-class" := "preact-compat/lib/create-react-class"]))
    else None
  }

  /**
   * Whichever library is used, `react` and `react-dom` resolve to the same
   * place; only Preact adds the `create-react-class` alias.
   */
  lemma BuildResolveAliases(args: Args, aliasPath: string -> string)
    ensures var r := BuildResolve(args, aliasPath);
      r.Some? ==> (
        "react" in r.value.alias && "react-dom" in r.value.alias
        && r.value.alias["react"] == r.value.alias["react-dom"]
        && ("create-react-class" in r.value.alias <==> !UsesInferno(args))
        && r.value.alias.Keys == if UsesInferno(args) then {"react", "react-dom"}
                                 else {"react", "react-dom", "create-react-class"})
    ensures UsesInferno(args) ==> BuildResolve(args, aliasPath).value.alias["react"] == aliasPath("inferno-compat")
    ensures !UsesInferno(args) && UsesPreact(args) ==>
      BuildResolve(args, aliasPath).value.alias["react"] == PathJoin(aliasPath("preact-compat"), "dist/preact-compat")
  {
  }

  /** The build presets: production builds add `react-prod`, and nothing else changes them. */
  function BuildPresets(production: bool): (r: seq<string>)
    ensures |r| >= 1 && r[0] == BABEL_PRESET_REACT
    ensures "react-prod" in r <==> production
    ensures |r| == if production then 2 else 1
  {
    [BABEL_PRESET_REACT] + if production then ["react-prod"] else []
  }

  /** The serve presets: hot reloading is on unless either flag is exactly `false`; a string or missing flag leaves it on. */
  function ServePresets(args: Args): (r: seq<string>)
    ensures |r| >= 2 && r[..2] == [BABEL_PRESET_REACT, REACT_DEV_PRESET]
    ensures REACT_HMRE_PRESET in r <==> Flag(args, "hmr") != Bool(false) && Flag(args, "hmre") != Bool(false)
    ensures !HasFlag(args, "hmr") && !HasFlag(args, "hmre") ==> |r| == 3
  {
    [BABEL_PRESET_REACT, REACT_DEV_PRESET]
      + if Flag(args, "hmr") != Bool(false) && Flag(args, "hmre") != Bool(false) then [REACT_HMRE_PRESET] else []
  }

  /** The command config object the build and serve configs return. */
  class CommandConfig {
    var presets: seq<string>
    var resolve: Option<Resolve>

    constructor(presets: seq<string>)
      ensures this.presets == presets && resolve.None?
    {
      this.presets := presets;
      resolve := None;
    }

    method PushPreset(preset: string)
      modifies this
      ensures presets == old(presets) + [preset] && resolve == old(resolve)
    {
      presets := presets + [preset];
    }
  }

  /** `getBaseConfig`: a new object every call. */
  method GetBaseConfig() returns (config: CommandConfig)
    ensures fresh(config)
    ensures config.presets == [BABEL_PRESET_REACT] && config.resolve.None?
  {
    config := new CommandConfig([BABEL_PRESET_REACT]);
  }

  /** `aliasPath`: `modulePath` with `useModulePath`, otherwise the module name as it is. */
  function AliasPath(useModulePath: bool, modulePath: string -> string): (f: string -> string)
    ensures !useModulePath ==> forall alias :: f(alias) == alias
    ensures useModulePath ==> forall alias :: f(alias) == modulePath(alias)
  {
    if useModulePath then modulePath else (alias: string) => alias
  }

  /** `getBuildConfig(args, {useModulePath})`. */
  method GetBuildConfig(args: Args, production: bool, useModulePath: bool, modulePath: string -> string)
    returns (config: CommandConfig)
    ensures fresh(config)
    ensures config.presets == BuildPresets(production)
    ensures config.resolve == BuildResolve(args, AliasPath(useModulePath, modulePath))
  {
    config := GetBaseConfig();
    if production {
      config.PushPreset("react-prod");
    }
    var aliasPath := AliasPath(useModulePath, modulePath);
    if UsesInferno(args) {
      config.resolve := Some(Resolve(map["react" := aliasPath("inferno-compat"), "react-dom" := aliasPath("inferno-compat")]));
    } else if UsesPreact(args) {
      var preactCompatPath := PathJoin(aliasPath("preact-compat"), "dist/preact-compat");
      config.resolve := Some(Resolve(map["react" := preactCompatPath, "react-dom" := preactCompatPath,
                                         "create-react-class" := "preact-compat/lib/create-react-class"]));
    }
  }

  /** `getServeConfig`: the dev preset, then the hot reloading preset unless it is turned off. */
  method GetServeConfig(args: Args) returns (config: CommandConfig)
    ensures fresh(config)
    ensures config.presets == ServePresets(args) && config.resolve.None?
  {
    config := GetBaseConfig();
    config.PushPreset(REACT_DEV_PRESET);
    if Flag(args, "hmr") != Bool(false) && Flag(args, "hmre") != Bool(false) {
      config.PushPreset(REACT_HMRE_PRESET);
    }
  }

  /** Two configs from successive calls are distinct objects, so presets never accumulate across calls. */
  method RepeatedConfigs(args: Args, production: bool, modulePath: string -> string)
    returns (build: CommandConfig, serve: CommandConfig, again: CommandConfig)
    ensures build != again && build != serve && serve != again
    ensures build.presets == again.presets == BuildPresets(production)
    ensures serve.presets == ServePresets(args)
  {
    build := GetBuildConfig(args, production, false, modulePath);
    serve := GetServeConfig(args);
    again := GetBuildConfig(args, production, false, modulePath);
  }

  // ------------------------------------------------------------ project config

  /** What a React app project's config gives project creation: no questions, React and React DOM. */
  function ReactProjectConfig(): CreateProject.AppProjectConfig
  {
    CreateProject.AppProjectConfig(false, BASE_DEPENDENCIES)
  }

  /** The app type of `react-app` is `react`. */
  lemma ReactAppType()
    ensures CreateProject.AppType("react-app") == "react"
  {
    SplitWithoutSeparator("app", '-');
    SplitAfterHead("react", '-', "app");
    assert "react-app" == "react" + ['-'] + "app";
  }

  /** React and React DOM, pinned to `--react` when it is given. */
  lemma ReactDependenciesPinned(args: Args)
    ensures CreateProject.PinnedAppDependencies(args, "react", BASE_DEPENDENCIES)
      == if Truthy(Flag(args, "react")) then ["react@" + ToJsString(Flag(args, "react")), "react-dom@" + ToJsString(Flag(args, "react"))]
         else BASE_DEPENDENCIES
  {
    if Truthy(Flag(args, "react")) {
      var v := ToJsString(Flag(args, "react"));
      var pinned := CreateProject.Pin(BASE_DEPENDENCIES, v);
      CreateProject.PinAt(BASE_DEPENDENCIES, v);
      assert pinned == [pinned[0], pinned[1]];
      assert "react" + "@" + v == "react@" + v;
      assert "react-dom" + "@" + v == "react-dom@" + v;
    }
  }

  /**
   * A `react-app` project never asks questions: it copies its template,
   * installs React and React DOM (pinned to `--react` when it is given) and
   * inits Git.
   */
  lemma ReactAppPlan(args: Args, name: string, targetDir: string, version: string, answered: seq<string>)
    ensures CreateProject.AppProjectPlan(args, "react-app", name, targetDir, version, map["react" := ReactProjectConfig()], answered)
      == Ok([CreateProject.CopyTemplate(CreateProject.TemplateDir("react-app"), targetDir,
                                        CreateProject.AppVars(name, CreateProject.NwbVersion(version))),
             CreateProject.Install(CreateProject.PinnedAppDependencies(args, "react", BASE_DEPENDENCIES), targetDir, false),
             CreateProject.InitGit(targetDir)])
  {
    ReactAppType();
  }
}
