/**
 * Project creation (`src/createProject.js`): the version stamped into new
 * projects, project-type validation, npm module preferences read from the
 * command line, the config object written for module projects, dependency
 * pinning, and the ordered task lists of app and module projects.
 *
 * Prompts, template copying, `npm install` and Git are effects; a project's
 * creation is modelled as the list of tasks it runs, in order, with the data
 * each task receives.
 */
module CreateProject {
  import opened Wrappers
  import opened Text
  import opened CliArgs

  const REACT_COMPONENT := "react-component"
  const WEB_MODULE := "web-module"

  // ---------------------------------------------------------------- version

  /** `NWB_VERSION`: the package version's first two dot-separated pieces, then `x`. */
  function NwbVersion(version: string): (r: string)
    ensures EndsWith(r, ".x")
  {
    var pieces := Split(version, '.');
    var kept := pieces[..if |pieces| < 2 then |pieces| else 2];
    JoinEndsWithLast(kept, "x", ".");
    Join(kept + ["x"], ".")
  }

  /** The version is the text before the first dot, the piece after it if any, then `.x`. */
  lemma NwbVersionPieces(version: string)
    ensures var pieces := Split(version, '.');
      NwbVersion(version) == pieces[0] + (if |pieces| > 1 then "." + pieces[1] else "") + ".x"
  {
    var pieces := Split(version, '.');
    if |pieces| > 1 {
      assert pieces[..2] + ["x"] == [pieces[0], pieces[1], "x"];
      var three := [pieces[0], pieces[1], "x"];
      assert three[1..] == [pieces[1], "x"] && three[1..][1..] == ["x"];
      assert Join(["x"], ".") == "x";
      assert Join([pieces[1], "x"], ".") == pieces[1] + "." + "x";
      assert Join(three, ".") == pieces[0] + "." + (pieces[1] + "." + "x");
      assert pieces[0] + "." + (pieces[1] + "." + "x") == pieces[0] + ("." + pieces[1]) + ".x";
    } else {
      assert pieces[..1] + ["x"] == [pieces[0], "x"];
      assert Join([pieces[0], "x"], ".") == pieces[0] + "." + "x";
      assert pieces[0] + "" + ".x" == pieces[0] + "." + "x";
    }
  }

  /** For a `major.minor.patch` version the result is `major.minor.x`. */
  lemma NwbVersionOfSemver(major: string, minor: string, patch: string)
    requires '.' !in major && '.' !in minor && '.' !in patch
    ensures NwbVersion(major + "." + minor + "." + patch) == major + "." + minor + ".x"
  {
    var version := major + "." + minor + "." + patch;
    SplitWithoutSeparator(patch, '.');
    SplitAfterHead(minor, '.', patch);
    assert version == major + ['.'] + (minor + ['.'] + patch);
    SplitAfterHead(major, '.', minor + ['.'] + patch);
    assert Split(version, '.') == [major, minor, patch];
    NwbVersionPieces(version);
  }

  // ------------------------------------------------------------ validation

  function ProvideTypeMessage(projectTypes: seq<string>): string
  {
    "A project type must be provided, one of: " + Join(projectTypes, ", ")
  }

  function TypeOneOfMessage(projectTypes: seq<string>): string
  {
    "Project type must be one of: " + Join(projectTypes, ", ")
  }

  /** `validateProjectType`: the message of the error it throws, or `None` when it returns normally. */
  function ValidateProjectType(projectType: Arg, projectTypes: seq<string>): (r: Option<string>)
    ensures r.None? <==> projectType.Str? && projectType.s != "" && projectType.s in projectTypes
    ensures !Truthy(projectType) ==> r == Some(ProvideTypeMessage(projectTypes))
    ensures Truthy(projectType) && r.Some? ==> r == Some(TypeOneOfMessage(projectTypes))
  {
    if !Truthy(projectType) then Some(ProvideTypeMessage(projectTypes))
    else if !(projectType.Str? && projectType.s in projectTypes) then Some(TypeOneOfMessage(projectTypes))
    else None
  }

  // --------------------------------------------------------- npm preferences

  /** The strings for which `/^(0|false|no|nope|off)$/` matches. */
  const DISABLING_WORDS: set<string> := {"0", "false", "no", "nope", "off"}

  /** `esModules`: on unless the flag is `false` or its string form is one of the disabling words. */
  function EsModulesFlag(args: Args): (r: bool)
    ensures !r <==> Flag(args, "es-modules") == Bool(false) || ToJsString(Flag(args, "es-modules")) in DISABLING_WORDS
    ensures !HasFlag(args, "es-modules") ==> r
  {
    Flag(args, "es-modules") != Bool(false) && ToJsString(Flag(args, "es-modules")) !in DISABLING_WORDS
  }

  /** `umd`: the flag's value when it is a string, `false` otherwise. */
  function UmdFlag(args: Args): (r: Arg)
    ensures r.Str? <==> Flag(args, "umd").Str?
    ensures r.Str? ==> r == Flag(args, "umd")
    ensures !r.Str? ==> r == Bool(false)
  {
    if Flag(args, "umd").Str? then Flag(args, "umd") else Bool(false)
  }

  /** No questions are asked when forced or when both `umd` and `es-modules` were given. */
  predicate SkipPrompt(args: Args): (r: bool)
    ensures Truthy(Flag(args, "f")) || Truthy(Flag(args, "force")) ==> r
    ensures !r ==> !HasFlag(args, "umd") || !HasFlag(args, "es-modules")
  {
    Truthy(Flag(args, "f")) || Truthy(Flag(args, "force")) || (HasFlag(args, "umd") && HasFlag(args, "es-modules"))
  }

  /** The npm preferences object a project receives; a key missing from it is `Absent`. */
  datatype Prefs = Prefs(esModules: Arg, umd: Arg)

  /** What the user answers to the three questions, when they are asked. */
  datatype Replies = Replies(esModules: bool, createUmd: bool, umd: string)

  /**
   * `getNpmModulePrefs` as written: when questions are asked, the preferences
   * are the answers alone, and a question skipped because its flag was given
   * leaves no answer behind.
   */
  function NpmModulePrefsAsWritten(args: Args, replies: Replies): (r: Prefs)
    ensures SkipPrompt(args) ==> r == Prefs(Bool(EsModulesFlag(args)), UmdFlag(args))
    ensures !SkipPrompt(args) && HasFlag(args, "umd") ==> r.umd == Absent
    ensures !SkipPrompt(args) && HasFlag(args, "es-modules") ==> r.esModules == Absent
  {
    if SkipPrompt(args) then Prefs(Bool(EsModulesFlag(args)), UmdFlag(args))
    else
      Prefs(if HasFlag(args, "es-modules") then Absent else Bool(replies.esModules),
            if HasFlag(args, "umd") || !replies.createUmd then Absent else Str(replies.umd))
  }

  /** With `--umd=MyLib` alone the global name given on the command line is lost. */
  lemma UmdFlagLostAsWritten(replies: Replies)
    ensures var args := Args([], map["umd" := Str("MyLib")]);
      UmdFlag(args) == Str("MyLib") && NpmModulePrefsAsWritten(args, replies).umd == Absent
  {
    var args := Args([], map["umd" := Str("MyLib")]);
    assert !Truthy(Flag(args, "f")) && !Truthy(Flag(args, "force")) && !HasFlag(args, "es-modules");
  }

  /** With `--es-modules` alone the ES modules build that was asked for is not enabled. */
  lemma EsModulesFlagLostAsWritten(replies: Replies)
    ensures var args := Args([], map["es-modules" := Bool(true)]);
      EsModulesFlag(args) && !Truthy(NpmModulePrefsAsWritten(args, replies).esModules)
  {
    var args := Args([], map["es-modules" := Bool(true)]);
    assert !Truthy(Flag(args, "f")) && !Truthy(Flag(args, "force")) && !HasFlag(args, "umd");
  }

  /** `getNpmModulePrefs` with the values of skipped questions taken from their flags. */
  function NpmModulePrefs(args: Args, replies: Replies): (r: Prefs)
    ensures r.esModules.Bool?
    ensures r.umd.Str? || r.umd == Bool(false)
  {
    if SkipPrompt(args) then Prefs(Bool(EsModulesFlag(args)), UmdFlag(args))
    else
      Prefs(Bool(if HasFlag(args, "es-modules") then EsModulesFlag(args) else replies.esModules),
            if HasFlag(args, "umd") then UmdFlag(args)
            else if replies.createUmd then Str(replies.umd) else Bool(false))
  }

  /**
   * A flag that was given always decides its preference, whether or not
   * questions are asked; with `-f` and no other flag the preferences are an ES
   * modules build and no UMD build.
   */
  lemma PrefsHonourFlags(args: Args, replies: Replies)
    ensures var prefs := NpmModulePrefs(args, replies);
      (HasFlag(args, "es-modules") || SkipPrompt(args) ==> prefs.esModules == Bool(EsModulesFlag(args)))
      && (HasFlag(args, "umd") || SkipPrompt(args) ==> prefs.umd == UmdFlag(args))
      && (!SkipPrompt(args) && !HasFlag(args, "es-modules") ==> prefs.esModules == Bool(replies.esModules))
      && (!SkipPrompt(args) && !HasFlag(args, "umd") ==>
            prefs.umd == (if replies.createUmd then Str(replies.umd) else Bool(false)))
  {
  }

  /** The preferences `-f` alone gives: an ES modules build and no UMD build. */
  lemma ForcedDefaultPrefs(replies: Replies)
    ensures NpmModulePrefs(Args([], map["f" := Bool(true)]), replies) == Prefs(Bool(true), Bool(false))
  {
    var args := Args([], map["f" := Bool(true)]);
    assert SkipPrompt(args);
    assert !HasFlag(args, "es-modules") && !HasFlag(args, "umd");
  }

  /**
   * When no question is skipped for a flag, the corrected preferences agree
   * with the code as written: exactly when questions are skipped altogether or
   * a UMD global is chosen, and otherwise up to the declined UMD build, which
   * the corrected version records as `false` and the code as written leaves out.
   */
  lemma PrefsAgreeWhenNothingSkipped(args: Args, replies: Replies)
    requires SkipPrompt(args) || (!HasFlag(args, "umd") && !HasFlag(args, "es-modules"))
    ensures var fixed, written := NpmModulePrefs(args, replies), NpmModulePrefsAsWritten(args, replies);
      fixed.esModules == written.esModules
      && Truthy(fixed.umd) == Truthy(written.umd)
      && (SkipPrompt(args) || replies.createUmd ==> fixed == written)
      && (!SkipPrompt(args) && !replies.createUmd ==> fixed.umd == Bool(false) && written.umd == Absent)
  {
  }

  // ------------------------------------------------------- module projects

  /** An entry of `MODULE_PROJECT_CONFIG`, with the destructuring defaults filled in. */
  datatype ModuleProjectConfig = ModuleProjectConfig(devDependencies: seq<string>, externals: map<string, string>)

  /** `MODULE_PROJECT_CONFIG[projectType]`; destructuring a missing entry throws a `TypeError`. */
  function ModuleProjectConfigFor(projectType: string): (r: Result<ModuleProjectConfig>)
    ensures r.Ok? <==> projectType == REACT_COMPONENT || projectType == WEB_MODULE
  {
    if projectType == REACT_COMPONENT then Ok(ModuleProjectConfig(["react", "react-dom"], map["react" := "React"]))
    else if projectType == WEB_MODULE then Ok(ModuleProjectConfig([], map[]))
    else Err("TypeError: Cannot destructure an undefined module project config")
  }

  datatype UmdConfig = UmdConfig(global: Arg, externals: map<string, string>)

  /** `npm.umd` of the written config: `None` stands for `false`. */
  datatype NpmConfig = NpmConfig(esModules: Arg, umd: Option<UmdConfig>)

  /** The `nwb.config.js` object written for a module project. */
  datatype NwbConfig = NwbConfig(projectType: string, npm: NpmConfig)

  function ModuleNwbConfig(projectType: string, prefs: Prefs, externals: map<string, string>): (c: NwbConfig)
    ensures c.projectType == projectType && c.npm.esModules == prefs.esModules
    ensures c.npm.umd.Some? <==> Truthy(prefs.umd)
    ensures c.npm.umd.Some? ==> c.npm.umd.value == UmdConfig(prefs.umd, externals)
  {
    NwbConfig(projectType, NpmConfig(prefs.esModules, if Truthy(prefs.umd) then Some(UmdConfig(prefs.umd, externals)) else None))
  }

  /** Each package pinned to a version, as `pkg => \`${pkg}@${version}\`` maps it. */
  function Pin(packages: seq<string>, version: string): (r: seq<string>)
    decreases |packages|
    ensures |r| == |packages|
  {
    if packages == [] then [] else Pin(packages[..|packages| - 1], version) + [packages[|packages| - 1] + "@" + version]
  }

  /** Pinning keeps the order and suffixes each package with `@version`. */
  lemma {:induction false} PinAt(packages: seq<string>, version: string)
    ensures forall k :: 0 <= k < |packages| ==> Pin(packages, version)[k] == packages[k] + "@" + version
    decreases |packages|
  {
    if packages != [] {
      PinAt(packages[..|packages| - 1], version);
    }
  }

  /** For a package name without `@`, the text before the first `@` of its pinned form is the name. */
  lemma PinRoundTrip(packages: seq<string>, version: string, k: nat)
    requires k < |packages| && '@' !in packages[k]
    ensures Split(Pin(packages, version)[k], '@')[0] == packages[k]
  {
    PinAt(packages, version);
    assert Pin(packages, version)[k] == packages[k] + ['@'] + version;
    SplitAfterHead(packages[k], '@', version);
  }

  /** The `"module"` line added to `package.json` when an ES modules build is wanted. */
  const ES_MODULES_PACKAGE_CONFIG := "\n  \"module\": \"es/index.js\","

  /** The variables a project template is rendered with. */
  datatype TemplateVars =
    | AppVars(name: string, nwbVersion: string)
    | ModuleVars(name: string, esModules: Arg, esModulesPackageConfig: string, nwbVersion: string,
                 reactPeerVersion: Option<string>)

  /** One step of project creation, in the order `runSeries` runs them. */
  datatype Task =
    | AskQuestions
    | CopyTemplate(templateDir: string, targetDir: string, vars: TemplateVars)
    | WriteConfigFile(targetDir: string, config: NwbConfig)
    | Install(packages: seq<string>, cwd: string, dev: bool)
    | InitGit(cwd: string)

  function TemplateDir(projectType: string): string
  {
    "templates/" + projectType
  }

  /** React is pinned to `--react`'s version when it is given; the peer range follows it. */
  function ReactPinning(args: Args, devDependencies: seq<string>): (seq<string>, string)
  {
    if Truthy(Flag(args, "react")) then (Pin(devDependencies, ToJsString(Flag(args, "react"))), "^" + ToJsString(Flag(args, "react")))
    else (devDependencies, "16.x")
  }

  /**
   * The tasks of `createModuleProject`, given the preferences its
   * `getNpmModulePrefs` callback receives.
   */
  function ModuleProjectPlan(args: Args, projectType: string, name: string, targetDir: string, version: string,
                             prefs: Prefs): (r: Result<seq<Task>>)
    ensures r.Ok? <==> projectType == REACT_COMPONENT || projectType == WEB_MODULE
    ensures r.Ok? ==> |r.value| == 4 && r.value[|r.value| - 1] == InitGit(targetDir)
  {
    match ModuleProjectConfigFor(projectType)
    case Err(e) => Err(e)
    case Ok(moduleConfig) =>
      var pinning := ReactPinning(args, moduleConfig.devDependencies);
      var isReact := projectType == REACT_COMPONENT;
      var vars := ModuleVars(name, prefs.esModules,
        if Truthy(prefs.esModules) then ES_MODULES_PACKAGE_CONFIG else "", NwbVersion(version),
        if isReact then Some(pinning.1) else None);
      Ok([CopyTemplate(TemplateDir(projectType), targetDir, vars),
          WriteConfigFile(targetDir, ModuleNwbConfig(projectType, prefs, moduleConfig.externals)),
          Install(if isReact then pinning.0 else moduleConfig.devDependencies, targetDir, true),
          InitGit(targetDir)])
  }

  /**
   * `createModuleProject` from the point its preferences arrive: React's
   * development dependencies are repinned and the peer range filled in for a
   * React component, then the four tasks are listed.
   */
  method CreateModuleProject(args: Args, projectType: string, name: string, targetDir: string, version: string,
                             prefs: Prefs) returns (r: Result<seq<Task>>)
    ensures r == ModuleProjectPlan(args, projectType, name, targetDir, version, prefs)
  {
    var moduleConfig := ModuleProjectConfigFor(projectType);
    if moduleConfig.Err? {
      return Err(moduleConfig.error);
    }
    var devDependencies := moduleConfig.value.devDependencies;
    var externals := moduleConfig.value.externals;
    var templateDir := TemplateDir(projectType);
    var esModulesPackageConfig := if Truthy(prefs.esModules) then ES_MODULES_PACKAGE_CONFIG else "";
    var reactPeerVersion: Option<string> := None;
    var nwbConfig := ModuleNwbConfig(projectType, prefs, externals);
    if projectType == REACT_COMPONENT {
      if Truthy(Flag(args, "react")) {
        devDependencies := Pin(devDependencies, ToJsString(Flag(args, "react")));
        reactPeerVersion := Some("^" + ToJsString(Flag(args, "react")));
      } else {
        reactPeerVersion := Some("16.x");
      }
    }
    var templateVars := ModuleVars(name, prefs.esModules, esModulesPackageConfig, NwbVersion(version), reactPeerVersion);
    r := Ok([CopyTemplate(templateDir, targetDir, templateVars),
             WriteConfigFile(targetDir, nwbConfig),
             Install(devDependencies, targetDir, true),
             InitGit(targetDir)]);
  }

  /**
   * A module project copies its template, writes its config, installs its
   * development dependencies and inits Git, in that order. The config's UMD
   * entry is present iff a UMD global was chosen, with `{react: 'React'}` as
   * externals for a React component and none for a web module; React is
   * pinned iff `--react` is given.
   */
  lemma ModuleProjectShape(args: Args, projectType: string, name: string, targetDir: string, version: string,
                           prefs: Prefs)
    ensures var r := ModuleProjectPlan(args, projectType, name, targetDir, version, prefs);
      (r.Ok? <==> projectType == REACT_COMPONENT || projectType == WEB_MODULE)
      && (r.Ok? ==>
        |r.value| == 4 && r.value[0].CopyTemplate? && r.value[3] == InitGit(targetDir)
        && r.value[0].vars.nwbVersion == NwbVersion(version)
        && r.value[1].WriteConfigFile? && r.value[1].config.projectType == projectType
        && r.value[1].config.npm.esModules == prefs.esModules
        && (r.value[1].config.npm.umd.Some? <==> Truthy(prefs.umd))
        && (r.value[1].config.npm.umd.Some? ==>
              r.value[1].config.npm.umd.value.global == prefs.umd
              && r.value[1].config.npm.umd.value.externals
                 == (if projectType == REACT_COMPONENT then map["react" := "React"] else map[]))
        && r.value[2].Install? && r.value[2].dev
        && (projectType == WEB_MODULE ==> r.value[2].packages == [])
        && (projectType == REACT_COMPONENT && !Truthy(Flag(args, "react")) ==> r.value[2].packages == ["react", "react-dom"])
        && (projectType == REACT_COMPONENT && Truthy(Flag(args, "react")) ==>
              r.value[2].packages == ["react@" + ToJsString(Flag(args, "react")), "react-dom@" + ToJsString(Flag(args, "react"))]))
  {
    var r := ModuleProjectPlan(args, projectType, name, targetDir, version, prefs);
    if projectType == REACT_COMPONENT && Truthy(Flag(args, "react")) {
      var v := ToJsString(Flag(args, "react"));
      var pinned := Pin(["react", "react-dom"], v);
      PinAt(["react", "react-dom"], v);
      assert pinned == [pinned[0], pinned[1]];
      assert "react" + "@" + v == "react@" + v;
      assert "react-dom" + "@" + v == "react-dom@" + v;
    }
  }

  /**
   * For `nwb new react-component <name> --umd=MyLib`, the config written from
   * the preferences as the code computes them has no UMD build, while the
   * corrected preferences write the UMD global with React as an external.
   */
  lemma ModuleUmdLostAsWritten(name: string, targetDir: string, version: string, replies: Replies)
    ensures var args := Args(["new", REACT_COMPONENT, name], map["umd" := Str("MyLib")]);
      var written := ModuleProjectPlan(args, REACT_COMPONENT, name, targetDir, version, NpmModulePrefsAsWritten(args, replies));
      var fixed := ModuleProjectPlan(args, REACT_COMPONENT, name, targetDir, version, NpmModulePrefs(args, replies));
      written.Ok? && fixed.Ok? && written.value[1].WriteConfigFile? && fixed.value[1].WriteConfigFile?
      && written.value[1].config.npm.umd == None
      && fixed.value[1].config.npm.umd == Some(UmdConfig(Str("MyLib"), map["react" := "React"]))
  {
    var args := Args(["new", REACT_COMPONENT, name], map["umd" := Str("MyLib")]);
    UmdFlagLostAsWritten(replies);
    assert args.flags == map["umd" := Str("MyLib")];
    assert !SkipPrompt(args) && HasFlag(args, "umd");
  }

  // ---------------------------------------------------------- app projects

  /**
   * What the app type's config module provides here: whether it has project
   * questions, and the dependencies `getProjectDependencies` gives without
   * answers (or with the defaults, when forced).
   */
  datatype AppProjectConfig = AppProjectConfig(hasQuestions: bool, dependencies: seq<string>)

  /** `projectType.split('-')[0]`. */
  function AppType(projectType: string): string
  {
    Split(projectType, '-')[0]
  }

  /** The app type is the text before the first `-`. */
  lemma AppTypeIsPrefix(projectType: string)
    ensures StartsWith(projectType, AppType(projectType)) && '-' !in AppType(projectType)
    ensures |AppType(projectType)| < |projectType| ==> projectType[|AppType(projectType)|] == '-'
  {
    SplitHead(projectType, '-');
  }

  /** The dependencies installed, pinned to `args[appType]` when it is given and the list is not empty. */
  function PinnedAppDependencies(args: Args, appType: string, dependencies: seq<string>): seq<string>
  {
    if |dependencies| != 0 && Truthy(Flag(args, appType)) then Pin(dependencies, ToJsString(Flag(args, appType)))
    else dependencies
  }

  /**
   * The tasks of `createAppProject`. `appConfigs` stands for the config modules
   * `require('./' + appType)` can load; `answered` is what
   * `getProjectDependencies(answers)` gives after the questions.
   */
  function AppProjectPlan(args: Args, projectType: string, name: string, targetDir: string, version: string,
                          appConfigs: map<string, AppProjectConfig>, answered: seq<string>): (r: Result<seq<Task>>)
    ensures r.Ok? <==> AppType(projectType) in appConfigs
    ensures r.Ok? ==> 3 <= |r.value| <= 4 && r.value[|r.value| - 1] == InitGit(targetDir)
  {
    var appType := AppType(projectType);
    if appType !in appConfigs then Err("Cannot find module './" + appType + "'")
    else
      var projectConfig := appConfigs[appType];
      var asks := projectConfig.hasQuestions && !(Truthy(Flag(args, "f")) || Truthy(Flag(args, "force")));
      var dependencies := if asks then answered else projectConfig.dependencies;
      var tasks := [CopyTemplate(TemplateDir(projectType), targetDir, AppVars(name, NwbVersion(version))),
                    Install(PinnedAppDependencies(args, appType, dependencies), targetDir, false),
                    InitGit(targetDir)];
      Ok(if asks then [AskQuestions] + tasks else tasks)
  }

  /** `createAppProject`: the task list is built, then the questions are put in front when they will be asked. */
  method CreateAppProject(args: Args, projectType: string, name: string, targetDir: string, version: string,
                          appConfigs: map<string, AppProjectConfig>, answered: seq<string>)
    returns (r: Result<seq<Task>>)
    ensures r == AppProjectPlan(args, projectType, name, targetDir, version, appConfigs, answered)
  {
    var appType := AppType(projectType);
    if appType !in appConfigs {
      return Err("Cannot find module './" + appType + "'");
    }
    var projectConfig := appConfigs[appType];
    var dependencies: seq<string>;
    var asks := false;
    if projectConfig.hasQuestions {
      if Truthy(Flag(args, "f")) || Truthy(Flag(args, "force")) {
        dependencies := projectConfig.dependencies;
      } else {
        asks := true;
        dependencies := answered;
      }
    } else {
      dependencies := projectConfig.dependencies;
    }
    if |dependencies| != 0 && Truthy(Flag(args, appType)) {
      dependencies := Pin(dependencies, ToJsString(Flag(args, appType)));
    }
    var tasks := [CopyTemplate(TemplateDir(projectType), targetDir, AppVars(name, NwbVersion(version))),
                  Install(dependencies, targetDir, false),
                  InitGit(targetDir)];
    if asks {
      tasks := [AskQuestions] + tasks;
    }
    r := Ok(tasks);
  }

  /**
   * An app project asks its questions first iff its config has questions and
   * creation is not forced, then copies its template, installs its
   * dependencies (pinned to the app type's flag iff it is given and there are
   * dependencies) and inits Git.
   */
  lemma AppProjectShape(args: Args, projectType: string, name: string, targetDir: string, version: string,
                        appConfigs: map<string, AppProjectConfig>, answered: seq<string>)
    ensures var r := AppProjectPlan(args, projectType, name, targetDir, version, appConfigs, answered);
      var appType := AppType(projectType);
      (r.Ok? <==> appType in appConfigs)
      && (r.Ok? ==>
        var asks := appConfigs[appType].hasQuestions && !Truthy(Flag(args, "f")) && !Truthy(Flag(args, "force"));
        var dependencies := if asks then answered else appConfigs[appType].dependencies;
        var install := r.value[|r.value| - 2];
        (r.value[0] == AskQuestions <==> asks)
        && |r.value| == (if asks then 4 else 3)
        && r.value[|r.value| - 1] == InitGit(targetDir)
        && r.value[|r.value| - 3] == CopyTemplate(TemplateDir(projectType), targetDir, AppVars(name, NwbVersion(version)))
        && install.Install? && !install.dev && |install.packages| == |dependencies|
        && forall k :: 0 <= k < |dependencies| ==>
             install.packages[k] == if Truthy(Flag(args, appType)) then dependencies[k] + "@" + ToJsString(Flag(args, appType))
                                    else dependencies[k])
  {
    var appType := AppType(projectType);
    if appType in appConfigs {
      var asks := appConfigs[appType].hasQuestions && !Truthy(Flag(args, "f")) && !Truthy(Flag(args, "force"));
      var dependencies := if asks then answered else appConfigs[appType].dependencies;
      PinAt(dependencies, ToJsString(Flag(args, appType)));
    }
  }

  // ---------------------------------------------------------------- dispatch

  /** `createProject`: a type ending in `-app` is an app project, anything else a module project. */
  method CreateProject(args: Args, projectType: string, name: string, dir: string, version: string,
                       appConfigs: map<string, AppProjectConfig>, answered: seq<string>, prefs: Prefs)
    returns (r: Result<seq<Task>>)
    ensures EndsWith(projectType, "-app") ==> r == AppProjectPlan(args, projectType, name, dir, version, appConfigs, answered)
    ensures !EndsWith(projectType, "-app") ==> r == ModuleProjectPlan(args, projectType, name, dir, version, prefs)
  {
    if EndsWith(projectType, "-app") {
      r := CreateAppProject(args, projectType, name, dir, version, appConfigs, answered);
      return;
    }
    r := CreateModuleProject(args, projectType, name, dir, version, prefs);
  }

  // -------------------------------------------------------------------- git

  /** The Git commands `initGit` runs: none with `--no-git`, in an existing repository, or without Git. */
  function GitCommands(args: Args, gitDirExists: bool, gitAvailable: bool, version: string): (r: seq<string>)
    ensures r == [] <==> Flag(args, "git") == Bool(false) || gitDirExists || !gitAvailable
    ensures r != [] ==> |r| == 3 && r[..2] == ["git init", "git add ."] && EndsWith(r[2], "v" + version + "\"")
  {
    if Flag(args, "git") == Bool(false) then []
    else if gitDirExists then []
    else if !gitAvailable then []
    else
      var commit := "git commit -m \"Initial commit from nwb v" + version + "\"";
      assert commit == "git commit -m \"Initial commit from nwb " + ("v" + version + "\"");
      ["git init", "git add .", commit]
  }
}
