/**
 * `nwb build-react-component` (`src/commands/build-react-component.js`): the
 * build config it hands to the module build and the tasks it runs.
 *
 * `directoryExists('demo')` is the parameter `demoDirExists`.
 */
module BuildReactComponent {
  import opened Wrappers
  import opened CliArgs
  import React

  datatype Babel = Babel(presets: seq<string>, stage: nat)

  /** `removePropTypes` options: `{mode: 'wrap'}` in development, `{removeImport: true}` in production. */
  datatype RemovePropTypes = Wrap | RemoveImport

  datatype BuildConfig = BuildConfig(babel: Babel, babelDev: Option<RemovePropTypes>, babelProd: Option<RemovePropTypes>)

  datatype BuildTask = ModuleBuild | BuildDemo

  /** PropTypes are kept with `--proptypes` or `--keep-proptypes`, given exactly as `true`. */
  predicate KeepPropTypes(args: Args)
  {
    Flag(args, "proptypes") == Bool(true) || Flag(args, "keep-proptypes") == Bool(true)
  }

  /** The demo is built unless disabled with `--no-demo` or `--no-demo-build`, and only when it exists. */
  predicate BuildsDemo(args: Args, demoDirExists: bool)
  {
    Flag(args, "demo") != Bool(false) && Flag(args, "demo-build") != Bool(false) && demoDirExists
  }

  function ComponentBuildConfig(args: Args): (r: BuildConfig)
    ensures r.babel == Babel([React.BABEL_PRESET_REACT], 1)
    ensures r.babelDev.Some? <==> r.babelProd.Some?
  {
    var babel := Babel([React.BABEL_PRESET_REACT], 1);
    if KeepPropTypes(args) then BuildConfig(babel, None, None)
    else BuildConfig(babel, Some(Wrap), Some(RemoveImport))
  }

  function ComponentBuildTasks(args: Args, demoDirExists: bool): (r: seq<BuildTask>)
    ensures 1 <= |r| <= 2 && r[0] == ModuleBuild
  {
    [ModuleBuild] + if BuildsDemo(args, demoDirExists) then [BuildDemo] else []
  }

  /** `buildModule(args, cb)`: fills in the config, then lists the tasks. */
  method BuildModule(args: Args, demoDirExists: bool) returns (config: BuildConfig, tasks: seq<BuildTask>)
    ensures config == ComponentBuildConfig(args)
    ensures tasks == ComponentBuildTasks(args, demoDirExists)
  {
    config := BuildConfig(Babel([React.BABEL_PRESET_REACT], 1), None, None);
    if Flag(args, "proptypes") != Bool(true) && Flag(args, "keep-proptypes") != Bool(true) {
      config := config.(babelDev := Some(Wrap));
      config := config.(babelProd := Some(RemoveImport));
    }
    tasks := [ModuleBuild];
    if Flag(args, "demo") != Bool(false) && Flag(args, "demo-build") != Bool(false) && demoDirExists {
      tasks := tasks + [BuildDemo];
    }
  }

  /**
   * The Babel presets and stage never change; the development wrap and the
   * production strip of propTypes are present together, exactly when neither
   * keep flag is `true` (a string such as `--proptypes=true` does not keep them).
   */
  lemma PropTypesHandling(args: Args)
    ensures var config := ComponentBuildConfig(args);
      config.babel == Babel([React.BABEL_PRESET_REACT], 1)
      && (config.babelDev.Some? <==> config.babelProd.Some?)
      && (config.babelDev.Some? <==> Flag(args, "proptypes") != Bool(true) && Flag(args, "keep-proptypes") != Bool(true))
      && (config.babelDev.Some? ==> config.babelDev.value == Wrap && config.babelProd.value == RemoveImport)
    ensures !HasFlag(args, "proptypes") && !HasFlag(args, "keep-proptypes") ==> ComponentBuildConfig(args).babelDev.Some?
    ensures Flag(args, "proptypes") == Str("true") && !HasFlag(args, "keep-proptypes") ==> ComponentBuildConfig(args).babelDev.Some?
  {
  }

  /** The module build always runs first; the demo build, when it runs, is the only other task. */
  lemma TaskOrder(args: Args, demoDirExists: bool)
    ensures var tasks := ComponentBuildTasks(args, demoDirExists);
      1 <= |tasks| <= 2 && tasks[0] == ModuleBuild
      && (BuildDemo in tasks <==> Flag(args, "demo") != Bool(false) && Flag(args, "demo-build") != Bool(false) && demoDirExists)
      && (|tasks| == 2 ==> tasks[1] == BuildDemo)
  {
  }
}
