/**
 * Webpack helpers: the UMD banner, the externals config, the formatting and
 * selection of compiler messages, the gzipped file-size listing and the plan
 * of what is logged after a build.
 *
 * Console output is modelled as the sequence of logged lines (`console.log()`
 * logs an empty line); terminal styling is the identity; gzip sizes, their
 * labels and the dir/name split of each asset are inputs.
 */
module WebpackUtils {
  import opened Wrappers
  import opened Text
  import opened CliArgs
  import opened SeqFacts

  const FRIENDLY_SYNTAX_ERROR_LABEL := "Syntax error:"
  const BABEL_SYNTAX_ERROR := "Module build failed: SyntaxError:"
  const MODULE_NOT_FOUND_ERROR := "Module not found: Error: Cannot resolve 'file' or 'directory'"
  const MODULE_NOT_FOUND_LABEL := "Module not found:"
  const ERROR_TYPE := " ERROR "
  const WARNING_TYPE := " WARNING "
  /** `path.sep` on POSIX systems. */
  const SEP := "/"

  /** The plural suffix for a count. */
  function S(n: int): (r: string)
    ensures r == "" <==> n == 1
    ensures r == "s" <==> n != 1
  {
    if n == 1 then "" else "s"
  }

  // ---------------------------------------------------------------- banner

  /** The package.json fields the banner reads. */
  datatype Package = Package(name: string, version: string, homepage: Arg, license: Arg)

  function HomepagePart(pkg: Package): string
  {
    if Truthy(pkg.homepage) then " - " + ToJsString(pkg.homepage) else ""
  }

  function LicensePart(pkg: Package): string
  {
    if Truthy(pkg.license) then "\n" + ToJsString(pkg.license) + " Licensed" else ""
  }

  /** The banner: name and version, then the homepage, then the license line, each only when set. */
  function Banner(pkg: Package): string
  {
    pkg.name + " v" + pkg.version + HomepagePart(pkg) + LicensePart(pkg)
  }

  method CreateBanner(pkg: Package) returns (banner: string)
    ensures banner == Banner(pkg)
  {
    banner := pkg.name + " v" + pkg.version;
    if Truthy(pkg.homepage) {
      banner := banner + " - " + ToJsString(pkg.homepage);
    }
    if Truthy(pkg.license) {
      banner := banner + "\n" + ToJsString(pkg.license) + " Licensed";
    }
  }

  /**
   * The banner starts with "<name> v<version>"; it ends with the license line
   * iff a license is set; and when none of the fields holds a newline, it is a
   * single line exactly when no license is set.
   */
  lemma BannerShape(pkg: Package)
    ensures StartsWith(Banner(pkg), pkg.name + " v" + pkg.version)
    ensures Truthy(pkg.license) ==> EndsWith(Banner(pkg), "\n" + ToJsString(pkg.license) + " Licensed")
    ensures !Truthy(pkg.license) ==> Banner(pkg) == pkg.name + " v" + pkg.version + HomepagePart(pkg)
    ensures '\n' !in pkg.name + pkg.version + ToJsString(pkg.homepage) ==>
      ('\n' in Banner(pkg) <==> Truthy(pkg.license))
  {
    var head := pkg.name + " v" + pkg.version;
    assert Banner(pkg) == head + (HomepagePart(pkg) + LicensePart(pkg));
    assert Banner(pkg)[..|head|] == head;
    if '\n' !in pkg.name + pkg.version + ToJsString(pkg.homepage) {
      assert forall c :: c in head + HomepagePart(pkg) ==> c in pkg.name + pkg.version + ToJsString(pkg.homepage) || c == ' ' || c == 'v' || c == '-';
      if Truthy(pkg.license) {
        assert Banner(pkg)[|head + HomepagePart(pkg)|] == '\n';
      }
    }
  }

  // -------------------------------------------------------------- externals

  /** The Webpack externals entry for one package. */
  datatype External = External(root: string, commonjs2: string, commonjs: string, amd: string)

  /** `createExternals(externals)`: `None` is an omitted argument, which defaults to `{}`. */
  method CreateExternals(externals: Option<map<string, string>>) returns (r: map<string, External>)
    ensures externals.None? ==> r == map[]
    ensures externals.Some? ==> r.Keys == externals.value.Keys
    ensures externals.Some? ==> forall p :: p in r ==>
      p in externals.value && r[p] == External(externals.value[p], p, p, p)
  {
    var source := if externals.Some? then externals.value else map[];
    r := map[];
    var remaining := source.Keys;
    while remaining != {}
      invariant remaining <= source.Keys
      invariant r.Keys == source.Keys - remaining
      invariant forall p :: p in r ==> r[p] == External(source[p], p, p, p)
      decreases remaining
    {
      var p :| p in remaining;
      r := r[p := External(source[p], p, p, p)];
      remaining := remaining - {p};
    }
  }

  // --------------------------------------------------------------- messages

  /**
   * `formatMessage`: the Babel syntax error prefix and the Webpack
   * file-not-found prefix are shortened (first occurrence each), then the
   * multi-line css-loader rewrite, given as `stripCssLoader`, is applied.
   */
  function FormatMessage(message: string, stripCssLoader: string -> string): (r: string)
    ensures !Contains(message, BABEL_SYNTAX_ERROR) && !Contains(message, MODULE_NOT_FOUND_ERROR) ==>
      r == stripCssLoader(message)
  {
    stripCssLoader(
      ReplaceFirst(
        ReplaceFirst(message, BABEL_SYNTAX_ERROR, FRIENDLY_SYNTAX_ERROR_LABEL),
        MODULE_NOT_FOUND_ERROR, MODULE_NOT_FOUND_LABEL))
  }

  predicate IsLikelyASyntaxError(message: string): (r: bool)
    ensures r <==> exists i :: OccursAt(message, FRIENDLY_SYNTAX_ERROR_LABEL, i)
  {
    Contains(message, FRIENDLY_SYNTAX_ERROR_LABEL)
  }

  /** One message as `formatMessages` prints it: its type, then the formatted text. */
  function TypedMessage(message: string, msgType: string, stripCssLoader: string -> string): string
  {
    msgType + " in " + FormatMessage(message, stripCssLoader)
  }

  /** `formatMessages`: the messages mapped through `TypedMessage`. */
  function FormatMessages(messages: seq<string>, msgType: string, stripCssLoader: string -> string): (r: seq<string>)
    decreases |messages|
    ensures |r| == |messages|
  {
    if messages == [] then []
    else
      FormatMessages(messages[..|messages| - 1], msgType, stripCssLoader)
        + [TypedMessage(messages[|messages| - 1], msgType, stripCssLoader)]
  }

  /** One formatted message per message, in order. */
  lemma {:induction false} FormatMessagesAt(messages: seq<string>, msgType: string, stripCssLoader: string -> string)
    ensures forall k :: 0 <= k < |messages| ==>
      FormatMessages(messages, msgType, stripCssLoader)[k] == TypedMessage(messages[k], msgType, stripCssLoader)
    decreases |messages|
  {
    if messages != [] {
      FormatMessagesAt(messages[..|messages| - 1], msgType, stripCssLoader);
    }
  }

  /** Every formatted message begins with its type. */
  lemma FormattedMessagePrefix(messages: seq<string>, msgType: string, stripCssLoader: string -> string)
    ensures forall m :: m in FormatMessages(messages, msgType, stripCssLoader) ==> StartsWith(m, msgType + " in ")
  {
    var r := FormatMessages(messages, msgType, stripCssLoader);
    FormatMessagesAt(messages, msgType, stripCssLoader);
    forall m | m in r
      ensures StartsWith(m, msgType + " in ")
    {
      var k :| 0 <= k < |r| && r[k] == m;
      assert m == (msgType + " in ") + FormatMessage(messages[k], stripCssLoader);
    }
  }

  /** `a` is `b` with some elements left out, the rest in order. */
  predicate Subsequence<T(==)>(a: seq<T>, b: seq<T>)
    decreases |b|
  {
    if a == [] then true
    else if b == [] then false
    else (a[0] == b[0] && Subsequence(a[1..], b[1..])) || Subsequence(a, b[1..])
  }

  /** `messages.filter(isLikelyASyntaxError)`. */
  function SyntaxErrors(messages: seq<string>): seq<string>
    decreases |messages|
  {
    if messages == [] then []
    else if IsLikelyASyntaxError(messages[0]) then [messages[0]] + SyntaxErrors(messages[1..])
    else SyntaxErrors(messages[1..])
  }

  /** The filter keeps exactly the likely syntax errors, every copy of each, in their order. */
  lemma {:induction false} SyntaxErrorsSpec(messages: seq<string>)
    ensures Subsequence(SyntaxErrors(messages), messages)
    ensures forall m :: multiset(SyntaxErrors(messages))[m] == if IsLikelyASyntaxError(m) then multiset(messages)[m] else 0
    ensures forall m :: m in SyntaxErrors(messages) <==> m in messages && IsLikelyASyntaxError(m)
    decreases |messages|
  {
    if messages != [] {
      SyntaxErrorsSpec(messages[1..]);
      assert messages == [messages[0]] + messages[1..];
    }
  }

  predicate AnySyntaxError(messages: seq<string>)
  {
    exists k :: 0 <= k < |messages| && IsLikelyASyntaxError(messages[k])
  }

  /** The errors shown: only the likely syntax errors when there are any, otherwise all of them. */
  function ShownErrors(formattedErrors: seq<string>): seq<string>
  {
    if AnySyntaxError(formattedErrors) then SyntaxErrors(formattedErrors) else formattedErrors
  }

  /** The selection keeps order, shows something iff there is an error, and never mixes in a non-syntax error when a syntax error exists. */
  lemma ShownErrorsSelection(formattedErrors: seq<string>)
    ensures Subsequence(ShownErrors(formattedErrors), formattedErrors)
    ensures ShownErrors(formattedErrors) == [] <==> formattedErrors == []
    ensures AnySyntaxError(formattedErrors) ==>
      forall m :: m in ShownErrors(formattedErrors) <==> m in formattedErrors && IsLikelyASyntaxError(m)
    ensures AnySyntaxError(formattedErrors) ==>
      forall m :: multiset(ShownErrors(formattedErrors))[m] == if IsLikelyASyntaxError(m) then multiset(formattedErrors)[m] else 0
    ensures !AnySyntaxError(formattedErrors) ==> ShownErrors(formattedErrors) == formattedErrors
  {
    SubsequenceOfSelf(formattedErrors);
    SyntaxErrorsSpec(formattedErrors);
    if AnySyntaxError(formattedErrors) {
      var k :| 0 <= k < |formattedErrors| && IsLikelyASyntaxError(formattedErrors[k]);
      assert formattedErrors[k] in SyntaxErrors(formattedErrors);
    }
  }

  lemma {:induction false} SubsequenceOfSelf<T>(s: seq<T>)
    ensures Subsequence(s, s)
    decreases |s|
  {
    if s != [] {
      SubsequenceOfSelf(s[1..]);
    }
  }

  /** Each message preceded by an empty line, as `console.log(); console.log(message)` logs it. */
  function MessageLines(messages: seq<string>): seq<string>
    decreases |messages|
  {
    if messages == [] then []
    else MessageLines(messages[..|messages| - 1]) + ["", messages[|messages| - 1]]
  }

  lemma {:induction false} MessageLinesAt(messages: seq<string>)
    ensures |MessageLines(messages)| == 2 * |messages|
    ensures forall k :: 0 <= k < |messages| ==>
      MessageLines(messages)[2 * k] == "" && MessageLines(messages)[2 * k + 1] == messages[k]
    decreases |messages|
  {
    if messages != [] {
      MessageLinesAt(messages[..|messages| - 1]);
    }
  }

  method AppendMessages(out: seq<string>, messages: seq<string>) returns (r: seq<string>)
    ensures r == out + MessageLines(messages)
  {
    r := out;
    var i := 0;
    while i < |messages|
      invariant 0 <= i <= |messages|
      invariant r == out + MessageLines(messages[..i])
    {
      assert messages[..i + 1][..i] == messages[..i];
      r := r + [""];
      r := r + [messages[i]];
      i := i + 1;
    }
    assert messages[..i] == messages;
  }

  // ------------------------------------------------------------------ stats

  /** One asset of a compilation: its name, and its gzipped size and size label as measured elsewhere. */
  datatype Asset = Asset(assetName: string, dir: string, name: string, size: nat, sizeLabel: string)

  /** What a Webpack Stats object provides here: the compiler's messages and the emitted assets. */
  datatype Stats = Stats(errors: seq<string>, warnings: seq<string>, assets: seq<Asset>)

  predicate HasErrors(stats: Stats) { |stats.errors| > 0 }

  predicate HasWarnings(stats: Stats) { |stats.warnings| > 0 }

  function FailedSummary(n: nat): string
  {
    "Failed to compile with " + NatToString(n) + " error" + S(n) + "."
  }

  function WarningsSummary(n: nat): string
  {
    "Compiled with " + NatToString(n) + " warning" + S(n) + "."
  }

  /** The lines `logErrorsAndWarnings(stats)` logs. */
  function ErrorsAndWarningsOutput(stats: Stats, stripCssLoader: string -> string): seq<string>
  {
    var formattedErrors := FormatMessages(stats.errors, ERROR_TYPE, stripCssLoader);
    var formattedWarnings := FormatMessages(stats.warnings, WARNING_TYPE, stripCssLoader);
    if HasErrors(stats) then [FailedSummary(|formattedErrors|)] + MessageLines(ShownErrors(formattedErrors))
    else if HasWarnings(stats) then [WarningsSummary(|formattedWarnings|)] + MessageLines(formattedWarnings)
    else []
  }

  method LogErrorsAndWarnings(stats: Stats, stripCssLoader: string -> string) returns (out: seq<string>)
    ensures out == ErrorsAndWarningsOutput(stats, stripCssLoader)
  {
    var formattedErrors := FormatMessages(stats.errors, ERROR_TYPE, stripCssLoader);
    var formattedWarnings := FormatMessages(stats.warnings, WARNING_TYPE, stripCssLoader);
    out := [];
    if HasErrors(stats) {
      var errors := |formattedErrors|;
      out := out + [FailedSummary(errors)];
      ghost var shown := ShownErrors(formattedErrors);
      if AnySyntaxError(formattedErrors) {
        formattedErrors := SyntaxErrors(formattedErrors);
      }
      assert formattedErrors == shown;
      out := AppendMessages(out, formattedErrors);
      return;
    }
    if HasWarnings(stats) {
      var warnings := |formattedWarnings|;
      out := out + [WarningsSummary(warnings)];
      out := AppendMessages(out, formattedWarnings);
    }
  }

  /** Every error that can be shown is a formatted error, so it begins with the error type. */
  lemma ShownErrorsPrefix(errors: seq<string>, stripCssLoader: string -> string)
    ensures forall m :: m in ShownErrors(FormatMessages(errors, ERROR_TYPE, stripCssLoader)) ==>
      StartsWith(m, ERROR_TYPE + " in ")
  {
    var formatted := FormatMessages(errors, ERROR_TYPE, stripCssLoader);
    FormattedMessagePrefix(errors, ERROR_TYPE, stripCssLoader);
    SyntaxErrorsSpec(formatted);
  }

  /** With errors, no warning is logged: after the summary line every logged message is a formatted error. */
  lemma ErrorsHideWarnings(stats: Stats, stripCssLoader: string -> string)
    requires HasErrors(stats)
    ensures var out := ErrorsAndWarningsOutput(stats, stripCssLoader);
      |out| % 2 == 1 && out[0] == FailedSummary(|stats.errors|)
      && forall k :: 0 <= k < |out| / 2 ==>
        out[2 * k + 1] == "" && StartsWith(out[2 * k + 2], ERROR_TYPE + " in ")
  {
    var out := ErrorsAndWarningsOutput(stats, stripCssLoader);
    var shown := ShownErrors(FormatMessages(stats.errors, ERROR_TYPE, stripCssLoader));
    assert out == [FailedSummary(|stats.errors|)] + MessageLines(shown);
    MessageLinesAt(shown);
    assert forall k :: 0 <= k < |shown| ==> StartsWith(shown[k], ERROR_TYPE + " in ") by {
      ShownErrorsPrefix(stats.errors, stripCssLoader);
    }
    forall k | 0 <= k < |out| / 2
      ensures out[2 * k + 1] == "" && StartsWith(out[2 * k + 2], ERROR_TYPE + " in ")
    {
      assert out[2 * k + 2] == shown[k];
    }
  }

  /** With warnings only, every warning is logged, formatted, in order. */
  lemma WarningsListed(stats: Stats, stripCssLoader: string -> string)
    requires !HasErrors(stats) && HasWarnings(stats)
    ensures var out := ErrorsAndWarningsOutput(stats, stripCssLoader);
      |out| == 1 + 2 * |stats.warnings| && out[0] == WarningsSummary(|stats.warnings|)
      && forall k :: 0 <= k < |stats.warnings| ==>
        out[2 * k + 1] == "" && out[2 * k + 2] == WARNING_TYPE + " in " + FormatMessage(stats.warnings[k], stripCssLoader)
  {
    var formatted := FormatMessages(stats.warnings, WARNING_TYPE, stripCssLoader);
    MessageLinesAt(formatted);
    FormatMessagesAt(stats.warnings, WARNING_TYPE, stripCssLoader);
  }

  // -------------------------------------------------------- file-size listing

  /** One listed file. */
  datatype FileDetails = FileDetails(dir: string, name: string, size: nat, sizeLabel: string)

  function DetailsOf(a: Asset): FileDetails
  {
    FileDetails(a.dir, a.name, a.size, a.sizeLabel)
  }

  /** `/\.(css|js)$/.test(assetName)`. */
  predicate IsCssOrJs(assetName: string)
  {
    EndsWith(assetName, ".css") || EndsWith(assetName, ".js")
  }

  predicate IsLowerAlnum(c: char)
  {
    ('a' <= c <= 'z') || ('0' <= c <= '9')
  }

  /** `/^runtime\.[a-z\d]+\.js$/.test(name)`. */
  predicate IsRuntimeChunk(name: string)
  {
    |name| >= 12 && StartsWith(name, "runtime.") && EndsWith(name, ".js")
    && forall k :: 8 <= k < |name| - 3 ==> IsLowerAlnum(name[k])
  }

  /** The `filter` of `getFileDetails`: the CSS and JS assets, in order. */
  function CssJsAssets(assets: seq<Asset>): seq<Asset>
    decreases |assets|
  {
    if assets == [] then []
    else (if IsCssOrJs(assets[0].assetName) then [assets[0]] else []) + CssJsAssets(assets[1..])
  }

  /** The `map` of `getFileDetails`: one record per asset. */
  function DetailsOfAll(assets: seq<Asset>): seq<FileDetails>
    decreases |assets|
  {
    if assets == [] then [] else [DetailsOf(assets[0])] + DetailsOfAll(assets[1..])
  }

  /** `getFileDetails(stats)`: the details of the CSS and JS assets, in order. */
  function GetFileDetails(assets: seq<Asset>): seq<FileDetails>
  {
    DetailsOfAll(CssJsAssets(assets))
  }

  /** The filter keeps exactly the CSS and JS assets, every copy of each, in their order. */
  lemma {:induction false} CssJsAssetsSpec(assets: seq<Asset>)
    ensures Subsequence(CssJsAssets(assets), assets)
    ensures forall a :: multiset(CssJsAssets(assets))[a] == if IsCssOrJs(a.assetName) then multiset(assets)[a] else 0
    decreases |assets|
  {
    if assets != [] {
      var rest := CssJsAssets(assets[1..]);
      CssJsAssetsSpec(assets[1..]);
      assert assets == [assets[0]] + assets[1..];
      if IsCssOrJs(assets[0].assetName) {
        assert ([assets[0]] + rest)[1..] == rest;
      } else {
        assert CssJsAssets(assets) == rest;
      }
    }
  }

  /** The map gives the k-th asset's details at position k. */
  lemma {:induction false} DetailsOfAllAt(assets: seq<Asset>)
    ensures |DetailsOfAll(assets)| == |assets|
    ensures forall k :: 0 <= k < |assets| ==> DetailsOfAll(assets)[k] == DetailsOf(assets[k])
    decreases |assets|
  {
    if assets != [] {
      DetailsOfAllAt(assets[1..]);
    }
  }

  /** The details of all the stats, concatenated in order. */
  function AllFileDetails(stats: seq<Stats>): seq<FileDetails>
    decreases |stats|
  {
    if stats == [] then [] else AllFileDetails(stats[..|stats| - 1]) + GetFileDetails(stats[|stats| - 1].assets)
  }

  /** Drops the runtime chunks. */
  function WithoutRuntimeChunks(files: seq<FileDetails>): seq<FileDetails>
    decreases |files|
  {
    if files == [] then []
    else (if IsRuntimeChunk(files[0].name) then [] else [files[0]]) + WithoutRuntimeChunks(files[1..])
  }

  /** The files `logGzippedFileSizes` lists. */
  function ListedFiles(stats: seq<Stats>): seq<FileDetails>
  {
    WithoutRuntimeChunks(AllFileDetails(stats))
  }

  lemma GetFileDetailsMembers(assets: seq<Asset>, f: FileDetails)
    ensures f in GetFileDetails(assets) <==> exists a :: a in assets && IsCssOrJs(a.assetName) && f == DetailsOf(a)
  {
    var css := CssJsAssets(assets);
    DetailsOfAllAt(css);
    if f in GetFileDetails(assets) {
      var k :| 0 <= k < |css| && GetFileDetails(assets)[k] == f;
      CssJsAssetsMember(assets, css[k]);
    }
    if exists a :: a in assets && IsCssOrJs(a.assetName) && f == DetailsOf(a) {
      var a :| a in assets && IsCssOrJs(a.assetName) && f == DetailsOf(a);
      CssJsAssetsMember(assets, a);
      var k :| 0 <= k < |css| && css[k] == a;
      assert GetFileDetails(assets)[k] == f;
    }
  }

  /** An asset is kept exactly when it is in the list and is a CSS or JS file. */
  lemma CssJsAssetsMember(assets: seq<Asset>, a: Asset)
    ensures a in CssJsAssets(assets) <==> a in assets && IsCssOrJs(a.assetName)
  {
    CssJsAssetsSpec(assets);
    assert a in CssJsAssets(assets) <==> multiset(CssJsAssets(assets))[a] > 0;
    assert a in assets <==> multiset(assets)[a] > 0;
  }

  /** The details of several stats are those of each, concatenated in order. */
  lemma {:induction false} AllFileDetailsConcat(first: seq<Stats>, second: seq<Stats>)
    ensures AllFileDetails(first + second) == AllFileDetails(first) + AllFileDetails(second)
    ensures |second| == 1 ==> AllFileDetails(second) == GetFileDetails(second[0].assets)
    decreases |second|
  {
    if second != [] {
      var init := second[..|second| - 1];
      AllFileDetailsConcat(first, init);
      assert (first + second)[..|first + second| - 1] == first + init;
      assert (first + second)[|first + second| - 1] == second[|second| - 1];
    } else {
      assert first + second == first;
    }
  }

  lemma {:induction false} AllFileDetailsMembers(stats: seq<Stats>, f: FileDetails)
    ensures f in AllFileDetails(stats) <==>
      exists st, a :: st in stats && a in st.assets && IsCssOrJs(a.assetName) && f == DetailsOf(a)
    decreases |stats|
  {
    if stats != [] {
      var init, last := stats[..|stats| - 1], stats[|stats| - 1];
      AllFileDetailsMembers(init, f);
      GetFileDetailsMembers(last.assets, f);
      assert stats == init + [last];
    }
  }

  /** The filter keeps every copy of each file that is not a runtime chunk, and none of the others. */
  lemma {:induction false} WithoutRuntimeChunksCount(files: seq<FileDetails>, f: FileDetails)
    ensures multiset(WithoutRuntimeChunks(files))[f] == if IsRuntimeChunk(f.name) then 0 else multiset(files)[f]
    decreases |files|
  {
    if files != [] {
      WithoutRuntimeChunksCount(files[1..], f);
      assert files == [files[0]] + files[1..];
    }
  }

  /** The filter keeps the files in their order. */
  lemma {:induction false} WithoutRuntimeChunksOrder(files: seq<FileDetails>)
    ensures Subsequence(WithoutRuntimeChunks(files), files)
    decreases |files|
  {
    if files != [] {
      var rest := WithoutRuntimeChunks(files[1..]);
      WithoutRuntimeChunksOrder(files[1..]);
      if IsRuntimeChunk(files[0].name) {
        assert WithoutRuntimeChunks(files) == rest;
      } else {
        assert ([files[0]] + rest)[1..] == rest;
      }
    }
  }

  lemma {:induction false} WithoutRuntimeChunksMembers(files: seq<FileDetails>, f: FileDetails)
    ensures f in WithoutRuntimeChunks(files) <==> f in files && !IsRuntimeChunk(f.name)
    decreases |files|
  {
    if files != [] {
      WithoutRuntimeChunksMembers(files[1..], f);
      assert files == [files[0]] + files[1..];
    }
  }

  /** A file is listed iff it is a CSS or JS asset of one of the stats that is not a runtime chunk. */
  lemma ListedFilesExactly(stats: seq<Stats>, f: FileDetails)
    ensures f in ListedFiles(stats) <==>
      exists st, a :: st in stats && a in st.assets && IsCssOrJs(a.assetName) && !IsRuntimeChunk(a.name)
        && f == DetailsOf(a)
    ensures multiset(ListedFiles(stats))[f] == if IsRuntimeChunk(f.name) then 0 else multiset(AllFileDetails(stats))[f]
    ensures Subsequence(ListedFiles(stats), AllFileDetails(stats))
  {
    WithoutRuntimeChunksCount(AllFileDetails(stats), f);
    WithoutRuntimeChunksOrder(AllFileDetails(stats));
    WithoutRuntimeChunksMembers(AllFileDetails(stats), f);
    AllFileDetailsMembers(stats, f);
  }

  function PathLength(f: FileDetails): nat
  {
    |f.dir + f.name|
  }

  /** `longest`: the greatest `(dir + name).length`, 0 for no files. */
  function Longest(files: seq<FileDetails>): (r: nat)
    decreases |files|
    ensures forall k :: 0 <= k < |files| ==> PathLength(files[k]) <= r
    ensures files == [] ==> r == 0
    ensures files != [] ==> exists k :: 0 <= k < |files| && PathLength(files[k]) == r
  {
    if files == [] then 0
    else
      var max := Longest(files[..|files| - 1]);
      var length := PathLength(files[|files| - 1]);
      if length > max then length else max
  }

  /** `pad(dir, name)`: the spaces that bring `dir + name` up to `longest`. */
  function Pad(longest: nat, f: FileDetails): (r: string)
    requires PathLength(f) <= longest
    ensures PathLength(f) + |r| == longest
    ensures forall k :: 0 <= k < |r| ==> r[k] == ' '
  {
    Spaces(longest - PathLength(f))
  }

  predicate NonIncreasing(files: seq<FileDetails>)
  {
    forall i, j :: 0 <= i < j < |files| ==> files[i].size >= files[j].size
  }

  /** Inserts `f` ahead of the first file no larger than itself. */
  function InsertBySize(f: FileDetails, sorted: seq<FileDetails>): (r: seq<FileDetails>)
    decreases |sorted|
    ensures |r| == |sorted| + 1
    ensures multiset(r) == multiset(sorted) + multiset{f}
  {
    if sorted == [] then [f]
    else if sorted[0].size <= f.size then [f] + sorted
    else
      assert sorted == [sorted[0]] + sorted[1..];
      [sorted[0]] + InsertBySize(f, sorted[1..])
  }

  predicate AtMost(files: seq<FileDetails>, bound: nat)
  {
    forall k :: 0 <= k < |files| ==> files[k].size <= bound
  }

  /** A file no smaller than a largest-first list can go at its front. */
  lemma ConsNonIncreasing(f: FileDetails, files: seq<FileDetails>)
    requires NonIncreasing(files) && AtMost(files, f.size)
    ensures NonIncreasing([f] + files)
  {
    var r := [f] + files;
    forall i, j | 0 <= i < j < |r|
      ensures r[i].size >= r[j].size
    {
      assert r[j] == files[j - 1];
      if i > 0 {
        assert r[i] == files[i - 1];
      }
    }
  }

  /** Inserting a file under a bound into files under it keeps them under it. */
  lemma {:induction false} InsertBySizeAtMost(f: FileDetails, sorted: seq<FileDetails>, bound: nat)
    requires f.size <= bound && AtMost(sorted, bound)
    ensures AtMost(InsertBySize(f, sorted), bound)
    decreases |sorted|
  {
    if sorted != [] && sorted[0].size > f.size {
      InsertBySizeAtMost(f, sorted[1..], bound);
      var r := InsertBySize(f, sorted);
      assert r == [sorted[0]] + InsertBySize(f, sorted[1..]);
      assert forall k :: 1 <= k < |r| ==> r[k] == InsertBySize(f, sorted[1..])[k - 1];
    }
  }

  /** Insertion keeps a largest-first list largest first. */
  lemma {:induction false} InsertBySizeSorted(f: FileDetails, sorted: seq<FileDetails>)
    requires NonIncreasing(sorted)
    ensures NonIncreasing(InsertBySize(f, sorted))
    decreases |sorted|
  {
    if sorted == [] {
    } else if sorted[0].size <= f.size {
      ConsNonIncreasing(f, sorted);
    } else {
      var rest := InsertBySize(f, sorted[1..]);
      InsertBySizeSorted(f, sorted[1..]);
      assert AtMost(sorted[1..], sorted[0].size) by {
        assert forall k :: 0 <= k < |sorted[1..]| ==> sorted[1..][k] == sorted[k + 1];
      }
      InsertBySizeAtMost(f, sorted[1..], sorted[0].size);
      ConsNonIncreasing(sorted[0], rest);
    }
  }

  /** `files.sort((a, b) => b.size - a.size)`, as a stable insertion sort. */
  function SortBySize(files: seq<FileDetails>): (r: seq<FileDetails>)
    decreases |files|
    ensures |r| == |files|
    ensures multiset(r) == multiset(files)
  {
    if files == [] then []
    else
      assert files == [files[0]] + files[1..];
      InsertBySize(files[0], SortBySize(files[1..]))
  }

  /** The sort puts the files largest first. */
  lemma {:induction false} SortBySizeSorted(files: seq<FileDetails>)
    ensures NonIncreasing(SortBySize(files))
    decreases |files|
  {
    if files != [] {
      SortBySizeSorted(files[1..]);
      InsertBySizeSorted(files[0], SortBySize(files[1..]));
    }
  }

  predicate FitsIn(files: seq<FileDetails>, longest: nat)
  {
    forall k :: 0 <= k < |files| ==> PathLength(files[k]) <= longest
  }

  function FileLine(f: FileDetails, longest: nat): string
    requires PathLength(f) <= longest
  {
    "  " + f.dir + SEP + f.name + "  " + Pad(longest, f) + f.sizeLabel
  }

  /** Every listing line has the same width up to the size label, and ends with that label. */
  lemma FileLineShape(f: FileDetails, longest: nat)
    requires PathLength(f) <= longest
    ensures |FileLine(f, longest)| == 4 + |SEP| + longest + |f.sizeLabel|
    ensures EndsWith(FileLine(f, longest), f.sizeLabel)
  {
    var line := FileLine(f, longest);
    var head := "  " + f.dir + SEP + f.name + "  " + Pad(longest, f);
    assert line == head + f.sizeLabel;
    assert line[|line| - |f.sizeLabel|..] == f.sizeLabel;
  }

  function FileLines(files: seq<FileDetails>, longest: nat): seq<string>
    requires FitsIn(files, longest)
    decreases |files|
  {
    if files == [] then [] else FileLines(files[..|files| - 1], longest) + [FileLine(files[|files| - 1], longest)]
  }

  lemma {:induction false} FileLinesAt(files: seq<FileDetails>, longest: nat)
    requires FitsIn(files, longest)
    ensures |FileLines(files, longest)| == |files|
    ensures forall k :: 0 <= k < |files| ==> FileLines(files, longest)[k] == FileLine(files[k], longest)
    decreases |files|
  {
    if files != [] {
      FileLinesAt(files[..|files| - 1], longest);
    }
  }

  function SizesHeader(count: nat): string
  {
    "File size" + S(count) + " after gzip:"
  }

  /** Every file of a permutation of `files` fits in `files`' longest length. */
  lemma SortedFits(files: seq<FileDetails>)
    ensures FitsIn(SortBySize(files), Longest(files))
  {
    var sorted := SortBySize(files);
    forall k | 0 <= k < |sorted| ensures PathLength(sorted[k]) <= Longest(files) {
      assert sorted[k] in multiset(files);
      var j :| 0 <= j < |files| && files[j] == sorted[k];
    }
  }

  /** The lines `logGzippedFileSizes(...stats)` logs. */
  function GzippedFileSizesOutput(stats: seq<Stats>): seq<string>
  {
    FileListing(ListedFiles(stats))
  }

  method AppendFileLines(out: seq<string>, files: seq<FileDetails>, longest: nat) returns (r: seq<string>)
    requires FitsIn(files, longest)
    ensures r == out + FileLines(files, longest)
  {
    r := out;
    var i := 0;
    while i < |files|
      invariant 0 <= i <= |files|
      invariant r == out + FileLines(files[..i], longest)
    {
      assert files[..i + 1][..i] == files[..i];
      r := r + [FileLine(files[i], longest)];
      i := i + 1;
    }
    assert files[..i] == files;
  }

  method LogGzippedFileSizes(stats: seq<Stats>) returns (out: seq<string>)
    ensures out == GzippedFileSizesOutput(stats)
  {
    var files := ListedFiles(stats);
    var longest := Longest(files);
    var sorted := SortBySize(files);
    SortedFits(files);
    out := AppendFileLines([SizesHeader(|files|), ""], sorted, longest);
    out := out + [""];
  }

  /** The listing, for the files it lists. */
  function FileListing(files: seq<FileDetails>): seq<string>
  {
    SortedFits(files);
    [SizesHeader(|files|), ""] + FileLines(SortBySize(files), Longest(files)) + [""]
  }

  /**
   * The listing has a line per file, largest first, and every size label
   * starts in the same column: the padding brings each `dir + name` up to the
   * longest one.
   */
  lemma FileListingLayout(files: seq<FileDetails>)
    ensures var out := FileListing(files);
      var sorted := SortBySize(files);
      FitsIn(sorted, Longest(files))
      && |sorted| == |files| && |out| == |files| + 3
      && out[0] == SizesHeader(|files|) && out[1] == "" && out[|out| - 1] == ""
      && forall k :: 0 <= k < |sorted| ==>
        out[k + 2] == FileLine(sorted[k], Longest(files))
        && |out[k + 2]| == 4 + |SEP| + Longest(files) + |sorted[k].sizeLabel|
        && EndsWith(out[k + 2], sorted[k].sizeLabel)
  {
    SortedFits(files);
    FramedLinesAt(SizesHeader(|files|), SortBySize(files), Longest(files));
  }

  /** The file lines between a header, a blank line and a closing blank line. */
  lemma FramedLinesAt(header: string, sorted: seq<FileDetails>, longest: nat)
    requires FitsIn(sorted, longest)
    ensures var out := [header, ""] + FileLines(sorted, longest) + [""];
      |out| == |sorted| + 3
      && forall k :: 0 <= k < |sorted| ==>
        out[k + 2] == FileLine(sorted[k], longest)
        && |out[k + 2]| == 4 + |SEP| + longest + |sorted[k].sizeLabel|
        && EndsWith(out[k + 2], sorted[k].sizeLabel)
  {
    var lines := FileLines(sorted, longest);
    FileLinesShape(sorted, longest);
    FileLinesAt(sorted, longest);
    forall k | 0 <= k < |sorted|
      ensures ([header, ""] + lines + [""])[k + 2] == lines[k]
    {
      IndexOfMiddle([header, ""], lines, [""], k);
    }
  }

  /** Every line of the listing has the common width and ends with its file's size label. */
  lemma {:induction false} FileLinesShape(files: seq<FileDetails>, longest: nat)
    requires FitsIn(files, longest)
    ensures |FileLines(files, longest)| == |files|
    ensures forall k :: 0 <= k < |files| ==>
      |FileLines(files, longest)[k]| == 4 + |SEP| + longest + |files[k].sizeLabel|
      && EndsWith(FileLines(files, longest)[k], files[k].sizeLabel)
    decreases |files|
  {
    if files != [] {
      FileLinesShape(files[..|files| - 1], longest);
      FileLineShape(files[|files| - 1], longest);
    }
  }

  // ------------------------------------------------------------ build results

  /** What `logBuildResults` does, in order. */
  datatype Step = SpinnerFail | SpinnerWarn | SpinnerSucceed | BlankLine | ErrorsAndWarnings | FileSizes

  /** The steps of `logBuildResults(stats, spinner)`; `spinner` says whether a spinner was passed. */
  function BuildResultsPlan(stats: Stats, spinner: bool): (plan: seq<Step>)
    ensures FileSizes in plan <==> !HasErrors(stats)
    ensures ErrorsAndWarnings in plan <==> HasErrors(stats) || HasWarnings(stats)
    ensures (SpinnerFail in plan || SpinnerWarn in plan || SpinnerSucceed in plan) <==> spinner
    ensures HasErrors(stats) ==> plan[|plan| - 1] == ErrorsAndWarnings
    ensures !HasErrors(stats) ==> plan[|plan| - 1] == FileSizes
  {
    if HasErrors(stats) then
      (if spinner then [SpinnerFail, BlankLine] else []) + [ErrorsAndWarnings]
    else if HasWarnings(stats) then
      (if spinner then [SpinnerWarn, BlankLine] else []) + [ErrorsAndWarnings, BlankLine, FileSizes]
    else
      (if spinner then [SpinnerSucceed, BlankLine] else []) + [FileSizes]
  }
}
