/**
 * The user config report: an accumulator of path-addressed config errors,
 * deprecation warnings and hints, with the provenance of the config it
 * describes, and the line-oriented text it renders.
 *
 * Terminal styling is the identity, the `figures` glyphs are constants, and
 * `util.inspect` is the `inspect` parameter of GetReport.
 */
module UserConfigReport {
  import opened Text
  import opened SeqFacts

  const TICK := "\U{2714}"
  const CROSS := "\U{2716}"
  const WARNING := "\U{26A0}"
  const INFO := "\U{2139}"

  const NOTHING_TO_REPORT := TICK + " Nothing to report!"

  /** One `error(path, value, message)` record. */
  datatype ConfigError<V> = ConfigError(path: string, value: V, message: string)

  /** One `deprecated(path, ...messages)` or `hint(path, ...messages)` record. */
  datatype Notice = Notice(path: string, messages: seq<string>)

  /** The plural suffix for a count (the report's `pluralise` helper). */
  function Pluralise(n: nat): string
  {
    if n == 1 then "" else "s"
  }

  /** A section heading: the count and a space only for more than one entry. */
  function Heading(n: nat, noun: string): string
  {
    (if n > 1 then NatToString(n) + " " else "") + noun + Pluralise(n)
  }

  /** The heading of a section and the blank line after it, for a non-empty section only. */
  function HeadingLines(n: nat, noun: string): seq<string>
  {
    if n > 0 then [Heading(n, noun), ""] else []
  }

  function Title(source: string): string
  {
    "nwb config report for " + source
  }

  function ErrorLine<V>(e: ConfigError<V>, inspect: V -> string): string
  {
    CROSS + " " + e.path + " = " + inspect(e.value)
  }

  function ErrorBlock<V>(e: ConfigError<V>, inspect: V -> string): seq<string>
  {
    [ErrorLine(e, inspect), "  " + e.message, ""]
  }

  function ErrorBlocks<V>(es: seq<ConfigError<V>>, inspect: V -> string): seq<string>
    decreases |es|
  {
    if es == [] then [] else ErrorBlocks(es[..|es| - 1], inspect) + ErrorBlock(es[|es| - 1], inspect)
  }

  /** Each message on a line of its own, indented by two spaces. */
  function Indented(ms: seq<string>): seq<string>
    decreases |ms|
  {
    if ms == [] then [] else Indented(ms[..|ms| - 1]) + ["  " + ms[|ms| - 1]]
  }

  function NoticeBlock(glyph: string, n: Notice): seq<string>
  {
    [glyph + " " + n.path] + Indented(n.messages) + [""]
  }

  function NoticeBlocks(glyph: string, ns: seq<Notice>): seq<string>
    decreases |ns|
  {
    if ns == [] then [] else NoticeBlocks(glyph, ns[..|ns| - 1]) + NoticeBlock(glyph, ns[|ns| - 1])
  }

  /** The number of lines a list of notices takes: two per notice plus one per message. */
  function NoticeLineCount(ns: seq<Notice>): nat
    decreases |ns|
  {
    if ns == [] then 0 else NoticeLineCount(ns[1..]) + 2 + |ns[0].messages|
  }

  /** The error section: its heading when non-empty, then three lines per error. */
  function ErrorSection<V>(errors: seq<ConfigError<V>>, inspect: V -> string): seq<string>
  {
    HeadingLines(|errors|, "Error") + ErrorBlocks(errors, inspect)
  }

  /** A deprecation or hint section: its heading when non-empty, then each notice's block. */
  function NoticeSection(noun: string, glyph: string, notices: seq<Notice>): seq<string>
  {
    HeadingLines(|notices|, noun) + NoticeBlocks(glyph, notices)
  }

  /** The lines of `getReport()` for the given config source and records. */
  function RenderReport<V>(source: string, errors: seq<ConfigError<V>>, deprecations: seq<Notice>,
                           hints: seq<Notice>, inspect: V -> string): (r: seq<string>)
    ensures |r| >= 3 && r[0] == Title(source) && r[1] == ""
  {
    var header := [Title(source), ""];
    if |errors| + |deprecations| + |hints| == 0 then header + [NOTHING_TO_REPORT]
    else
      header + (ErrorSection(errors, inspect)
        + (NoticeSection("Deprecation Warning", WARNING, deprecations) + NoticeSection("Hint", INFO, hints)))
  }

  lemma {:induction false} IndentedAt(ms: seq<string>)
    ensures |Indented(ms)| == |ms|
    ensures forall k :: 0 <= k < |ms| ==> Indented(ms)[k] == "  " + ms[k]
    decreases |ms|
  {
    if ms != [] {
      IndentedAt(ms[..|ms| - 1]);
    }
  }

  /** Every error takes exactly three lines. */
  lemma {:induction false} ErrorBlocksLength<V>(es: seq<ConfigError<V>>, inspect: V -> string)
    ensures |ErrorBlocks(es, inspect)| == 3 * |es|
    decreases |es|
  {
    if es != [] {
      ErrorBlocksLength(es[..|es| - 1], inspect);
    }
  }

  /** The three lines of the k-th error sit at offset 3k of the error blocks, in order. */
  lemma {:induction false} ErrorBlocksAt<V>(es: seq<ConfigError<V>>, inspect: V -> string, k: nat)
    requires k < |es|
    ensures |ErrorBlocks(es, inspect)| == 3 * |es|
    ensures ErrorBlocks(es, inspect)[3 * k..3 * k + 3] == ErrorBlock(es[k], inspect)
    decreases |es|
  {
    var init := es[..|es| - 1];
    ErrorBlocksLength(es, inspect);
    ErrorBlocksLength(init, inspect);
    if k < |es| - 1 {
      ErrorBlocksAt(init, inspect, k);
      assert init[k] == es[k];
    }
  }

  lemma {:induction false} NoticeLineCountSnoc(ns: seq<Notice>, n: Notice)
    ensures NoticeLineCount(ns + [n]) == NoticeLineCount(ns) + 2 + |n.messages|
    decreases |ns|
  {
    if ns != [] {
      assert (ns + [n])[1..] == ns[1..] + [n];
      NoticeLineCountSnoc(ns[1..], n);
    }
  }

  /** Every deprecation or hint takes two lines plus one per message. */
  lemma {:induction false} NoticeBlocksLength(glyph: string, ns: seq<Notice>)
    ensures |NoticeBlocks(glyph, ns)| == NoticeLineCount(ns)
    decreases |ns|
  {
    if ns != [] {
      var init := ns[..|ns| - 1];
      NoticeBlocksLength(glyph, init);
      IndentedAt(ns[|ns| - 1].messages);
      assert ns == init + [ns[|ns| - 1]];
      NoticeLineCountSnoc(init, ns[|ns| - 1]);
    }
  }

  /** A heading starts with a digit exactly when its section holds more than one entry. */
  lemma HeadingCountPrefix(n: nat, noun: string)
    requires n > 0 && noun != [] && !IsDigit(noun[0])
    ensures IsDigit(Heading(n, noun)[0]) <==> n > 1
    ensures n == 1 ==> Heading(n, noun) == noun
    ensures n > 1 ==> Heading(n, noun) == NatToString(n) + " " + noun + "s"
  {
  }

  /** With nothing to report, the report is the title, a blank line and the all-clear line. */
  lemma NothingToReport<V>(source: string, inspect: V -> string)
    ensures RenderReport<V>(source, [], [], [], inspect) == [Title(source), "", NOTHING_TO_REPORT]
  {
  }

  /** The number of lines of a report: headings only for non-empty sections, three lines per error, two plus one per message for each notice. */
  lemma ReportLineCount<V>(source: string, errors: seq<ConfigError<V>>, deprecations: seq<Notice>,
                           hints: seq<Notice>, inspect: V -> string)
    ensures |errors| + |deprecations| + |hints| == 0 ==>
      |RenderReport(source, errors, deprecations, hints, inspect)| == 3
    ensures |errors| + |deprecations| + |hints| > 0 ==>
      |RenderReport(source, errors, deprecations, hints, inspect)|
        == 2 + (if |errors| > 0 then 2 else 0) + 3 * |errors|
           + (if |deprecations| > 0 then 2 else 0) + NoticeLineCount(deprecations)
           + (if |hints| > 0 then 2 else 0) + NoticeLineCount(hints)
  {
    ErrorBlocksLength(errors, inspect);
    NoticeBlocksLength(WARNING, deprecations);
    NoticeBlocksLength(INFO, hints);
  }

  /** A non-empty report starts with the title, a blank line and the sections in order. */
  lemma ReportSplit<V>(source: string, errors: seq<ConfigError<V>>, deprecations: seq<Notice>,
                       hints: seq<Notice>, inspect: V -> string)
    requires |errors| + |deprecations| + |hints| > 0
    ensures RenderReport(source, errors, deprecations, hints, inspect)
      == [Title(source), ""] + (ErrorSection(errors, inspect)
        + (NoticeSection("Deprecation Warning", WARNING, deprecations) + NoticeSection("Hint", INFO, hints)))
  {
  }

  /**
   * Sections come in the order errors, deprecations, hints: the line after
   * the title and the blank line is the heading of the first non-empty section.
   */
  lemma ReportSectionOrder<V>(source: string, errors: seq<ConfigError<V>>, deprecations: seq<Notice>,
                              hints: seq<Notice>, inspect: V -> string)
    requires |errors| + |deprecations| + |hints| > 0
    ensures |RenderReport(source, errors, deprecations, hints, inspect)| >= 4
    ensures |errors| > 0 ==>
      RenderReport(source, errors, deprecations, hints, inspect)[2] == Heading(|errors|, "Error")
    ensures |errors| == 0 && |deprecations| > 0 ==>
      RenderReport(source, errors, deprecations, hints, inspect)[2] == Heading(|deprecations|, "Deprecation Warning")
    ensures |errors| == 0 && |deprecations| == 0 ==>
      RenderReport(source, errors, deprecations, hints, inspect)[2] == Heading(|hints|, "Hint")
  {
    ReportSplit(source, errors, deprecations, hints, inspect);
    var es := ErrorSection(errors, inspect);
    var ds := NoticeSection("Deprecation Warning", WARNING, deprecations);
    var hs := NoticeSection("Hint", INFO, hints);
    ReportLineCount(source, errors, deprecations, hints, inspect);
    if |errors| > 0 {
      assert es[0] == Heading(|errors|, "Error");
    } else if |deprecations| > 0 {
      assert es == [];
      assert ds[0] == Heading(|deprecations|, "Deprecation Warning");
    } else {
      assert es == [] && ds == [];
      assert hs[0] == Heading(|hints|, "Hint");
    }
  }

  /** With errors, the report is the title, the errors heading, the error blocks, then the other sections. */
  lemma ReportWithErrors<V>(source: string, errors: seq<ConfigError<V>>, deprecations: seq<Notice>,
                            hints: seq<Notice>, inspect: V -> string)
    requires |errors| > 0
    ensures RenderReport(source, errors, deprecations, hints, inspect)
      == [Title(source), "", Heading(|errors|, "Error"), ""] + ErrorBlocks(errors, inspect)
        + (NoticeSection("Deprecation Warning", WARNING, deprecations) + NoticeSection("Hint", INFO, hints))
  {
    ReportSplit(source, errors, deprecations, hints, inspect);
    var top := [Title(source), ""];
    var heading := HeadingLines(|errors|, "Error");
    assert heading == [Heading(|errors|, "Error"), ""];
    RegroupConcat(top, heading, ErrorBlocks(errors, inspect),
      NoticeSection("Deprecation Warning", WARNING, deprecations) + NoticeSection("Hint", INFO, hints));
    PairsConcat(Title(source), "", Heading(|errors|, "Error"), "");
  }

  /** The k-th error's three lines follow the error heading, in the order the errors were recorded. */
  lemma ReportErrorLines<V>(source: string, errors: seq<ConfigError<V>>, deprecations: seq<Notice>,
                            hints: seq<Notice>, inspect: V -> string, k: nat)
    requires k < |errors|
    ensures 6 + 3 * k < |RenderReport(source, errors, deprecations, hints, inspect)|
    ensures RenderReport(source, errors, deprecations, hints, inspect)[4 + 3 * k..7 + 3 * k]
      == [ErrorLine(errors[k], inspect), "  " + errors[k].message, ""]
  {
    var pre := [Title(source), "", Heading(|errors|, "Error"), ""];
    var eb := ErrorBlocks(errors, inspect);
    var tail := NoticeSection("Deprecation Warning", WARNING, deprecations) + NoticeSection("Hint", INFO, hints);
    var r := RenderReport(source, errors, deprecations, hints, inspect);
    ReportWithErrors(source, errors, deprecations, hints, inspect);
    assert r == pre + eb + tail;
    assert |pre| == 4;
    ErrorBlocksAt(errors, inspect, k);
    SliceOfMiddle(pre, eb, tail, 3 * k, 3 * k + 3);
    assert r[4 + 3 * k..7 + 3 * k] == ErrorBlock(errors[k], inspect);
  }

  /** Appends each message indented, as the inner `forEach` over a notice's messages does. */
  method AppendIndented(report: seq<string>, messages: seq<string>) returns (r: seq<string>)
    ensures r == report + Indented(messages)
  {
    r := report;
    var j := 0;
    while j < |messages|
      invariant 0 <= j <= |messages|
      invariant r == report + Indented(messages[..j])
    {
      assert messages[..j + 1][..j] == messages[..j];
      r := r + ["  " + messages[j]];
      j := j + 1;
    }
    assert messages[..j] == messages;
  }

  /** Appends the blocks of `notices`, as each `forEach` over deprecations or hints does. */
  method AppendNoticeBlocks(report: seq<string>, glyph: string, notices: seq<Notice>) returns (r: seq<string>)
    ensures r == report + NoticeBlocks(glyph, notices)
  {
    r := report;
    var i := 0;
    while i < |notices|
      invariant 0 <= i <= |notices|
      invariant r == report + NoticeBlocks(glyph, notices[..i])
    {
      var n := notices[i];
      ghost var before := r;
      r := r + [glyph + " " + n.path];
      r := AppendIndented(r, n.messages);
      r := r + [""];
      assert r == before + NoticeBlock(glyph, n);
      assert notices[..i + 1][..i] == notices[..i];
      assert NoticeBlocks(glyph, notices[..i + 1]) == NoticeBlocks(glyph, notices[..i]) + NoticeBlock(glyph, n);
      i := i + 1;
    }
    assert notices[..i] == notices;
  }

  /** A section's heading, when it has entries, then each notice's block. */
  method AppendNoticeSection(report: seq<string>, noun: string, glyph: string, notices: seq<Notice>)
    returns (r: seq<string>)
    ensures r == report + NoticeSection(noun, glyph, notices)
  {
    r := report;
    if |notices| > 0 {
      r := r + [Heading(|notices|, noun), ""];
    }
    r := AppendNoticeBlocks(r, glyph, notices);
  }

  /** The errors heading, when there are errors, then each error's block. */
  method AppendErrorSection<V>(report: seq<string>, errors: seq<ConfigError<V>>, inspect: V -> string)
    returns (r: seq<string>)
    ensures r == report + ErrorSection(errors, inspect)
  {
    r := report;
    if |errors| > 0 {
      r := r + [Heading(|errors|, "Error"), ""];
    }
    r := AppendErrorBlocks(r, errors, inspect);
  }

  /** Appends three lines per error, as the `forEach` over errors does. */
  method AppendErrorBlocks<V>(report: seq<string>, errors: seq<ConfigError<V>>, inspect: V -> string)
    returns (r: seq<string>)
    ensures r == report + ErrorBlocks(errors, inspect)
  {
    r := report;
    var i := 0;
    while i < |errors|
      invariant 0 <= i <= |errors|
      invariant r == report + ErrorBlocks(errors[..i], inspect)
    {
      var e := errors[i];
      ghost var before := r;
      r := r + [CROSS + " " + e.path + " = " + inspect(e.value)];
      r := r + ["  " + e.message];
      r := r + [""];
      assert r == before + ErrorBlock(e, inspect);
      assert errors[..i + 1][..i] == errors[..i];
      assert ErrorBlocks(errors[..i + 1], inspect) == ErrorBlocks(errors[..i], inspect) + ErrorBlock(e, inspect);
      i := i + 1;
    }
    assert errors[..i] == errors;
  }

  class Report<V> {
    var configFileExists: bool
    var configPath: string
    var deprecations: seq<Notice>
    var errors: seq<ConfigError<V>>
    var hints: seq<Notice>
    var hasArgumentOverrides: bool

    constructor (configFileExists: bool, configPath: string)
      ensures this.configFileExists == configFileExists && this.configPath == configPath
      ensures deprecations == [] && errors == [] && hints == []
      ensures !hasArgumentOverrides
    {
      this.configFileExists := configFileExists;
      this.configPath := configPath;
      deprecations := [];
      errors := [];
      hints := [];
      hasArgumentOverrides := false;
    }

    method Deprecated(path: string, messages: seq<string>)
      modifies this
      ensures deprecations == old(deprecations) + [Notice(path, messages)]
      ensures errors == old(errors) && hints == old(hints)
      ensures configFileExists == old(configFileExists) && configPath == old(configPath)
      ensures hasArgumentOverrides == old(hasArgumentOverrides)
    {
      deprecations := deprecations + [Notice(path, messages)];
    }

    method Error(path: string, value: V, message: string)
      modifies this
      ensures errors == old(errors) + [ConfigError(path, value, message)]
      ensures deprecations == old(deprecations) && hints == old(hints)
      ensures configFileExists == old(configFileExists) && configPath == old(configPath)
      ensures hasArgumentOverrides == old(hasArgumentOverrides)
    {
      errors := errors + [ConfigError(path, value, message)];
    }

    function HasErrors(): (r: bool)
      reads this
      ensures r <==> errors != []
    {
      |errors| > 0
    }

    function HasSomethingToReport(): (r: bool)
      reads this
      ensures r <==> errors != [] || deprecations != [] || hints != []
      ensures HasErrors() ==> r
    {
      |errors| + |deprecations| + |hints| > 0
    }

    method Hint(path: string, messages: seq<string>)
      modifies this
      ensures hints == old(hints) + [Notice(path, messages)]
      ensures errors == old(errors) && deprecations == old(deprecations)
      ensures configFileExists == old(configFileExists) && configPath == old(configPath)
      ensures hasArgumentOverrides == old(hasArgumentOverrides)
    {
      hints := hints + [Notice(path, messages)];
    }

    /** Where the reported config came from. */
    function GetConfigSource(): (r: string)
      reads this
      ensures configFileExists && !hasArgumentOverrides ==> r == configPath
      ensures configFileExists && hasArgumentOverrides ==> r == configPath + " (with CLI argument overrides)"
      ensures !configFileExists && hasArgumentOverrides ==> r == "config via CLI arguments"
      ensures !configFileExists && !hasArgumentOverrides ==> r == "funsies"
    {
      if configFileExists then
        configPath + (if hasArgumentOverrides then " (with CLI argument overrides)" else "")
      else if hasArgumentOverrides then "config via CLI arguments"
      else "funsies"
    }

    /** The report's lines, pushed one by one, and their newline-joined text. */
    method GetReport(inspect: V -> string) returns (report: seq<string>, text: string)
      ensures report == RenderReport(GetConfigSource(), errors, deprecations, hints, inspect)
      ensures text == Join(report, "\n")
    {
      report := [Title(GetConfigSource()), ""];
      if !HasSomethingToReport() {
        report := report + [NOTHING_TO_REPORT];
        text := Join(report, "\n");
        return;
      }

      ghost var header := report;
      report := AppendErrorSection(report, errors, inspect);
      ghost var withErrors := report;
      report := AppendNoticeSection(report, "Deprecation Warning", WARNING, deprecations);
      ghost var withDeprecations := report;
      report := AppendNoticeSection(report, "Hint", INFO, hints);
      ConcatRightNested(header, ErrorSection(errors, inspect),
        NoticeSection("Deprecation Warning", WARNING, deprecations), NoticeSection("Hint", INFO, hints));

      text := Join(report, "\n");
    }
  }
}
