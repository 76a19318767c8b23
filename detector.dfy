/** Finding an installed tool: `MultiDetector` asks the Homebrew, npm and
    PATH detectors in that order, and for markdownlint tries three
    executable names, each across every detector, before the next; and the
    text shown when the tool is missing. The detectors themselves run
    processes and read the file system; they are not part of this model and
    appear as an oracle: the answer each detector gives for each name. */
module Detector {
  import opened Text

  datatype Source = Brew | Npm | System

  /** `NewMultiDetector`: the detectors in the order they are asked. */
  const Detectors: seq<Source> := [Brew, Npm, System]

  /** One detector's answer: installed or not, the path, and whether it
      returned an error. */
  datatype Probe = Probe(installed: bool, path: string, failed: bool)

  /** What every detector answers for every name. */
  type Oracle = (Source, string) -> Probe

  /** An answer the search stops at: installed, with no error. */
  predicate Accepted(p: Probe) {
    !p.failed && p.installed
  }

  /** The first of `ds`, from position `from` on, that accepts `name`. */
  function FirstHit(ds: seq<Source>, name: string, probe: Oracle, from: nat): (r: Option<nat>)
    requires from <= |ds|
    ensures r.Some? ==> from <= r.value < |ds| && Accepted(probe(ds[r.value], name))
    ensures r.Some? ==> forall d :: from <= d < r.value ==> !Accepted(probe(ds[d], name))
    ensures r.None? ==> forall d :: from <= d < |ds| ==> !Accepted(probe(ds[d], name))
    decreases |ds| - from
  {
    if from == |ds| then None
    else if Accepted(probe(ds[from], name)) then Some(from)
    else FirstHit(ds, name, probe, from + 1)
  }

  /** A hit: which name, and which detector accepted it. */
  datatype Hit = Hit(name: nat, detector: nat)

  /** Name-major order: every detector is asked for one name before any is
      asked for the next. */
  predicate AskedBefore(n: nat, d: nat, h: Hit) {
    n < h.name || (n == h.name && d < h.detector)
  }

  /** The first name of `names`, from position `k` on, that some detector
      accepts, with the first detector that accepts it. */
  function Search(names: seq<string>, ds: seq<Source>, probe: Oracle, k: nat): (r: Option<Hit>)
    requires k <= |names|
    ensures r.Some? ==> k <= r.value.name < |names| && r.value.detector < |ds|
    ensures r.Some? ==> Accepted(probe(ds[r.value.detector], names[r.value.name]))
    ensures r.Some? ==> forall n, d :: k <= n < |names| && 0 <= d < |ds| && AskedBefore(n, d, r.value)
                          ==> !Accepted(probe(ds[d], names[n]))
    ensures r.None? ==> forall n, d :: k <= n < |names| && 0 <= d < |ds| ==> !Accepted(probe(ds[d], names[n]))
    decreases |names| - k
  {
    if k == |names| then None
    else match FirstHit(ds, names[k], probe, 0)
      case Some(d) => Some(Hit(k, d))
      case None => Search(names, ds, probe, k + 1)
  }

  /** The names tried for `tool`: markdownlint-cli2, markdownlint-cli and
      markdownlint, in that order, for "markdownlint"; the tool itself for
      any other tool. */
  function Candidates(tool: string): seq<string> {
    if tool == "markdownlint" then ["markdownlint-cli2", "markdownlint-cli", "markdownlint"] else [tool]
  }

  /** `IsInstalled`'s three results. The error is never set. */
  datatype Detection = Detection(installed: bool, path: string, err: Option<string>)

  /** `MultiDetector.IsInstalled`: the path of the first accepted answer in
      name-major order, or not installed with an empty path. A detector
      that fails is passed over. */
  function IsInstalled(probe: Oracle, tool: string): (r: Detection)
    ensures r.err == None
    ensures !r.installed ==> r.path == ""
    ensures r.installed <==> exists n, d :: 0 <= n < |Candidates(tool)| && 0 <= d < |Detectors|
                                            && Accepted(probe(Detectors[d], Candidates(tool)[n]))
  {
    var names := Candidates(tool);
    match Search(names, Detectors, probe, 0)
    case Some(h) => Detection(true, probe(Detectors[h.detector], names[h.name]).path, None)
    case None => Detection(false, "", None)
  }

  /** For any tool but markdownlint: the path of the first detector that
      accepts the tool itself. */
  lemma FirstDetectorWins(probe: Oracle, tool: string, d: nat)
    requires tool != "markdownlint" && d < |Detectors| && Accepted(probe(Detectors[d], tool))
    requires forall e :: 0 <= e < d ==> !Accepted(probe(Detectors[e], tool))
    ensures IsInstalled(probe, tool) == Detection(true, probe(Detectors[d], tool).path, None)
  {
    var h := Search(Candidates(tool), Detectors, probe, 0);
    assert Accepted(probe(Detectors[d], Candidates(tool)[0]));
    assert h.Some?;
  }

  /** For markdownlint: once any detector has markdownlint-cli2, the first
      such detector's path is the answer, whatever any detector says about
      the older names. */
  lemma Cli2Preferred(probe: Oracle, d: nat)
    requires d < |Detectors| && Accepted(probe(Detectors[d], "markdownlint-cli2"))
    requires forall e :: 0 <= e < d ==> !Accepted(probe(Detectors[e], "markdownlint-cli2"))
    ensures IsInstalled(probe, "markdownlint")
            == Detection(true, probe(Detectors[d], "markdownlint-cli2").path, None)
  {
    var names := Candidates("markdownlint");
    var h := Search(names, Detectors, probe, 0);
    assert Accepted(probe(Detectors[d], names[0]));
    assert h.Some?;
  }

  /** No name is used while an earlier name is found by some detector: for
      markdownlint, the plain "markdownlint" executable only when neither
      markdownlint-cli2 nor markdownlint-cli is found anywhere. */
  lemma EarlierNamesFirst(names: seq<string>, probe: Oracle, n: nat, d: nat)
    requires n < |names| && d < |Detectors| && Accepted(probe(Detectors[d], names[n]))
    ensures Search(names, Detectors, probe, 0).Some?
    ensures Search(names, Detectors, probe, 0).value.name <= n
  {
  }

  // ---------------------------------------------------------------------
  // GetInstallInstructions

  /** The markdownlint executables share one set of instructions. */
  predicate IsMarkdownlintName(tool: string) {
    tool == "markdownlint" || tool == "markdownlint-cli" || tool == "markdownlint-cli2"
  }

  /** The first line, naming the missing tool. */
  function Opening(tool: string): string {
    "Error: " + tool + " is not installed"
  }

  function InstallHeader(tool: string): string {
    Opening(tool) + "\n\n"
    + "Marvin requires " + tool + " to run this check.\n\n"
    + "Installation options:\n\n"
  }

  const AfterInstall := "\nAfter installation, run this command again.\n"

  /** Homebrew, npm and the manual page. */
  const ValeOptions :=
    "  Homebrew (recommended):\n" + "    brew install vale\n\n"
    + "  npm:\n" + "    npm install -g vale\n\n"
    + "  Manual:\n" + "    https://vale.sh/docs/vale-cli/installation/\n"

  /** npm for either CLI, Homebrew, and the two project pages. */
  const MarkdownlintOptions :=
    "  npm (recommended):\n" + "    npm install -g markdownlint-cli2\n\n"
    + "  npm (alternative):\n" + "    npm install -g markdownlint-cli\n\n"
    + "  Homebrew:\n" + "    brew install markdownlint-cli\n\n"
    + "  Manual:\n" + "    https://github.com/DavidAnson/markdownlint-cli2\n"
    + "    https://github.com/igorshubovych/markdownlint-cli\n"

  function GenericOption(tool: string): string {
    "  Please install " + tool + " and ensure it's in your PATH\n"
  }

  /** The tool-specific options: Vale's, markdownlint's for each of its
      three names, and the generic PATH line for anything else. */
  function InstallOptions(tool: string): string {
    if tool == "vale" then ValeOptions
    else if IsMarkdownlintName(tool) then MarkdownlintOptions
    else GenericOption(tool)
  }

  function InstallText(tool: string): string {
    InstallHeader(tool) + InstallOptions(tool) + AfterInstall
  }

  /** `GetInstallInstructions`: the header naming the tool, its options,
      and the closing line. */
  method GetInstallInstructions(tool: string) returns (instructions: string)
    ensures instructions == InstallText(tool)
  {
    instructions := Opening(tool) + "\n\n";
    instructions := instructions + "Marvin requires " + tool + " to run this check.\n\n";
    instructions := instructions + "Installation options:\n\n";
    if tool == "vale" {
      instructions := instructions + ValeOptions;
    } else if IsMarkdownlintName(tool) {
      instructions := instructions + MarkdownlintOptions;
    } else {
      instructions := instructions + GenericOption(tool);
    }
    instructions := instructions + AfterInstall;
  }

  /** Every text opens by naming the missing tool and closes with the
      request to run the command again. */
  lemma InstallTextFrame(tool: string)
    ensures "Error: " + tool + " is not installed" <= InstallText(tool)
    ensures EndsWith(InstallText(tool), "\nAfter installation, run this command again.\n")
  {
    var o := Opening(tool);
    var a1 := o + "\n\n";
    var a2 := a1 + "Marvin requires ";
    var a3 := a2 + tool;
    var a4 := a3 + " to run this check.\n\n";
    PrefixAppend(o, o, "\n\n");
    PrefixAppend(o, a1, "Marvin requires ");
    PrefixAppend(o, a2, tool);
    PrefixAppend(o, a3, " to run this check.\n\n");
    PrefixAppend(o, a4, "Installation options:\n\n");
    var body := InstallHeader(tool) + InstallOptions(tool);
    PrefixAppend(o, InstallHeader(tool), InstallOptions(tool));
    PrefixAppend(o, body, AfterInstall);
    EndsWithAppend(body, AfterInstall);
  }

  /** The three markdownlint names get the same options. */
  lemma MarkdownlintNamesAgree(a: string, b: string)
    requires IsMarkdownlintName(a) && IsMarkdownlintName(b)
    ensures InstallOptions(a) == InstallOptions(b)
  {
  }

  /** A tool with no instructions of its own gets the generic PATH line,
      naming it. */
  lemma UnknownToolGeneric(tool: string)
    requires tool != "vale" && !IsMarkdownlintName(tool)
    ensures "  Please install " + tool <= InstallOptions(tool)
    ensures InstallOptions(tool) != InstallOptions("vale")
    ensures InstallOptions(tool) != InstallOptions("markdownlint")
  {
    var o := InstallOptions(tool);
    assert o[..|"  Please install " + tool|] == "  Please install " + tool;
    assert o[2] == 'P';
    assert ValeOptions[2] == 'H';
    assert MarkdownlintOptions[2] == 'n';
  }
}
