/** What both revisions of `install_files` share: the `install_files` section of
    the dependencies YAML, the result record per environment variable, the
    package filter, `os.path.join`, the file name of a download URL, and the
    package loop that accumulates per-package outcomes into the result
    dictionary, each revision supplying its own per-package rule. Downloads,
    tarball extraction and directory creation are recorded as steps, not run. */
module InstallPlan {
  import opened Wrappers
  import opened Strings

  /** One package entry of the YAML file; a key the file leaves out is None. */
  datatype PackageInfo = PackageInfo(environmentVariable: Option<string>, installPath: Option<string>,
                                     dataUrl: Option<seq<string>>, dataPath: Option<string>)

  /** A package name with its entry, in file order. */
  datatype Package = Package(name: string, info: PackageInfo)

  /** The `packages` argument: None, a comma-separated string, or a list of names. */
  datatype PackagesArg = NoPackages | PackageText(text: string) | PackageList(names: seq<string>)

  /** `if packages:` — an empty string or an empty list counts as no filter. */
  predicate Truthy(arg: PackagesArg) {
    (arg.PackageText? && arg.text != "") || (arg.PackageList? && arg.names != [])
  }

  /** `{'path': ..., 'pre_installed': ...}` */
  datatype Entry = Entry(path: string, preInstalled: bool)

  /** The file-system and network work an install asks for. */
  datatype Step = EnsureDir(dir: string) | Fetch(url: string, fileName: string, into: string)

  /** What one package contributes: its environment variable, the entry for it
      and the steps taken for it. */
  datatype Outcome = Outcome(variable: string, entry: Entry, steps: seq<Step>)

  /** The returned dictionary together with every step taken, in order. */
  datatype Plan = Plan(result: map<string, Entry>, steps: seq<Step>)

  /** `os.environ` */
  type Environment = map<string, string>

  const Unset := "***unset***"
  const HomeToken := "${HOME}"

  /** The variable is in the environment and not marked as unset. */
  predicate IsSet(env: Environment, v: string) {
    v in env && env[v] != Unset
  }

  /** A path that starts with a `${HOME}` segment splits into that segment and
      the segments of the rest. */
  lemma HomeLeadingSplit(rest: string)
    ensures Split(HomeToken + "/" + rest, '/') == [HomeToken] + Split(rest, '/')
  {
    assert '/' !in HomeToken;
    assert HomeToken + "/" + rest == HomeToken + ['/'] + rest;
    SplitCons(HomeToken, rest, '/');
  }

  lemma HomeTokenMentioned()
    ensures Contains(HomeToken, HomeToken)
  {
    ContainsSlice(HomeToken, 0, |HomeToken|);
    assert HomeToken[0..|HomeToken|] == HomeToken;
  }

  /** Joining `home` in front of the segments of `rest` gives `home/rest`. */
  lemma JoinHomeLeading(home: string, rest: string)
    ensures Join([home] + Split(rest, '/'), "/") == home + "/" + rest
  {
    JoinCons(home, Split(rest, '/'), "/");
    JoinSplit(rest, '/');
  }

  /** The packages whose names are listed, in file order: what is left of the
      dictionary after popping every other key. */
  function Retained(yf: seq<Package>, names: seq<string>): (kept: seq<Package>)
    ensures |kept| <= |yf|
    ensures forall i :: 0 <= i < |kept| ==> kept[i] in yf && kept[i].name in names
    ensures forall p :: p in yf && p.name in names ==> p in kept
  {
    if |yf| == 0 then []
    else
      var init := Retained(yf[..|yf| - 1], names);
      var last := yf[|yf| - 1];
      assert forall p :: p in yf ==> p in yf[..|yf| - 1] || p == last;
      if last.name in names then init + [last] else init
  }

  /** Filtering distributes over concatenation, so the order of the file is kept. */
  lemma {:induction false} RetainedConcat(a: seq<Package>, b: seq<Package>, names: seq<string>)
    ensures Retained(a + b, names) == Retained(a, names) + Retained(b, names)
    decreases |b|
  {
    if |b| == 0 {
      assert a + b == a;
    } else {
      assert (a + b)[..|a + b| - 1] == a + b[..|b| - 1];
      RetainedConcat(a, b[..|b| - 1], names);
    }
  }

  /** One more package of the file is kept exactly when it is listed. */
  lemma RetainedStep(yf: seq<Package>, names: seq<string>, i: nat)
    requires i < |yf|
    ensures Retained(yf[..i + 1], names) == Retained(yf[..i], names) + if yf[i].name in names then [yf[i]] else []
  {
    assert yf[..i + 1][..i] == yf[..i];
  }

  /** The popping loop: every key that is not listed is removed. */
  method PopUnlisted(yf: seq<Package>, names: seq<string>) returns (kept: seq<Package>)
    ensures kept == Retained(yf, names)
  {
    kept := [];
    for i := 0 to |yf|
      invariant kept == Retained(yf[..i], names)
    {
      RetainedStep(yf, names, i);
      if yf[i].name in names {
        kept := kept + [yf[i]];
      }
    }
    assert yf[..|yf|] == yf;
  }

  /** `os.path.join(a, b)` for POSIX paths: an absolute `b` replaces `a`;
      otherwise one '/' separates them unless `a` is empty or already ends in one. */
  function PathJoin(a: string, b: string): (r: string)
    ensures |b| <= |r| && r[|r| - |b|..] == b
    ensures |b| > 0 && b[0] == '/' ==> r == b
    ensures !(|b| > 0 && b[0] == '/') ==> |a| <= |r| && r[..|a|] == a
    ensures !(|b| > 0 && b[0] == '/') && a != [] && a[|a| - 1] != '/' ==> |r| == |a| + 1 + |b| && r[|a|] == '/'
  {
    if |b| > 0 && b[0] == '/' then b
    else if a == [] || a[|a| - 1] == '/' then a + b
    else a + "/" + b
  }

  /** `url.split('/')[-1]`: what follows the last '/'. */
  function FileName(url: string): (r: string)
    ensures '/' !in r
    ensures |r| <= |url| && url[|url| - |r|..] == r
    ensures |r| < |url| ==> url[|url| - |r| - 1] == '/'
  {
    if url == [] || url[|url| - 1] == '/' then []
    else
      var init := url[..|url| - 1];
      var r := FileName(init);
      assert url[|url| - |r| - 1..] == init[|init| - |r|..] + [url[|url| - 1]];
      r + [url[|url| - 1]]
  }

  /** One download step per URL, into `dir`, in order. */
  function FetchSteps(urls: seq<string>, dir: string): (steps: seq<Step>)
    ensures |steps| == |urls|
    ensures forall i :: 0 <= i < |urls| ==> steps[i] == Fetch(urls[i], FileName(urls[i]), dir)
  {
    seq(|urls|, i requires 0 <= i < |urls| => Fetch(urls[i], FileName(urls[i]), dir))
  }

  /** The per-package loop: outcomes in order, each entry stored under its
      variable (a later one replaces an earlier one), the steps appended; the
      first package that raises ends the loop with its error. */
  function Fold(outs: seq<Result<Outcome>>): Result<Plan>
  {
    if |outs| == 0 then Ok(Plan(map[], []))
    else
      var before := Fold(outs[..|outs| - 1]);
      var last := outs[|outs| - 1];
      if before.Raise? then before
      else if last.Raise? then Raise(last.error)
      else Ok(Plan(before.value.result[last.value.variable := last.value.entry], before.value.steps + last.value.steps))
  }

  /** Once a prefix of the packages raises, the whole loop raises the same error. */
  lemma {:induction false} FoldPrefixRaise(outs: seq<Result<Outcome>>, k: nat)
    requires k <= |outs| && Fold(outs[..k]).Raise?
    ensures Fold(outs) == Fold(outs[..k])
    decreases |outs|
  {
    if k < |outs| {
      var init := outs[..|outs| - 1];
      assert init[..k] == outs[..k];
      FoldPrefixRaise(init, k);
    } else {
      assert outs[..k] == outs;
    }
  }

  /** The loop completes exactly when no package raises. */
  lemma {:induction false} FoldOk(outs: seq<Result<Outcome>>)
    ensures Fold(outs).Ok? <==> forall i :: 0 <= i < |outs| ==> outs[i].Ok?
  {
    if |outs| > 0 {
      var init := outs[..|outs| - 1];
      FoldOk(init);
      assert forall i :: 0 <= i < |outs| - 1 ==> init[i] == outs[i];
    }
  }

  /** When the loop raises, it raises the error of the first package that fails. */
  lemma {:induction false} FoldFirstError(outs: seq<Result<Outcome>>)
    requires Fold(outs).Raise?
    ensures exists i :: (0 <= i < |outs| && outs[i].Raise? && Fold(outs).error == outs[i].error &&
                         forall j :: 0 <= j < i ==> outs[j].Ok?)
  {
    var init := outs[..|outs| - 1];
    assert forall i :: 0 <= i < |outs| - 1 ==> init[i] == outs[i];
    if Fold(init).Raise? {
      FoldFirstError(init);
      var i :| 0 <= i < |init| && init[i].Raise? && Fold(init).error == init[i].error &&
        forall j :: 0 <= j < i ==> init[j].Ok?;
      assert outs[i] == init[i];
    } else {
      FoldOk(init);
      assert outs[|outs| - 1].Raise?;
    }
  }

  /** The dictionary has one key per variable of the packages processed. */
  lemma {:induction false} FoldKeys(outs: seq<Result<Outcome>>)
    requires Fold(outs).Ok?
    ensures forall i :: 0 <= i < |outs| ==> outs[i].Ok?
    ensures forall v :: v in Fold(outs).value.result <==>
      exists i :: 0 <= i < |outs| && outs[i].Ok? && outs[i].value.variable == v
  {
    FoldOk(outs);
    if |outs| > 0 {
      var init := outs[..|outs| - 1];
      FoldKeys(init);
      assert forall i :: 0 <= i < |outs| - 1 ==> init[i] == outs[i];
    }
  }

  /** Every entry of the dictionary is the entry of some package with that variable. */
  lemma {:induction false} FoldEntryFrom(outs: seq<Result<Outcome>>)
    requires Fold(outs).Ok?
    ensures forall v :: v in Fold(outs).value.result ==>
      exists j :: (0 <= j < |outs| && outs[j].Ok? && outs[j].value.variable == v &&
                   Fold(outs).value.result[v] == outs[j].value.entry)
  {
    if |outs| > 0 {
      var init := outs[..|outs| - 1];
      FoldEntryFrom(init);
      var last := outs[|outs| - 1];
      forall v | v in Fold(outs).value.result
        ensures exists j :: (0 <= j < |outs| && outs[j].Ok? && outs[j].value.variable == v &&
                             Fold(outs).value.result[v] == outs[j].value.entry)
      {
        if v == last.value.variable {
          assert outs[|outs| - 1] == last;
        } else {
          var j :| 0 <= j < |init| && init[j].Ok? && init[j].value.variable == v &&
            Fold(init).value.result[v] == init[j].value.entry;
          assert outs[j] == init[j];
        }
      }
    }
  }

  /** A variable that no later package uses keeps the entry of this package. */
  lemma {:induction false} FoldLastWins(outs: seq<Result<Outcome>>, i: nat)
    requires Fold(outs).Ok?
    requires i < |outs|
    ensures outs[i].Ok?
    ensures (forall j :: i < j < |outs| && outs[j].Ok? ==> outs[j].value.variable != outs[i].value.variable) ==>
      outs[i].value.variable in Fold(outs).value.result &&
      Fold(outs).value.result[outs[i].value.variable] == outs[i].value.entry
  {
    FoldOk(outs);
    if i < |outs| - 1 {
      var init := outs[..|outs| - 1];
      assert init[i] == outs[i];
      assert forall j :: i < j < |init| ==> init[j] == outs[j];
      FoldLastWins(init, i);
    }
  }

  /** Packages that need no work leave the step list empty. */
  lemma {:induction false} FoldNoSteps(outs: seq<Result<Outcome>>)
    requires Fold(outs).Ok?
    requires forall i :: 0 <= i < |outs| && outs[i].Ok? ==> outs[i].value.steps == []
    ensures Fold(outs).value.steps == []
  {
    if |outs| > 0 {
      var init := outs[..|outs| - 1];
      assert forall i :: 0 <= i < |init| ==> init[i] == outs[i];
      FoldNoSteps(init);
    }
  }

  // ---------------------------------------------------------------- the package loop

  /** The packages the loop goes over: all of them without a filter, otherwise
      those `names` lists, in file order. `names` is the list the revision reads
      from the `packages` argument. */
  function Selected(yf: seq<Package>, arg: PackagesArg, names: seq<string>): (pkgs: seq<Package>)
    ensures !Truthy(arg) ==> pkgs == yf
    ensures Truthy(arg) ==> pkgs == Retained(yf, names)
  {
    if Truthy(arg) then Retained(yf, names) else yf
  }

  /** Each package's outcome under a revision's per-package rule, in order. */
  function Outcomes(pkgs: seq<Package>, outcome: Package -> Result<Outcome>): (outs: seq<Result<Outcome>>)
    ensures |outs| == |pkgs| && forall i :: 0 <= i < |pkgs| ==> outs[i] == outcome(pkgs[i])
  {
    seq(|pkgs|, i requires 0 <= i < |pkgs| => outcome(pkgs[i]))
  }

  /** The package loop of `install_files`: each outcome stored under its
      variable and its steps appended, until a package raises. */
  method RunPackages(pkgs: seq<Package>, outcome: Package -> Result<Outcome>) returns (r: Result<Plan>)
    ensures r == Fold(Outcomes(pkgs, outcome))
  {
    ghost var outs := Outcomes(pkgs, outcome);
    var result: map<string, Entry> := map[];
    var steps: seq<Step> := [];
    for i := 0 to |pkgs|
      invariant Fold(outs[..i]) == Ok(Plan(result, steps))
    {
      assert outs[..i + 1][..i] == outs[..i];
      var out := outcome(pkgs[i]);
      if out.Raise? {
        FoldPrefixRaise(outs, i + 1);
        return Raise(out.error);
      }
      result := result[out.value.variable := out.value.entry];
      steps := steps + out.value.steps;
    }
    assert outs[..|pkgs|] == outs;
    return Ok(Plan(result, steps));
  }
}
