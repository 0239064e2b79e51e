/** `install_files` as first written: the `packages` string is split on ','
    as it is, HOME must be in the environment, every install-path segment that
    mentions `${HOME}` becomes HOME, and a package must list its data URLs. */
module DataDependencies {
  import opened Wrappers
  import opened Strings
  import opened InstallPlan

  /** The names a `packages` argument lists: the pieces of the string between
      commas, spaces included, or the list as given. */
  function Requested(arg: PackagesArg): (names: seq<string>)
    ensures arg.PackageText? ==> names == Split(arg.text, ',')
    ensures arg.PackageList? ==> names == arg.names
  {
    match arg
    case PackageText(text) => Split(text, ',')
    case PackageList(names) => names
    case NoPackages => []
  }

  /** `[home if '${HOME}' in tp else tp for tp in parts]` */
  function Substitute(parts: seq<string>, home: string): (r: seq<string>)
    ensures |r| == |parts|
  {
    seq(|parts|, i requires 0 <= i < |parts| => if Contains(parts[i], HomeToken) then home else parts[i])
  }

  /** The install path with every segment that mentions `${HOME}` replaced by HOME. */
  function ReplaceHome(path: string, home: string): string
  {
    Join(Substitute(Split(path, '/'), home), "/")
  }

  /** A path none of whose segments mentions `${HOME}` is kept as it is. */
  lemma ReplaceHomeKeeps(path: string, home: string)
    requires forall k :: 0 <= k < |Split(path, '/')| ==> !Contains(Split(path, '/')[k], HomeToken)
    ensures ReplaceHome(path, home) == path
  {
    assert Substitute(Split(path, '/'), home) == Split(path, '/');
    JoinSplit(path, '/');
  }

  /** A leading `${HOME}` segment becomes HOME and the rest is kept. */
  lemma ReplaceHomeLeading(rest: string, home: string)
    requires forall k :: 0 <= k < |Split(rest, '/')| ==> !Contains(Split(rest, '/')[k], HomeToken)
    ensures ReplaceHome(HomeToken + "/" + rest, home) == home + "/" + rest
  {
    HomeLeadingSplit(rest);
    SubstituteLeading(Split(rest, '/'), home);
    JoinHomeLeading(home, rest);
  }

  /** The leading `${HOME}` segment is the only one substituted. */
  lemma SubstituteLeading(tail: seq<string>, home: string)
    requires forall k :: 0 <= k < |tail| ==> !Contains(tail[k], HomeToken)
    ensures Substitute([HomeToken] + tail, home) == [home] + tail
  {
    HomeTokenMentioned();
    var mapped := Substitute([HomeToken] + tail, home);
    assert mapped[0] == home;
    assert forall k :: 1 <= k < |mapped| ==> mapped[k] == tail[k - 1];
  }

  /** The body of the package loop for one package. */
  function OutcomeOf(p: Package, env: Environment, home: string): (r: Result<Outcome>)
    ensures p.info.environmentVariable.None? ==> r == Raise(KeyError("environment_variable"))
    ensures r.Ok? ==> p.info.environmentVariable == Some(r.value.variable)
    ensures r.Ok? <==>
      (p.info.environmentVariable.Some? &&
       (IsSet(env, p.info.environmentVariable.value) ||
        (p.info.installPath.Some? && p.info.dataUrl.Some? && p.info.dataPath.Some?)))
    ensures r.Ok? ==> (r.value.entry.preInstalled <==> IsSet(env, r.value.variable))
    ensures r.Ok? && IsSet(env, r.value.variable) ==> r.value.entry == Entry(env[r.value.variable], true) && r.value.steps == []
    ensures r.Ok? && !IsSet(env, r.value.variable) ==>
      var dir := ReplaceHome(p.info.installPath.value, home);
      r.value.entry == Entry(PathJoin(dir, p.info.dataPath.value), false) &&
      r.value.steps == [EnsureDir(dir)] + FetchSteps(p.info.dataUrl.value, dir)
  {
    if p.info.environmentVariable.None? then Raise(KeyError("environment_variable"))
    else
      var envvar := p.info.environmentVariable.value;
      if IsSet(env, envvar) then Ok(Outcome(envvar, Entry(env[envvar], true), []))
      else if p.info.installPath.None? then Raise(KeyError("install_path"))
      else
        var dir := ReplaceHome(p.info.installPath.value, home);
        if p.info.dataUrl.None? then Raise(KeyError("data_url"))
        else if p.info.dataPath.None? then Raise(KeyError("data_path"))
        else Ok(Outcome(envvar, Entry(PathJoin(dir, p.info.dataPath.value), false),
                        [EnsureDir(dir)] + FetchSteps(p.info.dataUrl.value, dir)))
  }

  /** `install_files` on the parsed YAML section: filter, read HOME (KeyError
      when it is missing, even before any package is looked at), then run the
      package loop. */
  method InstallFiles(yf: seq<Package>, packages: PackagesArg, env: Environment) returns (r: Result<Plan>)
    ensures "HOME" !in env ==> r == Raise(KeyError("HOME"))
    ensures "HOME" in env ==>
      r == Fold(Outcomes(Selected(yf, packages, Requested(packages)), p => OutcomeOf(p, env, env["HOME"])))
  {
    var pkgs := yf;
    if Truthy(packages) {
      pkgs := PopUnlisted(yf, Requested(packages));
    }
    if "HOME" !in env {
      return Raise(KeyError("HOME"));
    }
    r := RunPackages(pkgs, p => OutcomeOf(p, env, env["HOME"]));
  }

  /** The entry a selected package leaves in the result, when no later package
      uses its variable: the environment's value, pre-installed, when the
      variable is set; otherwise the data path under the resolved install path. */
  lemma EntryOfPackage(pkgs: seq<Package>, env: Environment, home: string, i: nat)
    requires Fold(Outcomes(pkgs, p => OutcomeOf(p, env, home))).Ok?
    requires i < |pkgs| && pkgs[i].info.environmentVariable.Some?
    requires forall j :: i < j < |pkgs| ==> pkgs[j].info.environmentVariable != pkgs[i].info.environmentVariable
    ensures var v := pkgs[i].info.environmentVariable.value;
      IsSet(env, v) || (pkgs[i].info.installPath.Some? && pkgs[i].info.dataPath.Some?)
    ensures var v := pkgs[i].info.environmentVariable.value;
      var result := Fold(Outcomes(pkgs, p => OutcomeOf(p, env, home))).value.result;
      v in result &&
      result[v] == if IsSet(env, v) then Entry(env[v], true)
                   else Entry(PathJoin(ReplaceHome(pkgs[i].info.installPath.value, home), pkgs[i].info.dataPath.value), false)
  {
    var outs := Outcomes(pkgs, p => OutcomeOf(p, env, home));
    FoldLastWins(outs, i);
    FoldOk(outs);
    assert outs[i].Ok?;
    assert forall j :: i < j < |outs| ==> outs[j].value.variable != outs[i].value.variable by {
      forall j | i < j < |outs|
        ensures outs[j].value.variable != outs[i].value.variable
      {
        assert outs[j].Ok?;
      }
    }
  }

  /** A list typed with a space after the comma names " b", not "b": the package
      "b" is never installed. */
  lemma SpacedListDropsPackage(yf: seq<Package>, a: string, b: string)
    requires ',' !in a && ',' !in b && a != b
    ensures b !in Requested(PackageText(a + ", " + b))
    ensures forall p :: p in Selected(yf, PackageText(a + ", " + b), Requested(PackageText(a + ", " + b))) ==> p.name != b
  {
    assert a + ", " + b == a + [','] + (" " + b);
    SplitTwo(a, " " + b, ',');
    assert |" " + b| != |b|;
  }
}
