/** `install_files` and `setup_env` as revised: package names are trimmed and
    empty ones dropped, a missing HOME reads as "", `${HOME}` segments are
    replaced only when HOME is non-empty, a package without data URLs downloads
    nothing, and `setup_env` exports the paths of what was just installed. */
module DataDependenciesRev1 {
  import opened Wrappers
  import opened Strings
  import opened InstallPlan

  /** `[p.strip() for p in pieces if p.strip()]` */
  function CleanNames(pieces: seq<string>): (names: seq<string>)
    ensures |names| <= |pieces|
    ensures forall k :: 0 <= k < |names| ==> names[k] != [] && !IsSpace(names[k][0]) && !IsSpace(names[k][|names[k]| - 1])
  {
    if |pieces| == 0 then []
    else
      var init := CleanNames(pieces[..|pieces| - 1]);
      var name := Strip(pieces[|pieces| - 1]);
      if name != [] then init + [name] else init
  }

  /** The names a `packages` argument lists: the trimmed, non-empty pieces of the
      string between commas, or the list as given. */
  function Requested(arg: PackagesArg): (names: seq<string>)
    ensures arg.PackageText? ==> names == CleanNames(Split(arg.text, ','))
    ensures arg.PackageList? ==> names == arg.names
  {
    match arg
    case PackageText(text) => CleanNames(Split(text, ','))
    case PackageList(names) => names
    case NoPackages => []
  }

  /** A name without surrounding whitespace is its own strip. */
  lemma StripKeeps(s: string)
    requires s != [] && !IsSpace(s[0]) && !IsSpace(s[|s| - 1])
    ensures Strip(s) == s
  {
  }

  /** A space in front of a name is stripped away. */
  lemma StripLeadingSpace(s: string)
    ensures Strip(" " + s) == Strip(s)
  {
    assert (" " + s)[1..] == s;
  }

  /** Two pieces that strip to non-empty names give those two names. */
  lemma CleanNamesTwo(x: string, y: string)
    requires Strip(x) != [] && Strip(y) != []
    ensures CleanNames([x, y]) == [Strip(x), Strip(y)]
  {
    assert [x, y][..1] == [x];
    assert [x][..0] == [];
  }

  /** A list typed with a space after the comma still names both packages. */
  lemma SpacedListKeepsPackage(a: string, b: string)
    requires ',' !in a && ',' !in b
    requires a != [] && !IsSpace(a[0]) && !IsSpace(a[|a| - 1])
    requires b != [] && !IsSpace(b[0]) && !IsSpace(b[|b| - 1])
    ensures Requested(PackageText(a + ", " + b)) == [a, b]
  {
    assert a + ", " + b == a + [','] + (" " + b);
    SplitTwo(a, " " + b, ',');
    StripKeeps(a);
    StripLeadingSpace(b);
    StripKeeps(b);
    CleanNamesTwo(a, " " + b);
  }

  /** `os.environ.get("HOME", "")` */
  function Home(env: Environment): (home: string)
    ensures "HOME" in env ==> home == env["HOME"]
    ensures "HOME" !in env ==> home == ""
  {
    if "HOME" in env then env["HOME"] else ""
  }

  /** A segment becomes HOME when it mentions `${HOME}` and HOME is non-empty. */
  function Substitute(parts: seq<string>, home: string): (r: seq<string>)
    ensures |r| == |parts|
  {
    seq(|parts|, i requires 0 <= i < |parts| => if Contains(parts[i], HomeToken) && home != "" then home else parts[i])
  }

  /** The install path with `${HOME}` segments resolved. */
  function ReplaceHome(path: string, home: string): string
  {
    Join(Substitute(Split(path, '/'), home), "/")
  }

  /** Without a HOME the install path is used exactly as written. */
  lemma EmptyHomeKeepsPath(path: string)
    ensures ReplaceHome(path, "") == path
  {
    assert Substitute(Split(path, '/'), "") == Split(path, '/');
    JoinSplit(path, '/');
  }

  /** With a HOME a leading `${HOME}` segment becomes HOME and the rest is kept. */
  lemma ReplaceHomeLeading(rest: string, home: string)
    requires home != ""
    requires forall k :: 0 <= k < |Split(rest, '/')| ==> !Contains(Split(rest, '/')[k], HomeToken)
    ensures ReplaceHome(HomeToken + "/" + rest, home) == home + "/" + rest
  {
    HomeLeadingSplit(rest);
    SubstituteLeading(Split(rest, '/'), home);
    JoinHomeLeading(home, rest);
  }

  /** The leading `${HOME}` segment is the only one substituted. */
  lemma SubstituteLeading(tail: seq<string>, home: string)
    requires home != ""
    requires forall k :: 0 <= k < |tail| ==> !Contains(tail[k], HomeToken)
    ensures Substitute([HomeToken] + tail, home) == [home] + tail
  {
    HomeTokenMentioned();
    var mapped := Substitute([HomeToken] + tail, home);
    assert mapped[0] == home;
    assert forall k :: 1 <= k < |mapped| ==> mapped[k] == tail[k - 1];
  }

  /** The body of the package loop for one package. A package without
      `data_url` downloads nothing but still gets its entry. */
  function OutcomeOf(p: Package, env: Environment, home: string): (r: Result<Outcome>)
    ensures p.info.environmentVariable.None? ==> r == Raise(KeyError("environment_variable"))
    ensures r.Ok? ==> p.info.environmentVariable == Some(r.value.variable)
    ensures r.Ok? <==>
      (p.info.environmentVariable.Some? &&
       (IsSet(env, p.info.environmentVariable.value) || (p.info.installPath.Some? && p.info.dataPath.Some?)))
    ensures r.Ok? ==> (r.value.entry.preInstalled <==> IsSet(env, r.value.variable))
    ensures r.Ok? && IsSet(env, r.value.variable) ==> r.value.entry == Entry(env[r.value.variable], true) && r.value.steps == []
    ensures r.Ok? && !IsSet(env, r.value.variable) ==>
      var dir := ReplaceHome(p.info.installPath.value, home);
      var urls := if p.info.dataUrl.Some? then p.info.dataUrl.value else [];
      r.value.entry == Entry(PathJoin(dir, p.info.dataPath.value), false) &&
      r.value.steps == [EnsureDir(dir)] + FetchSteps(urls, dir)
  {
    if p.info.environmentVariable.None? then Raise(KeyError("environment_variable"))
    else
      var envvar := p.info.environmentVariable.value;
      if IsSet(env, envvar) then Ok(Outcome(envvar, Entry(env[envvar], true), []))
      else if p.info.installPath.None? then Raise(KeyError("install_path"))
      else
        var dir := ReplaceHome(p.info.installPath.value, home);
        var urls := if p.info.dataUrl.Some? then p.info.dataUrl.value else [];
        if p.info.dataPath.None? then Raise(KeyError("data_path"))
        else Ok(Outcome(envvar, Entry(PathJoin(dir, p.info.dataPath.value), false),
                        [EnsureDir(dir)] + FetchSteps(urls, dir)))
  }

  /** The result of the package loop over `pkgs` in environment `env`. */
  function PlanOf(pkgs: seq<Package>, env: Environment): Result<Plan> {
    Fold(Outcomes(pkgs, p => OutcomeOf(p, env, Home(env))))
  }

  /** `install_files` on the parsed YAML section: filter, then run the package
      loop with HOME defaulting to "". */
  method InstallFiles(yf: seq<Package>, packages: PackagesArg, env: Environment) returns (r: Result<Plan>)
    ensures r == PlanOf(Selected(yf, packages, Requested(packages)), env)
  {
    var pkgs := yf;
    if Truthy(packages) {
      pkgs := PopUnlisted(yf, Requested(packages));
    }
    r := RunPackages(pkgs, p => OutcomeOf(p, env, Home(env)));
  }

  /** The variables `setup_env` assigns: those of packages just installed. */
  function Installed(result: map<string, Entry>): (vs: set<string>)
    ensures forall v :: v in vs <==> v in result && !result[v].preInstalled
  {
    set v | v in result && !result[v].preInstalled
  }

  /** The environment after `setup_env`: installed paths exported, every other
      variable as it was. */
  function Exported(env: Environment, result: map<string, Entry>): (env2: Environment)
    ensures forall v :: v in env2 <==> v in env || v in Installed(result)
    ensures forall v :: v in Installed(result) ==> env2[v] == result[v].path
    ensures forall v :: v in env && v !in Installed(result) ==> env2[v] == env[v]
  {
    map v | v in env.Keys + Installed(result) :: if v in Installed(result) then result[v].path else env[v]
  }

  /** The process environment `setup_env` writes to. */
  class ProcessEnvironment {
    var vars: Environment

    constructor (vars: Environment)
      ensures this.vars == vars
    {
      this.vars := vars;
    }

    /** `setup_env`: every entry that was not pre-installed is exported; the
        others are left untouched. */
    method SetupEnv(result: map<string, Entry>)
      modifies this
      ensures vars == Exported(old(vars), result)
    {
      var todo := result.Keys;
      while todo != {}
        invariant todo <= result.Keys
        invariant forall v :: v in vars <==> v in old(vars) || (v in Installed(result) && v !in todo)
        invariant forall v :: v in vars ==>
          vars[v] == if v in Installed(result) && v !in todo then result[v].path else old(vars)[v]
        decreases todo
      {
        var k :| k in todo;
        if !result[k].preInstalled {
          vars := vars[k := result[k].path];
        }
        todo := todo - {k};
      }
      assert forall v :: v in vars <==> v in Exported(old(vars), result);
    }
  }

  /** Installing again after `setup_env` finds every package in place: the same
      variables, each pre-installed with the path the first run gave it, and
      nothing left to download. */
  lemma SecondInstallFindsEverything(pkgs: seq<Package>, env: Environment)
    requires PlanOf(pkgs, env).Ok?
    requires forall v :: v in PlanOf(pkgs, env).value.result ==> PlanOf(pkgs, env).value.result[v].path != Unset
    ensures var plan := PlanOf(pkgs, env).value;
      var again := PlanOf(pkgs, Exported(env, plan.result));
      again.Ok? && again.value.steps == [] && again.value.result.Keys == plan.result.Keys &&
      forall v :: v in plan.result ==> again.value.result[v] == Entry(plan.result[v].path, true)
  {
    var outs := Outcomes(pkgs, p => OutcomeOf(p, env, Home(env)));
    var plan := Fold(outs).value;
    var env2 := Exported(env, plan.result);
    var outs2 := Outcomes(pkgs, p => OutcomeOf(p, env2, Home(env2)));
    assert forall i :: 0 <= i < |outs| ==> outs[i] == OutcomeOf(pkgs[i], env, Home(env));
    assert forall i :: 0 <= i < |outs2| ==> outs2[i] == OutcomeOf(pkgs[i], env2, Home(env2));
    FoldKeys(outs);
    FoldEntryFrom(outs);
    forall v | v in plan.result
      ensures IsSet(env2, v) && env2[v] == plan.result[v].path
    {
      var j :| 0 <= j < |outs| && outs[j].Ok? && outs[j].value.variable == v && plan.result[v] == outs[j].value.entry;
      if plan.result[v].preInstalled {
        assert IsSet(env, v);
      }
    }
    forall i | 0 <= i < |outs2|
      ensures outs2[i] == Ok(Outcome(outs[i].value.variable, Entry(plan.result[outs[i].value.variable].path, true), []))
    {
      assert outs[i].Ok?;
      assert outs[i].value.variable in plan.result;
    }
    FoldOk(outs2);
    FoldNoSteps(outs2);
    FoldKeys(outs2);
    FoldEntryFrom(outs2);
    var again := Fold(outs2).value;
    forall v | v in plan.result
      ensures v in again.result && again.result[v] == Entry(plan.result[v].path, true)
    {
      var i :| 0 <= i < |outs| && outs[i].Ok? && outs[i].value.variable == v;
      assert outs2[i].value.variable == v;
      var j :| 0 <= j < |outs2| && outs2[j].Ok? && outs2[j].value.variable == v && again.result[v] == outs2[j].value.entry;
      assert outs[j].value.variable == v;
    }
    forall v | v in again.result
      ensures v in plan.result
    {
      var j :| 0 <= j < |outs2| && outs2[j].Ok? && outs2[j].value.variable == v && again.result[v] == outs2[j].value.entry;
      assert outs[j].value.variable == v;
    }
  }
}
