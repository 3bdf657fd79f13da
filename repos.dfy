/**
 * Cloning a repository into the build volume (repos.go): a `git clone` in a throw-away
 * container, followed by a fetch and a checkout when a branch, tag or commit is asked for.
 * The SSH agent of the caller is forwarded into the clone container.
 */
module Repos {
  import opened Wrappers
  import opened Text
  import Config
  import Container
  import Environment

  const GitImage := "alpine/git"
  const GitSshCommand := "GIT_SSH_COMMAND=ssh -o UserKnownHostsFile=/dev/null -o StrictHostKeyChecking=no"

  // ---------------------------------------------------------------- the reference

  /** The reference to check out: the commit if set, else the branch, else the tag (empty when none is set). */
  function Ref(repo: Config.Repository): string {
    if repo.commit != "" then repo.commit
    else if repo.branch != "" then repo.branch
    else repo.tag
  }

  /** repos.go lines 14-23: three successive assignments whose last effective one wins. */
  method SelectRef(repo: Config.Repository) returns (ref: string)
    ensures ref == Ref(repo)
  {
    ref := "";
    if |repo.branch| > 0 {
      ref := repo.branch;
    }
    if |ref| == 0 && |repo.tag| > 0 {
      ref := repo.tag;
    }
    if |ref| == 0 || |repo.commit| > 0 {
      ref := repo.commit;
    }
  }

  /** The reference is empty only when none of the three is set, and it always is one of them. */
  lemma RefPriority(repo: Config.Repository)
    ensures Ref(repo) == "" <==> repo.commit == "" && repo.branch == "" && repo.tag == ""
    ensures Ref(repo) == repo.commit || Ref(repo) == repo.branch || Ref(repo) == repo.tag
    ensures repo.commit != "" ==> Ref(repo) == repo.commit
    ensures repo.commit == "" && repo.branch != "" ==> Ref(repo) == repo.branch
  {
  }

  // ---------------------------------------------------------------- the clone command

  /** Whether the clone is shallow: asking for a reference switches a shallow clone off. */
  predicate Shallow(repo: Config.Repository) {
    repo.shallow && Ref(repo) == ""
  }

  /** The arguments of `git clone`. */
  function CloneArgs(repo: Config.Repository): seq<string> {
    ["clone"] + (if Shallow(repo) then ["--depth", "1"] else []) + [repo.location]
      + (if repo.directory != "" then [repo.directory] else [])
  }

  /** repos.go lines 24-36. */
  method CloneCommand(repo: Config.Repository, ref: string) returns (args: seq<string>)
    requires ref == Ref(repo)
    ensures args == CloneArgs(repo)
  {
    var shallow := repo.shallow;
    if |ref| > 0 {
      shallow := false;
    }
    args := ["clone"];
    if shallow {
      args := args + ["--depth", "1"];
    }
    args := args + [repo.location];
    if |repo.directory| > 0 {
      args := args + [repo.directory];
    }
  }

  /**
   * The clone command names the location right after `clone` and its depth option, and the
   * directory last when one is set; the depth option is there exactly for a shallow clone without
   * a reference.
   */
  lemma CloneArgsShape(repo: Config.Repository)
    ensures var args, o := CloneArgs(repo), if Shallow(repo) then 2 else 0;
      && |args| == 2 + o + (if repo.directory != "" then 1 else 0)
      && args[0] == "clone" && args[1 + o] == repo.location
      && (Shallow(repo) ==> args[1..3] == ["--depth", "1"])
      && (repo.directory != "" ==> args[|args| - 1] == repo.directory)
    ensures Ref(repo) != "" ==> CloneArgs(repo)[1] == repo.location
  {
  }

  // ---------------------------------------------------------------- the SSH agent

  /** Every entry named `name` carries a value, so that its second field exists. */
  predicate Readable(procEnv: seq<string>, name: string) {
    forall k :: 0 <= k < |procEnv| ==> Key(procEnv[k]) == name ==> '=' in procEnv[k]
  }

  /** The entries of the process environment named `name`, in order. */
  function Named(procEnv: seq<string>, name: string): (r: seq<string>)
    ensures forall e :: e in r ==> e in procEnv && Key(e) == name
  {
    if procEnv == [] then []
    else
      var last := procEnv[|procEnv| - 1];
      Named(procEnv[..|procEnv| - 1], name) + (if Key(last) == name then [last] else [])
  }

  /** A socket named by an entry, mounted at its own path. */
  function AgentBind(entry: string): Container.Mount
    requires '=' in entry
  {
    Container.Mount(Container.BindMount, SecondField(entry), SecondField(entry))
  }

  /** One bind per entry named `name`. */
  function NamedMounts(procEnv: seq<string>, name: string): seq<Container.Mount>
    requires Readable(procEnv, name)
  {
    if procEnv == [] then []
    else
      var last := procEnv[|procEnv| - 1];
      NamedMounts(procEnv[..|procEnv| - 1], name) + (if Key(last) == name then [AgentBind(last)] else [])
  }

  predicate AgentReadable(procEnv: seq<string>) {
    Readable(procEnv, Environment.AgentVariable)
  }

  /** The entries that name the agent socket. */
  function AgentEntries(procEnv: seq<string>): seq<string> {
    Named(procEnv, Environment.AgentVariable)
  }

  function AgentMounts(procEnv: seq<string>): seq<Container.Mount>
    requires AgentReadable(procEnv)
  {
    NamedMounts(procEnv, Environment.AgentVariable)
  }

  /** An entry is selected exactly when it is in the process environment under the name. */
  lemma {:induction false} NamedExactly(procEnv: seq<string>, name: string, e: string)
    ensures e in Named(procEnv, name) <==> e in procEnv && Key(e) == name
    decreases |procEnv|
  {
    if procEnv != [] {
      var init, last := procEnv[..|procEnv| - 1], procEnv[|procEnv| - 1];
      assert procEnv == init + [last];
      NamedExactly(init, name, e);
    }
  }

  /** Scanning two parts of the environment one after the other selects the entries of both. */
  lemma {:induction false} NamedAppend(a: seq<string>, b: seq<string>, name: string)
    ensures Named(a + b, name) == Named(a, name) + Named(b, name)
    decreases |b|
  {
    if b == [] {
      assert a + b == a;
    } else {
      var init, last := b[..|b| - 1], b[|b| - 1];
      assert (a + b)[..|a + b| - 1] == a + init;
      NamedAppend(a, init, name);
    }
  }

  /** The k-th bind mounts the socket of the k-th selected entry. */
  lemma {:induction false} NamedMountsMatch(procEnv: seq<string>, name: string)
    requires Readable(procEnv, name)
    ensures |NamedMounts(procEnv, name)| == |Named(procEnv, name)|
    ensures forall k :: 0 <= k < |NamedMounts(procEnv, name)| ==>
      '=' in Named(procEnv, name)[k] && NamedMounts(procEnv, name)[k] == AgentBind(Named(procEnv, name)[k])
    decreases |procEnv|
  {
    if procEnv != [] {
      var init := procEnv[..|procEnv| - 1];
      NamedMountsMatch(init, name);
    }
  }

  /** Extending the scanned part of the environment by one entry. */
  lemma ScanStep(procEnv: seq<string>, name: string, i: nat)
    requires Readable(procEnv, name) && i < |procEnv|
    ensures Readable(procEnv[..i], name) && Readable(procEnv[..i + 1], name)
    ensures var e := procEnv[i];
      && Named(procEnv[..i + 1], name) == Named(procEnv[..i], name) + (if Key(e) == name then [e] else [])
      && NamedMounts(procEnv[..i + 1], name) == NamedMounts(procEnv[..i], name) + (if Key(e) == name then [AgentBind(e)] else [])
  {
    assert procEnv[..i + 1][..i] == procEnv[..i];
  }

  /** repos.go lines 41-58: every agent entry is forwarded and its socket mounted. */
  method ScanAgent(procEnv: seq<string>) returns (forwarded: seq<string>, binds: seq<Container.Mount>)
    requires AgentReadable(procEnv)
    ensures forwarded == AgentEntries(procEnv)
    ensures binds == AgentMounts(procEnv)
  {
    ghost var name := Environment.AgentVariable;
    forwarded, binds := [], [];
    for i := 0 to |procEnv|
      invariant Readable(procEnv[..i], name)
      invariant forwarded == Named(procEnv[..i], name)
      invariant binds == NamedMounts(procEnv[..i], name)
    {
      var entry := procEnv[i];
      ScanStep(procEnv, name, i);
      var pair := Split(entry, '=');
      if pair[0] == Environment.AgentVariable {
        forwarded := forwarded + [entry];
        binds := binds + [Container.Mount(Container.BindMount, pair[1], pair[1])];
      }
    }
    assert procEnv[..|procEnv|] == procEnv;
  }

  // ---------------------------------------------------------------- the runs

  /** The git container that clones, with the agent entries it forwards and the binds. */
  function CloneRun(repo: Config.Repository, wd: string, vol: string, forwarded: seq<string>, binds: seq<Container.Mount>): Container.Foreground {
    Container.Foreground(GitImage, CloneArgs(repo), [], "", [GitSshCommand] + forwarded, wd, "", vol, binds, false, [])
  }

  /** A later git container: no environment, the same binds. */
  function GitRun(shell: seq<string>, wd: string, vol: string, binds: seq<Container.Mount>): Container.Foreground {
    Container.Foreground(GitImage, shell, [], "", [], wd, "", vol, binds, false, [])
  }

  /** The containers run for a repository when all of them succeed. */
  function ClonePlanWith(repo: Config.Repository, wd: string, vol: string, forwarded: seq<string>, binds: seq<Container.Mount>): seq<Container.Foreground> {
    [CloneRun(repo, wd, vol, forwarded, binds)]
      + (if Ref(repo) != "" then [GitRun(["fetch", "--all"], wd, vol, binds), GitRun(["checkout", Ref(repo)], wd, vol, binds)] else [])
  }

  /** The containers `cloneRepo` runs when all of them succeed: every agent entry is forwarded. */
  function ClonePlan(repo: Config.Repository, wd: string, vol: string, procEnv: seq<string>): seq<Container.Foreground>
    requires AgentReadable(procEnv)
  {
    ClonePlanWith(repo, wd, vol, AgentEntries(procEnv), AgentMounts(procEnv))
  }

  /**
   * There is one run without a reference and three with one; all of them use the git image,
   * the volume at the working directory, the agent binds and no files; only the clone gets the
   * SSH command and the agent entries; the last run checks the reference out.
   */
  lemma ClonePlanShape(repo: Config.Repository, wd: string, vol: string, procEnv: seq<string>)
    requires AgentReadable(procEnv)
    ensures var plan := ClonePlan(repo, wd, vol, procEnv);
      && |plan| == (if Ref(repo) == "" then 1 else 3)
      && (forall k :: 0 <= k < |plan| ==>
            plan[k].image == GitImage && plan[k].dir == wd && plan[k].volume == vol && plan[k].network == ""
            && plan[k].binds == AgentMounts(procEnv) && plan[k].files == [] && plan[k].commands == []
            && !plan[k].overrideEntrypoint)
      && plan[0].shell == CloneArgs(repo) && plan[0].environment == [GitSshCommand] + AgentEntries(procEnv)
      && (forall k :: 1 <= k < |plan| ==> plan[k].environment == [])
      && (Ref(repo) != "" ==> plan[2].shell == ["checkout", Ref(repo)] && !Shallow(repo))
  {
    var binds := AgentMounts(procEnv);
    var clone, fetch, checkout := CloneRun(repo, wd, vol, AgentEntries(procEnv), binds), GitRun(["fetch", "--all"], wd, vol, binds), GitRun(["checkout", Ref(repo)], wd, vol, binds);
    if Ref(repo) != "" {
      assert ClonePlan(repo, wd, vol, procEnv) == [clone, fetch, checkout];
    } else {
      assert ClonePlan(repo, wd, vol, procEnv) == [clone];
    }
  }

  datatype RepoError =
    | CloneFailed(name: string, cause: Container.ContainerError)
    | FetchFailed(name: string, cause: Container.ContainerError)
    | CheckoutFailed(name: string, cause: Container.ContainerError)

  /** The error for the failure of the `k`-th run of the plan. */
  function RunFailure(name: string, k: nat, cause: Container.ContainerError): RepoError {
    if k == 0 then CloneFailed(name, cause) else if k == 1 then FetchFailed(name, cause) else CheckoutFailed(name, cause)
  }

  /** Whether a run of the plan fails. */
  predicate Fails(req: Container.Foreground, run: Container.Verdicts) {
    run(req).Some?
  }

  /**
   * What the plan leads to: the runs are made in order up to and including the first that fails,
   * whose failure is reported; when none fails the clone succeeds.
   */
  predicate PlanFollowed(plan: seq<Container.Foreground>, run: Container.Verdicts, name: string,
                         runs: seq<Container.Foreground>, err: Option<RepoError>)
  {
    && 0 < |runs| <= |plan| && runs == plan[..|runs|]
    && (forall k :: 0 <= k < |runs| - 1 ==> !Fails(runs[k], run))
    && (err.None? <==> |runs| == |plan| && !Fails(runs[|runs| - 1], run))
    && (err.Some? ==>
          Fails(runs[|runs| - 1], run)
          && err.value == RunFailure(name, |runs| - 1, run(runs[|runs| - 1]).value))
  }

  /** How many runs of a plan are made: up to and including the first that fails. */
  function Progress(plan: seq<Container.Foreground>, run: Container.Verdicts): (n: nat)
    ensures n <= |plan| && (plan != [] ==> n > 0)
    ensures forall k :: 0 <= k < n - 1 ==> !Fails(plan[k], run)
    ensures 0 < n < |plan| ==> Fails(plan[n - 1], run)
  {
    if plan == [] then 0
    else if Fails(plan[0], run) then 1
    else 1 + Progress(plan[1..], run)
  }

  /** The runs `cloneRepo` makes are determined by the plan and the engine: they are the first `Progress` ones. */
  lemma {:induction false} PlanFollowedIsProgress(plan: seq<Container.Foreground>, run: Container.Verdicts,
                                                  name: string, runs: seq<Container.Foreground>, err: Option<RepoError>)
    requires PlanFollowed(plan, run, name, runs, err)
    ensures runs == plan[..Progress(plan, run)]
    ensures err.None? <==> !Fails(plan[Progress(plan, run) - 1], run)
  {
    var n := Progress(plan, run);
    assert plan[..|runs|] == runs;
    assert |runs| == |plan| || Fails(plan[|runs| - 1], run);
  }

  /** repos.go `cloneRepo`; `engine` gives the engine's answers to each foreground run, and `run` what such a run returns. */
  method CloneRepo(repo: Config.Repository, wd: string, vol: string, procEnv: seq<string>,
                   engine: Container.Foreground -> Container.Daemon, run: Container.Verdicts)
    returns (runs: seq<Container.Foreground>, err: Option<RepoError>)
    requires AgentReadable(procEnv)
    requires Container.Reports(run, engine)
    ensures PlanFollowed(ClonePlan(repo, wd, vol, procEnv), run, repo.name, runs, err)
  {
    var ref := SelectRef(repo);
    var args := CloneCommand(repo, ref);
    var forwarded, binds := ScanAgent(procEnv);
    runs, err := RunClone(repo, ref, args, wd, vol, forwarded, binds, engine, run);
  }

  /**
   * repos.go lines 59-128: the clone, fetch and checkout containers, given the reference, the
   * clone arguments and what is forwarded of the SSH agent. insulatr.go lines 253-319 run the
   * same containers.
   */
  method RunClone(repo: Config.Repository, ref: string, args: seq<string>, wd: string, vol: string,
                  forwarded: seq<string>, binds: seq<Container.Mount>,
                  engine: Container.Foreground -> Container.Daemon, run: Container.Verdicts)
    returns (runs: seq<Container.Foreground>, err: Option<RepoError>)
    requires ref == Ref(repo) && args == CloneArgs(repo)
    requires Container.Reports(run, engine)
    ensures PlanFollowed(ClonePlanWith(repo, wd, vol, forwarded, binds), run, repo.name, runs, err)
  {
    ghost var plan := ClonePlanWith(repo, wd, vol, forwarded, binds);
    var environment := [GitSshCommand] + forwarded;
    var clone := Container.Foreground(GitImage, args, [], "", environment, wd, "", vol, binds, false, []);
    assert [clone] == plan[..1];
    runs := [clone];
    var failure := Container.RunForegroundError(clone, engine, run);
    StoppedAt(plan, run, repo.name, 1);
    if failure.Some? {
      return runs, Some(CloneFailed(repo.name, failure.value));
    }
    err := None;
    if |ref| > 0 {
      var fetch := Container.Foreground(GitImage, ["fetch", "--all"], [], "", [], wd, "", vol, binds, false, []);
      assert runs + [fetch] == plan[..2];
      runs := runs + [fetch];
      failure := Container.RunForegroundError(fetch, engine, run);
      StoppedAt(plan, run, repo.name, 2);
      if failure.Some? {
        return runs, Some(FetchFailed(repo.name, failure.value));
      }
      var checkout := Container.Foreground(GitImage, ["checkout", ref], [], "", [], wd, "", vol, binds, false, []);
      assert runs + [checkout] == plan[..3];
      runs := runs + [checkout];
      failure := Container.RunForegroundError(checkout, engine, run);
      StoppedAt(plan, run, repo.name, 3);
      if failure.Some? {
        return runs, Some(CheckoutFailed(repo.name, failure.value));
      }
    }
  }

  /** The first `n` runs of a plan, of which only the last may fail: the plan is followed up to there. */
  lemma StoppedAt(plan: seq<Container.Foreground>, run: Container.Verdicts, name: string, n: nat)
    requires 0 < n <= |plan|
    requires forall k :: 0 <= k < n - 1 ==> !Fails(plan[k], run)
    ensures Fails(plan[n - 1], run) ==>
      PlanFollowed(plan, run, name, plan[..n], Some(RunFailure(name, n - 1, run(plan[n - 1]).value)))
    ensures !Fails(plan[n - 1], run) && n == |plan| ==> PlanFollowed(plan, run, name, plan[..n], None)
    ensures !Fails(plan[n - 1], run) ==> forall k :: 0 <= k < n ==> !Fails(plan[k], run)
  {
    assert |plan[..n]| == n;
  }

  /** A clone that succeeds has made every run of the plan, so with a reference it has checked it out. */
  lemma CloneSuccessChecksOut(repo: Config.Repository, wd: string, vol: string, procEnv: seq<string>,
                              run: Container.Verdicts, runs: seq<Container.Foreground>, err: Option<RepoError>)
    requires AgentReadable(procEnv)
    requires PlanFollowed(ClonePlan(repo, wd, vol, procEnv), run, repo.name, runs, err)
    requires err.None? && Ref(repo) != ""
    ensures |runs| == 3 && runs[2].shell == ["checkout", Ref(repo)]
    ensures forall k :: 0 <= k < 3 ==> !Fails(runs[k], run)
  {
  }
}
