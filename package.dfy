/**
 * The package record and the install flow of `grant_permissions` and
 * `install_file`. Every call that leaves the process (the system bus, polkit,
 * aptdaemon) is an outcome read from an `Environment`; each operation returns
 * its result together with the requests it made, in order.
 */
module Package {
  import opened Wrappers
  import opened Paths

  /** The chosen `.deb` file. */
  datatype Package = Package(path: string, name: string, isInstalled: bool)

  /** `std::io::Error`; `Package::new` never produces one. */
  datatype IoError = IoError(kind: string)

  /**
   * `zbus::fdo::Error`: the `Failed` variant with its message, and every other
   * variant (`ZBus`, `AccessDenied`, ...) as `Other`.
   */
  datatype BusError = Failed(message: string) | Other(name: string, message: string)

  /** The outcome of one external call. */
  datatype Reply<+T> = Returned(value: T) | Raised(error: BusError)

  /** A process id, a `u32`. */
  newtype u32 = x: int | 0 <= x < 0x1_0000_0000

  const ActionId: string := "org.debian.apt.install-file"
  const NotPermitted: string := "Operation not permitted by Polkit"
  const InstallationError: string := "Error during installation"
  const TransactionError: string := "Error running transaction"
  const SubjectContext: string := "could not create policykit1 subject"
  const AuthorizationContext: string := "could not check policykit authorization"

  /** The external operations, as they are made. */
  datatype Request =
    | OpenSystemBus
    | NewAuthorityProxy
    | NewSubject(pid: u32)
    | CheckAuthorization(subjectPid: u32, actionId: string, allowUserInteraction: bool, cancellationId: string)
    | NewDaemonProxy
    | InstallFile(path: string, force: bool)
    | NewTransactionProxy(objectPath: string)
    | RunTransaction

  /** What each external call answers during one install attempt. */
  datatype Environment = Environment(
    systemBus: Reply<()>,          // Connection::system()
    authority: Reply<()>,          // policykit1::AuthorityProxy::new
    subject: Reply<()>,            // Subject::new_for_owner
    authorization: Reply<bool>,    // check_authorization(..).is_authorized
    daemon: Reply<()>,             // AptDaemonProxy::new
    installFile: Reply<string>,    // AptDaemon.install_file -> transaction object path
    transaction: Reply<()>,        // AptTransactionProxy::new
    run: Reply<()>)                // AptTransaction.run

  /** A result and the requests made to reach it. */
  datatype Attempt = Attempt(result: Result<bool, BusError>, requests: seq<Request>)

  /** `Package::new`: the name is the path's file name, and the package is not installed yet. */
  function NewPackage(path: string): (r: Result<Package, IoError>)
    ensures r.Ok?
    ensures r.value.path == path && !r.value.isInstalled
    ensures r.value.name == FileName(path)
    ensures r.value.name == "" || IsNormalName(r.value.name)
    ensures r.value.name != "" ==> r.value.name in Split(path)
  {
    Ok(Package(path, FileName(path), false))
  }

  /** `Package::new` on a file inside a directory names the package after the file. */
  lemma NewPackageInDirectory(dir: string, file: string)
    requires IsNormalName(file)
    ensures NewPackage(dir + "/" + file) == Ok(Package(dir + "/" + file, file, false))
  {
    FileNameOfChild(dir, file);
  }

  /** `zbus_error_from_display`. */
  function ErrorFromDisplay(why: string): (e: BusError)
    ensures e.Failed? && e.message == why
  {
    Failed(why)
  }

  // Reference for the request traces: a plan of steps, each of which passes or
  // fails; the requests made are the plan up to and including the first failure.

  /** The index of the first failing step, or the number of steps when none fails. */
  function FirstFailure(passes: seq<bool>): (k: nat)
    ensures k <= |passes|
    ensures forall i :: 0 <= i < k ==> passes[i]
    ensures k < |passes| ==> !passes[k]
  {
    if passes == [] || !passes[0] then 0 else 1 + FirstFailure(passes[1..])
  }

  function Performed<T>(plan: seq<T>, passes: seq<bool>): seq<T>
    requires |plan| == |passes|
  {
    var k := FirstFailure(passes);
    if k < |passes| then plan[..k + 1] else plan
  }

  /** After steps that all pass, the later steps decide where the run stops. */
  lemma {:induction false} FirstFailureAfterPasses(front: seq<bool>, back: seq<bool>)
    requires forall i :: 0 <= i < |front| ==> front[i]
    ensures FirstFailure(front + back) == |front| + FirstFailure(back)
  {
    if front != [] {
      assert (front + back)[1..] == front[1..] + back;
      FirstFailureAfterPasses(front[1..], back);
    } else {
      assert front + back == back;
    }
  }

  /** A failure among the first steps ends the run before the later ones. */
  lemma {:induction false} FirstFailureWithin(front: seq<bool>, back: seq<bool>)
    requires exists i :: 0 <= i < |front| && !front[i]
    ensures FirstFailure(front + back) == FirstFailure(front)
  {
    assert front != [];
    if front[0] {
      assert (front + back)[1..] == front[1..] + back;
      var i :| 0 <= i < |front| && !front[i];
      assert !front[1..][i - 1];
      FirstFailureWithin(front[1..], back);
    }
  }

  lemma PerformedAfterPasses<T>(plan: seq<T>, passes: seq<bool>, planRest: seq<T>, passesRest: seq<bool>)
    requires |plan| == |passes| && |planRest| == |passesRest|
    requires forall i :: 0 <= i < |passes| ==> passes[i]
    ensures Performed(plan + planRest, passes + passesRest) == plan + Performed(planRest, passesRest)
  {
    FirstFailureAfterPasses(passes, passesRest);
    var k := FirstFailure(passesRest);
    if k < |passesRest| {
      assert (plan + planRest)[..|plan| + k + 1] == plan + planRest[..k + 1];
    }
  }

  lemma PerformedWithin<T>(plan: seq<T>, passes: seq<bool>, planRest: seq<T>, passesRest: seq<bool>)
    requires |plan| == |passes| && |planRest| == |passesRest|
    requires exists i :: 0 <= i < |passes| && !passes[i]
    ensures Performed(plan + planRest, passes + passesRest) == Performed(plan, passes)
  {
    FirstFailureWithin(passes, passesRest);
    var k := FirstFailure(passes);
    assert (plan + planRest)[..k + 1] == plan[..k + 1];
  }

  // install_file

  /** The object path `install_file` answered, once it has answered one. */
  function TransactionPath(env: Environment): string {
    if env.installFile.Returned? then env.installFile.value else ""
  }

  function InstallPlan(env: Environment, path: string): seq<Request> {
    [NewDaemonProxy, InstallFile(path, false), NewTransactionProxy(TransactionPath(env)), RunTransaction]
  }

  function InstallPasses(env: Environment): seq<bool> {
    [env.daemon.Returned?, env.installFile.Returned?, env.transaction.Returned?, env.run.Returned?]
  }

  /** Where a run of four steps stops. */
  lemma FirstFailureOfFour(a: bool, b: bool, c: bool, d: bool)
    ensures FirstFailure([a, b, c, d]) ==
      if !a then 0 else if !b then 1 else if !c then 2 else if !d then 3 else 4
  {
    assert [d][1..] == [];
    assert FirstFailure([d]) == if d then 1 else 0;
    assert [c, d][1..] == [d];
    assert FirstFailure([c, d]) == if c then 1 + FirstFailure([d]) else 0;
    assert [b, c, d][1..] == [c, d];
    assert FirstFailure([b, c, d]) == if b then 1 + FirstFailure([c, d]) else 0;
    assert [a, b, c, d][1..] == [b, c, d];
  }

  /**
   * `install_file`: a failure while reaching the daemon, asking it to install
   * or opening the transaction answers `Ok(false)`; only a failed `run` is an error.
   */
  function InstallFileFlow(env: Environment, path: string): (a: Attempt)
    ensures a.requests == Performed(InstallPlan(env, path), InstallPasses(env))
    ensures a.result == Ok(true) <==> FirstFailure(InstallPasses(env)) == 4
    ensures a.result == Ok(false) <==> FirstFailure(InstallPasses(env)) < 3
    ensures a.result.Err? <==> FirstFailure(InstallPasses(env)) == 3
    ensures a.result.Err? ==> a.result.error == Failed(TransactionError)
  {
    FirstFailureOfFour(env.daemon.Returned?, env.installFile.Returned?, env.transaction.Returned?, env.run.Returned?);
    if env.daemon.Raised? then
      Attempt(Ok(false), [NewDaemonProxy])
    else if env.installFile.Raised? then
      Attempt(Ok(false), [NewDaemonProxy, InstallFile(path, false)])
    else if env.transaction.Raised? then
      Attempt(Ok(false), [NewDaemonProxy, InstallFile(path, false), NewTransactionProxy(env.installFile.value)])
    else
      var requests := [NewDaemonProxy, InstallFile(path, false), NewTransactionProxy(env.installFile.value), RunTransaction];
      if env.run.Returned? then Attempt(Ok(true), requests)
      else Attempt(Err(ErrorFromDisplay(TransactionError)), requests)
  }

  // grant_permissions

  function AuthorizationPlan(pid: u32): seq<Request> {
    if pid == 0 then [] else [NewSubject(pid), CheckAuthorization(pid, ActionId, true, "")]
  }

  /** Polkit's step passes only when it answers that the action is authorized. */
  function AuthorizationPasses(env: Environment, pid: u32): seq<bool> {
    if pid == 0 then []
    else [env.subject.Returned?, env.authorization.Returned? && env.authorization.value]
  }

  /**
   * The `permitted` decision of `grant_permissions`: process id 0 is permitted
   * without asking polkit; otherwise polkit's answer, with a failure to build the
   * subject or to ask reported as `Failed` carrying the context message.
   */
  function Authorize(env: Environment, pid: u32): (a: Attempt)
    ensures pid == 0 ==> a == Attempt(Ok(true), [])
    ensures pid != 0 && env.subject.Raised? ==> a.result == Err(Failed(SubjectContext))
    ensures pid != 0 && env.subject.Returned? && env.authorization.Raised? ==>
      a.result == Err(Failed(AuthorizationContext))
    ensures pid != 0 && env.subject.Returned? && env.authorization.Returned? ==>
      a.result == Ok(env.authorization.value)
    ensures a.requests == Performed(AuthorizationPlan(pid), AuthorizationPasses(env, pid))
    ensures a.result == Ok(true) <==> FirstFailure(AuthorizationPasses(env, pid)) == |AuthorizationPasses(env, pid)|
  {
    if pid == 0 then
      Attempt(Ok(true), [])
    else
      var passes := AuthorizationPasses(env, pid);
      assert passes[1..] == [passes[1]] && [passes[1]][1..] == [];
      if env.subject.Raised? then
        Attempt(Err(ErrorFromDisplay(SubjectContext)), [NewSubject(pid)])
      else
        var requests := [NewSubject(pid), CheckAuthorization(pid, ActionId, true, "")];
        if env.authorization.Raised? then
          Attempt(Err(ErrorFromDisplay(AuthorizationContext)), requests)
        else
          Attempt(Ok(env.authorization.value), requests)
  }

  function GrantPlan(env: Environment, pid: u32, path: string): seq<Request> {
    [OpenSystemBus, NewAuthorityProxy] + AuthorizationPlan(pid) + InstallPlan(env, path)
  }

  function GrantPasses(env: Environment, pid: u32): seq<bool> {
    [env.systemBus.Returned?, env.authority.Returned?] + AuthorizationPasses(env, pid) + InstallPasses(env)
  }

  /**
   * `grant_permissions`: connect to the system bus and polkit (their errors pass
   * through unchanged), decide `permitted`, then install; a refusal and an
   * installation error are reported as `Failed` with their messages.
   */
  function GrantPermissions(env: Environment, pid: u32, package: Package): (a: Attempt)
    ensures env.systemBus.Raised? ==> a == Attempt(Err(env.systemBus.error), [OpenSystemBus])
    ensures env.systemBus.Returned? && env.authority.Raised? ==>
      a == Attempt(Err(env.authority.error), [OpenSystemBus, NewAuthorityProxy])
    ensures a.result.Ok? ==> Authorize(env, pid).result == Ok(true)
    ensures a.result.Ok? ==> a.result == InstallFileFlow(env, package.path).result
  {
    if env.systemBus.Raised? then
      Attempt(Err(env.systemBus.error), [OpenSystemBus])
    else if env.authority.Raised? then
      Attempt(Err(env.authority.error), [OpenSystemBus, NewAuthorityProxy])
    else
      var permitted := Authorize(env, pid);
      var connected := [OpenSystemBus, NewAuthorityProxy] + permitted.requests;
      if permitted.result.Err? then
        Attempt(Err(permitted.result.error), connected)
      else if permitted.result.value then
        var install := InstallFileFlow(env, package.path);
        if install.result.Ok? then
          Attempt(Ok(install.result.value), connected + install.requests)
        else
          Attempt(Err(ErrorFromDisplay(InstallationError)), connected + install.requests)
      else
        Attempt(Err(ErrorFromDisplay(NotPermitted)), connected)
  }

  /** The requests of `grant_permissions` follow its plan and stop right after the first failing step. */
  lemma GrantStopsAtFirstFailure(env: Environment, pid: u32, package: Package)
    ensures GrantPermissions(env, pid, package).requests ==
      Performed(GrantPlan(env, pid, package.path), GrantPasses(env, pid))
  {
    var connect, connectPasses := [OpenSystemBus, NewAuthorityProxy], [env.systemBus.Returned?, env.authority.Returned?];
    var auth, authPasses := AuthorizationPlan(pid), AuthorizationPasses(env, pid);
    var install, installPasses := InstallPlan(env, package.path), InstallPasses(env);
    assert GrantPlan(env, pid, package.path) == connect + (auth + install);
    assert GrantPasses(env, pid) == connectPasses + (authPasses + installPasses);
    if env.systemBus.Raised? || env.authority.Raised? {
      assert !connectPasses[0] || !connectPasses[1];
      PerformedWithin(connect, connectPasses, auth + install, authPasses + installPasses);
      assert [connectPasses[1]] == connectPasses[1..];
    } else {
      PerformedAfterPasses(connect, connectPasses, auth + install, authPasses + installPasses);
      if Authorize(env, pid).result == Ok(true) {
        PerformedAfterPasses(auth, authPasses, install, installPasses);
      } else {
        assert !authPasses[FirstFailure(authPasses)];
        PerformedWithin(auth, authPasses, install, installPasses);
      }
    }
  }

  /** `grant_permissions` answers `Ok(true)` exactly when every step passes. */
  lemma GrantSucceedsIffAllPass(env: Environment, pid: u32, package: Package)
    ensures GrantPermissions(env, pid, package).result == Ok(true) <==>
      FirstFailure(GrantPasses(env, pid)) == |GrantPasses(env, pid)|
  {
    var connectPasses := [env.systemBus.Returned?, env.authority.Returned?];
    var authPasses, installPasses := AuthorizationPasses(env, pid), InstallPasses(env);
    assert GrantPasses(env, pid) == connectPasses + (authPasses + installPasses);
    if env.systemBus.Raised? || env.authority.Raised? {
      assert !connectPasses[0] || !connectPasses[1];
      FirstFailureWithin(connectPasses, authPasses + installPasses);
    } else {
      FirstFailureAfterPasses(connectPasses, authPasses + installPasses);
      if Authorize(env, pid).result == Ok(true) {
        FirstFailureAfterPasses(authPasses, installPasses);
      } else {
        assert !authPasses[FirstFailure(authPasses)];
        FirstFailureWithin(authPasses, installPasses);
      }
    }
  }

  /** Without polkit's permission no install step is taken. */
  lemma NotPermittedInstallsNothing(env: Environment, pid: u32, package: Package)
    requires env.systemBus.Returned? && env.authority.Returned?
    requires Authorize(env, pid).result == Ok(false)
    ensures GrantPermissions(env, pid, package).result == Err(Failed(NotPermitted))
    ensures forall r :: r in GrantPermissions(env, pid, package).requests ==>
      !r.NewDaemonProxy? && !r.InstallFile? && !r.NewTransactionProxy? && !r.RunTransaction?
  {
  }

  /** With permission, `install_file`'s answer is passed on, and any error of it becomes one message. */
  lemma PermittedReportsInstall(env: Environment, pid: u32, package: Package)
    requires env.systemBus.Returned? && env.authority.Returned?
    requires Authorize(env, pid).result == Ok(true)
    ensures var install := InstallFileFlow(env, package.path);
      GrantPermissions(env, pid, package).result ==
        if install.result.Ok? then install.result else Err(Failed(InstallationError))
  {
  }

  /** Process id 0 needs neither a polkit subject nor polkit's answer. */
  lemma PidZeroSkipsPolkit(env: Environment, package: Package, subject: Reply<()>, authorization: Reply<bool>)
    ensures GrantPermissions(env, 0, package) ==
      GrantPermissions(env.(subject := subject, authorization := authorization), 0, package)
    ensures forall r :: r in GrantPermissions(env, 0, package).requests ==>
      !r.NewSubject? && !r.CheckAuthorization?
  {
    GrantStopsAtFirstFailure(env, 0, package);
  }

  /**
   * `Ok(false)` means polkit permitted the install and then the daemon, the
   * `install_file` call or the transaction proxy failed.
   */
  lemma GrantFalseIffSetupFailed(env: Environment, pid: u32, package: Package)
    ensures GrantPermissions(env, pid, package).result == Ok(false) <==>
      && env.systemBus.Returned? && env.authority.Returned?
      && Authorize(env, pid).result == Ok(true)
      && (env.daemon.Raised? || env.installFile.Raised? || env.transaction.Raised?)
  {
    FirstFailureOfFour(env.daemon.Returned?, env.installFile.Returned?, env.transaction.Returned?, env.run.Returned?);
  }

  /** Every error that `grant_permissions` reports, and where it comes from. */
  lemma GrantErrors(env: Environment, pid: u32, package: Package)
    ensures var result := GrantPermissions(env, pid, package).result;
      result.Err? ==>
        || (env.systemBus.Raised? && result.error == env.systemBus.error)
        || (env.authority.Raised? && result.error == env.authority.error)
        || (pid != 0 && env.subject.Raised? && result.error == Failed(SubjectContext))
        || (pid != 0 && env.authorization.Raised? && result.error == Failed(AuthorizationContext))
        || (pid != 0 && env.authorization == Returned(false) && result.error == Failed(NotPermitted))
        || (env.run.Raised? && result.error == Failed(InstallationError))
  {
    FirstFailureOfFour(env.daemon.Returned?, env.installFile.Returned?, env.transaction.Returned?, env.run.Returned?);
  }
}
