/** What the installer window promises across messages, commands and their completions. */
module AppProperties {
  import opened Wrappers
  import opened Paths
  import opened Package
  import opened App

  /** At start no package is chosen: only the file chooser button is shown. */
  lemma InitialScreen(coreShowsContext: bool, config: Config)
    ensures var s := Initial(coreShowsContext, config);
      && s.package.None? && s.isInstalled && s.contextPage == About
      && View(s).install.None? && View(s).details.None?
      && View(s).chooser.onPress == Some(SelectFile)
  {
  }

  /** Toggling the drawer's page twice gives back the state it started from. */
  lemma ToggleTwiceRestores(s: AppState, page: ContextPage)
    ensures var first := Step(s, ToggleContextPage(page));
      && first.effect == NoEffect
      && Step(first.next, ToggleContextPage(page)) == Transition(s, NoEffect)
  {
  }

  /** The About menu entry opens the drawer when it is closed and closes it when it is open. */
  lemma AboutMenuFlipsDrawer(s: AppState)
    ensures var next := Step(s, MenuMessage(AboutAction)).next;
      && (ContextDrawer(next).Some? <==> ContextDrawer(s).None?)
      && next.package == s.package && next.isInstalled == s.isInstalled && next.config == s.config
  {
  }

  /** Each field of the state is written by one kind of message only. */
  lemma StepFrame(s: AppState, m: Message)
    ensures var next := Step(s, m).next;
      && (next.package != s.package ==> m.UpdatePackage?)
      && (next.isInstalled != s.isInstalled ==> m.UpdatePackage? || m.PackageInstalled?)
      && (next.contextPage != s.contextPage || next.showContext != s.showContext ==> m.ToggleContextPage?)
      && (next.config != s.config ==> m.UpdateConfig?)
  {
  }

  /**
   * What each state-changing message writes, from any state: `UpdatePackage`
   * chooses the package and takes its install status, `PackageInstalled` sets
   * only the status, `UpdateConfig` replaces the config, and `ToggleContextPage`
   * flips the drawer on its current page or opens it on another.
   */
  lemma StepUpdates(s: AppState, m: Message)
    ensures m.UpdatePackage? ==>
      Step(s, m).next == s.(package := Some(m.package), isInstalled := m.package.isInstalled)
    ensures m.PackageInstalled? ==> Step(s, m).next == s.(isInstalled := m.status)
    ensures m.UpdateConfig? ==> Step(s, m).next == s.(config := m.config)
    ensures m.ToggleContextPage? ==>
      Step(s, m).next == s.(contextPage := m.page,
                            showContext := if s.contextPage == m.page then !s.showContext else true)
  {
  }

  /**
   * Four messages have an effect: `OpenRepositoryUrl` opens the URL itself;
   * only `SelectFile`, `CheckInstalled(Some p)` and `AskPermissions(p)` return a command.
   */
  lemma StepEffects(s: AppState, m: Message)
    ensures var e := Step(s, m).effect;
      && (e.OpenUrl? <==> m.OpenRepositoryUrl?)
      && (e.PickFile? <==> m.SelectFile?)
      && (e.Emit? <==> m.CheckInstalled? && m.picked.Some?)
      && (e.Install? <==> m.AskPermissions?)
      && (e.Emit? ==> e.message == UpdatePackage(m.picked.value))
      && (e.Install? ==> e.package == m.package)
  {
  }

  /**
   * Choosing a file: `SelectFile` changes nothing and starts the chooser; its
   * answer comes back as `CheckInstalled`, which changes nothing either and,
   * when a file was chosen, emits `UpdatePackage` with a package that is not
   * installed, named after the file. After that the install button is enabled.
   */
  lemma SelectFileCycle(s: AppState, reply: ChooserReply, env: Environment, pid: u32)
    ensures Step(s, SelectFile) == Transition(s, PickFile)
    ensures Completion(PickFile, reply, env, pid) == Some(CheckInstalled(PickedPackage(reply)))
    ensures var checked := Step(s, CheckInstalled(PickedPackage(reply)));
      && checked.next == s
      && (PickedPackage(reply).None? ==> checked.effect == NoEffect)
      && (PickedPackage(reply).Some? ==> checked.effect == Emit(UpdatePackage(PickedPackage(reply).value)))
    ensures PickedPackage(reply).Some? ==>
      var uri := reply.uriPaths[0];
      var p := PickedPackage(reply).value;
      var chosen := Step(s, UpdatePackage(p)).next;
      && chosen == s.(package := Some(p), isInstalled := false)
      && InstallPress(chosen) == Some(AskPermissions(p))
      && View(chosen).details == Some(Details(FileName(uri), uri))
  {
  }

  /** A package chosen in a directory shows the file's own name in the details panel. */
  lemma ChosenFileShowsItsName(s: AppState, dir: string, file: string, more: seq<string>)
    requires IsNormalName(file)
    ensures var p := PickedPackage(Chosen([dir + "/" + file] + more)).value;
      View(Step(s, UpdatePackage(p)).next).details == Some(Details(file, dir + "/" + file))
  {
    FileNameOfChild(dir, file);
  }

  /**
   * A failed install changes nothing: the error becomes no message, so the
   * state stays as it was and the install button stays enabled.
   */
  lemma FailedInstallChangesNothing(s: AppState, p: Package, reply: ChooserReply, env: Environment, pid: u32)
    requires GrantPermissions(env, pid, p).result.Err?
    ensures Step(s, AskPermissions(p)) == Transition(s, Install(p))
    ensures Completion(Install(p), reply, env, pid) == None
  {
  }

  /**
   * Installing the chosen package: the enabled install button emits
   * `AskPermissions`, which starts the install; a successful outcome comes back
   * as `PackageInstalled`, which changes only `isInstalled`. The button ends up
   * disabled exactly when every step of the install passed.
   */
  lemma InstallCycle(s: AppState, reply: ChooserReply, env: Environment, pid: u32)
    requires s.package.Some? && !s.isInstalled
    ensures var p := s.package.value;
      && InstallPress(s) == Some(AskPermissions(p))
      && Step(s, AskPermissions(p)) == Transition(s, Install(p))
    ensures var p := s.package.value;
      var done := GrantPermissions(env, pid, p).result;
      var follow := Completion(Install(p), reply, env, pid);
      && (done.Err? ==> follow.None?)
      && (done.Ok? ==> follow == Some(PackageInstalled(done.value))
                       && Step(s, follow.value) == Transition(s.(isInstalled := done.value), NoEffect))
    ensures var p := s.package.value;
      var follow := Completion(Install(p), reply, env, pid);
      var after := if follow.Some? then Step(s, follow.value).next else s;
      && after.package == s.package
      && (InstallPress(after).None? <==> FirstFailure(GrantPasses(env, pid)) == |GrantPasses(env, pid)|)
  {
    GrantSucceedsIffAllPass(env, pid, s.package.value);
  }

  /** The state after `update` has handled each message of `ms` in turn. */
  function Replay(s: AppState, ms: seq<Message>): AppState
    decreases |ms|
  {
    if ms == [] then s else Replay(Step(s, ms[0]).next, ms[1..])
  }

  /** Once a package is chosen some package stays chosen: nothing clears the selection. */
  lemma {:induction false} SelectionPersists(s: AppState, ms: seq<Message>)
    requires s.package.Some?
    ensures Replay(s, ms).package.Some?
    ensures View(Replay(s, ms)).install.Some? && View(Replay(s, ms)).details.Some?
    decreases |ms|
  {
    if ms != [] {
      SelectionPersists(Step(s, ms[0]).next, ms[1..]);
    }
  }

  /** Without `UpdatePackage` the chosen package does not change, whatever else happens. */
  lemma {:induction false} PackageOnlyFromUpdatePackage(s: AppState, ms: seq<Message>)
    requires forall i :: 0 <= i < |ms| ==> !ms[i].UpdatePackage?
    ensures Replay(s, ms).package == s.package
    decreases |ms|
  {
    if ms != [] {
      assert !ms[0].UpdatePackage?;
      PackageOnlyFromUpdatePackage(Step(s, ms[0]).next, ms[1..]);
    }
  }
}
