/**
 * The application model of the installer window: its state, the messages that
 * drive it, what `update` does with each message, and which buttons and panels
 * `view` shows for a state. Commands that `update` hands to the runtime are
 * `Effect`s; the message the runtime feeds back when one completes is given by
 * `Completion`, from the file chooser's reply and the install flow's outcome.
 */
module App {
  import opened Wrappers
  import opened Paths
  import opened Package

  const Repository: string := "https://github.com/cosmic-utils/wizard"

  /** The context drawer's pages; `About` is the only one and the default. */
  datatype ContextPage = About

  datatype MenuAction = AboutAction

  /** The persisted configuration; its fields are not part of this model. */
  datatype Config = Config(entries: map<string, string>)

  datatype Message =
    | OpenRepositoryUrl
    | SubscriptionChannel
    | ToggleContextPage(page: ContextPage)
    | UpdateConfig(config: Config)
    | SelectFile
    | UpdatePackage(package: Package)
    | AskPermissions(package: Package)
    | CheckInstalled(picked: Option<Package>)
    | PackageInstalled(status: bool)

  /**
   * What `update` asks of the outside world besides changing the state.
   * `OpenUrl` is done by `update` itself, which then returns no command;
   * `Emit`, `PickFile` and `Install` are the commands returned to the runtime.
   */
  datatype Effect =
    | NoEffect                      // Command::none()
    | OpenUrl(url: string)          // open::that_detached, then Command::none()
    | Emit(message: Message)        // command::message
    | PickFile                      // Command::perform over the file chooser portal
    | Install(package: Package)     // Command::perform over grant_permissions

  /** The fields of `AppModel` that `update` reads and writes; `showContext` is `core.window.show_context`. */
  datatype AppState = AppState(
    contextPage: ContextPage,
    showContext: bool,
    config: Config,
    package: Option<Package>,
    isInstalled: bool)

  datatype Transition = Transition(next: AppState, effect: Effect)

  /** `MenuAction::message`. */
  function MenuMessage(action: MenuAction): (m: Message)
    ensures m.ToggleContextPage? && m.page == About
  {
    match action
    case AboutAction => ToggleContextPage(About)
  }

  /** The state `init` builds from the runtime's core and the loaded configuration. */
  function Initial(showContext: bool, config: Config): (r: AppState)
    ensures r.package.None? && r.isInstalled
    ensures r.contextPage == About
    ensures r.showContext == showContext && r.config == config
  {
    AppState(About, showContext, config, None, true)
  }

  /**
   * `AppModel::update`: the next state and the effect. A message either
   * changes the state or has an effect, never both; a chosen package is never
   * cleared, and a newly chosen one comes only from `UpdatePackage`.
   */
  function Step(s: AppState, m: Message): (r: Transition)
    ensures r.effect != NoEffect ==> r.next == s
    ensures s.package.Some? ==> r.next.package.Some?
    ensures r.next.package != s.package ==> m == UpdatePackage(r.next.package.value)
  {
    match m
    case OpenRepositoryUrl => Transition(s, OpenUrl(Repository))
    case SubscriptionChannel => Transition(s, NoEffect)
    case ToggleContextPage(page) =>
      if s.contextPage == page then Transition(s.(showContext := !s.showContext), NoEffect)
      else Transition(s.(contextPage := page, showContext := true), NoEffect)
    case UpdateConfig(config) => Transition(s.(config := config), NoEffect)
    case SelectFile => Transition(s, PickFile)
    case CheckInstalled(picked) =>
      if picked.Some? then Transition(s, Emit(UpdatePackage(picked.value))) else Transition(s, NoEffect)
    case UpdatePackage(package) => Transition(s.(isInstalled := package.isInstalled, package := Some(package)), NoEffect)
    case AskPermissions(package) => Transition(s, Install(package))
    case PackageInstalled(status) => Transition(s.(isInstalled := status), NoEffect)
  }

  // The file chooser

  /**
   * How the portal's file chooser answered: not opened, no response, or the
   * paths of the chosen URIs as `Url::path` gives them (still percent-encoded);
   * `SelectFile` uses the first one unchanged as the package's path.
   */
  datatype ChooserReply = NotOpened | NoResponse | Chosen(uriPaths: seq<string>)

  /** The package the `SelectFile` command produces: built from the first chosen file, if any. */
  function PickedPackage(reply: ChooserReply): (r: Option<Package>)
    ensures r.Some? <==> reply.Chosen? && |reply.uriPaths| > 0
    ensures r.Some? ==> r.value == NewPackage(reply.uriPaths[0]).value
    ensures r.Some? ==> r.value.path == reply.uriPaths[0] && !r.value.isInstalled
  {
    match reply
    case Chosen(paths) =>
      if |paths| > 0 then Some(Package(paths[0], FileName(paths[0]), false)) else None
    case _ => None
  }

  /** The message the install command delivers: its status on success, nothing on an error. */
  function InstallMessage(done: Result<bool, BusError>): (m: Option<Message>)
    ensures m.Some? <==> done.Ok?
    ensures m.Some? ==> m.value == PackageInstalled(done.value)
  {
    match done
    case Ok(status) => Some(PackageInstalled(status))
    case Err(_) => None
  }

  /**
   * The message the runtime feeds back to `update` once an effect completes:
   * the emitted message, the chooser's answer as `CheckInstalled`, or the
   * install's status; opening the repository URL feeds back nothing.
   */
  function Completion(e: Effect, reply: ChooserReply, env: Environment, pid: u32): (r: Option<Message>)
    ensures e.NoEffect? || e.OpenUrl? ==> r.None?
    ensures e.Emit? ==> r == Some(e.message)
    ensures e.PickFile? ==> r.Some? && r.value.CheckInstalled? && r.value.picked == PickedPackage(reply)
    ensures e.PickFile? && r.value.picked.Some? ==> !r.value.picked.value.isInstalled
    ensures e.Install? ==> (r.Some? <==> GrantPermissions(env, pid, e.package).result.Ok?)
    ensures e.Install? && r.Some? ==> r.value == PackageInstalled(GrantPermissions(env, pid, e.package).result.value)
  {
    match e
    case Emit(m) => Some(m)
    case PickFile => Some(CheckInstalled(PickedPackage(reply)))
    case Install(package) => InstallMessage(GrantPermissions(env, pid, package).result)
    case _ => None
  }

  // The view

  /** A button: its label's localisation key and the message it emits when pressed, if enabled. */
  datatype Button = Button(labelKey: string, onPress: Option<Message>)

  datatype Details = Details(name: string, path: string)

  datatype Screen = Screen(chooser: Button, install: Option<Button>, details: Option<Details>)

  /** `view`: the file chooser button; the install button and the details panel while a package is chosen. */
  function View(s: AppState): (r: Screen)
    ensures r.chooser.onPress == Some(SelectFile)
    ensures r.install.Some? <==> s.package.Some?
    ensures r.install.Some? ==> (r.install.value.onPress.Some? <==> !s.isInstalled)
    ensures r.install.Some? && r.install.value.onPress.Some? ==>
      r.install.value.onPress.value == AskPermissions(s.package.value)
    ensures r.details.Some? <==> s.package.Some?
    ensures r.details.Some? ==> r.details.value == Details(s.package.value.name, s.package.value.path)
  {
    var install :=
      if s.package.None? then None
      else Some(Button("install-file", if s.isInstalled then None else Some(AskPermissions(s.package.value))));
    var details :=
      if s.package.None? then None
      else Some(Details(s.package.value.name, s.package.value.path));
    Screen(Button("select-file", Some(SelectFile)), install, details)
  }

  /** The message the install button emits, if it is shown and enabled. */
  function InstallPress(s: AppState): Option<Message> {
    var screen := View(s);
    if screen.install.Some? then screen.install.value.onPress else None
  }

  /** `context_drawer`: the page shown in the drawer, if it is open. */
  function ContextDrawer(s: AppState): (r: Option<ContextPage>)
    ensures r.Some? <==> s.showContext
    ensures r.Some? ==> r.value == s.contextPage
  {
    if s.showContext then Some(s.contextPage) else None
  }

  /** `AppModel`: the same fields, updated in place by `Update`. */
  class AppModel {
    var contextPage: ContextPage
    var showContext: bool
    var config: Config
    var package: Option<Package>
    var isInstalled: bool

    function State(): AppState
      reads this
    {
      AppState(contextPage, showContext, config, package, isInstalled)
    }

    /** `init`. */
    constructor (coreShowsContext: bool, loaded: Config)
      ensures State() == Initial(coreShowsContext, loaded)
    {
      contextPage := About;
      showContext := coreShowsContext;
      config := loaded;
      package := None;
      isInstalled := true;
    }

    /** `update`. */
    method Update(message: Message) returns (effect: Effect)
      modifies this
      ensures State() == Step(old(State()), message).next
      ensures effect == Step(old(State()), message).effect
    {
      effect := NoEffect;
      match message {
        case OpenRepositoryUrl =>
          effect := OpenUrl(Repository);
        case SubscriptionChannel =>
        case ToggleContextPage(page) =>
          // The same page closes or reopens the drawer; another page opens on it.
          showContext := if contextPage == page then !showContext else true;
          contextPage := page;
        case UpdateConfig(c) =>
          config := c;
        case SelectFile =>
          effect := PickFile;
        case CheckInstalled(picked) =>
          if picked.Some? {
            effect := Emit(UpdatePackage(picked.value));
          }
        case UpdatePackage(p) =>
          isInstalled := p.isInstalled;
          package := Some(p);
        case AskPermissions(p) =>
          effect := Install(p);
        case PackageInstalled(status) =>
          isInstalled := status;
      }
    }
  }
}
