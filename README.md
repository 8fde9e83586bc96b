# Wizard installer: a Dafny model of its state machine and install flow

Wizard is a small COSMIC desktop utility. The user picks a `.deb` file in the
desktop portal's file chooser. The app asks polkit whether the process may perform
`org.debian.apt.install-file`, and then asks aptdaemon to install the file and run
the resulting transaction. This project models the two pieces of decision logic
in it:

- `src/app.rs`: the application state (`context_page`, `core.window.show_context`,
  `config`, `package`, `is_installed`), the messages that drive `update`, the
  commands `update` returns, and which buttons and panels `view` shows.
  `update` is modelled twice. `App.Step` is a pure transition function. The class
  `App.AppModel` holds the same fields, and its `Update` method changes them in
  place, proved against `Step`.
- `src/package.rs`: `Package::new`, `grant_permissions`, `install_file` and
  `zbus_error_from_display`. These are pure functions over an `Environment` that
  gives the outcome of every external call: the system bus, the polkit authority
  proxy, the polkit subject, `check_authorization`, the aptdaemon proxy,
  `install_file`, the transaction proxy and `run`. Each function returns its result
  and the list of requests it made, so "no install is attempted" can be stated.
- `std::path::Path::file_name`, as both files use it on a Unix path held in a
  `String`. The model is `Paths.FileName`. It splits the path at `/`, drops empty
  and `.` segments, and gives the last segment, or `""` when there is none or the
  last one is `..`.

The request traces are specified against a separate reference. `Package.Performed`
takes a plan of steps and says which steps pass. It returns the plan up to and
including the first failing step.

Files: `wrappers.dfy` (Option, Result), `paths.dfy`, `package.dfy`, `app.dfy`,
`app_properties.dfy` (lemmas that cover several messages, commands and completions).

Three behaviours of the code that the model keeps:
- A failed install leaves no trace in the window. `Err` from `grant_permissions`
  becomes no app message, so the state does not change (src/app.rs:302-308).
- If the daemon proxy, the `install_file` call or the transaction proxy fails,
  `install_file` answers `Ok(false)`, and the app records `is_installed = false`.
  Only a failed `run` is an error (src/package.rs:77-89).
- The chosen file's path is `Url::path` of the first URI, which is still
  percent-encoded; it is used unchanged as the package's path, its name and the
  path handed to aptdaemon (src/app.rs:258). A space in a file name therefore
  appears as `%20`.

## Model

| member | source | states |
|---|---|---|
| `Paths.FileName` | src/package.rs:17-24 | The name is `""` or one `/`-free component other than `.` and `..`. A non-empty name is one of the path's segments. |
| `Paths.FileNameOfName` | src/package.rs:17-24 | A bare normal name is its own file name. |
| `Paths.FileNameOfChild` | src/package.rs:17-24 | `dir/name` has file name `name`, for every `dir`. |
| `Paths.FileNameIgnoresTrailingSeparator` | src/package.rs:17-24 | A trailing `/` does not change the file name. |
| `Paths.FileNameIgnoresTrailingCurDir` | src/package.rs:17-24 | A trailing `/.` does not change the file name. |
| `Paths.FileNameOfParentRef` | src/package.rs:17-24 | A path ending in `/..` has no file name. |
| `Paths.FileNameOfRoot` | src/package.rs:17-24 | `/` and the empty path have no file name. |
| `Paths.JoinSplit` | src/package.rs:17-24 | Splitting a path at `/` and joining it back gives the path. |
| `Paths.SplitJoin` | src/package.rs:17-24 | Joining `/`-free segments and splitting them again gives the segments. |
| `Package.NewPackage` | src/package.rs:16-31 | Always `Ok`. The path is kept, `is_installed` is false, and the name is `FileName(path)`, so it is `""` or a normal component of the path. |
| `Package.NewPackageInDirectory` | src/package.rs:16-31 | `Package::new("dir/file")` is named `file`. |
| `Package.ErrorFromDisplay` | src/package.rs:72-74 | Always the `Failed` variant, carrying the displayed message. |
| `Package.InstallFileFlow` | src/package.rs:76-90 | The requests are the plan cut right after the first failing step. `Ok(true)` iff all four steps pass. `Ok(false)` iff the daemon proxy, `install_file` or the transaction proxy fails. `Err(Failed("Error running transaction"))` iff only `run` fails. |
| `Package.Authorize` | src/package.rs:38-59 | Pid 0 is permitted with no request made. Otherwise the result is polkit's `is_authorized`. A failure to build the subject gives `Failed("could not create policykit1 subject")`. A failed check gives `Failed("could not check policykit authorization")`. The requests stop at the first failing step. |
| `Package.GrantPermissions` | src/package.rs:34-70 | System bus and authority proxy errors pass through unchanged, and the flow stops there. `Ok` only when permitted, and then it equals `install_file`'s answer. |
| `Package.GrantStopsAtFirstFailure` | src/package.rs:34-90 | The requests of `grant_permissions` are its plan (bus, authority, subject and check unless pid 0, then the four install steps) cut right after the first failing step. |
| `Package.GrantSucceedsIffAllPass` | src/package.rs:34-90 | `Ok(true)` iff every step passes, including polkit answering "authorized". |
| `Package.NotPermittedInstallsNothing` | src/package.rs:61-69 | When polkit refuses, the result is `Err(Failed("Operation not permitted by Polkit"))` and no aptdaemon request is made. |
| `Package.PermittedReportsInstall` | src/package.rs:61-66 | When permitted, `Ok(s)` from `install_file` is passed on. Any error becomes `Err(Failed("Error during installation"))`. |
| `Package.PidZeroSkipsPolkit` | src/package.rs:38-42 | With pid 0, no subject and no check request is made, and the outcome does not depend on polkit's answers. |
| `Package.GrantFalseIffSetupFailed` | src/package.rs:61-89 | `Ok(false)` iff the bus and polkit steps passed, polkit permitted, and the daemon proxy, `install_file` or the transaction proxy failed. |
| `Package.GrantErrors` | src/package.rs:34-89 | Every error is the bus error, the authority error, one of the two context messages, the refusal message, or the installation message after a failed `run`. |
| `App.Initial` | src/app.rs:76-96 | `init`'s fields: no package, `is_installed = true`, the About page, the core's `show_context` and the loaded config. |
| `App.Step` | src/app.rs:214-317 | `update` on the fields, with the effect it has. A message either changes the state or has an effect, never both. A chosen package is never cleared, and a changed package is always the one `UpdatePackage` carried. |
| `App.Completion` | src/app.rs:283-308 | The message the runtime feeds back when an effect completes. An emitted message comes back as itself. The chooser's answer comes back as `CheckInstalled(PickedPackage(reply))`, whose package is never installed. An install comes back as `PackageInstalled(status)` iff `grant_permissions` answered `Ok(status)`, and as nothing on `Err`. Opening the URL feeds back nothing. |
| `App.MenuMessage` | src/app.rs:372-376 | The About menu entry emits `ToggleContextPage(About)`. |
| `App.PickedPackage` | src/app.rs:256-280 | A package iff the chooser answered with at least one URI. It is built from the first URI as `Package::new` would build it, so it is not installed. |
| `App.InstallMessage` | src/app.rs:302-308 | `Ok(status)` becomes `PackageInstalled(status)`. `Err` becomes no app message. |
| `App.View` | src/app.rs:132-176 | The chooser button always emits `SelectFile`. The install button exists iff a package is chosen, and it is enabled iff not installed, emitting `AskPermissions(package)`. The details panel exists iff a package is chosen and shows its name and path. |
| `App.ContextDrawer` | src/app.rs:118-126 | The drawer shows the current page iff `show_context`. |
| `App.AppModel.constructor` | src/app.rs:74-96 | `init`: About page, no package, `is_installed = true`, the core's `show_context` and the loaded config. |
| `App.AppModel.Update` | src/app.rs:214-317 | The new fields and the returned command are those of `Step` on the old fields. |
| `AppProperties.InitialScreen` | src/app.rs:76-96 | The initial state has no package, `is_installed = true` and the About page. Only the file chooser button is shown. |
| `AppProperties.ToggleTwiceRestores` | src/app.rs:224-232 | Toggling the same page twice restores the whole state. Neither toggle returns a command. |
| `AppProperties.AboutMenuFlipsDrawer` | src/app.rs:224-232 | The About menu entry flips whether the drawer is shown, and leaves the package, the install status and the config alone. |
| `AppProperties.StepFrame` | src/app.rs:214-317 | `package` changes only on `UpdatePackage`. `is_installed` changes only on `UpdatePackage` or `PackageInstalled`. The drawer changes only on `ToggleContextPage`, and the config only on `UpdateConfig`. |
| `AppProperties.StepUpdates` | src/app.rs:224-313 | From any state: `UpdatePackage(p)` sets the package to `p` and `is_installed` to `p`'s status. `PackageInstalled(b)` sets only `is_installed` to `b`. `UpdateConfig(c)` replaces the config. `ToggleContextPage(p)` flips the drawer when `p` is the current page, and otherwise switches to `p` and opens the drawer. |
| `AppProperties.StepEffects` | src/app.rs:214-317 | Four messages have an effect. `OpenRepositoryUrl` opens the URL inside `update` and returns `Command::none()`. Only `SelectFile`, `CheckInstalled(Some p)` and `AskPermissions(p)` return a command. `CheckInstalled(Some p)` emits exactly `UpdatePackage(p)`, and `AskPermissions(p)` installs `p`. |
| `AppProperties.SelectFileCycle` | src/app.rs:242-299 | `SelectFile` and `CheckInstalled` change no state. `CheckInstalled(None)` emits nothing. A picked file leads to `UpdatePackage(p)`, after which `p` is chosen, not installed, the install button emits `AskPermissions(p)`, and the details show the file's name and path. |
| `AppProperties.ChosenFileShowsItsName` | src/app.rs:155-163 | After choosing `dir/file`, the details panel shows `file` as the name. |
| `AppProperties.FailedInstallChangesNothing` | src/app.rs:301-308 | When `grant_permissions` fails, the install command completes with no message, so no field changes. |
| `AppProperties.InstallCycle` | src/app.rs:301-313 | From a chosen, uninstalled package, the install button starts the install. Success sets only `is_installed` to the status, and failure changes nothing. The button ends up disabled iff every step of the install passed. |
| `AppProperties.SelectionPersists` | src/app.rs:296-299 | Once a package is chosen, no sequence of messages clears it. The install button and the details panel stay. |
| `AppProperties.PackageOnlyFromUpdatePackage` | src/app.rs:296-299 | A sequence of messages without `UpdatePackage` leaves the chosen package as it was. |

## Left out

- Widget construction, layout, button styles, theming, icons and the About page's content (`about`, `header_start`, the key bindings). The model keeps only which buttons and panels exist, what they show and what they emit.
- Localisation and titles: `ContextPage::title`, `set_context_title` in the `ToggleContextPage` branch, and `update_title`. The window-title command that `init` returns is not modelled either. These call the localisation macro and the window manager and contain no logic.
- Configuration loading and watching. `init` takes the loaded `Config` as a parameter, `UpdateConfig` only replaces the field, and `src/config.rs` is not part of this model.
- The subscription. Its channel only ever sends `SubscriptionChannel`, which `update` ignores, as the model does.
- `OpenRepositoryUrl` is recorded as the effect `OpenUrl(url)`. Whether a browser opens is outside the model, and the source discards that result.
- The XDG file chooser portal. Its outcome is the input `ChooserReply`: not opened, no response, or the `Url::path` strings of the chosen URIs, percent-encoded as the source uses them.
- All D-Bus, polkit and aptdaemon traffic. Each call is a `Reply` in `Environment`. Errors are given as `zbus::fdo::Error` values after the `?` conversion from `zbus::Error`. The process id is a parameter.
- Package.Authorize: a subject or check failure is modelled as exactly the context message. This relies on anyhow printing only the outermost context under `{}`; the underlying cause is not modelled.
- The async executor and `Command` machinery. Commands are `Effect` values, and `App.Completion` gives the message the runtime delivers back. Ordering and interleaving of concurrent commands are not modelled.
- Paths.FileName: Windows prefixes and non-UTF-8 names are not modelled. The path is a Rust `String`, so the `to_str() == None` branch cannot be taken.
