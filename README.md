# gdu application run and web ignore set, in Dafny

This project models two sequential pieces of gdu, a disk-usage analyzer written in Go:

- **The application run** (`cmd/app/app.go`). An `App` holds the path to scan, a pointer to the
  shared `Flags`, a mount getter and a UI. `Run` does four things in order, and returns at the
  first failure:
  1. When `NoCross` is set, it asks the getter for the mounts and appends the nested mount paths to
     `Flags.IgnoreDirs` in place. A failure comes back wrapped as `"Error loading mount points: "`.
  2. It hands the ignore list to the UI.
  3. It runs the selected action: analyze the path, or list the devices.
  4. It starts the UI loop.
- **The web UI's ignore set** (`web/web.go`). `SetIgnoreDirPaths` rebuilds a set from a list in a
  loop. `ShouldDirBeIgnored` is an exact-membership query on that set.

## How it is modelled

- `wrappers.dfy`: `Option` (Go's nil) and `Result` (Go's `(value, error)` pair).
- `errors.dfy`: the Go errors this model builds. `Failure(msg)` is an error made by a
  collaborator, kept as an opaque leaf. `Wrapped(prefix, cause)` is
  `fmt.Errorf(prefix + "%w", cause)`. `Message` is `Error()`. `Unwrap` and `Is` follow
  `errors.Unwrap` and `errors.Is` on these values, with errors compared by value.
- `common.dfy`: the collaborators of the application run.
  - The UI interface of `common/ui.go` and the mount getter are described by the answers they give:
    the `Common.UIAnswers` and `Common.DevicesInfoGetter` datatypes. The web front end answers
    `ListDevices` with nil, so its answers are `UIAnswers(_ => None, e)`. A UI's `ListDevices`
    answer is a function of the getter the app hands it, because the UI lists devices from that
    getter.
  - Every call the App makes to them is one `Common.Call`, appended to the App's ghost trace
    `calls`. Statements about which calls happen, in what order and with which ignore list are
    statements about that trace.
- `app.dfy`: `Flags` and `App` are classes. `Flags` is shared by reference, as the `*Flags` of the
  source is. `Run`, `SetNoCross` and the two actions are methods. Each one is proved to make the
  calls, leave the ignore list and return the error that a pure specification gives
  (`RunSpec`, `NoCrossSpec`, `ActionCall`/`ActionResult`). The properties of a run are lemmas about
  `RunSpec`. `device.GetNestedMountpointsPaths` has no definition here. It is the function-valued
  constant `nestedMountpoints`, given to `CreateApp`, and nothing is assumed about it.
- `web.dfy`: the web `UI` is a class. Its ignore map is `Option<set<string>>`, where `None` is the
  nil map of a UI whose ignore paths were never set. `SetIgnoreDirPaths` keeps the loop of the
  source; the loop invariant ties the set built so far to `PathSet` of the list prefix.

## Model

| member | source | states |
|---|---|---|
| `Errors.WrapMountError` | cmd/app/app.go:64-66 | The wrapped error's message is `"Error loading mount points: "` followed by the cause's message. It unwraps to the cause, has the cause on its `errors.Is` chain, and differs from the cause. |
| `Errors.Unwrap` | cmd/app/app.go:65 | Of the errors this model builds, only one made with `%w` unwraps; a collaborator's error is an opaque leaf. It unwraps to a strictly smaller error, so an unwrap chain ends. |
| `Errors.CauseMessageIsSuffix` | cmd/app/app.go:65 | However many times an error is wrapped, every error on its chain has a message that ends the outer error's message. Wrapping adds context in front and never hides the cause. |
| `App.Flags.constructor` | cmd/app/app.go:10-18 | A `Flags` holds exactly the given log file, ignore list and four switches. |
| `App.App.CreateApp` | cmd/app/app.go:32-40 | The app stores the path, the flags pointer, the UI and the getter. No action is set yet and no collaborator has been called. |
| `App.App.SetAction` | cmd/app/app.go:42-45 | The action to run is the one given. |
| `App.App.Run` | cmd/app/app.go:47-59 | The calls appended to the trace, the new `flags.IgnoreDirs` and the returned error are exactly those of `RunSpec` for the old ignore list and the selected action. |
| `App.App.SetNoCross` | cmd/app/app.go:61-71 | Without `NoCross`, nothing is called and the list is unchanged. With it, `GetMounts` is called once. On failure the error comes back wrapped and the list is unchanged. On success the nested mount paths are appended. |
| `App.ActionAnalyzePath` | cmd/app/app.go:73-77 | Exactly one call, `AnalyzePath(a.path)`, and the result is nil. |
| `App.ActionListDevices` | cmd/app/app.go:79-86 | Exactly one call, `ListDevices` with the app's own getter. The result is nil when the UI succeeds in listing that getter's devices, and otherwise the UI's error wrapped with the mount-error prefix. |
| `App.RunWithoutNoCross` | cmd/app/app.go:61-70 | Without `NoCross`, `GetMounts` is never called and the first call hands the UI the unchanged ignore list. Another getter gives the same ignore list; with `ActionAnalyzePath`, which never hands the getter on, it also gives the same calls and result. |
| `App.RunNoCrossAppendsNested` | cmd/app/app.go:62-68 | With `NoCross` and a successful listing, the ignore list becomes the old list followed by the nested mount paths, so the old list is a prefix of it. The run's first two calls are `GetMounts` and then `SetIgnoreDirPaths` with that augmented list. |
| `App.RunMountFailure` | cmd/app/app.go:48-66 | A failed mount listing ends the run with the wrapped error, whose message is the prefix followed by the cause. `GetMounts` is the only call, so the UI is never called and nothing is output. The ignore list is unchanged. |
| `App.RunCallOrder` | cmd/app/app.go:48-59 | Every run's calls are a prefix of the fixed order: mounts (with `NoCross`), `SetIgnoreDirPaths`, the action's call, `StartUILoop`. `StartUILoop` is called exactly when every call was made, and the run then returns its result. A run that stops earlier returns an error. |
| `App.RunActionFailure` | cmd/app/app.go:54-56 | A failing action makes the run return exactly the action's error. The action's call, with the app's path or getter, is the last call, and `StartUILoop` is not called. |
| `App.RunReturnsUILoopResult` | cmd/app/app.go:54-58 | When setup and the action succeed, the run makes every call of the fixed order and returns what `StartUILoop` returns. |
| `App.AnalyzePathCalledOnce` | cmd/app/app.go:74-77 | A run with `ActionAnalyzePath` that gets past setup asks the UI to analyze the app's path exactly once. Its result is `StartUILoop`'s result, because the action never fails. |
| `App.ListDevicesResult` | cmd/app/app.go:80-85 | `ActionListDevices` succeeds exactly when the UI's `ListDevices` does for the app's getter. Otherwise the UI's error comes back under the mount-error prefix and unwraps to it. |
| `App.RunAgainAppendsAgain` | cmd/app/app.go:68 | Because the flags are appended to in place, a second `NoCross` run appends the nested mount paths again. |
| `App.NoCrossWithErrScenario` | cmd/app/app_test.go:47-61 | With `NoCross` and an unreadable mount table, the message is exactly `Error loading mount points: open /xxxyyy: no such file or directory` and the UI is never called. |
| `App.ListDevicesWithErrScenario` | cmd/app/app_test.go:79-92 | With a getter that cannot read the mount table, and a UI that reports its getter's failure, listing devices gives exactly `Error loading mount points: open /xxxyyy: no such file or directory`, and the UI loop is not started. |
| `App.ListDevicesScenario` | cmd/app/app_test.go:63-77 | The same UI with a getter that lists the mounts: the run hands the UI the empty ignore list, lists that getter's devices, starts the UI loop and returns its result. |
| `Web.PathSet` | web/web.go:69-72 | A path is in the set exactly when it occurs in the list. Duplicates collapse, so the set has at most as many elements as the list. |
| `Web.UI.CreateWebUI` | web/web.go:29-34 | Keeps `showApparentSize` as given and leaves the top and current directories unset. The ignore map is nil, so `ShouldDirBeIgnored` is false for every path. |
| `Web.UI.ListDevices` | web/web.go:51-53 | The stub always returns nil. |
| `Web.UI.ShouldDirBeIgnored` | web/web.go:76-79 | A read-only query by exact membership: false on the nil map of a fresh UI, and otherwise true exactly when the path itself is in the set. What it answers after each call is fixed by the contracts of `CreateWebUI` and `SetIgnoreDirPaths`. |
| `Web.UI.SetIgnoreDirPaths` | web/web.go:68-79 | Afterwards `ShouldDirBeIgnored(p)` holds exactly when `p` is an element of the list, by exact string equality. The old set is replaced entirely, so a path ignored before but absent from the list is no longer ignored. The set has at most as many elements as the list. |

## Left out

- `device.GetNestedMountpointsPaths` and the mount getter's implementation are not part of this model. The nested-path function is an uninterpreted parameter. A getter is only the answer it gives to `GetMounts`.
- The UI implementations behind `common/ui.go` are not part of this model. A UI is only the errors it returns from `ListDevices` and `StartUILoop`. What it does inside those calls, and what it outputs, is not modelled; "nothing is output" is stated as "the UI is never called".
- App.App.Run: requires that an action has been set. In Go, `Run` on an App without an action calls a nil function and panics after setup. The model does not represent that panic.
- App.Action: covers only the two actions the source defines, `ActionAnalyzePath` and `ActionListDevices`. Go lets `SetAction` take any `func(*App) error`.
- Web UI `StartUILoop`, `AnalyzePath` and `openBrowser` are left out. They are an HTTP server, a goroutine that writes `currentDir`/`topDir` concurrently, and an `exec` of an external browser. The UI's `analyzer` field is left out with them, and the analyzed directories are bare references (`FileRef`).
- The web socket handler (web/ws.go), static file serving (web/live.go) and the browser code (web/src/main.tsx, web/static/app.js) are left out. They are network I/O, polling with sleeps, and DOM updates with floating-point size formatting.
- Command wiring in cmd/root.go is left out: cobra commands, TTY detection, screen setup and log-file opening.
- `MountInfo` carries the name, mount point, filesystem type, size and free space of a mount. These fields are illustrative: the source's device record is not part of this model, and nothing here reads them.
- Errors.Is: compares errors by value. Go's `errors.Is` compares with `==`, so two distinct pointer errors with the same message are not related in Go but are equal here.
- Errors.Unwrap: a collaborator's error is an opaque leaf that never unwraps. In Go it may itself wrap a further cause, as a path error wraps its errno.
