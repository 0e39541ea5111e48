/**
 * The application run of cmd/app/app.go: an App holds the path to scan, the
 * shared flags, the mount getter, the UI and the selected action, and `Run`
 * drives the collaborators in a fixed order, returning at the first failure.
 *
 * Every call App makes to a collaborator is appended to the ghost trace
 * `calls`; the collaborators answer as their `Common.UIAnswers` and
 * `Common.DevicesInfoGetter` descriptions say.
 */
module App {
  import opened Wrappers
  import opened Errors
  import opened Common

  /** device.GetNestedMountpointsPaths: the mount paths nested under a scan root. Its definition is not part of this model. */
  type NestedMountpoints = (string, seq<MountInfo>) -> seq<string>

  /** The flags accepted by Run. The caller and the App share one Flags object, so what Run appends to `ignoreDirs` stays visible to the caller. */
  class Flags {
    var logFile: string
    var ignoreDirs: seq<string>
    var showApparentSize: bool
    var noColor: bool
    var noProgress: bool
    var noCross: bool

    constructor (logFile: string, ignoreDirs: seq<string>, showApparentSize: bool,
                 noColor: bool, noProgress: bool, noCross: bool)
      ensures this.logFile == logFile && this.ignoreDirs == ignoreDirs
      ensures this.showApparentSize == showApparentSize && this.noColor == noColor
      ensures this.noProgress == noProgress && this.noCross == noCross
    {
      this.logFile := logFile;
      this.ignoreDirs := ignoreDirs;
      this.showApparentSize := showApparentSize;
      this.noColor := noColor;
      this.noProgress := noProgress;
      this.noCross := noCross;
    }
  }

  /** The actions an App can run: ActionAnalyzePath and ActionListDevices. */
  datatype Action = AnalyzePathAction | ListDevicesAction

  /** What (part of) a run leaves behind: the calls made, the ignore list afterwards, and the returned error (None is nil). */
  datatype Outcome = Outcome(calls: seq<Call>, ignoreDirs: seq<string>, err: Option<Error>)

  /** The one call an action makes to the UI, with the app's path and getter. */
  function ActionCall(action: Action, path: string, getter: DevicesInfoGetter): Call {
    match action
    case AnalyzePathAction => Call.AnalyzePath(path)
    case ListDevicesAction => Call.ListDevices(getter)
  }

  /** What an action returns, given how the UI answers and the getter the app hands it. */
  function ActionResult(action: Action, ui: UIAnswers, getter: DevicesInfoGetter): Option<Error> {
    match action
    case AnalyzePathAction => None
    case ListDevicesAction =>
      var listErr := ui.listDevices(getter);
      if listErr.Some? then Some(WrapMountError(listErr.value)) else None
  }

  /** Specification of setNoCross: with NoCross set, ask the getter for mounts and append the nested ones to the ignore list. */
  function NoCrossSpec(path: string, noCross: bool, ignoreDirs: seq<string>,
                       getter: DevicesInfoGetter, nested: NestedMountpoints): Outcome
  {
    if !noCross then Outcome([], ignoreDirs, None)
    else match getter.mounts
      case Err(e) => Outcome([GetMounts], ignoreDirs, Some(WrapMountError(e)))
      case Ok(mounts) => Outcome([GetMounts], ignoreDirs + nested(path, mounts), None)
  }

  /** Specification of Run, step by step: setNoCross, SetIgnoreDirPaths, the action, StartUILoop; every failure returns at once. */
  function RunSpec(path: string, noCross: bool, ignoreDirs: seq<string>, getter: DevicesInfoGetter,
                   ui: UIAnswers, nested: NestedMountpoints, action: Action): Outcome
  {
    var setup := NoCrossSpec(path, noCross, ignoreDirs, getter, nested);
    if setup.err.Some? then setup
    else
      var before := setup.calls + [SetIgnoreDirPaths(setup.ignoreDirs), ActionCall(action, path, getter)];
      var actionErr := ActionResult(action, ui, getter);
      if actionErr.Some? then Outcome(before, setup.ignoreDirs, actionErr)
      else Outcome(before + [StartUILoop], setup.ignoreDirs, ui.startUILoop)
  }

  /** The calls of a run in which no step fails, in their fixed order, given the ignore list handed to the UI. */
  function AllCalls(path: string, noCross: bool, ignoreDirs: seq<string>, getter: DevicesInfoGetter,
                    action: Action): seq<Call> {
    (if noCross then [GetMounts] else [])
      + [SetIgnoreDirPaths(ignoreDirs)] + [ActionCall(action, path, getter)] + [StartUILoop]
  }

  class App {
    const path: string
    const flags: Flags
    const getter: DevicesInfoGetter
    const ui: UIAnswers
    const nestedMountpoints: NestedMountpoints
    var action: Option<Action>
    /** The calls made so far to the getter and the UI, oldest first. */
    ghost var calls: seq<Call>

    /** CreateApp: no action is set yet and nothing has been called. */
    constructor CreateApp(path: string, flags: Flags, ui: UIAnswers, getter: DevicesInfoGetter,
                          nestedMountpoints: NestedMountpoints)
      ensures this.path == path && this.flags == flags && this.ui == ui && this.getter == getter
      ensures this.nestedMountpoints == nestedMountpoints
      ensures action == None && calls == []
    {
      this.path := path;
      this.flags := flags;
      this.ui := ui;
      this.getter := getter;
      this.nestedMountpoints := nestedMountpoints;
      action := None;
      calls := [];
    }

    method SetAction(action: Action)
      modifies this`action
      ensures this.action == Some(action)
    {
      this.action := Some(action);
    }

    /** Runs the app: the calls made, the new ignore list and the result are those of RunSpec. */
    method Run() returns (err: Option<Error>)
      requires action.Some?
      modifies this`calls, flags`ignoreDirs
      ensures var o := RunSpec(path, flags.noCross, old(flags.ignoreDirs), getter, ui, nestedMountpoints, action.value);
        calls == old(calls) + o.calls && flags.ignoreDirs == o.ignoreDirs && err == o.err
    {
      err := SetNoCross(path);
      if err.Some? {
        return;
      }
      calls := calls + [SetIgnoreDirPaths(flags.ignoreDirs)];

      match action.value {
        case AnalyzePathAction => err := ActionAnalyzePath(this);
        case ListDevicesAction => err := ActionListDevices(this);
      }
      if err.Some? {
        return;
      }

      calls := calls + [StartUILoop];
      err := ui.startUILoop;
    }

    /** setNoCross: the calls made, the new ignore list and the result are those of NoCrossSpec. */
    method SetNoCross(path: string) returns (err: Option<Error>)
      modifies this`calls, flags`ignoreDirs
      ensures var o := NoCrossSpec(path, flags.noCross, old(flags.ignoreDirs), getter, nestedMountpoints);
        calls == old(calls) + o.calls && flags.ignoreDirs == o.ignoreDirs && err == o.err
    {
      if flags.noCross {
        calls := calls + [GetMounts];
        match getter.mounts {
          case Err(e) =>
            return Some(WrapMountError(e));
          case Ok(mounts) =>
            var paths := nestedMountpoints(path, mounts);
            flags.ignoreDirs := flags.ignoreDirs + paths;
        }
      }
      return None;
    }
  }

  /** ActionAnalyzePath: asks the UI to analyze the app's path (with no parent directory) and never fails. */
  method ActionAnalyzePath(a: App) returns (err: Option<Error>)
    modifies a`calls
    ensures a.calls == old(a.calls) + [Call.AnalyzePath(a.path)]
    ensures err == None
  {
    a.calls := a.calls + [Call.AnalyzePath(a.path)];
    return None;
  }

  /** ActionListDevices: asks the UI to list the devices of the app's own getter; a failure comes back wrapped as a mount error. */
  method ActionListDevices(a: App) returns (err: Option<Error>)
    modifies a`calls
    ensures a.calls == old(a.calls) + [Call.ListDevices(a.getter)]
    ensures a.ui.listDevices(a.getter).None? ==> err == None
    ensures a.ui.listDevices(a.getter).Some? ==> err == Some(WrapMountError(a.ui.listDevices(a.getter).value))
  {
    a.calls := a.calls + [Call.ListDevices(a.getter)];
    var listErr := a.ui.listDevices(a.getter);
    if listErr.Some? {
      return Some(WrapMountError(listErr.value));
    }
    return None;
  }

  // ---------------------------------------------------------------------------
  // Properties of a run

  /**
   * Without NoCross the getter is never asked and the UI gets the ignore list
   * unchanged. Another getter gives the same ignore list; with ActionAnalyzePath,
   * which never hands the getter on, it also gives the same calls and result.
   */
  lemma RunWithoutNoCross(path: string, ignoreDirs: seq<string>, getter: DevicesInfoGetter,
                          other: DevicesInfoGetter, ui: UIAnswers, nested: NestedMountpoints, action: Action)
    ensures var o := RunSpec(path, false, ignoreDirs, getter, ui, nested, action);
      var o' := RunSpec(path, false, ignoreDirs, other, ui, nested, action);
      && GetMounts !in o.calls
      && o.ignoreDirs == ignoreDirs
      && o.calls[0] == SetIgnoreDirPaths(ignoreDirs)
      && o'.ignoreDirs == o.ignoreDirs
      && (action == AnalyzePathAction ==> o'.calls == o.calls && o'.err == o.err)
  {
  }

  /** With NoCross and a successful mount listing, the ignore list becomes the old one followed by the nested mount paths, and that is the list the UI gets. */
  lemma RunNoCrossAppendsNested(path: string, ignoreDirs: seq<string>, getter: DevicesInfoGetter,
                                ui: UIAnswers, nested: NestedMountpoints, action: Action)
    requires getter.mounts.Ok?
    ensures var o := RunSpec(path, true, ignoreDirs, getter, ui, nested, action);
      && o.ignoreDirs == ignoreDirs + nested(path, getter.mounts.value)
      && ignoreDirs <= o.ignoreDirs
      && o.calls[..2] == [GetMounts, SetIgnoreDirPaths(o.ignoreDirs)]
  {
  }

  /** A failed mount listing ends the run at once with the wrapped error: the UI is never called, so nothing is output, and the ignore list is unchanged. */
  lemma RunMountFailure(path: string, ignoreDirs: seq<string>, getter: DevicesInfoGetter,
                        ui: UIAnswers, nested: NestedMountpoints, action: Action)
    requires getter.mounts.Err?
    ensures var o := RunSpec(path, true, ignoreDirs, getter, ui, nested, action);
      && o.err == Some(WrapMountError(getter.mounts.error))
      && o.err.value.Message() == MountErrorPrefix + getter.mounts.error.Message()
      && o.calls == [GetMounts]
      && (forall c :: c in o.calls ==> !c.IsUICall())
      && o.ignoreDirs == ignoreDirs
  {
  }

  /** The calls of every run are a prefix of the fixed order; the run reaches StartUILoop exactly when it makes all of them, and then returns what StartUILoop returns. */
  lemma RunCallOrder(path: string, noCross: bool, ignoreDirs: seq<string>, getter: DevicesInfoGetter,
                     ui: UIAnswers, nested: NestedMountpoints, action: Action)
    ensures var o := RunSpec(path, noCross, ignoreDirs, getter, ui, nested, action);
      && o.calls <= AllCalls(path, noCross, o.ignoreDirs, getter, action)
      && (StartUILoop in o.calls <==> o.calls == AllCalls(path, noCross, o.ignoreDirs, getter, action))
      && (StartUILoop in o.calls ==> o.err == ui.startUILoop)
      && (StartUILoop !in o.calls ==> o.err.Some?)
  {
  }

  /** A failing action ends the run with exactly the action's error, after the action's own call: StartUILoop is not called. */
  lemma RunActionFailure(path: string, noCross: bool, ignoreDirs: seq<string>, getter: DevicesInfoGetter,
                         ui: UIAnswers, nested: NestedMountpoints, action: Action)
    requires noCross ==> getter.mounts.Ok?
    requires ActionResult(action, ui, getter).Some?
    ensures var o := RunSpec(path, noCross, ignoreDirs, getter, ui, nested, action);
      && o.err == ActionResult(action, ui, getter)
      && StartUILoop !in o.calls
      && o.calls[|o.calls| - 1] == ActionCall(action, path, getter)
  {
  }

  /** When setup and the action succeed, the run makes every call and its result is StartUILoop's result. */
  lemma RunReturnsUILoopResult(path: string, noCross: bool, ignoreDirs: seq<string>, getter: DevicesInfoGetter,
                               ui: UIAnswers, nested: NestedMountpoints, action: Action)
    requires noCross ==> getter.mounts.Ok?
    requires ActionResult(action, ui, getter).None?
    ensures var o := RunSpec(path, noCross, ignoreDirs, getter, ui, nested, action);
      && o.err == ui.startUILoop
      && o.calls == AllCalls(path, noCross, o.ignoreDirs, getter, action)
  {
  }

  /** A run with ActionAnalyzePath that gets past setup asks the UI to analyze the app's path exactly once, and the action itself never fails. */
  lemma AnalyzePathCalledOnce(path: string, noCross: bool, ignoreDirs: seq<string>, getter: DevicesInfoGetter,
                              ui: UIAnswers, nested: NestedMountpoints)
    requires noCross ==> getter.mounts.Ok?
    ensures var o := RunSpec(path, noCross, ignoreDirs, getter, ui, nested, AnalyzePathAction);
      && multiset(o.calls)[Call.AnalyzePath(path)] == 1
      && o.err == ui.startUILoop
  {
  }

  /** ActionListDevices succeeds exactly when the UI lists the devices of the app's getter, and otherwise wraps the UI's error with the mount-error prefix. */
  lemma ListDevicesResult(ui: UIAnswers, getter: DevicesInfoGetter)
    ensures ActionResult(ListDevicesAction, ui, getter).None? <==> ui.listDevices(getter).None?
    ensures ui.listDevices(getter).Some? ==>
      && ActionResult(ListDevicesAction, ui, getter).value.Message()
         == MountErrorPrefix + ui.listDevices(getter).value.Message()
      && Unwrap(ActionResult(ListDevicesAction, ui, getter).value) == ui.listDevices(getter)
  {
  }

  /** Flags are shared and appended to in place, so running again with NoCross appends the nested mount paths a second time. */
  lemma RunAgainAppendsAgain(path: string, ignoreDirs: seq<string>, getter: DevicesInfoGetter,
                             ui: UIAnswers, nested: NestedMountpoints, action: Action)
    requires getter.mounts.Ok?
    ensures var n := nested(path, getter.mounts.value);
      var first := RunSpec(path, true, ignoreDirs, getter, ui, nested, action);
      RunSpec(path, true, first.ignoreDirs, getter, ui, nested, action).ignoreDirs == ignoreDirs + n + n
  {
  }

  // ---------------------------------------------------------------------------
  // The error scenarios of cmd/app/app_test.go

  const MissingMountsError: Error := Failure("open /xxxyyy: no such file or directory")

  /** NoCross with an unreadable mount table: the exact message, and no UI call (no output). */
  lemma NoCrossWithErrScenario(ui: UIAnswers, nested: NestedMountpoints)
    ensures var o := RunSpec("test_dir", true, [], DevicesInfoGetter(Err(MissingMountsError)), ui, nested, AnalyzePathAction);
      && o.err.Some?
      && o.err.value.Message() == "Error loading mount points: " + "open /xxxyyy: no such file or directory"
      && (forall c :: c in o.calls ==> !c.IsUICall())
  {
  }

  /** A UI that lists the devices of the getter it is handed and reports the getter's failure unchanged. */
  function ListsFromGetter(getter: DevicesInfoGetter): Option<Error> {
    if getter.mounts.Err? then Some(getter.mounts.error) else None
  }

  /** Listing devices with a getter that cannot read the mount table: the exact message, and the UI loop is not started. */
  lemma ListDevicesWithErrScenario(nested: NestedMountpoints, loop: Option<Error>)
    ensures var o := RunSpec("", false, [], DevicesInfoGetter(Err(MissingMountsError)),
                             UIAnswers(ListsFromGetter, loop), nested, ListDevicesAction);
      && o.err.Some?
      && o.err.value.Message() == "Error loading mount points: " + "open /xxxyyy: no such file or directory"
      && StartUILoop !in o.calls
  {
  }

  /** The same UI and action with a getter that lists the mounts: the run gets to the UI loop and returns its result. */
  lemma ListDevicesScenario(mounts: seq<MountInfo>, nested: NestedMountpoints, loop: Option<Error>)
    ensures var getter := DevicesInfoGetter(Ok(mounts));
      var o := RunSpec("", false, [], getter, UIAnswers(ListsFromGetter, loop), nested, ListDevicesAction);
      && o.calls == [SetIgnoreDirPaths([]), Call.ListDevices(getter), StartUILoop]
      && o.err == loop
  {
  }
}
