/**
 * The collaborators the application drives: the UI (the interface at
 * common/ui.go) and the mount getter (device.DevicesInfoGetter).
 *
 * Their implementations are not part of this model. Each is described by the
 * answers it gives, and every call made to it is one `Call` in a trace, so that
 * statements about which calls happen, in what order and with which arguments
 * can be made about the trace.
 */
module Common {
  import opened Wrappers
  import opened Errors

  /**
   * One mounted filesystem, as the getter lists it. The source's device record
   * is not part of this model and no operation here reads these fields; they
   * are illustrative, and only a value of this type is handed on to the
   * nested-mount computation.
   */
  datatype MountInfo = MountInfo(
    name: string,
    mountPoint: string,
    fstype: string,
    size: int,
    free: int)

  /** A call made to the UI or to the mount getter. */
  datatype Call =
    | GetMounts                           // getter.GetMounts()
    | ListDevices(getter: DevicesInfoGetter) // ui.ListDevices(getter)
    | AnalyzePath(path: string)           // ui.AnalyzePath(path, nil)
    | SetIgnoreDirPaths(paths: seq<string>) // ui.SetIgnoreDirPaths(paths)
    | StartUILoop                         // ui.StartUILoop()
  {
    /** Calls that reach the UI, the only collaborator that produces output. */
    predicate IsUICall() {
      !GetMounts?
    }
  }

  /** How a mount getter answers GetMounts: the list of mounts, or an error. */
  datatype DevicesInfoGetter = DevicesInfoGetter(mounts: Result<seq<MountInfo>, Error>)

  /**
   * How a UI answers the two calls of common/ui.go that return an error (nil is
   * None). ListDevices lists the devices of the getter it is handed, so its
   * answer is a function of that getter. The web front end of web/web.go, for
   * one, answers ListDevices with nil whatever the getter: its answers are
   * UIAnswers(_ => None, e) for whatever its StartUILoop returns.
   */
  datatype UIAnswers = UIAnswers(listDevices: DevicesInfoGetter -> Option<Error>, startUILoop: Option<Error>)
}
