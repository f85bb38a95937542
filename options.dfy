/** The run options (scripts/options.py): four flags read from the parsed command line once,
    and a module-global slot that holds the current options object. */
module Options {
  import opened Wrappers

  /** The parsed command line: the boolean attributes it carries. */
  datatype Args = Args(attrs: map<string, bool>)

  /** The flags an Options object holds; its getters return them unchanged. */
  datatype Settings = Settings(dryRun: bool, destroy: bool, normalizeTasks: bool, waitForHealthyTargets: bool)

  /** getattr(args, name, default) */
  function Attr(args: Args, name: string, default: bool): bool {
    if name in args.attrs then args.attrs[name] else default
  }

  /** Options.__init__: each flag is the attribute of that name, or its default when the
      command line has no such attribute: dry_run, destroy and normalize_tasks default to
      False, wait_for_healthy_targets to True. */
  function SettingsOf(args: Args): (s: Settings)
    ensures "dry_run" !in args.attrs ==> !s.dryRun
    ensures "destroy" !in args.attrs ==> !s.destroy
    ensures "normalize_tasks" !in args.attrs ==> !s.normalizeTasks
    ensures "wait_for_healthy_targets" !in args.attrs ==> s.waitForHealthyTargets
    ensures "dry_run" in args.attrs ==> s.dryRun == args.attrs["dry_run"]
    ensures "destroy" in args.attrs ==> s.destroy == args.attrs["destroy"]
    ensures "normalize_tasks" in args.attrs ==> s.normalizeTasks == args.attrs["normalize_tasks"]
    ensures "wait_for_healthy_targets" in args.attrs ==> s.waitForHealthyTargets == args.attrs["wait_for_healthy_targets"]
  {
    Settings(Attr(args, "dry_run", false), Attr(args, "destroy", false),
             Attr(args, "normalize_tasks", false), Attr(args, "wait_for_healthy_targets", true))
  }

  /** The module-global `options`: empty until create_options runs. */
  class Registry {
    var current: Option<Settings>

    constructor ()
      ensures current.None?
    {
      current := None;
    }

    /** create_options: replaces whatever options were there. */
    method CreateOptions(args: Args)
      modifies this
      ensures current == Some(SettingsOf(args))
    {
      current := Some(SettingsOf(args));
    }

    /** get_options */
    function GetOptions(): Option<Settings>
      reads this
    {
      current
    }
  }
}
