/** `main` of now.go: take at most one positional argument, resolve a
    shorthand, load the zone, and print the time with a label.

    The clock and the formatting of the time are left out; what remains is
    which zone is used, which label is printed, what is written as a
    warning and how the process ends.
 */
module Now {
  import opened Ascii
  import opened Shorthand
  import opened ZoneLoader

  /** The zone the time is shown in: the machine's own when no argument is
      given, otherwise the database identifier that was loaded. */
  datatype Location = Local | Zone(id: string)

  /** How a run ends. */
  datatype Ending =
    /** One line is printed: the time in `location`, a space, and the display label `shownName`. */
    | Printed(location: Location, shownName: string)
    /** More than one positional argument: usage text, exit status 2. */
    | UsageExit
    /** The zone could not be loaded. */
    | ZoneExit(failure: Failure)

  /** A whole run: the ambiguity warning written to standard error (empty
      when none) and the ending. */
  datatype Outcome = Outcome(warning: seq<string>, ending: Ending)

  /** The process exit status of each ending. An unknown zone is reported
      and ends with `os.Exit(1)`; a slice panic ends with the Go runtime's
      status 2, as does the usage error. */
  function ExitStatus(e: Ending): (status: nat)
    ensures status == 0 <==> e.Printed?
    ensures status == 1 <==> e.ZoneExit? && e.failure.UnknownZone?
    ensures status == 2 <==> e.UsageExit? || (e.ZoneExit? && e.failure.SlicePanic?)
  {
    match e
    case Printed(_, _) => 0
    case UsageExit => 2
    case ZoneExit(UnknownZone(_)) => 1
    case ZoneExit(SlicePanic(_)) => 2
  }

  /** One run of the program on the positional arguments `args`. */
  function Run(args: seq<string>, loadable: string -> bool, glob: string -> seq<string>): (r: Outcome)
    ensures r.ending == UsageExit <==> |args| > 1
    ensures |args| == 0 ==> r == Outcome([], Printed(Local, ""))
    ensures r.ending.Printed? && |args| == 1 ==>
              && r.ending.shownName == Resolve(args[0])
              && r.ending.location.Zone?
              && loadable(r.ending.location.id)
    ensures r.ending.ZoneExit? ==> |args| == 1
    ensures r.warning != [] ==> |args| == 1
  {
    if |args| > 1 then
      Outcome([], UsageExit)
    else if |args| == 0 then
      Outcome([], Printed(Local, ""))
    else
      var zone := Resolve(args[0]);
      var load := LoadZone(zone, loadable, glob);
      match load.result
      case Loaded(id) => Outcome(load.warning, Printed(Zone(id), zone))
      case NotLoaded(failure) => Outcome(load.warning, ZoneExit(failure))
  }

  /** Without an argument nothing is looked up: the outcome does not depend
      on the zone database or the filesystem. */
  lemma NoArgumentNoLookup(loadable1: string -> bool, glob1: string -> seq<string>,
                           loadable2: string -> bool, glob2: string -> seq<string>)
    ensures Run([], loadable1, glob1) == Run([], loadable2, glob2)
    ensures ExitStatus(Run([], loadable1, glob1).ending) == 0
  {
  }

  /** Two or more arguments are a usage error with status 2, whatever they
      say and whatever the database holds. */
  lemma TooManyArguments(args: seq<string>, loadable: string -> bool, glob: string -> seq<string>)
    requires |args| > 1
    ensures Run(args, loadable, glob) == Outcome([], UsageExit)
    ensures ExitStatus(Run(args, loadable, glob).ending) == 2
  {
  }

  /** The label is the shorthand-resolved name even when the zone actually
      loaded came from the capitalisation and search fallback: `loadZone`
      works on its own copy of the name. */
  lemma LabelIsResolvedName(arg: string, loadable: string -> bool, glob: string -> seq<string>)
    requires Run([arg], loadable, glob).ending.Printed?
    ensures var r := Run([arg], loadable, glob);
      && r.ending.shownName == Resolve(arg)
      && r.ending.location == Zone(LoadZone(Resolve(arg), loadable, glob).result.id)
  {
  }

  /** The run with one argument is the load of its resolved name: it prints
      exactly when that load succeeds, and otherwise exits with the load's
      failure. */
  lemma OneArgumentFollowsLoad(arg: string, loadable: string -> bool, glob: string -> seq<string>)
    ensures var r := Run([arg], loadable, glob);
      var load := LoadZone(Resolve(arg), loadable, glob);
      && r.warning == load.warning
      && (r.ending.Printed? <==> load.result.Loaded?)
      && (load.result.NotLoaded? ==> r.ending == ZoneExit(load.result.failure))
  {
  }

  /** "nyc" is the New York shorthand in any case, labelled with the full
      identifier. */
  lemma NewYorkShorthand(loadable: string -> bool, glob: string -> seq<string>)
    requires loadable("America/New_York")
    ensures Run(["nyc"], loadable, glob) == Outcome([], Printed(Zone("America/New_York"), "America/New_York"))
    ensures Run(["NYC"], loadable, glob) == Run(["nyc"], loadable, glob)
  {
    assert Upper("nyc") == "NYC";
    CaseInsensitive("nyc");
  }

  /** "UTC" maps to the empty identifier, which loads as UTC, so a run with
      an argument can print an empty label too. */
  lemma UtcHasEmptyLabel(loadable: string -> bool, glob: string -> seq<string>)
    requires loadable("")
    ensures Run(["UTC"], loadable, glob) == Outcome([], Printed(Zone(""), ""))
  {
  }

  /** An explicit empty argument is no shorthand; it loads as UTC and is
      printed with an empty label, like "UTC". */
  lemma EmptyArgumentHasEmptyLabel(loadable: string -> bool, glob: string -> seq<string>)
    requires loadable("")
    ensures Run([""], loadable, glob) == Outcome([], Printed(Zone(""), ""))
    ensures Run([""], loadable, glob) == Run(["UTC"], loadable, glob)
  {
  }

  /** "paris" is no shorthand and no database name; it is found as
      Europe/Paris, yet printed with the label the user typed. */
  lemma ParisKeepsTypedLabel(loadable: string -> bool, glob: string -> seq<string>)
    requires !loadable("paris") && loadable("Europe/Paris")
    requires glob("/usr/share/zoneinfo/*/Paris") == ["/usr/share/zoneinfo/Europe/Paris"]
    ensures Run(["paris"], loadable, glob) == Outcome([], Printed(Zone("Europe/Paris"), "paris"))
  {
    var upper := Upper("paris");
    assert upper[0] == 'P' && upper[1] == 'A';
    assert Resolve("paris") == "paris";
    LowercaseParis(loadable, glob);
  }

  /** A name that neither loads nor is found ends with status 1 and the
      error of loading the name itself. */
  lemma UnresolvableExitsOne(arg: string, loadable: string -> bool, glob: string -> seq<string>)
    requires !loadable(Resolve(arg))
    requires glob(GlobPattern(Capitalize(Resolve(arg)))) == []
    ensures Run([arg], loadable, glob) == Outcome([], ZoneExit(UnknownZone(Resolve(arg))))
    ensures ExitStatus(Run([arg], loadable, glob).ending) == 1
  {
  }
}
