/** `loadZone` of now.go: load a zone by name, falling back to a
    first-letter capitalisation and a search of the zone directory.

    The time-zone database and the filesystem are foreign data, so they
    enter as two oracles: `loadable(name)` says whether `time.LoadLocation`
    accepts `name`, and `glob(pattern)` is the list `filepath.Glob` returns
    for `pattern` (empty when it finds nothing or the pattern is malformed,
    since the code discards the glob error).
 */
module ZoneLoader {
  import opened Ascii

  /** Where the zone database lives; every glob pattern starts here. */
  const ZoneInfoDir: string := "/usr/share/zoneinfo/"

  /** Why a zone could not be loaded. */
  datatype Failure =
    /** `time.LoadLocation(name)` failed; `name` is the one whose error is printed. */
    | UnknownZone(name: string)
    /** The first glob hit is shorter than `ZoneInfoDir`, so slicing it off panics. */
    | SlicePanic(path: string)

  /** The zone `loadZone` hands back: the identifier that was loaded, or the failure. */
  datatype LoadResult = Loaded(id: string) | NotLoaded(failure: Failure)

  /** Everything `loadZone` produces: the candidate list of the
      "multiple time zones" warning (empty when none is printed) and the result. */
  datatype ZoneLoad = ZoneLoad(warning: seq<string>, result: LoadResult)

  /** Capitalise the first byte when it is a lowercase letter, so that
      "paris" is searched as "Paris". */
  function Capitalize(s: string): (r: string)
    ensures |r| == |s|
    ensures |s| > 0 ==> r[0] == UpperByte(s[0])
    ensures forall i :: 0 < i < |s| ==> r[i] == s[i]
    ensures r == s <==> |s| == 0 || !IsLower(s[0])
  {
    if |s| > 0 && IsLower(s[0]) then [UpperByte(s[0])] + s[1..] else s
  }

  /** The pattern searched for a zone named `name` in any region directory. */
  function GlobPattern(name: string): (p: string)
    ensures |p| == |ZoneInfoDir| + 2 + |name|
    ensures p[..|ZoneInfoDir|] == ZoneInfoDir && p[|p| - |name|..] == name
    ensures p[|ZoneInfoDir|..|ZoneInfoDir| + 2] == "*/"
  {
    ZoneInfoDir + "*/" + name
  }

  /** `files[0][len("/usr/share/zoneinfo/"):]`: drop as many leading bytes
      as the directory prefix has, without looking at them. */
  function StripZoneInfoDir(path: string): (id: string)
    requires |path| >= |ZoneInfoDir|
    ensures |id| + |ZoneInfoDir| == |path|
    ensures path[..|ZoneInfoDir|] + id == path
  {
    path[|ZoneInfoDir|..]
  }

  /** `loadZone(zone)`: the direct load first; on failure the capitalised
      name is searched for as `<region>/<name>`, the first hit (warning when
      there are several) is loaded, and anything else fails with the error
      of the last load attempted, or panics when the first hit is shorter
      than the directory prefix. */
  function LoadZone(zone: string, loadable: string -> bool, glob: string -> seq<string>): (r: ZoneLoad)
    ensures loadable(zone) ==> r == ZoneLoad([], Loaded(zone))
    ensures r.result.Loaded? ==> loadable(r.result.id)
    ensures var files := glob(GlobPattern(Capitalize(zone)));
      r.result.Loaded? && r.result.id != zone ==>
        && !loadable(zone)
        && |files| >= 1 && |files[0]| >= |ZoneInfoDir|
        && r.result.id == StripZoneInfoDir(files[0])
    ensures var files := glob(GlobPattern(Capitalize(zone)));
      r.warning != [] <==> !loadable(zone) && |files| > 1
    ensures r.warning != [] ==> r.warning == glob(GlobPattern(Capitalize(zone)))
    ensures var files := glob(GlobPattern(Capitalize(zone)));
      !loadable(zone) && files == [] ==> r.result == NotLoaded(UnknownZone(zone))
    ensures var files := glob(GlobPattern(Capitalize(zone)));
      r.result.NotLoaded? && r.result.failure.SlicePanic? <==>
        !loadable(zone) && |files| >= 1 && |files[0]| < |ZoneInfoDir|
    ensures var files := glob(GlobPattern(Capitalize(zone)));
      r.result.NotLoaded? && r.result.failure.SlicePanic? ==> r.result.failure.path == files[0]
    ensures var files := glob(GlobPattern(Capitalize(zone)));
      !loadable(zone) && |files| >= 1 && |files[0]| >= |ZoneInfoDir| ==>
        var id := StripZoneInfoDir(files[0]);
        && (loadable(id) ==> r.result == Loaded(id))
        && (!loadable(id) ==> r.result == NotLoaded(UnknownZone(id)))
  {
    if loadable(zone) then
      ZoneLoad([], Loaded(zone))
    else
      var name := Capitalize(zone);
      var files := glob(GlobPattern(name));
      if |files| == 0 then
        ZoneLoad([], NotLoaded(UnknownZone(zone)))
      else
        var warning := if |files| > 1 then files else [];
        if |files[0]| < |ZoneInfoDir| then
          ZoneLoad(warning, NotLoaded(SlicePanic(files[0])))
        else
          var id := StripZoneInfoDir(files[0]);
          ZoneLoad(warning, if loadable(id) then Loaded(id) else NotLoaded(UnknownZone(id)))
  }

  /** Capitalising twice is capitalising once. */
  lemma CapitalizeIdempotent(s: string)
    ensures Capitalize(Capitalize(s)) == Capitalize(s)
  {
  }

  /** Capitalisation agrees with `toUpper` on the first byte and keeps the
      rest, so uppercasing cannot tell a name from its capitalised form. */
  lemma UpperAbsorbsCapitalize(s: string)
    ensures Upper(Capitalize(s)) == Upper(s)
  {
    var c := Capitalize(s);
    forall i | 0 <= i < |s|
      ensures Upper(c)[i] == Upper(s)[i]
    {
      if i == 0 && IsLower(s[0]) {
        assert UpperByte(UpperByte(s[0])) == UpperByte(s[0]);
      }
    }
  }

  /** Stripping the directory prefix undoes prepending it. */
  lemma StripRoundTrip(id: string)
    ensures StripZoneInfoDir(ZoneInfoDir + id) == id
  {
  }

  /** A name that loads directly returns at once: neither the capitalisation
      nor the glob is consulted, so the glob cannot affect the outcome. */
  lemma DirectLoadIgnoresGlob(zone: string, loadable: string -> bool,
                              glob1: string -> seq<string>, glob2: string -> seq<string>)
    requires loadable(zone)
    ensures LoadZone(zone, loadable, glob1) == LoadZone(zone, loadable, glob2) == ZoneLoad([], Loaded(zone))
  {
  }

  /** Only the first glob hit is ever loaded: two searches that agree on
      their first hit give the same result, however many other candidates
      (and so whichever warning) they carry. */
  lemma FirstHitDecides(zone: string, loadable: string -> bool,
                        glob1: string -> seq<string>, glob2: string -> seq<string>)
    requires !loadable(zone)
    requires var p := GlobPattern(Capitalize(zone));
      |glob1(p)| >= 1 && |glob2(p)| >= 1 && glob1(p)[0] == glob2(p)[0]
    ensures LoadZone(zone, loadable, glob1).result == LoadZone(zone, loadable, glob2).result
  {
  }

  /** An ambiguous search warns with all candidates and loads what a
      search finding only the first candidate would load. */
  lemma AmbiguousUsesFirst(zone: string, loadable: string -> bool, glob: string -> seq<string>)
    requires !loadable(zone)
    requires |glob(GlobPattern(Capitalize(zone)))| > 1
    ensures var files := glob(GlobPattern(Capitalize(zone)));
      var single := (p: string) => if p == GlobPattern(Capitalize(zone)) then [files[0]] else glob(p);
      && LoadZone(zone, loadable, glob).warning == files
      && LoadZone(zone, loadable, single).warning == []
      && LoadZone(zone, loadable, glob).result == LoadZone(zone, loadable, single).result
  {
    var files := glob(GlobPattern(Capitalize(zone)));
    var single := (p: string) => if p == GlobPattern(Capitalize(zone)) then [files[0]] else glob(p);
    FirstHitDecides(zone, loadable, glob, single);
  }

  /** When the glob returns real paths under the zone directory, the slice
      never panics and the loaded identifier is the hit minus the prefix. */
  lemma WellFormedGlobNeverPanics(zone: string, loadable: string -> bool, glob: string -> seq<string>)
    requires forall i :: 0 <= i < |glob(GlobPattern(Capitalize(zone)))| ==> ZoneInfoDir <= glob(GlobPattern(Capitalize(zone)))[i]
    ensures !LoadZone(zone, loadable, glob).result.NotLoaded?
            || !LoadZone(zone, loadable, glob).result.failure.SlicePanic?
    ensures var r := LoadZone(zone, loadable, glob);
      r.result.Loaded? && r.result.id != zone ==> ZoneInfoDir + r.result.id == glob(GlobPattern(Capitalize(zone)))[0]
  {
  }

  /** A lowercase-initial name that does not load directly is searched
      exactly as its capitalised spelling would be: both warn alike, and
      both succeed, with the same zone, or both fail. */
  lemma CapitalizedSpellingAgrees(zone: string, loadable: string -> bool, glob: string -> seq<string>)
    requires !loadable(zone) && !loadable(Capitalize(zone))
    ensures var a := LoadZone(zone, loadable, glob);
      var b := LoadZone(Capitalize(zone), loadable, glob);
      && a.warning == b.warning
      && (a.result.Loaded? <==> b.result.Loaded?)
      && (a.result.Loaded? ==> a.result == b.result)
  {
    CapitalizeIdempotent(zone);
  }

  /** "paris" is not a database name, but "Paris" is found as
      Europe/Paris in the search. */
  lemma LowercaseParis(loadable: string -> bool, glob: string -> seq<string>)
    requires !loadable("paris") && loadable("Europe/Paris")
    requires glob("/usr/share/zoneinfo/*/Paris") == ["/usr/share/zoneinfo/Europe/Paris"]
    ensures LoadZone("paris", loadable, glob) == ZoneLoad([], Loaded("Europe/Paris"))
  {
    assert Capitalize("paris") == "Paris";
    assert GlobPattern("Paris") == "/usr/share/zoneinfo/*/Paris";
    assert StripZoneInfoDir("/usr/share/zoneinfo/Europe/Paris") == "Europe/Paris";
  }
}
