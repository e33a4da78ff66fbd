# now — zone-name resolution, modelled in Dafny

`now` prints the current time in a time zone. The user names the zone by a
shorthand (`EST`, `NYC`) or by the base name of a zone-database file
(`Paris`, `Adelaide`). This project models how that name is resolved:

- `ascii.dfy` (module `Ascii`): `toUpper`, the ASCII-only byte-wise uppercasing.
  It has a recursive reference definition, `Upper`, and a method, `ToUpper`,
  that mirrors the buffer-filling loop.
- `shorthand.dfy` (module `Shorthand`): the constant `timeZone` table and the
  lookup `main` does on the argument. The exact key is tried first, then the
  uppercased key, and otherwise the name is kept.
- `zoneloader.dfy` (module `ZoneLoader`): `loadZone`. It tries a direct load.
  If that fails, it capitalises the first byte, searches
  `/usr/share/zoneinfo/*/<name>`, and loads the first hit with the directory
  prefix sliced off. Any other outcome is a failure.
- `now.dfy` (module `Now`): `main`. It handles the argument count, the label
  that gets printed, the ambiguity warning, and how the run ends, including
  the exit status.

Go strings are byte strings. The model represents them as `string` with one
`char` per byte. Every operation is total over `char`, and only the bytes
`'a'..'z'` are ever rewritten.

The two foreign dependencies become parameters of the model:

- `loadable: string -> bool` says whether `time.LoadLocation` accepts a name.
- `glob: string -> seq<string>` is what `filepath.Glob` returns for a pattern.
  The glob error is discarded by the code, so an error is modelled as the empty list.

`os.Exit` is replaced by the `Ending` datatype, and `ExitStatus` gives the
status for each ending.

Behaviour worth noting:

- After capitalising the first letter, `loadZone` does not try a direct
  load of the capitalised name. The capitalised name is used only in the
  glob pattern. So `"paris"` is found as `Europe/Paris` through the search
  (`ZoneLoader.LowercaseParis`).
- The label is empty not only in the no-argument case. `UTC` maps to the
  empty identifier, so `now UTC` prints an empty label
  (`Now.UtcHasEmptyLabel`). An explicit empty argument (`now ""`) does too.
- Shorthands are matched case-insensitively only through their uppercase
  spelling. Any spelling whose uppercase form is a key resolves to that
  key's zone (`Shorthand.CaseInsensitive`). The one key that is not
  uppercase, `Chicago`, matches only as typed: `chicago` and `CHICAGO` are
  not shorthands (`Shorthand.ChicagoIsCaseSensitive`).

## Model

| member | source | states |
|---|---|---|
| Ascii.UpperByte | now.go:81-85 | a byte in 'a'..'z' becomes that byte minus 32 (an uppercase letter); any other byte is kept; the result is never lowercase |
| Ascii.Upper | now.go:78-88 | uppercasing keeps the length, rewrites each position by the byte rule alone, and leaves no lowercase letter |
| Ascii.ToUpper | now.go:78-88 | the buffer-filling loop returns a string of the input's length in which each 'a'..'z' byte is lowered by 32 and every other byte is unchanged, i.e. the reference `Upper` |
| Ascii.UpperIdempotent | now.go:82-84 | uppercasing twice is uppercasing once |
| Ascii.UpperFixedIffNoLower | now.go:80-85 | a string is unchanged by uppercasing exactly when it holds no lowercase letter |
| Shorthand.TimeZoneKeys | now.go:91-116 | the table's keys are exactly the 24 shorthands GMT, BST, BSDT, CET, UTC, PST, PDT, LA, LAX, MST, MDT, CST, CDT, Chicago, EST, EDT, NYC, NY, AEST, AEDT, AWST, AWDT, ACST, ACDT |
| Shorthand.TimeZoneValues | now.go:91-116 | the table's values are exactly nine region/city identifiers and the empty name for UTC |
| Shorthand.Resolve | now.go:39-44 | the result is the name itself or a table value; an exact key wins; the name changes only if the exact or the uppercased key is present, and stays as typed if neither is |
| Shorthand.UpperFallback | now.go:40-44 | with the exact key absent and the uppercased key present, the uppercased key's value is used, the same as typing the uppercase name |
| Shorthand.KeysNoLowerExceptChicago | now.go:91-116 | every key except "Chicago" contains no lowercase letter |
| Shorthand.KeysFixedByUpper | now.go:91-116 | every key except "Chicago" is its own uppercase form |
| Shorthand.UpperChicagoNotKey | now.go:105 | the uppercase form of "Chicago" is "CHICAGO", which is not a key |
| Shorthand.KeyUpperClosed | now.go:91-116 | a key whose uppercase form is a key is that same key |
| Shorthand.CaseInsensitive | now.go:40-44 | any spelling whose uppercase form is a key resolves to that key's value, even when the spelling is itself a key |
| Shorthand.ChicagoIsCaseSensitive | now.go:105 | "Chicago" resolves to America/Chicago, while "chicago" and "CHICAGO" are not shorthands and pass through unchanged |
| Shorthand.KeysHaveNoSlash | now.go:91-116 | keys are non-empty and contain no '/' |
| Shorthand.ValuesAreZoneIds | now.go:91-116 | every value is empty (UTC) or contains a '/' (region/city) |
| Shorthand.ResolveIdempotent | now.go:40-44 | resolving the resolved name again changes nothing, because no value is a key under either spelling |
| ZoneLoader.Capitalize | now.go:57-59 | the length is kept; only byte 0 may change, and only by the uppercase rule; the string is unchanged exactly when it is empty or does not start with 'a'..'z' |
| ZoneLoader.CapitalizeIdempotent | now.go:57-59 | capitalising twice is capitalising once |
| ZoneLoader.UpperAbsorbsCapitalize | now.go:57-59 | uppercasing a capitalised name gives the same as uppercasing the name |
| ZoneLoader.GlobPattern | now.go:61 | the pattern is the zone directory, then `*/`, then the name, and nothing else |
| ZoneLoader.StripZoneInfoDir | now.go:66 | the stripped name is what follows the path's first `len("/usr/share/zoneinfo/")` bytes, whatever those bytes are |
| ZoneLoader.StripRoundTrip | now.go:66 | stripping the prefix from prefix + id gives back id |
| ZoneLoader.LoadZone | now.go:51-75 | a direct load returns at once with no warning; after a failed direct load: an empty search fails with the error of the name itself, a first hit shorter than the prefix panics (and only then) naming that hit, and otherwise the stripped first hit is loaded if it loads and reported as the failing name if not; a warning listing all hits is printed exactly when the direct load fails and there are several hits; every loaded id is loadable |
| ZoneLoader.DirectLoadIgnoresGlob | now.go:52-55 | if the name loads directly, the outcome does not depend on the glob |
| ZoneLoader.FirstHitDecides | now.go:62-70 | two searches that agree on their first hit give the same result |
| ZoneLoader.AmbiguousUsesFirst | now.go:62-66 | several hits give a warning listing all of them, and the same result as a search that found only the first |
| ZoneLoader.WellFormedGlobNeverPanics | now.go:61-66 | when every hit starts with the zone directory, slicing never panics, and a fallback id plus the prefix is the first hit |
| ZoneLoader.CapitalizedSpellingAgrees | now.go:56-70 | when neither spelling loads directly, a name and its capitalised form warn alike, and both load the same zone or both fail |
| ZoneLoader.LowercaseParis | now.go:56-69 | "paris" fails the direct load, is searched as "Paris" and loads Europe/Paris with no warning |
| Now.ExitStatus | now.go:32-72 | status 0 exactly for a printed line; status 1 exactly for an unknown zone; status 2 exactly for a usage error or a slice panic |
| Now.Run | now.go:29-49 | a usage error happens exactly with more than one argument; no argument prints local time with an empty label; a printed run with one argument carries the resolved name as label and a loadable zone |
| Now.NoArgumentNoLookup | now.go:36-46 | with no argument the outcome does not depend on the database or the filesystem, and the exit status is 0 |
| Now.TooManyArguments | now.go:32-35 | two or more arguments end in the usage error with status 2 and no warning |
| Now.LabelIsResolvedName | now.go:45-48 | a printed label is the shorthand-resolved name, while the zone is whatever `loadZone` loaded for it |
| Now.OneArgumentFollowsLoad | now.go:45-46 | a run with one argument prints exactly when loading the resolved name succeeds; otherwise it ends with that load's failure and passes its warning through |
| Now.NewYorkShorthand | now.go:40-44 | "nyc" and "NYC" both print America/New_York, labelled America/New_York |
| Now.UtcHasEmptyLabel | now.go:40-48 | "UTC" loads the empty identifier and prints an empty label |
| Now.EmptyArgumentHasEmptyLabel | now.go:39-48 | an explicit empty argument loads the empty identifier (UTC) and prints an empty label, exactly as "UTC" does |
| Now.ParisKeepsTypedLabel | now.go:39-58 | "paris" loads Europe/Paris through the search but is labelled "paris" |
| Now.UnresolvableExitsOne | now.go:61-72 | a name that neither loads nor is found ends with status 1, reporting the error of loading the name itself |

## Left out

- `time.LoadLocation` and the zone database are foreign data. They are the `loadable` parameter, and the model does not constrain which names load (for example that `""` and `"UTC"` always do).
- `filepath.Glob` and the filesystem depend on I/O and directory order. They are the `glob` parameter. Its hit order is taken as given, and its error is treated as an empty list.
- `time.Now`, `t.In`, `t.Format` and the output layout are left out: they are clock reads and calendar arithmetic inside the Go library. `Now.Location` records which zone the time would be shown in.
- `flag` parsing is left out, so the model starts from the positional arguments. That covers `-h` (exit 0) and unknown flags (exit 2). The usage text and the wording of the printed messages are also left out; the warning and the failure keep the data they print.
- Now.ExitStatus: a slice panic is given status 2, the Go runtime's status for an unrecovered panic. The panic message itself is not modelled.
