/** The shorthand table of now.go and the lookup `main` performs on the
    single argument before any zone is loaded. */
module Shorthand {
  import opened Ascii

  /** Well-known abbreviations and city shorthands, mapped to zone-database
      identifiers. The empty value selects UTC when loaded. */
  const TimeZone: map<string, string> := map[
    "GMT" := "Europe/London",
    "BST" := "Europe/London",
    "BSDT" := "Europe/London",
    "CET" := "Europe/Paris",
    "UTC" := "",
    "PST" := "America/Los_Angeles",
    "PDT" := "America/Los_Angeles",
    "LA" := "America/Los_Angeles",
    "LAX" := "America/Los_Angeles",
    "MST" := "America/Denver",
    "MDT" := "America/Denver",
    "CST" := "America/Chicago",
    "CDT" := "America/Chicago",
    "Chicago" := "America/Chicago",
    "EST" := "America/New_York",
    "EDT" := "America/New_York",
    "NYC" := "America/New_York",
    "NY" := "America/New_York",
    "AEST" := "Australia/Sydney",
    "AEDT" := "Australia/Sydney",
    "AWST" := "Australia/Perth",
    "AWDT" := "Australia/Perth",
    "ACST" := "Australia/Adelaide",
    "ACDT" := "Australia/Adelaide"
  ]

  /** The zone identifiers the table leads to: nine region/city names and
      the empty name, which loads as UTC. */
  const ZoneIds: set<string> := {
    "Europe/London", "Europe/Paris", "", "America/Los_Angeles", "America/Denver",
    "America/Chicago", "America/New_York", "Australia/Sydney", "Australia/Perth", "Australia/Adelaide"}

  /** The table has exactly these 24 shorthands. */
  lemma TimeZoneKeys()
    ensures TimeZone.Keys == {
      "GMT", "BST", "BSDT", "CET", "UTC", "PST", "PDT", "LA", "LAX", "MST", "MDT", "CST",
      "CDT", "Chicago", "EST", "EDT", "NYC", "NY", "AEST", "AEDT", "AWST", "AWDT", "ACST", "ACDT"}
  {
  }

  /** The table leads to exactly these ten identifiers. */
  lemma TimeZoneValues()
    ensures TimeZone.Values == ZoneIds
  {
    forall v | v in TimeZone.Values
      ensures v in ZoneIds
    {
      var k :| k in TimeZone && TimeZone[k] == v;
    }
    assert TimeZone["GMT"] == "Europe/London" && TimeZone["CET"] == "Europe/Paris";
    assert TimeZone["UTC"] == "" && TimeZone["PST"] == "America/Los_Angeles";
    assert TimeZone["MST"] == "America/Denver" && TimeZone["CST"] == "America/Chicago";
    assert TimeZone["EST"] == "America/New_York" && TimeZone["AEST"] == "Australia/Sydney";
    assert TimeZone["AWST"] == "Australia/Perth" && TimeZone["ACST"] == "Australia/Adelaide";
  }

  /** The name `main` goes on with: the exact key is looked up first, the
      uppercased key only when the exact one is absent, and an unmatched
      name is kept as typed. */
  function Resolve(name: string): (r: string)
    ensures r == name || r in TimeZone.Values
    ensures name in TimeZone ==> r == TimeZone[name]
    ensures r != name ==> name in TimeZone || Upper(name) in TimeZone
    ensures name !in TimeZone && Upper(name) !in TimeZone ==> r == name
  {
    if name in TimeZone then TimeZone[name]
    else if Upper(name) in TimeZone then TimeZone[Upper(name)]
    else name
  }

  /** The uppercased key is consulted exactly when the exact key is absent,
      and then it gives what looking up the uppercased name itself gives. */
  lemma UpperFallback(name: string)
    requires name !in TimeZone
    requires Upper(name) in TimeZone
    ensures Resolve(name) == TimeZone[Upper(name)] == Resolve(Upper(name))
  {
  }

  /** Every key but "Chicago" is spelled without lowercase letters. */
  lemma KeysNoLowerExceptChicago()
    ensures forall k :: k in TimeZone ==> k == "Chicago" || NoLower(k)
  {
  }

  /** Every key but "Chicago" is its own uppercase form. */
  lemma KeysFixedByUpper()
    ensures forall k :: k in TimeZone && k != "Chicago" ==> Upper(k) == k
  {
    KeysNoLowerExceptChicago();
    forall k | k in TimeZone && k != "Chicago"
      ensures Upper(k) == k
    {
      UpperFixedIffNoLower(k);
    }
  }

  /** The uppercase form of "Chicago" is not a key. */
  lemma UpperChicagoNotKey()
    ensures Upper("Chicago") == "CHICAGO"
    ensures Upper("Chicago") !in TimeZone
  {
    var chicago := Upper("Chicago");
    assert chicago[0] == 'C' && chicago[1] == 'H';
  }

  /** A key whose uppercase form is also a key is that key: uppercasing
      never leads from one shorthand to a different one. */
  lemma KeyUpperClosed(k: string)
    requires k in TimeZone
    ensures Upper(k) in TimeZone ==> Upper(k) == k
  {
    if k == "Chicago" {
      UpperChicagoNotKey();
    } else {
      KeysFixedByUpper();
    }
  }

  /** Shorthands are case-insensitive whenever the uppercase spelling is a
      key: every spelling of "nyc" reaches "America/New_York". */
  lemma CaseInsensitive(name: string)
    requires Upper(name) in TimeZone
    ensures Resolve(name) == TimeZone[Upper(name)]
  {
    if name in TimeZone {
      KeyUpperClosed(name);
    }
  }

  /** "Chicago" is the one key that is not uppercase, so only its exact
      spelling is a shorthand: "chicago" and "CHICAGO" pass through. */
  lemma ChicagoIsCaseSensitive()
    ensures Resolve("Chicago") == "America/Chicago"
    ensures Resolve("chicago") == "chicago"
    ensures Resolve("CHICAGO") == "CHICAGO"
  {
    UpperChicagoNotKey();
    var lower := Upper("chicago");
    assert lower[0] == 'C' && lower[1] == 'H';
    assert lower == "CHICAGO";
  }

  /** Keys are non-empty and never contain '/'. */
  lemma KeysHaveNoSlash()
    ensures forall k :: k in TimeZone ==> k != "" && '/' !in k
  {
  }

  /** Values are the empty string (UTC) or hold a '/' between region and
      city, so no value is spelled like a key. */
  lemma ValuesAreZoneIds()
    ensures forall v :: v in TimeZone.Values ==> v == "" || '/' in v
  {
    forall v | v in TimeZone.Values
      ensures v == "" || '/' in v
    {
      var k :| k in TimeZone && TimeZone[k] == v;
    }
  }

  /** No table value is a key, under either spelling: resolving a second
      time changes nothing. */
  lemma ResolveIdempotent(name: string)
    ensures Resolve(Resolve(name)) == Resolve(name)
  {
    var r := Resolve(name);
    if r != name {
      KeysHaveNoSlash();
      ValuesAreZoneIds();
      if r != "" {
        var i :| 0 <= i < |r| && r[i] == '/';
        assert Upper(r)[i] == '/';
      }
      assert Upper(r) !in TimeZone;
    }
  }
}
