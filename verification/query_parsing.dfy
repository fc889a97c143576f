/**
 * A reader for the query strings the lookups build, given as their inverse:
 * a query string determines its locator, and a locator its query string.
 */
module QueryParsing {
  import opened Wrappers
  import opened NumberText
  import opened OpenWeatherMap

  predicate HasPrefix(s: string, prefix: string) {
    |prefix| <= |s| && s[..|prefix|] == prefix
  }

  /** The position of the first `ch` in `s`, if there is one. */
  function IndexOf(s: string, ch: char): (r: Option<nat>)
    ensures r.None? <==> ch !in s
    ensures r.Some? ==> r.value < |s| && s[r.value] == ch && ch !in s[..r.value]
    decreases |s|
  {
    if s == [] then None
    else if s[0] == ch then Some(0)
    else
      match IndexOf(s[1..], ch)
      case None => None
      case Some(i) => assert s[..i + 1] == [s[0]] + s[1..][..i]; Some(i + 1)
  }

  /** A rendered safe integer, read back. */
  function ParseSafeInteger(s: string): Option<SafeInteger> {
    match ParseNumber(s)
    case Some(n) => if -MaxSafeInteger <= n <= MaxSafeInteger then Some(n) else None
    case None => None
  }

  function ParseGeo(rest: string): Option<Locator> {
    match IndexOf(rest, '&')
    case Some(i) =>
      if HasPrefix(rest[i..], "&lon=") then Some(GeoCoordinates(rest[..i], rest[i + 5..])) else None
    case None => None
  }

  function ParseZip(rest: string): Option<Locator> {
    match IndexOf(rest, ',')
    case None =>
      (match ParseSafeInteger(rest)
       case Some(zip) => Some(Zipcode(zip, ""))
       case None => None)
    case Some(i) =>
      if i + 1 < |rest| then
        match ParseSafeInteger(rest[..i])
        case Some(zip) => Some(Zipcode(zip, rest[i + 1..]))
        case None => None
      else None
  }

  /** The locator whose query string is `q`, if there is one. */
  function ParseQuery(q: string): Option<Locator> {
    if HasPrefix(q, "q=") then Some(CityName(q[2..]))
    else if HasPrefix(q, "id=") then
      match ParseSafeInteger(q[3..])
      case Some(id) => Some(CityId(id))
      case None => None
    else if HasPrefix(q, "lat=") then ParseGeo(q[4..])
    else if HasPrefix(q, "zip=") then ParseZip(q[4..])
    else None
  }

  /** Pre-rendered coordinates carry no '&'; every other locator is unconstrained. */
  predicate Readable(l: Locator) {
    l.GeoCoordinates? ==> '&' !in l.latitude
  }

  lemma NumberHasNoSeparator(n: SafeInteger, ch: char)
    requires ch == ',' || ch == '&'
    ensures ch !in NumberToString(n)
  {
  }

  lemma PrefixOf(prefix: string, rest: string)
    ensures HasPrefix(prefix + rest, prefix) && (prefix + rest)[|prefix|..] == rest
  {
  }

  /** Texts that differ in their first character do not prefix one another. */
  lemma NotPrefix(s: string, other: string)
    requires |s| > 0 && |other| > 0 && s[0] != other[0]
    ensures !HasPrefix(s, other)
  {
  }

  lemma CityIdRoundTrip(id: SafeInteger)
    ensures ParseQuery(QueryString(CityId(id))) == Some(CityId(id))
  {
    PrefixOf("id=", NumberToString(id));
    NotPrefix("id=" + NumberToString(id), "q=");
    NumberRoundTrip(id);
  }

  /** The first `ch` in `a + b` is the one that starts `b` when `a` has none. */
  lemma FirstAfter(a: string, b: string, ch: char)
    requires ch !in a && |b| > 0 && b[0] == ch
    ensures IndexOf(a + b, ch) == Some(|a|)
  {
    assert (a + b)[|a|] == ch;
  }

  lemma GeoRestRoundTrip(lat: string, lon: string)
    requires '&' !in lat
    ensures ParseGeo(lat + "&lon=" + lon) == Some(GeoCoordinates(lat, lon))
  {
    var rest := lat + ("&lon=" + lon);
    assert rest == lat + "&lon=" + lon;
    FirstAfter(lat, "&lon=" + lon, '&');
    assert rest[..|lat|] == lat;
    assert rest[|lat|..] == "&lon=" + lon;
    PrefixOf("&lon=", lon);
    assert rest[|lat| + 5..] == lon;
  }

  lemma GeoRoundTrip(lat: string, lon: string)
    requires '&' !in lat
    ensures ParseQuery(QueryString(GeoCoordinates(lat, lon))) == Some(GeoCoordinates(lat, lon))
  {
    var rest := lat + "&lon=" + lon;
    assert QueryString(GeoCoordinates(lat, lon)) == "lat=" + rest;
    PrefixOf("lat=", rest);
    NotPrefix("lat=" + rest, "q=");
    NotPrefix("lat=" + rest, "id=");
    GeoRestRoundTrip(lat, lon);
  }

  lemma ZipRestRoundTrip(zip: SafeInteger, code: string)
    ensures ParseZip(NumberToString(zip) + (if code != "" then "," + code else "")) == Some(Zipcode(zip, code))
  {
    var n := NumberToString(zip);
    if code != "" {
      ZipCodeRestRoundTrip(zip, code);
    } else {
      NumberHasNoSeparator(zip, ',');
      NumberRoundTrip(zip);
      assert n + "" == n;
    }
  }

  lemma ZipCodeRestRoundTrip(zip: SafeInteger, code: string)
    requires code != ""
    ensures ParseZip(NumberToString(zip) + ("," + code)) == Some(Zipcode(zip, code))
  {
    var n := NumberToString(zip);
    var rest := n + ("," + code);
    NumberHasNoSeparator(zip, ',');
    FirstAfter(n, "," + code, ',');
    assert rest[..|n|] == n;
    assert rest[|n| + 1..] == code;
    NumberRoundTrip(zip);
  }

  lemma ZipRoundTrip(zip: SafeInteger, code: string)
    ensures ParseQuery(QueryString(Zipcode(zip, code))) == Some(Zipcode(zip, code))
  {
    var rest := NumberToString(zip) + (if code != "" then "," + code else "");
    assert QueryString(Zipcode(zip, code)) == "zip=" + rest;
    PrefixOf("zip=", rest);
    NotPrefix("zip=" + rest, "q=");
    NotPrefix("zip=" + rest, "id=");
    NotPrefix("zip=" + rest, "lat=");
    ZipRestRoundTrip(zip, code);
  }

  /** Reading the query string of a locator gives the locator back. */
  lemma QueryRoundTrip(l: Locator)
    requires Readable(l)
    ensures ParseQuery(QueryString(l)) == Some(l)
  {
    match l
    case CityName(name) =>
      PrefixOf("q=", name);
    case CityId(id) =>
      CityIdRoundTrip(id);
    case GeoCoordinates(lat, lon) =>
      GeoRoundTrip(lat, lon);
    case Zipcode(zip, code) =>
      ZipRoundTrip(zip, code);
  }

  lemma ParseGeoExact(rest: string)
    requires ParseGeo(rest).Some?
    ensures Readable(ParseGeo(rest).value)
    ensures QueryString(ParseGeo(rest).value) == "lat=" + rest
  {
  }

  lemma ParseZipWithCode(rest: string, i: nat)
    requires IndexOf(rest, ',') == Some(i) && ParseZip(rest).Some?
    ensures QueryString(ParseZip(rest).value) == "zip=" + rest
  {
    var l := ParseZip(rest).value;
    ZipRestText(rest, i);
    ZipQueryText(l.zip, l.countryCode);
  }

  /** A zipcode text with a comma is the rendered zipcode, the comma and a non-empty code. */
  lemma ZipRestText(rest: string, i: nat)
    requires IndexOf(rest, ',') == Some(i) && ParseZip(rest).Some?
    ensures ParseZip(rest).value.countryCode != ""
    ensures rest == NumberToString(ParseZip(rest).value.zip) + ("," + ParseZip(rest).value.countryCode)
  {
    var n, code := rest[..i], rest[i + 1..];
    assert ParseZip(rest) == Some(Zipcode(ParseSafeInteger(n).value, code));
    ParseNumberCanonical(n);
    assert rest == n + ("," + code);
  }

  /** The zipcode query spelled out. */
  lemma ZipQueryText(zip: SafeInteger, code: string)
    ensures QueryString(Zipcode(zip, code)) == "zip=" + NumberToString(zip) + (if code != "" then "," + code else "")
  {
    assert QueryString(Zipcode(zip, code)) == ZipQuery(zip, code);
  }

  lemma ParseZipExact(rest: string)
    requires ParseZip(rest).Some?
    ensures QueryString(ParseZip(rest).value) == "zip=" + rest
  {
    match IndexOf(rest, ',')
    case None =>
      ParseNumberCanonical(rest);
      ZipQueryText(ParseZip(rest).value.zip, "");
    case Some(i) =>
      ParseZipWithCode(rest, i);
  }

  /** Every string the reader accepts is the query string of what it reads. */
  lemma ParseQueryExact(q: string)
    requires ParseQuery(q).Some?
    ensures Readable(ParseQuery(q).value)
    ensures QueryString(ParseQuery(q).value) == q
  {
    if HasPrefix(q, "q=") {
      assert q == "q=" + q[2..];
    } else if HasPrefix(q, "id=") {
      ParseNumberCanonical(q[3..]);
      assert q == "id=" + q[3..];
    } else if HasPrefix(q, "lat=") {
      ParseGeoExact(q[4..]);
      assert q == "lat=" + q[4..];
    } else {
      assert ParseQuery(q) == ParseZip(q[4..]);
      ParseZipExact(q[4..]);
      assert q == "zip=" + q[4..];
    }
  }
}
