/** `UserAgent.default`: the User-Agent string built from the Info.plist dictionary and the
    device model, system version and locale identifier, which are parameters here. */
module UserAgent {

  import opened Prelude
  import Strings

  /** A value of the Info.plist dictionary: a string, or anything else. */
  datatype PlistValue = PString(text: string) | POther

  type InfoDictionary = map<string, PlistValue>

  const DisplayNameKey: string := "CFBundleDisplayName"
  const IdentifierKey: string := "CFBundleIdentifier"
  const ShortVersionKey: string := "CFBundleShortVersionString"
  const VersionKey: string := "CFBundleVersion"

  /** The platform facts the string reports. */
  datatype Device = Device(model: string, systemVersion: string, locale: string)

  /** The parts the User-Agent string is made of. */
  datatype Fields = Fields(name: string, version: string, model: string, os: string, locale: string)

  function Lookup(info: InfoDictionary, key: string): Option<PlistValue> {
    if key in info then Some(info[key]) else None
  }

  /** Swift's `as? String`. */
  function AsString(v: Option<PlistValue>): Option<string> {
    if v.Some? && v.value.PString? then Some(v.value.text) else None
  }

  /** The application name: the display name when that key is present, otherwise the bundle
      identifier; the fallback is on presence, so a present non-string display name fails. */
  function AppName(info: InfoDictionary): (r: Option<string>)
    ensures DisplayNameKey in info ==>
      (r.Some? <==> info[DisplayNameKey].PString?) && (r.Some? ==> r.value == info[DisplayNameKey].text)
    ensures DisplayNameKey !in info ==>
      (r.Some? <==> IdentifierKey in info && info[IdentifierKey].PString?)
      && (r.Some? ==> r.value == info[IdentifierKey].text)
  {
    AsString(Lookup(info, DisplayNameKey).OrElse(Lookup(info, IdentifierKey)))
  }

  /** The marketing version, extended with "." and the build number when the build is a string. */
  function FullVersion(info: InfoDictionary, marketing: string): (r: string)
    ensures VersionKey in info && info[VersionKey].PString? ==> r == marketing + "." + info[VersionKey].text
    ensures !(VersionKey in info && info[VersionKey].PString?) ==> r == marketing
  {
    match AsString(Lookup(info, VersionKey))
    case Some(build) => marketing + "." + build
    case None => marketing
  }

  /** The fixed shape of the string: twelve fixed characters, the "iOS" tag among them, around
      the five parts, the name first and a closing parenthesis last. */
  function Format(f: Fields): (r: string)
    ensures |r| == |f.name| + |f.version| + |f.model| + |f.os| + |f.locale| + 12
    ensures r[..|f.name|] == f.name && r[|f.name|] == '/'
    ensures r[|r| - 1] == ')'
  {
    f.name + "/" + f.version + " (" + f.model + "; iOS " + f.os + "; " + f.locale + ")"
  }

  /** `UserAgent.default`; `None` stands for the `fatalError` raised when the dictionary, the
      name or the marketing version is missing or not a string. */
  function Default(info: Option<InfoDictionary>, device: Device): (r: Option<string>)
    ensures r.Some? <==>
      info.Some? && AppName(info.value).Some? && ShortVersionKey in info.value && info.value[ShortVersionKey].PString?
    ensures r.Some? ==> r.value == Format(Fields(
      AppName(info.value).value,
      FullVersion(info.value, info.value[ShortVersionKey].text),
      device.model, device.systemVersion, device.locale))
    ensures r.Some? ==> |r.value| > 0 && r.value[|r.value| - 1] == ')'
    ensures r.Some? ==>
      var prefix := AppName(info.value).value + "/";
      |prefix| <= |r.value| && r.value[..|prefix|] == prefix
  {
    if info.None? then None
    else
      var name := AppName(info.value);
      var marketing := AsString(Lookup(info.value, ShortVersionKey));
      if name.None? || marketing.None? then None
      else
        var version := FullVersion(info.value, marketing.value);
        Some(Format(Fields(name.value, version, device.model, device.systemVersion, device.locale)))
  }

  /** Strips `prefix` from the front of `s`. */
  function DropPrefix(s: string, prefix: string): Option<string> {
    if |prefix| <= |s| && s[..|prefix|] == prefix then Some(s[|prefix|..]) else None
  }

  /** Reads the device part, "<model>; iOS <os>; <locale>)", back out. */
  function ParseDevice(s: string): Option<(string, string, string)> {
    match Strings.SplitFirst(s, ';')
    case None => None
    case Some(p1) =>
      match DropPrefix(p1.1, " iOS ")
      case None => None
      case Some(rest2) =>
        match Strings.SplitFirst(rest2, ';')
        case None => None
        case Some(p3) =>
          match DropPrefix(p3.1, " ")
          case None => None
          case Some(rest4) =>
            if |rest4| > 0 && rest4[|rest4| - 1] == ')'
            then Some((p1.0, p3.0, rest4[..|rest4| - 1]))
            else None
  }

  /** Reads the parts back out of a User-Agent string of the fixed shape. */
  function Parse(ua: string): Option<Fields> {
    match Strings.SplitFirst(ua, '/')
    case None => None
    case Some(p1) =>
      match Strings.SplitFirst(p1.1, ' ')
      case None => None
      case Some(p2) =>
        match DropPrefix(p2.1, "(")
        case None => None
        case Some(rest3) =>
          match ParseDevice(rest3)
          case None => None
          case Some(d) => Some(Fields(p1.0, p2.0, d.0, d.1, d.2))
  }

  /** The parts can be read back when none of them contains the separator that ends it. */
  predicate Separable(f: Fields) {
    '/' !in f.name && ' ' !in f.version && ';' !in f.model && ';' !in f.os
  }

  /** The device part reads back into its three parts. */
  lemma ParseDeviceOfJoin(model: string, os: string, locale: string)
    requires ';' !in model && ';' !in os
    ensures ParseDevice(model + "; iOS " + os + "; " + locale + ")") == Some((model, os, locale))
  {
    var tail4 := locale + ")";
    var tail3 := " " + tail4;
    var rest2 := os + [';'] + tail3;
    var tail2 := " iOS " + rest2;
    assert model + "; iOS " + os + "; " + locale + ")" == model + [';'] + tail2;
    Strings.SplitFirstOfJoin(model, ';', tail2);
    assert tail2[..5] == " iOS " && tail2[5..] == rest2;
    assert DropPrefix(tail2, " iOS ") == Some(rest2);
    Strings.SplitFirstOfJoin(os, ';', tail3);
    assert DropPrefix(tail3, " ") == Some(tail4);
    assert tail4[..|tail4| - 1] == locale;
  }

  /** Reading a formatted string back gives the parts it was built from. */
  lemma ParseFormat(f: Fields)
    requires Separable(f)
    ensures Parse(Format(f)) == Some(f)
  {
    var device := f.model + "; iOS " + f.os + "; " + f.locale + ")";
    var tail2 := "(" + device;
    var tail1 := f.version + [' '] + tail2;
    assert Format(f) == f.name + ['/'] + tail1;
    Strings.SplitFirstOfJoin(f.name, '/', tail1);
    Strings.SplitFirstOfJoin(f.version, ' ', tail2);
    assert DropPrefix(tail2, "(") == Some(device);
    ParseDeviceOfJoin(f.model, f.os, f.locale);
  }

  /** On success, the product token before the first "/" is the application name, when the
      name itself has no "/". */
  lemma DefaultStartsWithName(info: Option<InfoDictionary>, device: Device)
    requires Default(info, device).Some?
    requires '/' !in AppName(info.value).value
    ensures Strings.SplitFirst(Default(info, device).value, '/').Some?
    ensures Strings.SplitFirst(Default(info, device).value, '/').value.0 == AppName(info.value).value
  {
    var name := AppName(info.value).value;
    var ua := Default(info, device).value;
    assert ua == name + ['/'] + ua[|name| + 1..];
    Strings.SplitFirstOfJoin(name, '/', ua[|name| + 1..]);
  }
}
