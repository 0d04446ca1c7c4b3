/** The typed configuration getters of `core/ConfigReader.java`. The
    properties file is loaded once before any getter runs; here the loaded
    key/value pairs are an immutable map handed to every getter, so no
    getter can change the configuration. */
module ConfigReader {
  import opened Wrappers
  import opened JavaLang

  /** The loaded `config.properties`. */
  type Properties = map<string, string>

  /** `getProperty(key)`: the stored value, or `null` (`None`). */
  function GetProperty(p: Properties, key: string): (r: Option<string>)
    ensures r.None? <==> key !in p
    ensures r.Some? ==> r.value == p[key]
  {
    if key in p then Some(p[key]) else None
  }

  /** `getProperty(key, defaultValue)`: the default exactly when the key is
      missing, the stored value otherwise. */
  function GetPropertyOr(p: Properties, key: string, defaultValue: string): (r: string)
    ensures key !in p ==> r == defaultValue
    ensures key in p ==> r == p[key]
  {
    GetProperty(p, key).GetOr(defaultValue)
  }

  function GetBaseUrl(p: Properties): (r: Option<string>)
    ensures r.None? <==> "baseUrl" !in p
    ensures r.Some? ==> r.value == p["baseUrl"]
  {
    GetProperty(p, "baseUrl")
  }

  function GetBrowser(p: Properties): (r: string)
    ensures "browser" !in p ==> r == "chrome"
    ensures "browser" in p ==> r == p["browser"]
  {
    GetPropertyOr(p, "browser", "chrome")
  }

  /** A numeric getter: `Integer.parseInt` of the value or of the default
      text. A present value that does not parse throws; it never falls back. */
  function IntSetting(p: Properties, key: string, defaultText: string): (r: Result<Int32, JavaException>)
    ensures key in p ==> r == ParseInt(p[key])
    ensures key !in p ==> r == ParseInt(defaultText)
  {
    ParseInt(GetPropertyOr(p, key, defaultText))
  }

  function GetExplicitWait(p: Properties): (r: Result<Int32, JavaException>)
    ensures "explicitWait" !in p ==> r == Success(10)
    ensures "explicitWait" in p ==> r == ParseInt(p["explicitWait"])
  {
    ParseIntReadsToString(10);
    assert IntToString(10) == "10";
    IntSetting(p, "explicitWait", "10")
  }

  function GetImplicitWait(p: Properties): (r: Result<Int32, JavaException>)
    ensures "implicitWait" !in p ==> r == Success(5)
    ensures "implicitWait" in p ==> r == ParseInt(p["implicitWait"])
  {
    ParseIntReadsToString(5);
    assert IntToString(5) == "5";
    IntSetting(p, "implicitWait", "5")
  }

  function GetPageLoadTimeout(p: Properties): (r: Result<Int32, JavaException>)
    ensures "pageLoadTimeout" !in p ==> r == Success(30)
    ensures "pageLoadTimeout" in p ==> r == ParseInt(p["pageLoadTimeout"])
  {
    ParseIntReadsToString(30);
    assert IntToString(30) == "30";
    IntSetting(p, "pageLoadTimeout", "30")
  }

  function GetScriptTimeout(p: Properties): (r: Result<Int32, JavaException>)
    ensures "scriptTimeout" !in p ==> r == Success(30)
    ensures "scriptTimeout" in p ==> r == ParseInt(p["scriptTimeout"])
  {
    ParseIntReadsToString(30);
    assert IntToString(30) == "30";
    IntSetting(p, "scriptTimeout", "30")
  }

  function GetWindowSize(p: Properties): (r: string)
    ensures "windowSize" !in p ==> r == "maximize"
    ensures "windowSize" in p ==> r == p["windowSize"]
  {
    GetPropertyOr(p, "windowSize", "maximize")
  }

  function GetEnvironment(p: Properties): (r: string)
    ensures "environment" !in p ==> r == "test"
    ensures "environment" in p ==> r == p["environment"]
  {
    GetPropertyOr(p, "environment", "test")
  }

  /** A boolean getter: `Boolean.parseBoolean` of the value or of the
      default text. */
  function BoolSetting(p: Properties, key: string, defaultText: string): (r: bool)
    ensures r <==> ToLowerAscii(GetPropertyOr(p, key, defaultText)) == "true"
  {
    ParseBoolean(GetPropertyOr(p, key, defaultText))
  }

  function IsTakeScreenshotOnFailure(p: Properties): (r: bool)
    ensures r <==> "takeScreenshotOnFailure" !in p || ToLowerAscii(p["takeScreenshotOnFailure"]) == "true"
  {
    assert ToLowerAscii("true") == "true";
    BoolSetting(p, "takeScreenshotOnFailure", "true")
  }

  function IsHighlightElements(p: Properties): (r: bool)
    ensures r <==> "highlightElements" in p && ToLowerAscii(p["highlightElements"]) == "true"
  {
    assert ToLowerAscii("false") != "true";
    BoolSetting(p, "highlightElements", "false")
  }

  function IsHeadlessMode(p: Properties): (r: bool)
    ensures r <==> "headlessMode" in p && ToLowerAscii(p["headlessMode"]) == "true"
  {
    assert ToLowerAscii("false") != "true";
    BoolSetting(p, "headlessMode", "false")
  }

  // ---------------------------------------------------------------------
  // Properties of the getters
  // ---------------------------------------------------------------------

  /** A present wait value is used as written: the decimal text of an
      `int` is read back, and an empty value, a lone sign, a value outside
      the `int` range or a non-numeric value throws `NumberFormatException`
      instead of falling back to the default. */
  lemma {:induction false} PresentWaitValueDecides(p: Properties, key: string, defaultText: string, n: Int32, m: int)
    requires key in p
    ensures p[key] == IntToString(n) ==> IntSetting(p, key, defaultText) == Success(n)
    ensures p[key] == "" ==> IntSetting(p, key, defaultText) == Failure(NumberFormatException(""))
    ensures p[key] == "+" || p[key] == "-" ==> IntSetting(p, key, defaultText) == Failure(NumberFormatException(p[key]))
    ensures (m < INT_MIN || INT_MAX < m) && p[key] == IntToString(m) ==>
              IntSetting(p, key, defaultText) == Failure(NumberFormatException(p[key]))
    ensures (exists i :: 0 < i < |p[key]| && !IsDigit(p[key][i])) ==>
              IntSetting(p, key, defaultText) == Failure(NumberFormatException(p[key]))
  {
    ParseIntReadsToString(n);
    ParseIntRejectsLoneSign();
    if m < INT_MIN || INT_MAX < m {
      ParseIntRejectsOutOfRange(m);
    }
  }

  /** Only some letter-case spelling of "true" turns a flag on: "yes", "1",
      "on" and the empty string all read as false. */
  lemma NonTrueFlagValuesAreFalse(p: Properties, key: string, defaultText: string)
    requires key in p && p[key] in {"yes", "1", "on", "", "false", "truE ", "t"}
    ensures !BoolSetting(p, key, defaultText)
  {
  }

  lemma TrueFlagValuesInAnyCase(p: Properties, key: string, defaultText: string)
    requires key in p && p[key] in {"true", "TRUE", "True", "tRuE"}
    ensures BoolSetting(p, key, defaultText)
  {
  }
}
