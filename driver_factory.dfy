/** `core/DriverFactory.java`: one browser session per thread, created from
    the configuration on first `initDriver`, configured with three timeouts
    and a window policy, and torn down by `quitDriver`.

    The browser itself is foreign: a `Driver` object is an opaque token that
    records what was applied to it (its kind, its option arguments, the
    timeouts, the window action and how often `quit` was called). */
module DriverFactory {
  import opened Wrappers
  import opened JavaLang
  import opened ConfigReader

  type ThreadId = nat

  datatype BrowserKind = Chrome | Firefox | Edge | Safari

  /** The window call `configureDriver` makes. */
  datatype WindowAction = Maximize | Fullscreen | SetSize(width: Int32, height: Int32)

  /** The two warnings the factory logs. */
  datatype Warning = SafariHeadlessUnsupported | InvalidWindowSize(windowSize: string)

  /** The window action and whether the invalid-size warning was logged. */
  datatype WindowPlan = WindowPlan(action: WindowAction, warned: bool)

  /** Everything `configureDriver` applies to a fresh driver. */
  datatype DriverSettings = DriverSettings(
    implicitWait: Int32,
    pageLoadTimeout: Int32,
    scriptTimeout: Int32,
    window: WindowPlan)

  // ---------------------------------------------------------------------
  // Browser dispatch (the switch in createDriver)
  // ---------------------------------------------------------------------

  /** The browser kind for an already lower-cased name: three names select
      their own kind, every other name (including "chrome") selects Chrome. */
  function KindOf(browser: string): (k: BrowserKind)
    ensures k == Firefox <==> browser == "firefox"
    ensures k == Edge <==> browser == "edge"
    ensures k == Safari <==> browser == "safari"
    ensures k == Chrome <==> browser != "firefox" && browser != "edge" && browser != "safari"
  {
    match browser
    case "firefox" => Firefox
    case "edge" => Edge
    case "safari" => Safari
    case _ => Chrome
  }

  /** The kind `initDriver` starts: the configured name, lower-cased. */
  function BrowserKindFor(p: Properties): (k: BrowserKind)
    ensures "browser" !in p ==> k == Chrome
    ensures k == Safari <==> ToLowerAscii(GetBrowser(p)) == "safari"
  {
    assert ToLowerAscii("chrome") == "chrome";
    KindOf(ToLowerAscii(GetBrowser(p)))
  }

  /** The option arguments each kind is started with: "--headless" exactly
      when requested and the kind supports it, and for Chrome the two
      sandbox arguments after it. */
  function ArgumentsFor(kind: BrowserKind, headless: bool): (args: seq<string>)
    ensures "--headless" in args <==> headless && kind != Safari
    ensures kind == Safari ==> args == []
    ensures kind == Firefox || kind == Edge ==> forall i :: 0 <= i < |args| ==> args[i] == "--headless"
    ensures kind == Firefox || kind == Edge ==> |args| <= 1
    ensures kind == Chrome ==> |args| == (if headless then 3 else 2)
    ensures kind == Chrome ==> args[|args| - 2..] == ["--no-sandbox", "--disable-dev-shm-usage"]
    ensures kind == Chrome && headless ==> args[0] == "--headless"
  {
    var headlessArgs := if headless then ["--headless"] else [];
    match kind
    case Firefox => headlessArgs
    case Edge => headlessArgs
    case Safari => []
    case Chrome =>
      assert "--no-sandbox"[2] != "--headless"[2] && "--disable-dev-shm-usage"[2] != "--headless"[2];
      headlessArgs + ["--no-sandbox", "--disable-dev-shm-usage"]
  }

  /** Browser dispatch depends on the name only up to letter case. */
  lemma BrowserNameIgnoresCase(p: Properties, q: Properties)
    requires EqualsIgnoreCase(GetBrowser(p), GetBrowser(q))
    ensures BrowserKindFor(p) == BrowserKindFor(q)
  {
  }

  // ---------------------------------------------------------------------
  // Window policy (the switch in configureDriver)
  // ---------------------------------------------------------------------

  /** The `catch (NumberFormatException e)` around the size parse: a number
      format error is logged and maximizes; anything else propagates. */
  function CatchNumberFormat(e: JavaException): (r: Result<WindowPlan, JavaException>)
    ensures r.Success? <==> e.NumberFormatException?
    ensures r.Success? ==> r.value == WindowPlan(Maximize, true)
    ensures r.Failure? ==> r.error == e
  {
    if e.NumberFormatException? then Success(WindowPlan(Maximize, true)) else Failure(e)
  }

  /** The window decision for the configured `windowSize`. The mode names
      are compared after lower-casing, the 'x' test is on the original
      text, the text is split on 'x' (trailing empty parts dropped), the
      width is parsed before the height part is indexed, and only a number
      format error is caught. */
  function WindowDecision(windowSize: string): (r: Result<WindowPlan, JavaException>)
    ensures 'x' !in windowSize ==> r.Success? && !r.value.warned && !r.value.action.SetSize?
    ensures r.Failure? ==> r.error.ArrayIndexOutOfBoundsException?
    ensures r.Success? && r.value.warned ==> r.value.action == Maximize
  {
    if LowerCaseEquals(windowSize, "maximize") then Success(WindowPlan(Maximize, false))
    else if LowerCaseEquals(windowSize, "fullscreen") then Success(WindowPlan(Fullscreen, false))
    else if 'x' !in windowSize then Success(WindowPlan(Maximize, false))
    else
      var dimensions := Split(windowSize, 'x');
      if |dimensions| == 0 then Failure(ArrayIndexOutOfBoundsException(0, 0))
      else
        match ParseInt(dimensions[0])
        case Failure(e) => CatchNumberFormat(e)
        case Success(width) =>
          if |dimensions| < 2 then Failure(ArrayIndexOutOfBoundsException(1, |dimensions|))
          else
            match ParseInt(dimensions[1])
            case Failure(e) => CatchNumberFormat(e)
            case Success(height) => Success(WindowPlan(SetSize(width, height), false))
  }

  /** "maximize" and "fullscreen" are recognised in any letter case. */
  lemma ModeNamesIgnoreCase(windowSize: string)
    ensures EqualsIgnoreCase(windowSize, "maximize") ==> WindowDecision(windowSize) == Success(WindowPlan(Maximize, false))
    ensures EqualsIgnoreCase(windowSize, "fullscreen") ==> WindowDecision(windowSize) == Success(WindowPlan(Fullscreen, false))
  {
    assert ToLowerAscii("maximize") == "maximize";
    assert ToLowerAscii("fullscreen") == "fullscreen";
    LowerCaseEqualsIsToLower(windowSize, "maximize");
    LowerCaseEqualsIsToLower(windowSize, "fullscreen");
  }

  /** A text that is neither mode name in any letter case goes on to the
      'x' test. */
  lemma OtherTextIsNoMode(w: string)
    requires ToLowerAscii(w) != "maximize" && ToLowerAscii(w) != "fullscreen"
    ensures !LowerCaseEquals(w, "maximize") && !LowerCaseEquals(w, "fullscreen")
  {
    LowerCaseEqualsIsToLower(w, "maximize");
    LowerCaseEqualsIsToLower(w, "fullscreen");
  }

  /** Any value without a lower-case 'x' that is not a spelling of
      "fullscreen" maximizes without a warning. */
  lemma NoSeparatorMaximizes(w: string)
    requires 'x' !in w && ToLowerAscii(w) != "fullscreen"
    ensures WindowDecision(w) == Success(WindowPlan(Maximize, false))
  {
    LowerCaseEqualsIsToLower(w, "maximize");
    LowerCaseEqualsIsToLower(w, "fullscreen");
  }

  /** Full screen is chosen only for a spelling of "fullscreen". */
  lemma FullscreenOnlyByName(w: string)
    requires WindowDecision(w).Success? && WindowDecision(w).value.action == Fullscreen
    ensures ToLowerAscii(w) == "fullscreen"
  {
    LowerCaseEqualsIsToLower(w, "fullscreen");
  }

  /** A text that starts with a digit or a sign is not a mode name. */
  lemma NumericStartIsNoModeName(w: string)
    requires |w| > 0 && (IsDigit(w[0]) || w[0] == '+' || w[0] == '-')
    ensures ToLowerAscii(w) != "maximize" && ToLowerAscii(w) != "fullscreen"
  {
    assert ToLowerAscii(w)[0] == w[0];
  }

  /** `WIDTHxHEIGHT` with two texts that `parseInt` reads, optionally
      followed by more 'x'-separated text, sets exactly the size read: only
      the first two parts are used. */
  lemma SizeIsRead(a: string, b: string, rest: string)
    requires ParseInt(a).Success? && ParseInt(b).Success?
    requires rest == [] || rest[0] == 'x'
    ensures WindowDecision(a + "x" + b + rest)
         == Success(WindowPlan(SetSize(ParseInt(a).value, ParseInt(b).value), false))
  {
    var w := a + "x" + b + rest;
    assert w[0] == a[0];
    NumericStartIsNoModeName(w);
    OtherTextIsNoMode(w);
    assert w[|a|] == 'x';
    SplitFirstTwoParts(a, 'x', b, rest);
  }

  /** `WIDTHxHEIGHT` written with `IntToString` reads back that size, for
      every pair of ints. */
  lemma SizeIsReadBack(width: Int32, height: Int32, rest: string)
    requires rest == [] || rest[0] == 'x'
    ensures WindowDecision(IntToString(width) + "x" + IntToString(height) + rest)
         == Success(WindowPlan(SetSize(width, height), false))
  {
    ParseIntReadsToString(width);
    ParseIntReadsToString(height);
    SizeIsRead(IntToString(width), IntToString(height), rest);
  }

  /** A first part that is not an integer falls back to maximize with a
      warning, provided the split yields that part at all. */
  lemma UnparseableWidthFallsBack(w: string, a: string, rest: string)
    requires w == a + "x" + rest && 'x' !in a && ParseInt(a).Failure?
    requires ToLowerAscii(w) != "maximize" && ToLowerAscii(w) != "fullscreen"
    requires a != "" || exists i :: 0 <= i < |rest| && rest[i] != 'x'
    ensures WindowDecision(w) == Success(WindowPlan(Maximize, true))
  {
    OtherTextIsNoMode(w);
    assert w[|a|] == 'x';
    SplitFirstPart(a, 'x', rest);
  }

  /** A width that `parseInt` reads, followed by a second part that is not
      an integer, falls back to maximize with a warning. */
  lemma UnparseableHeightFallsBack(a: string, b: string, rest: string)
    requires ParseInt(a).Success?
    requires 'x' !in b && ParseInt(b).Failure?
    requires rest == [] || rest[0] == 'x'
    requires b != "" || exists i :: 0 <= i < |rest| && rest[i] != 'x'
    ensures WindowDecision(a + "x" + b + rest) == Success(WindowPlan(Maximize, true))
  {
    var w := a + "x" + b + rest;
    assert w[0] == a[0];
    NumericStartIsNoModeName(w);
    OtherTextIsNoMode(w);
    assert w[|a|] == 'x';
    SplitFirstTwoParts(a, 'x', b, rest);
  }

  /** A width that `parseInt` reads, followed only by separators, leaves
      one part, and indexing the missing height throws: only number format
      errors are caught, so this escapes `configureDriver`. */
  lemma WidthOnlyThrowsIndexError(a: string, rest: string)
    requires ParseInt(a).Success?
    requires |rest| > 0 && forall i :: 0 <= i < |rest| ==> rest[i] == 'x'
    ensures WindowDecision(a + rest) == Failure(ArrayIndexOutOfBoundsException(1, 1))
  {
    var w := a + rest;
    assert w[0] == a[0];
    NumericStartIsNoModeName(w);
    OtherTextIsNoMode(w);
    assert w[|a|] == 'x';
    SplitBeforeSeparators(a, 'x', rest);
  }

  /** A text made only of 'x' splits into nothing, and indexing the width
      throws. */
  lemma SeparatorsOnlyThrowIndexError(w: string)
    requires |w| > 0 && forall i :: 0 <= i < |w| ==> w[i] == 'x'
    ensures WindowDecision(w) == Failure(ArrayIndexOutOfBoundsException(0, 0))
  {
    assert ToLowerAscii(w)[0] == 'x';
    OtherTextIsNoMode(w);
    assert w[0] == 'x';
    SplitOfSeparators(w, 'x');
  }

  lemma IntToStringExamples()
    ensures IntToString(1920) == "1920" && IntToString(1080) == "1080"
  {
  }

  /** The documented form WIDTHxHEIGHT. */
  lemma SizeValueExample()
    ensures WindowDecision("1920x1080") == Success(WindowPlan(SetSize(1920, 1080), false))
  {
    hide WindowDecision;
    IntToStringExamples();
    SizeIsReadBack(1920, 1080, "");
    assert "1920" + "x" + "1080" + "" == "1920x1080";
  }

  /** Parts after the second are ignored. */
  lemma ExtraPartsExample()
    ensures WindowDecision("1920x1080x24") == Success(WindowPlan(SetSize(1920, 1080), false))
  {
    hide WindowDecision;
    IntToStringExamples();
    SizeIsReadBack(1920, 1080, "x24");
    assert "1920" + "x" + "1080" + "x24" == "1920x1080x24";
  }

  /** The 'x' test is case-sensitive: a capital X is not a size, and the
      text falls through to maximize without a warning. */
  lemma CapitalSeparatorExample()
    ensures WindowDecision("1920X1080") == Success(WindowPlan(Maximize, false))
  {
    assert 'x' !in "1920X1080";
  }

  lemma MixedCaseModeExample()
    ensures WindowDecision("FullScreen") == Success(WindowPlan(Fullscreen, false))
  {
    hide WindowDecision;
    ModeNamesIgnoreCase("FullScreen");
  }

  /** Both parts present, neither an integer. */
  lemma NonNumericSizeExample()
    ensures WindowDecision("abcxdef") == Success(WindowPlan(Maximize, true))
  {
    hide WindowDecision;
    assert ParseInt("abc").Failure?;
    assert "abcxdef" == "abc" + "x" + "def";
    assert ToLowerAscii("abcxdef")[0] == 'a';
    UnparseableWidthFallsBack("abcxdef", "abc", "def");
  }

  /** An empty width part does not parse. */
  lemma MissingWidthExample()
    ensures WindowDecision("x1080") == Success(WindowPlan(Maximize, true))
  {
    hide WindowDecision;
    assert "x1080" == "" + "x" + "1080" && "1080"[0] != 'x';
    assert ToLowerAscii("x1080")[0] == 'x';
    UnparseableWidthFallsBack("x1080", "", "1080");
  }

  /** A non-numeric width is parsed, and fails, before the missing height
      part would be indexed. */
  lemma NonNumericWidthOnlyExample()
    ensures WindowDecision("abcx") == Success(WindowPlan(Maximize, true))
  {
    hide WindowDecision;
    assert ParseInt("abc").Failure?;
    assert "abcx" == "abc" + "x" + "";
    assert ToLowerAscii("abcx")[0] == 'a';
    UnparseableWidthFallsBack("abcx", "abc", "");
  }

  /** A numeric width with no height part throws. */
  lemma WidthOnlyExample()
    ensures WindowDecision("1920x") == Failure(ArrayIndexOutOfBoundsException(1, 1))
  {
    hide WindowDecision;
    IntToStringExamples();
    ParseIntReadsToString(1920);
    assert "1920" + "x" == "1920x";
    WidthOnlyThrowsIndexError("1920", "x");
  }

  /** A signed width and a zero-padded height are read as Java reads them. */
  lemma SignedPaddedSizeExample()
    ensures WindowDecision("+800x0600") == Success(WindowPlan(SetSize(800, 600), false))
  {
    hide WindowDecision, ParseInt;
    PaddedIntExamples();
    SizeIsRead("+800", "0600", "");
    assert "+800" + "x" + "0600" + "" == "+800x0600";
  }

  /** A lone separator leaves no parts at all. */
  lemma SeparatorOnlyExample()
    ensures WindowDecision("x") == Failure(ArrayIndexOutOfBoundsException(0, 0))
  {
    hide WindowDecision;
    SeparatorsOnlyThrowIndexError("x");
  }

  // ---------------------------------------------------------------------
  // What a session is configured with
  // ---------------------------------------------------------------------

  /** The settings `configureDriver` applies, or the exception it throws:
      the three timeouts are read in order, then the window decision. */
  function SettingsFor(p: Properties): (r: Result<DriverSettings, JavaException>)
    ensures r.Failure? ==> r.error.NumberFormatException? || r.error.ArrayIndexOutOfBoundsException?
    ensures r.Success? && r.value.window.warned ==> r.value.window.action == Maximize
  {
    var implicitWait :- GetImplicitWait(p);
    var pageLoadTimeout :- GetPageLoadTimeout(p);
    var scriptTimeout :- GetScriptTimeout(p);
    var window :- WindowDecision(GetWindowSize(p));
    Success(DriverSettings(implicitWait, pageLoadTimeout, scriptTimeout, window))
  }

  /** The settings are the three configured timeouts, and the window
      decision for the configured `windowSize`; configuring fails exactly
      when one of them throws, with the first exception in reading order. */
  lemma SettingsReadInOrder(p: Properties)
    ensures SettingsFor(p).Success? <==>
              GetImplicitWait(p).Success? && GetPageLoadTimeout(p).Success? &&
              GetScriptTimeout(p).Success? && WindowDecision(GetWindowSize(p)).Success?
    ensures SettingsFor(p).Success? ==>
              SettingsFor(p).value == DriverSettings(GetImplicitWait(p).value, GetPageLoadTimeout(p).value,
                                                     GetScriptTimeout(p).value, WindowDecision(GetWindowSize(p)).value)
    ensures GetImplicitWait(p).Failure? ==> SettingsFor(p) == Failure(GetImplicitWait(p).error)
    ensures GetImplicitWait(p).Success? && GetPageLoadTimeout(p).Failure? ==>
              SettingsFor(p) == Failure(GetPageLoadTimeout(p).error)
    ensures GetImplicitWait(p).Success? && GetPageLoadTimeout(p).Success? && GetScriptTimeout(p).Failure? ==>
              SettingsFor(p) == Failure(GetScriptTimeout(p).error)
    ensures GetImplicitWait(p).Success? && GetPageLoadTimeout(p).Success? && GetScriptTimeout(p).Success? &&
            WindowDecision(GetWindowSize(p)).Failure? ==>
              SettingsFor(p) == Failure(WindowDecision(GetWindowSize(p)).error)
  {
  }

  /** The warnings a first `initDriver` logs, in order. */
  function StartupWarnings(p: Properties): (r: seq<Warning>)
    ensures |r| <= 2
    ensures |r| == 2 ==> r == [SafariHeadlessUnsupported, InvalidWindowSize(GetWindowSize(p))]
  {
    (if BrowserKindFor(p) == Safari && IsHeadlessMode(p) then [SafariHeadlessUnsupported] else [])
    + (if SettingsFor(p).Success? && SettingsFor(p).value.window.warned
       then [InvalidWindowSize(GetWindowSize(p))] else [])
  }

  /** With an empty configuration the session is a Chrome with the two
      sandbox arguments, waits of 5, 30 and 30 seconds, maximized, and
      nothing is logged as a warning. */
  lemma DefaultSession()
    ensures BrowserKindFor(map[]) == Chrome
    ensures ArgumentsFor(BrowserKindFor(map[]), IsHeadlessMode(map[])) == ["--no-sandbox", "--disable-dev-shm-usage"]
    ensures SettingsFor(map[]) == Success(DriverSettings(5, 30, 30, WindowPlan(Maximize, false)))
    ensures StartupWarnings(map[]) == []
  {
    hide BrowserKindFor, IsHeadlessMode, SettingsFor, WindowDecision;
    DefaultKindAndFlag();
    DefaultSettings();
  }

  lemma DefaultKindAndFlag()
    ensures BrowserKindFor(map[]) == Chrome && !IsHeadlessMode(map[])
  {
    assert ToLowerAscii("chrome") == "chrome";
  }

  lemma DefaultSettings()
    ensures SettingsFor(map[]) == Success(DriverSettings(5, 30, 30, WindowPlan(Maximize, false)))
  {
    hide WindowDecision;
    DefaultWindowMaximizes();
  }

  /** The default window value selects maximize without a warning. */
  lemma DefaultWindowMaximizes()
    ensures WindowDecision("maximize") == Success(WindowPlan(Maximize, false))
  {
    ModeNamesIgnoreCase("maximize");
  }

  /** The session honours the headless flag for every kind but Safari, and
      the Safari warning is logged exactly when headless Safari was asked for. */
  lemma HeadlessPolicy(p: Properties)
    ensures "--headless" in ArgumentsFor(BrowserKindFor(p), IsHeadlessMode(p))
            <==> IsHeadlessMode(p) && BrowserKindFor(p) != Safari
    ensures SafariHeadlessUnsupported in StartupWarnings(p)
            <==> BrowserKindFor(p) == Safari && IsHeadlessMode(p)
  {
  }

  /** The invalid-size warning is logged only for a window value containing
      'x', and then the session is maximized. */
  lemma WindowWarningMeansMaximized(p: Properties, w: string)
    requires InvalidWindowSize(w) in StartupWarnings(p)
    ensures w == GetWindowSize(p) && 'x' in w
    ensures SettingsFor(p).Success? && SettingsFor(p).value.window.action == Maximize
  {
    var ws := StartupWarnings(p);
    var i :| 0 <= i < |ws| && ws[i] == InvalidWindowSize(w);
    assert SettingsFor(p).Success? && SettingsFor(p).value.window.warned;
  }

  // ---------------------------------------------------------------------
  // The driver token
  // ---------------------------------------------------------------------

  /** A started browser session. The fields record the calls made on it. */
  class Driver {
    const kind: BrowserKind
    const arguments: seq<string>
    var implicitWait: Option<int>
    var pageLoadTimeout: Option<int>
    var scriptTimeout: Option<int>
    var window: Option<WindowAction>
    var quitCalls: nat

    /** As started: nothing configured, not quit. */
    predicate Unconfigured()
      reads this
    {
      implicitWait.None? && pageLoadTimeout.None? && scriptTimeout.None? && window.None? && quitCalls == 0
    }

    /** Timeouts and window as `configureDriver` leaves them. */
    predicate Configured()
      reads this
    {
      implicitWait.Some? && pageLoadTimeout.Some? && scriptTimeout.Some? && window.Some?
    }

    /** The session carries exactly these settings. */
    predicate Carries(settings: DriverSettings)
      reads this
    {
      implicitWait == Some(settings.implicitWait as int) &&
      pageLoadTimeout == Some(settings.pageLoadTimeout as int) &&
      scriptTimeout == Some(settings.scriptTimeout as int) &&
      window == Some(settings.window.action)
    }

    constructor (kind: BrowserKind, arguments: seq<string>)
      ensures this.kind == kind && this.arguments == arguments
      ensures Unconfigured()
    {
      this.kind := kind;
      this.arguments := arguments;
      implicitWait, pageLoadTimeout, scriptTimeout := None, None, None;
      window := None;
      quitCalls := 0;
    }

    method ImplicitlyWait(seconds: int)
      modifies this`implicitWait
      ensures implicitWait == Some(seconds)
    {
      implicitWait := Some(seconds);
    }

    method PageLoadTimeout(seconds: int)
      modifies this`pageLoadTimeout
      ensures pageLoadTimeout == Some(seconds)
    {
      pageLoadTimeout := Some(seconds);
    }

    method ScriptTimeout(seconds: int)
      modifies this`scriptTimeout
      ensures scriptTimeout == Some(seconds)
    {
      scriptTimeout := Some(seconds);
    }

    method Maximize()
      modifies this`window
      ensures window == Some(WindowAction.Maximize)
    {
      window := Some(WindowAction.Maximize);
    }

    method Fullscreen()
      modifies this`window
      ensures window == Some(WindowAction.Fullscreen)
    {
      window := Some(WindowAction.Fullscreen);
    }

    method SetSize(width: Int32, height: Int32)
      modifies this`window
      ensures window == Some(WindowAction.SetSize(width, height))
    {
      window := Some(WindowAction.SetSize(width, height));
    }

    /** Ends the browser session; whether the browser reports an error is
        decided by the environment (`browserFails`). */
    method Quit(browserFails: bool) returns (outcome: Outcome<JavaException>)
      modifies this`quitCalls
      ensures quitCalls == old(quitCalls) + 1
      ensures outcome == if browserFails then Fail(WebDriverException) else Pass
    {
      quitCalls := quitCalls + 1;
      outcome := if browserFails then Fail(WebDriverException) else Pass;
    }
  }

  /** `createDriver(browser)`: starts a session of the kind the lower-cased
      name selects, building its option arguments one `addArguments` call
      at a time. `warned` is the Safari headless warning. */
  method CreateDriver(browser: string, headless: bool) returns (d: Driver, warned: bool)
    ensures fresh(d) && d.Unconfigured()
    ensures d.kind == KindOf(browser)
    ensures d.arguments == ArgumentsFor(d.kind, headless)
    ensures warned <==> d.kind == Safari && headless
  {
    var arguments: seq<string> := [];
    warned := false;
    if browser == "firefox" {
      if headless {
        arguments := arguments + ["--headless"];
      }
      d := new Driver(Firefox, arguments);
    } else if browser == "edge" {
      if headless {
        arguments := arguments + ["--headless"];
      }
      d := new Driver(Edge, arguments);
    } else if browser == "safari" {
      if headless {
        warned := true;
      }
      d := new Driver(Safari, arguments);
    } else {
      if headless {
        arguments := arguments + ["--headless"];
      }
      arguments := arguments + ["--no-sandbox"];
      arguments := arguments + ["--disable-dev-shm-usage"];
      d := new Driver(Chrome, arguments);
    }
  }

  /** `configureDriver(driver)`: applies the three timeouts in order, then
      the window decision. An exception stops it where it is raised, so the
      settings before it stay applied. `warned` is the invalid-size warning. */
  method ConfigureDriver(d: Driver, p: Properties) returns (outcome: Outcome<JavaException>, warned: bool)
    modifies d`implicitWait, d`pageLoadTimeout, d`scriptTimeout, d`window
    ensures outcome.Pass? <==> SettingsFor(p).Success?
    ensures outcome.Pass? ==> d.Carries(SettingsFor(p).value) && warned == SettingsFor(p).value.window.warned
    ensures outcome.Fail? ==> outcome.error == SettingsFor(p).error && !warned
    ensures d.implicitWait == if GetImplicitWait(p).Success? then Some(GetImplicitWait(p).value as int)
                              else old(d.implicitWait)
    ensures d.pageLoadTimeout == if GetImplicitWait(p).Success? && GetPageLoadTimeout(p).Success?
                                 then Some(GetPageLoadTimeout(p).value as int) else old(d.pageLoadTimeout)
    ensures d.scriptTimeout == if GetImplicitWait(p).Success? && GetPageLoadTimeout(p).Success? && GetScriptTimeout(p).Success?
                               then Some(GetScriptTimeout(p).value as int) else old(d.scriptTimeout)
    ensures outcome.Fail? ==> d.window == old(d.window)
  {
    // The getters and the window decision enter only through their values.
    hide GetImplicitWait, GetPageLoadTimeout, GetScriptTimeout, GetWindowSize, WindowDecision;
    warned := false;
    var implicitWait := GetImplicitWait(p);
    if implicitWait.Failure? {
      return Fail(implicitWait.error), warned;
    }
    d.ImplicitlyWait(implicitWait.value);
    var pageLoadTimeout := GetPageLoadTimeout(p);
    if pageLoadTimeout.Failure? {
      return Fail(pageLoadTimeout.error), warned;
    }
    d.PageLoadTimeout(pageLoadTimeout.value);
    var scriptTimeout := GetScriptTimeout(p);
    if scriptTimeout.Failure? {
      return Fail(scriptTimeout.error), warned;
    }
    d.ScriptTimeout(scriptTimeout.value);

    var decision := WindowDecision(GetWindowSize(p));
    if decision.Failure? {
      return Fail(decision.error), warned;
    }
    match decision.value.action {
      case Maximize => d.Maximize();
      case Fullscreen => d.Fullscreen();
      case SetSize(width, height) => d.SetSize(width, height);
    }
    warned := decision.value.warned;
    outcome := Pass;
  }

  /** A driver as a successful first `initDriver` leaves it: the kind and
      arguments the configuration selects, carrying the configured timeouts
      and window action, not quit. */
  ghost predicate StartedFrom(d: Driver, p: Properties)
    reads d
  {
    d.kind == BrowserKindFor(p) &&
    d.arguments == ArgumentsFor(d.kind, IsHeadlessMode(p)) &&
    SettingsFor(p).Success? && d.Carries(SettingsFor(p).value) &&
    d.quitCalls == 0
  }

  /** The body of `initDriver` once the slot was found empty: lower-case the
      browser name, create the driver, configure it. `logged` is the
      warnings logged on the way. */
  method StartDriver(p: Properties) returns (d: Driver, outcome: Outcome<JavaException>, ghost logged: seq<Warning>)
    ensures fresh(d)
    ensures logged == StartupWarnings(p)
    ensures outcome.Pass? <==> SettingsFor(p).Success?
    ensures outcome.Fail? ==> outcome.error == SettingsFor(p).error
    ensures outcome.Pass? ==> StartedFrom(d, p) && d.Configured()
  {
    var browser := ToLowerAscii(GetBrowser(p));
    var safariWarned;
    d, safariWarned := CreateDriver(browser, IsHeadlessMode(p));
    logged := if safariWarned then [SafariHeadlessUnsupported] else [];
    var windowWarned;
    outcome, windowWarned := ConfigureDriver(d, p);
    if windowWarned {
      logged := logged + [InvalidWindowSize(GetWindowSize(p))];
    }
  }

  // ---------------------------------------------------------------------
  // The per-thread slot (the ThreadLocal tlDriver)
  // ---------------------------------------------------------------------

  /** The thread-local driver slots, one optional driver per thread, and
      the warnings logged so far. */
  class ThreadDrivers {
    var slots: map<ThreadId, Driver>
    ghost var warnings: seq<Warning>

    /** No two threads share a driver, and every stored driver is configured. */
    ghost predicate Valid()
      reads this, slots.Values
    {
      (forall t, u :: t in slots && u in slots && t != u ==> slots[t] != slots[u]) &&
      (forall t :: t in slots ==> slots[t].Configured())
    }

    constructor ()
      ensures Valid() && slots == map[] && warnings == []
    {
      slots := map[];
      warnings := [];
    }

    /** `getDriver()`: the calling thread's driver or `null`. */
    function GetDriver(t: ThreadId): (d: Driver?)
      reads this
      ensures d == null <==> t !in slots
      ensures d != null ==> d == slots[t]
    {
      if t in slots then slots[t] else null
    }

    /** `initDriver()` on thread `t`. With a driver already in the slot
        nothing is created, configured, replaced or logged. Otherwise a driver
        is started from `p` and stored only if configuring it did not throw;
        other threads' slots are never touched. */
    method InitDriver(t: ThreadId, p: Properties) returns (outcome: Outcome<JavaException>)
      requires Valid()
      modifies this
      ensures Valid()
      ensures t in old(slots) ==> slots == old(slots) && warnings == old(warnings) && outcome == Pass
      ensures t !in old(slots) ==> warnings == old(warnings) + StartupWarnings(p)
      ensures t !in old(slots) ==> (outcome.Pass? <==> SettingsFor(p).Success?)
      ensures outcome.Fail? ==> slots == old(slots) && outcome.error == SettingsFor(p).error
      ensures t !in old(slots) && outcome.Pass? ==>
                t in slots && fresh(slots[t]) && slots == old(slots)[t := slots[t]] && StartedFrom(slots[t], p)
      ensures forall u :: u in old(slots) ==> unchanged(old(slots)[u])
    {
      // Only StartDriver's contract is needed here, not how the
      // configuration is read.
      hide SettingsFor, StartupWarnings, BrowserKindFor, ArgumentsFor, IsHeadlessMode;
      outcome := Pass;
      if t !in slots {
        var d;
        ghost var logged;
        d, outcome, logged := StartDriver(p);
        warnings := warnings + logged;
        if outcome.Pass? {
          slots := slots[t := d];
        }
      }
    }

    /** `quitDriver()` on thread `t`. An empty slot is left alone. Otherwise
        `quit` is called once, and the slot is emptied only if it returned
        normally; other threads' slots and drivers are never touched. */
    method QuitDriver(t: ThreadId, browserFails: bool) returns (outcome: Outcome<JavaException>)
      requires Valid()
      modifies this, if t in slots then {slots[t]} else {}
      ensures Valid()
      ensures warnings == old(warnings)
      ensures old(GetDriver(t)) == null ==> slots == old(slots) && outcome == Pass
      ensures old(GetDriver(t)) != null ==>
                old(GetDriver(t)).quitCalls == old(GetDriver(t).quitCalls) + 1 &&
                outcome == (if browserFails then Fail(WebDriverException) else Pass) &&
                slots == (if browserFails then old(slots) else old(slots) - {t})
      ensures old(GetDriver(t)) != null ==>
                old(GetDriver(t)).implicitWait == old(GetDriver(t).implicitWait) &&
                old(GetDriver(t)).pageLoadTimeout == old(GetDriver(t).pageLoadTimeout) &&
                old(GetDriver(t)).scriptTimeout == old(GetDriver(t).scriptTimeout) &&
                old(GetDriver(t)).window == old(GetDriver(t).window)
      ensures forall u :: u in slots && u != t ==> slots[u].quitCalls == old(slots[u].quitCalls)
    {
      if t in slots {
        var d := slots[t];
        outcome := d.Quit(browserFails);
        if outcome.Pass? {
          slots := slots - {t};
        }
      } else {
        outcome := Pass;
      }
    }
  }

  /** The suite hooks: set up once on thread `t` (a repeated set-up is
      harmless), run, then tear down. The driver the scenarios see is the
      one set-up stored, and after tear-down the thread has none. */
  method SuiteLifecycle(p: Properties, t: ThreadId) returns (first: Driver?, again: Driver?, afterTeardown: Driver?)
    requires SettingsFor(p).Success?
    ensures first != null && first == again && afterTeardown == null
  {
    hide SettingsFor, StartupWarnings, StartedFrom;
    var drivers := new ThreadDrivers();
    var _ := drivers.InitDriver(t, p);
    first := drivers.GetDriver(t);
    var _ := drivers.InitDriver(t, p);
    again := drivers.GetDriver(t);
    var _ := drivers.QuitDriver(t, false);
    afterTeardown := drivers.GetDriver(t);
  }

  /** The suite hooks with a configuration that does not read cleanly:
      set-up throws and leaves the thread without a driver, and tear-down is
      then a no-op. */
  method FailedSetupLifecycle(p: Properties, t: ThreadId)
    returns (setup: Outcome<JavaException>, afterSetup: Driver?, teardown: Outcome<JavaException>)
    requires SettingsFor(p).Failure?
    ensures setup == Fail(SettingsFor(p).error)
    ensures afterSetup == null && teardown == Pass
  {
    hide SettingsFor, StartupWarnings, StartedFrom;
    var drivers := new ThreadDrivers();
    setup := drivers.InitDriver(t, p);
    afterSetup := drivers.GetDriver(t);
    teardown := drivers.QuitDriver(t, false);
  }
}
