# Driver lifecycle and typed configuration of a Selenium/Cucumber test framework

This project models the two classes of the framework that make decisions.

- `core/ConfigReader.java` gives typed access to the loaded
  `config.properties`. Each getter looks up one key, falls back to a
  default only when the key is missing, and then parses the value with
  `Integer.parseInt` or `Boolean.parseBoolean`, or returns it as it is.
- `core/DriverFactory.java` keeps one browser session per thread in a
  `ThreadLocal`. `initDriver` fills an empty slot. It picks the browser kind
  from the lower-cased configured name, builds the option arguments, applies
  three timeouts and a window policy, and only then stores the driver.
  `quitDriver` quits the driver and empties the slot.

The model is in four modules.

- `Wrappers` (`wrappers.dfy`): `Option` for Java `null`, and `Result` and
  `Outcome` for a value or a thrown exception.
- `JavaLang` (`java_lang.dfy`): the parts of the Java standard library whose
  exact behaviour matters here. These are ASCII `toLowerCase`,
  `equalsIgnoreCase`, `Boolean.parseBoolean`, `Integer.parseInt` with its
  sign, digit and 32-bit range checks, and `String.split` on one character,
  which drops trailing empty parts. It also defines `IntToString`, the
  decimal writer that is the inverse of `parseInt`. The program does not call
  it; it is there to state round trips.
- `ConfigReader` (`config_reader.dfy`): every getter is a function over an
  immutable `map<string, string>`. A function cannot change the map, so no
  getter can change the configuration.
- `DriverFactory` (`driver_factory.dfy`): the pure parts are functions. They
  are the browser dispatch (`KindOf`, `ArgumentsFor`), the window-size
  decision (`WindowDecision`) and the settings a configuration yields
  (`SettingsFor`). The state changes are methods:
  - `Driver` is a token class that records what was applied to the browser.
  - `CreateDriver` builds the argument list one append at a time.
  - `ConfigureDriver` applies the settings step by step and stops at the
    first exception.
  - `ThreadDrivers` is a class with a `map<ThreadId, Driver>` field whose
    methods `InitDriver` and `QuitDriver` update the slots.

Exceptions are values: `NumberFormatException(input)`,
`ArrayIndexOutOfBoundsException(index, length)` and `WebDriverException`.
The two warnings the factory logs are `Warning` values. The slot class keeps
them in a ghost log.

The code calls `tlDriver.remove()` only after `quit()` returns normally
(`DriverFactory.java:124-125`). So `QuitDriver` keeps the slot when quitting
throws.

Some window values behave in ways worth knowing, and the model reproduces
them. The mode names are compared after lower-casing, but the `contains("x")`
test is on the original text. So `"1920X1080"` maximizes without a warning.
The width is parsed before the height part is indexed, and only
`NumberFormatException` is caught. So `"abcx"` falls back to maximize with a
warning, while `"1920x"` and `"x"` throw an index error out of
`configureDriver`. In that case the new driver is never stored.

## Model

| member | source | states |
|---|---|---|
| JavaLang.ToLowerAscii | src/test/java/core/DriverFactory.java:28 | the lower-cased name has the same length and maps each character through ASCII lower-casing |
| JavaLang.EqualsIgnoreCase | src/test/java/core/ConfigReader.java:50-60 | character-wise ignore-case equality holds exactly when both strings lower-case to the same text |
| JavaLang.RegionMatchesIsLowerEquality | src/test/java/core/ConfigReader.java:50-60 | Java's per-character comparison (equal, equal upper, equal lower of upper) is equality of the lower-cased strings, in both directions |
| JavaLang.LowerCaseEquals | src/test/java/core/DriverFactory.java:95 | the character-by-character comparison of `toLowerCase()` with a mode name holds only for texts of the mode name's length whose first character lower-cases to the name's first; the lemma below gives the full equivalence |
| JavaLang.LowerCaseEqualsIsToLower | src/test/java/core/DriverFactory.java:95 | comparing `toLowerCase()` of the window value with a mode name character by character is the same as comparing the lower-cased string |
| JavaLang.ParseBoolean | src/test/java/core/ConfigReader.java:50-60 | true exactly when the text lower-cases to "true", so only four-character texts are true |
| JavaLang.ParseInt | src/test/java/core/ConfigReader.java:26-40 | every failure is a NumberFormatException carrying the input; a success has a first character that is a digit or sign, digits after it, and at least one digit (a lone sign never parses), and the value's sign follows the leading '-' |
| JavaLang.ParseIntRejectsOutOfRange | src/test/java/core/ConfigReader.java:26-40 | the decimal text of any number below `Integer.MIN_VALUE` or above `Integer.MAX_VALUE` throws NumberFormatException |
| JavaLang.ParseIntAcceptsPlus | src/test/java/core/ConfigReader.java:26-40 | a leading '+' before the digits of a number in range reads as that number |
| JavaLang.ParseIntRejectsLoneSign | src/test/java/core/ConfigReader.java:26-40 | "+" and "-" on their own throw NumberFormatException |
| JavaLang.ParseIntOfSignedDigits | src/test/java/core/ConfigReader.java:26-40 | the whole acceptance rule: an optional sign followed by any non-empty run of digits, leading zeros included, reads as its signed value when that is within the `int` range, and otherwise throws NumberFormatException carrying the text |
| JavaLang.LeadingZeroKeepsValue | src/test/java/core/ConfigReader.java:26-40 | a leading zero does not change the value of a run of digits |
| JavaLang.NonCanonicalIntExamples | src/test/java/core/ConfigReader.java:26-40 | "007" and "+007" read as 7, and "-0" reads as 0 |
| JavaLang.ParseIntRejectsPaddedOutOfRange | src/test/java/core/ConfigReader.java:26-40 | a zero in front of the digits of any number above `Integer.MAX_VALUE` does not bring it into range: the text still throws |
| JavaLang.PaddedIntExamples | src/test/java/core/DriverFactory.java:107-108 | "+800" reads as 800 and "0600" as 600 |
| JavaLang.IntToString | src/test/java/core/DriverFactory.java:107-108 | the writer used as the inverse of `parseInt` in `ParseIntReadsToString` and `SizeIsReadBack` (the program itself never calls `Integer.toString`): its text is non-empty, made of digits and '-', and starts with a digit or '-' |
| JavaLang.NatToStringValue | src/test/java/core/DriverFactory.java:107-108 | the digits `IntToString` writes for a natural number read back as that number under `parseInt`'s digit value |
| JavaLang.ParseIntReadsToString | src/test/java/core/ConfigReader.java:26-40 | `parseInt` reads back every `int` that `IntToString` writes, negative ones included |
| JavaLang.JoinPieces | src/test/java/core/DriverFactory.java:105 | joining the pieces of a text with the separator gives the text back |
| JavaLang.PiecesOfJoin | src/test/java/core/DriverFactory.java:105 | the raw pieces of a join of separator-free parts, before `split` drops trailing empty parts, are the parts themselves (so Java's split of "ax" is ["a"], while its pieces are ["a", ""]) |
| JavaLang.Split | src/test/java/core/DriverFactory.java:105 | `split("x")`: a text without the separator comes back whole; once the separator occurs, the last part kept is never empty |
| JavaLang.SplitPartsHaveNoSeparator | src/test/java/core/DriverFactory.java:105 | no part of a split contains the separator |
| JavaLang.SplitFirstPart | src/test/java/core/DriverFactory.java:105-107 | the first part is the text before the first separator whenever the split keeps a part |
| JavaLang.SplitFirstTwoParts | src/test/java/core/DriverFactory.java:105-108 | the first two parts are the texts before the first and second separators, and later parts do not disturb them |
| JavaLang.SplitBeforeSeparators | src/test/java/core/DriverFactory.java:105 | a text followed only by separators splits into that text alone, because trailing empty parts are dropped |
| JavaLang.SplitOfSeparators | src/test/java/core/DriverFactory.java:105 | a text made only of separators splits into no parts at all |
| ConfigReader.GetProperty | src/test/java/core/ConfigReader.java:62-64 | null exactly when the key is missing, otherwise the stored value |
| ConfigReader.GetPropertyOr | src/test/java/core/ConfigReader.java:66-68 | the default exactly when the key is missing, otherwise the stored value |
| ConfigReader.GetBaseUrl | src/test/java/core/ConfigReader.java:18-20 | null exactly when "baseUrl" is missing, otherwise its value |
| ConfigReader.GetBrowser | src/test/java/core/ConfigReader.java:22-24 | "chrome" when "browser" is missing, otherwise its value |
| ConfigReader.IntSetting | src/test/java/core/ConfigReader.java:26-40 | a present value is parsed as written and never replaced by the default; the default text is parsed only when the key is missing |
| ConfigReader.GetExplicitWait | src/test/java/core/ConfigReader.java:26-28 | 10 when "explicitWait" is missing, otherwise `parseInt` of its value |
| ConfigReader.GetImplicitWait | src/test/java/core/ConfigReader.java:30-32 | 5 when "implicitWait" is missing, otherwise `parseInt` of its value |
| ConfigReader.GetPageLoadTimeout | src/test/java/core/ConfigReader.java:34-36 | 30 when "pageLoadTimeout" is missing, otherwise `parseInt` of its value |
| ConfigReader.GetScriptTimeout | src/test/java/core/ConfigReader.java:38-40 | 30 when "scriptTimeout" is missing, otherwise `parseInt` of its value |
| ConfigReader.PresentWaitValueDecides | src/test/java/core/ConfigReader.java:26-40 | a present decimal text of an `int` is read back; a present empty value, a lone sign, the decimal text of a number outside the `int` range, or a value with a non-digit after the first character throws NumberFormatException instead of falling back |
| ConfigReader.GetWindowSize | src/test/java/core/ConfigReader.java:42-44 | "maximize" when "windowSize" is missing, otherwise its value |
| ConfigReader.GetEnvironment | src/test/java/core/ConfigReader.java:46-48 | "test" when "environment" is missing, otherwise its value |
| ConfigReader.BoolSetting | src/test/java/core/ConfigReader.java:50-60 | true exactly when the value, or the default text when the key is missing, lower-cases to "true" |
| ConfigReader.IsTakeScreenshotOnFailure | src/test/java/core/ConfigReader.java:50-52 | true when the key is missing, otherwise true exactly for "true" in any letter case |
| ConfigReader.IsHighlightElements | src/test/java/core/ConfigReader.java:54-56 | false when the key is missing, otherwise true exactly for "true" in any letter case |
| ConfigReader.IsHeadlessMode | src/test/java/core/ConfigReader.java:58-60 | false when the key is missing, otherwise true exactly for "true" in any letter case |
| ConfigReader.NonTrueFlagValuesAreFalse | src/test/java/core/ConfigReader.java:50-60 | "yes", "1", "on", "", "false", "truE " and "t" all read as false |
| ConfigReader.TrueFlagValuesInAnyCase | src/test/java/core/ConfigReader.java:50-60 | "true", "TRUE", "True" and "tRuE" all read as true |
| DriverFactory.KindOf | src/test/java/core/DriverFactory.java:44-82 | "firefox", "edge" and "safari" select their own kind, each if and only if; every other name, "chrome" included, selects Chrome |
| DriverFactory.ArgumentsFor | src/test/java/core/DriverFactory.java:48-50 | "--headless" is among the arguments exactly when headless was asked for and the kind is not Safari; Safari gets none; Firefox and Edge get at most "--headless"; Chrome gets 3 or 2 arguments, ending with "--no-sandbox", "--disable-dev-shm-usage" and starting with "--headless" when headless |
| DriverFactory.BrowserKindFor | src/test/java/core/DriverFactory.java:28-44 | the kind started for a configuration: Chrome when no browser is configured, Safari exactly when the name lower-cases to "safari" |
| DriverFactory.BrowserNameIgnoresCase | src/test/java/core/DriverFactory.java:28 | two configured names equal up to letter case select the same kind |
| DriverFactory.WindowDecision | src/test/java/core/DriverFactory.java:94-118 | a value without a lower-case 'x' never sets a size and never warns; the only exception that escapes is an index error; a warning always comes with maximize |
| DriverFactory.CatchNumberFormat | src/test/java/core/DriverFactory.java:110-113 | a NumberFormatException, and only that, is caught and becomes maximize with a warning; any other exception propagates unchanged |
| DriverFactory.NoSeparatorMaximizes | src/test/java/core/DriverFactory.java:95-116 | every value without a lower-case 'x' that is not a spelling of "fullscreen" maximizes without a warning |
| DriverFactory.FullscreenOnlyByName | src/test/java/core/DriverFactory.java:95-101 | full screen is chosen only for a value that lower-cases to "fullscreen" |
| DriverFactory.ModeNamesIgnoreCase | src/test/java/core/DriverFactory.java:95-101 | "maximize" and "fullscreen" in any letter case select their mode without a warning |
| DriverFactory.SizeIsRead | src/test/java/core/DriverFactory.java:104-109 | for any two texts that `parseInt` reads, "WIDTHxHEIGHT", optionally followed by more 'x'-separated text, sets exactly the size read; signs and leading zeros included |
| DriverFactory.SizeIsReadBack | src/test/java/core/DriverFactory.java:104-109 | for every pair of ints written in decimal, "WIDTHxHEIGHT", optionally followed by more 'x'-separated text, sets exactly that size |
| DriverFactory.UnparseableWidthFallsBack | src/test/java/core/DriverFactory.java:104-113 | a first part that does not parse falls back to maximize with a warning, even when no height part follows |
| DriverFactory.UnparseableHeightFallsBack | src/test/java/core/DriverFactory.java:104-113 | any width text that `parseInt` reads, with a second part that does not parse, falls back to maximize with a warning |
| DriverFactory.WidthOnlyThrowsIndexError | src/test/java/core/DriverFactory.java:104-113 | any width text that `parseInt` reads, followed only by 'x' characters, throws ArrayIndexOutOfBoundsException(1, 1), which is not caught |
| DriverFactory.SeparatorsOnlyThrowIndexError | src/test/java/core/DriverFactory.java:104-107 | a value made only of 'x' throws ArrayIndexOutOfBoundsException(0, 0) |
| DriverFactory.SizeValueExample | src/test/java/core/DriverFactory.java:103-109 | "1920x1080" sets 1920 by 1080 |
| DriverFactory.ExtraPartsExample | src/test/java/core/DriverFactory.java:105-109 | "1920x1080x24" sets 1920 by 1080; the third part is ignored |
| DriverFactory.CapitalSeparatorExample | src/test/java/core/DriverFactory.java:104-116 | "1920X1080" maximizes without a warning |
| DriverFactory.MixedCaseModeExample | src/test/java/core/DriverFactory.java:95-101 | "FullScreen" selects full screen |
| DriverFactory.NonNumericSizeExample | src/test/java/core/DriverFactory.java:106-113 | "abcxdef" falls back to maximize with a warning |
| DriverFactory.MissingWidthExample | src/test/java/core/DriverFactory.java:106-113 | "x1080" falls back to maximize with a warning |
| DriverFactory.NonNumericWidthOnlyExample | src/test/java/core/DriverFactory.java:106-113 | "abcx" falls back to maximize with a warning, because the width fails to parse before the height is indexed |
| DriverFactory.WidthOnlyExample | src/test/java/core/DriverFactory.java:105-108 | "1920x" throws ArrayIndexOutOfBoundsException(1, 1) |
| DriverFactory.SignedPaddedSizeExample | src/test/java/core/DriverFactory.java:104-109 | "+800x0600" sets 800 by 600 |
| DriverFactory.SeparatorOnlyExample | src/test/java/core/DriverFactory.java:105-107 | "x" throws ArrayIndexOutOfBoundsException(0, 0) |
| DriverFactory.SettingsFor | src/test/java/core/DriverFactory.java:89-118 | what `configureDriver` applies: only a NumberFormatException or an index error can escape, and a logged warning always comes with maximize |
| DriverFactory.SettingsReadInOrder | src/test/java/core/DriverFactory.java:89-118 | configuring succeeds exactly when the three timeouts and the window decision all succeed; the settings are then those values; otherwise the first exception in reading order (implicit wait, page-load timeout, script timeout, window decision) is the one thrown |
| DriverFactory.StartupWarnings | src/test/java/core/DriverFactory.java:65-111 | at most two warnings are logged, and when both are, the Safari warning comes before the window-size warning naming the configured value |
| DriverFactory.DefaultSession | src/test/java/core/ConfigReader.java:22-60 | with an empty configuration the session is a Chrome with the two sandbox arguments, waits of 5, 30 and 30 seconds, maximized, and no warning is logged |
| DriverFactory.HeadlessPolicy | src/test/java/core/DriverFactory.java:42-82 | the configured session gets "--headless" exactly when the flag is on and the kind is not Safari; the Safari warning is logged exactly when headless Safari is configured |
| DriverFactory.WindowWarningMeansMaximized | src/test/java/core/DriverFactory.java:110-113 | the invalid-size warning names the configured window value, which contains 'x', and the session is then maximized |
| DriverFactory.Driver.constructor | src/test/java/core/DriverFactory.java:51 | a new session has its kind and arguments, no timeouts, no window action and no quit call |
| DriverFactory.Driver.ImplicitlyWait | src/test/java/core/DriverFactory.java:89 | records the implicit wait and changes nothing else |
| DriverFactory.Driver.PageLoadTimeout | src/test/java/core/DriverFactory.java:90 | records the page-load timeout and changes nothing else |
| DriverFactory.Driver.ScriptTimeout | src/test/java/core/DriverFactory.java:91 | records the script timeout and changes nothing else |
| DriverFactory.Driver.Maximize | src/test/java/core/DriverFactory.java:97 | records maximize as the window action |
| DriverFactory.Driver.Fullscreen | src/test/java/core/DriverFactory.java:100 | records full screen as the window action |
| DriverFactory.Driver.SetSize | src/test/java/core/DriverFactory.java:109 | records the given size as the window action |
| DriverFactory.Driver.Quit | src/test/java/core/DriverFactory.java:124 | counts one more quit call, and throws WebDriverException exactly when the browser fails |
| DriverFactory.CreateDriver | src/test/java/core/DriverFactory.java:40-85 | a fresh, unconfigured session of the kind the name selects, with the arguments `ArgumentsFor` gives; the warning flag is set exactly for headless Safari |
| DriverFactory.ConfigureDriver | src/test/java/core/DriverFactory.java:87-119 | with browser calls that do not fail, succeeds exactly when `SettingsFor` does, and then the session carries those settings; a failure throws that exception after applying exactly the timeouts read before it, and leaves the window untouched |
| DriverFactory.StartDriver | src/test/java/core/DriverFactory.java:28-34 | a fresh session; the warnings logged are `StartupWarnings`; on success it is the configured kind, arguments and settings, not quit |
| DriverFactory.ThreadDrivers.constructor | src/test/java/core/DriverFactory.java:20 | no thread holds a driver and nothing is logged |
| DriverFactory.ThreadDrivers.GetDriver | src/test/java/core/DriverFactory.java:22-24 | null exactly when the thread's slot is empty, otherwise that thread's driver |
| DriverFactory.ThreadDrivers.InitDriver | src/test/java/core/DriverFactory.java:26-38 | with a filled slot nothing changes and nothing is logged; otherwise a driver is started, and it is stored in this thread's slot only, only when configuring it did not throw; no existing driver is touched; the slot invariant (no shared drivers, all configured) is kept |
| DriverFactory.ThreadDrivers.QuitDriver | src/test/java/core/DriverFactory.java:121-127 | an empty slot is a no-op; otherwise `quit` is called exactly once, the driver's timeouts and window are left as they were, and the slot is emptied only if `quit` returned normally; other threads' slots and drivers are unchanged |
| DriverFactory.SuiteLifecycle | src/test/java/hooks/Hooks.java:9-19 | a repeated set-up keeps the same driver, and after tear-down the thread has none |
| DriverFactory.FailedSetupLifecycle | src/test/java/hooks/Hooks.java:9-19 | with a configuration that does not read cleanly, set-up throws that exception and leaves no driver, and tear-down is a no-op |

## Left out

- The static load of `config.properties` is file I/O. The loaded key/value pairs are a parameter of every getter instead.
- `WebDriverManager.*.setup()` and the browser driver constructors launch processes through foreign libraries. A `Driver` is created directly, so the model does not include a launch that fails.
- Whether `quit()` throws is decided by the browser. It is the `browserFails` parameter of `QuitDriver` and `Driver.Quit`.
- `ThreadLocal` concurrency is modelled as a map from thread id to slot. Each call acts for one given thread, and interleaving is not modelled.
- The informational `logConfig`/`logger.info` calls are not part of the model. The two warnings are values kept in a ghost log, not log output.
- The navigation `getDriver().get(url)` in the suite hooks calls into the browser, so `SuiteLifecycle` covers only set-up, repeated set-up and tear-down.
- DriverFactory.ConfigureDriver: assumes the browser accepts every configuration call. These are `implicitlyWait`, `pageLoadTimeout`, `scriptTimeout`, `maximize`, `fullscreen` and `setSize` (`DriverFactory.java:89-91`, `97`, `100`, `109`, `112`, `115`). In Java, a `WebDriverException` from any of them escapes `configureDriver` and `initDriver` with the slot left empty. The model throws only the exceptions that come from reading the configuration. The failure of `quit()` alone is modelled, by `browserFails`.
- DriverFactory.ThreadDrivers.InitDriver: inherits the same assumption, so it does not cover a driver that the browser rejects while it is being configured.
- `Duration.ofSeconds` and the browser's handling of the timeout values are foreign. The parsed `int` is recorded as given, negative values included.
- `toLowerCase` and `equalsIgnoreCase` are modelled for ASCII letters only, with no locale rules. Java's `equalsIgnoreCase` also folds non-ASCII letters through `Character.toUpperCase`/`toLowerCase` (it treats "ſ" and "S" as equal, for example), and the model does not. `Boolean.parseBoolean` is unaffected: Java case mapping takes no non-ASCII character to 't', 'r', 'u' or 'e'.
- JavaLang.ParseInt: accepts ASCII digits only. `Integer.parseInt` also accepts other Unicode decimal digits.
- JavaLang.Split: models `split` only for a one-character separator that is not a regular-expression metacharacter, which is the only form the code uses.
- `core/TestDataReader.java`, the page objects, the step definitions, the runner and `LoggerUtil` are not part of this model.
