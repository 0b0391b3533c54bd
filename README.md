# filehost internals: logging, user roles and configuration in Dafny

This project models three internal modules of the filehost web service and proves properties of them.

- **Logging** (`internals/logging.py`, module `Logging` in `logging.dfy`):
  - `getEscapeCode` turns a colour name into an ANSI escape sequence. The name may carry a case-sensitive `_H` high-intensity suffix and bold/underline flags. Unknown colours raise `ValueError`.
  - `ColourCodedFormatter` and `RequestFormatter` wrap a known level name in its colour code and the reset code `ESC[0m`. These are classes that rewrite a `LogRecord` object in place.
  - `SuppressedLoggerAdapter` and `EndpointLoggerAdapter` are objects with a `suppressed` flag. It gates whether `log` passes a call on. `logRequest` builds its message text.
  - `createLogger` checks the level name and sets the logger's level and handlers. It gives each handler its formatter in a loop, then picks the adapter class by mode.
- **User roles** (`internals/models/user.py`, module `Users` in `user.dfy`): the `User` constructor stores its arguments. It derives `banned`, `moderator` and `admin` from the integer access level, which it does not keep.
- **Configuration** (`internals/config.py`, module `Configuration` in `config.dfy`):
  - `Config._load` copies the environment into the `cache` dictionary. It then rejects the first of the five database settings that is missing.
  - The accessors read the cache. `dbPort` parses with `int()`, and `debug` compares the lower-cased value with `"true"`.

Two helper modules:
- `results.dfy` holds `Option`, `Result` and `Outcome`. A raised exception becomes a `Failure`/`Fail` value.
- `text.dfy` (module `Text`) holds the parts of Python's string and integer behaviour the code relies on:
  - `str.upper` and `str.lower`, as far as the comparisons made with them can tell;
  - `str.endswith`;
  - the decimal rendering of an int in an f-string;
  - `int(str)`, with its white-space skipping, optional sign and `_` digit separators.

Each operation has a partner it is proved against:
- The escape codes are read back by a parser: every code decodes to its style prefix and colour number, so different styles or colours never share a code. The parser accepts only the exact text the f-string writes, with no leading zeros, so it inverts `getEscapeCode` exactly.
- The colour table is proved name by name for both intensities.
- Colouring a level name twice is proved to colour it once, for any coding whose codes start with ESC while its level names do not, such as the default one.
- The adapters' methods are specified by a pure `Step` function on `(suppressed, forwarded calls)`. Lemmas about runs of steps say what a suppressed or an unsuppressed adapter passes on.
- The `logRequest` message is proved to hold each request field at its own place between the fixed words, so each field can be read back by position.
- `createLogger`'s loop is proved to leave exactly the de-duplicated handler list that Python's `addHandler` builds, in order of first occurrence (`Logging.AddHandlersInOrder`), each handler with the formatter chosen for its kind.
- The access-level flags are proved mutually exclusive. They are read back into a level and rebuilt into the same user.
- `int()` is proved to accept exactly a literal with white space around it, reading it as the literal. `int(str(n)) == n` is proved for every integer, with any white space around the text. So a port written as Python writes it is read back by `dbPort`.

Where the system's design notes and the code disagree, the model follows the code:
- The design notes say the access level determines exactly one role flag. In the code, an ordinary user (level 0, or any level other than -1, 1 and 2) gets none of them. `Users.NewUserOrdinary` states this.
- The design notes list `HOST`, `PORT`, `DOMAIN`, `HTTPS` and `EMAIL_*` among the required settings. `_load` requires only `DB_USER`, `DB_PASS`, `DB_HOST`, `DB_PORT` and `DB_NAME`, checked in that order.

In `getEscapeCode` the branch `elif bold and underline` comes after `if bold` and `elif underline`, so it can never run and `"1;4;"` is never produced. The model keeps the branch as written. `Logging.StylePrefix` proves it dead.

## Model

| member | source | states |
|---|---|---|
| Logging.CapitalsColourCode | internals/logging.py:45-63 | the `match` gives a code exactly for the eight colour names; the code lies in 30..37 and is the name's position in BLACK, RED, GREEN, YELLOW, BLUE, PURPLE, CYAN, WHITE |
| Logging.BaseColourCode | internals/logging.py:45-63 | a name is recognised exactly when its upper-cased form is one of the eight, with code 30 + its position |
| Logging.SplitIntensity | internals/logging.py:39-43 | the high-intensity flag is set exactly when the name ends with the case-sensitive `_H`; the name kept is the given name with that suffix removed, or the given name when there is none |
| Logging.ColourCode | internals/logging.py:39-66 | success gives 30..37 or 90..97, at least 90 exactly when the name ends with the case-sensitive `_H`, and the code's last digit is the place in BLACK..WHITE of the upper-cased name without the suffix; failure happens exactly when that name is not a colour, and the error names it |
| Logging.StylePrefix | internals/logging.py:68-75 | bold gives "1;" whatever underline is, underline alone "4;", neither ""; "1;4;" is never produced |
| Logging.EscapeCode | internals/logging.py:17-77 | with `bold` and `underline` off by default: succeeds exactly when the colour is valid and fails with the colour's error otherwise; a result starts with ESC `[` and ends with `m` |
| Logging.EscapeCodeDecodes | internals/logging.py:68-77 | every escape code returned reads back as exactly its style prefix and its colour number |
| Logging.EscapeCodeInjective | internals/logging.py:68-77 | two equal escape codes have the same colour number and the same style prefix |
| Logging.EscapeSequenceDecodes | internals/logging.py:77 | `ESC [ prefix code m` with one of the three prefixes decodes to that prefix and code |
| Logging.EscapeBodyDecodes | internals/logging.py:77 | the text between `ESC [` and `m` splits back into the prefix and the decimal digits, written without leading zeros |
| Logging.ParseEscapeCodeCanonical | internals/logging.py:77 | every text the escape-code parser accepts is exactly `ESC [` prefix number `m` as the f-string writes it, so the parser inverts `getEscapeCode` exactly |
| Text.CanonicalDecimal | internals/logging.py:77 | decimal digits with no leading zero are the text `str(n)` gives for the number they denote |
| Logging.NamedColourCode | internals/logging.py:45-61 | the i-th colour name is matched to 30 + i |
| Logging.ColourCodeOfPlainName | internals/logging.py:39-66 | a colour name without suffix, in capitals or lower case, gives its base code |
| Logging.ColourCodeOfHighName | internals/logging.py:39-43 | a colour name followed by `_H` gives its base code plus 60 |
| Logging.ColourCodeOfLowerSuffix | internals/logging.py:39-63 | a colour name followed by `_h` is not a colour, and the error names the whole string |
| Logging.ColourCodeTable | internals/logging.py:39-66 | the i-th name gives 30 + i in either case, 90 + i with `_H`, and a `ValueError` with `_h` |
| Logging.TableEscapeCode | internals/logging.py:39-77 | the unstyled escape code of the i-th colour is `ESC[3<i>m`, and `ESC[9<i>m` at high intensity |
| Logging.DefaultEscapeCodes | internals/logging.py:98-102 | the codes of CYAN, GREEN, YELLOW, RED and RED_H, unstyled, are `ESC[36m`, `ESC[32m`, `ESC[33m`, `ESC[31m` and `ESC[91m` |
| Logging.DefaultColourCoding | internals/logging.py:96-103 | the default colour coding maps exactly DEBUG, INFO, WARNING, ERROR and CRITICAL to `ESC[36m`, `ESC[32m`, `ESC[33m`, `ESC[31m` and `ESC[91m` |
| Logging.DefaultColourCodingIsEscapeColouring | internals/logging.py:153-160 | in the default coding every code starts with ESC and no level name does |
| Logging.ColourLevelName | internals/logging.py:131-134 | a level name that is a key of the coding becomes the level's code, then the unchanged name, then `ESC[0m`; any other name is left as it is |
| Logging.ColourLevelNameOnce | internals/logging.py:131-134 | under a coding whose codes all start with ESC and whose level names do not, such as the default one, a record passed through a second colouring formatter is not coloured again |
| Logging.ColourCodedFormatter.constructor | internals/logging.py:87-104 | the formatter keeps the format string and the given colour coding, or the default one when none is given |
| Logging.ColourCodedFormatter.Format | internals/logging.py:117-134 | with a request being handled, the record gets its url, method, address (which may itself be `None`), user agent and cookies, and `None` for each otherwise; a level name in the coding is replaced by code + name + reset, any other left as it is; the message is untouched |
| Logging.RequestFormatter.constructor | internals/logging.py:144-161 | the formatter keeps the format string and the given colour coding, or the default one |
| Logging.RequestFormatter.Format | internals/logging.py:173-176 | the level name is coloured as above, and no other field of the record changes |
| Logging.Step | internals/logging.py:196-219 | `suppress` sets the flag and `unsuppress` clears it; `log` passes its call on, appended at the end, exactly when the flag is clear; nothing passed on before is changed |
| Logging.SuppressIdempotent | internals/logging.py:196-206 | suppressing twice is suppressing once, and likewise unsuppressing |
| Logging.SuppressedForwardsNothing | internals/logging.py:218-219 | a suppressed adapter passes nothing on, whatever it is asked, until it is unsuppressed |
| Logging.UnsuppressedForwardsAll | internals/logging.py:218-219 | an unsuppressed adapter asked only to log passes on every call, in order |
| Logging.RunOnlyAppendsLoggedCalls | internals/logging.py:208-219 | any run of operations only appends, and everything it appends was a `log` call of the run |
| Logging.SuppressedLoggerAdapter.constructor | internals/logging.py:192-194 | the adapter wraps the logger with its extra fields, starts unsuppressed and has passed nothing on |
| Logging.SuppressedLoggerAdapter.Suppress | internals/logging.py:196-200 | the adapter's state after `suppress` is one `Step` with Suppress |
| Logging.SuppressedLoggerAdapter.Unsuppress | internals/logging.py:202-206 | the adapter's state after `unsuppress` is one `Step` with Unsuppress |
| Logging.SuppressedLoggerAdapter.Log | internals/logging.py:208-219 | the adapter's state after `log(level, msg)` is one `Step` with that call |
| Logging.EndpointLoggerAdapter.constructor | internals/logging.py:229-231 | as for the suppressed adapter: unsuppressed, nothing passed on |
| Logging.EndpointLoggerAdapter.Suppress | internals/logging.py:233-237 | one `Step` with Suppress |
| Logging.EndpointLoggerAdapter.Unsuppress | internals/logging.py:239-243 | one `Step` with Unsuppress |
| Logging.EndpointLoggerAdapter.Log | internals/logging.py:245-256 | one `Step` with the call |
| Logging.RequestMessage | internals/logging.py:266-270 | the message is "Request from ", the address (or "None"), " to ", the path, " with method ", the method, "  from user agent " (two spaces) and the user agent, each at its own offset |
| Logging.EndpointLoggerAdapter.LogRequest | internals/logging.py:258-270 | `logRequest` is one `log` step with that message, at INFO unless another level is given |
| Logging.LevelNumber | internals/logging.py:309-321 | succeeds exactly when the lower-cased level is debug, info, warning, error or critical, with one of the five numeric levels; otherwise the "Invalid level specified" error |
| Logging.LevelNumberTable | internals/logging.py:309-321 | DEBUG, INFO, WARNING, ERROR and CRITICAL select 10, 20, 30, 40 and 50 |
| Logging.LevelNumberIgnoresCase | internals/logging.py:309 | a level and its lower-case spelling select the same |
| Logging.AdapterModeOf | internals/logging.py:358-364 | exactly "suppressed" and "endpoint" (case-sensitive) select an adapter class; any other mode is the "Invalid adapter mode specified" error |
| Logging.AddHandlers | internals/logging.py:349-354 | repeated `addHandler` keeps every handler it is given, only those, each once |
| Logging.AddHandlersInOrder | internals/logging.py:349-354 | the handlers repeated `addHandler` keeps come in the order of their first occurrences in the given list |
| Logging.UsesPlainFormatter | internals/logging.py:347 | a file handler always gets the plain formatter, every handler does when colour is off, and any other handler gets the colour formatter when colour is on |
| Logging.AttachHandler | internals/logging.py:347-354 | one pass of the loop sets the handler's formatter by its kind and adds it once, keeping every earlier handler's formatter right |
| Logging.AttachHandlers | internals/logging.py:346-354 | after the loop the logger's handlers are the given ones de-duplicated in order, each with the plain formatter when colour is off or it is a file handler, and the colour formatter otherwise |
| Logging.DefaultHandlers | internals/logging.py:330-341 | without `handlers`, a new file handler and then a new stream handler are used |
| Logging.ChosenIsCreated | internals/logging.py:343-354 | the formatter chosen by kind is the plain `Formatter(formatString)` or the colour formatter built from the same format string |
| Logging.ConfigureHandlers | internals/logging.py:326-354 | the logger's old handlers are dropped, and the new ones are the given or the two default handlers, each formatted by its kind |
| Logging.NewAdapter | internals/logging.py:358-366 | a valid mode gives a new adapter of the matching class over the logger, with `extra` = {"loggername": name} for the `name` given to `createLogger`, unsuppressed; an invalid mode gives its error |
| Logging.CreateLogger | internals/logging.py:273-366 | with the source's defaults (level "DEBUG", the default format string, no handlers, colour on, no coding, mode "suppressed"): a bad level raises before the logger changes; otherwise the level is set and the handlers are configured as above, and only then does a bad mode raise |
| Text.NatToDecimal | internals/logging.py:77 | the decimal text of a number is non-empty, all digits, with no leading zero |
| Text.DecimalRoundTrip | internals/logging.py:77 | the decimal text of a number denotes that number |
| Text.TrimStart | internals/config.py:101 | skipping leading white space removes only white space and leaves a suffix of the text that does not start with white space |
| Text.TrimEnd | internals/config.py:101 | skipping trailing white space removes only white space and leaves a prefix of the text that does not end with white space |
| Text.ParseInt | internals/config.py:101 | every text `int()` accepts is white space, then a literal whose value is the result, then white space |
| Text.ParseIntOfPaddedLiteral | internals/config.py:101 | conversely, any literal with any white space around it is accepted, with the literal's value |
| Text.ParseIntRoundTrip | internals/config.py:101 | `int(str(i)) == i` for every integer |
| Text.ParseIntIgnoresSurroundingSpace | internals/config.py:101 | any white space before and after a text does not change what `int()` makes of it |
| Users.NewUser | internals/models/user.py:26-62 | `banned` exactly when the level is -1, `moderator` exactly when 1, `admin` exactly when 2; id, email, password, username, otp, lastOtp and createdAt are stored unchanged |
| Users.NewUserRolesExclusive | internals/models/user.py:56-58 | for every access level, at most one of the three flags is set |
| Users.NewUserOrdinary | internals/models/user.py:56-58 | any level other than -1, 1 and 2, such as 0, sets no flag |
| Users.NewUserForgetsOrdinaryLevel | internals/models/user.py:52-62 | two users built from the same fields are equal exactly when their levels are equal or neither is -1, 1 or 2: the level itself is not stored |
| Users.AccessLevelOf | internals/models/user.py:56-58 | the level a user's flags stand for is -1, 0, 1 or 2, and each flag is set exactly for its level |
| Users.AccessLevelRoundTrip | internals/models/user.py:56-58 | rebuilding a user from the level its flags stand for gives the same user |
| Users.NewUserLevelRecovered | internals/models/user.py:56-58 | for the levels -1, 0, 1 and 2 the flags give the level back |
| Configuration.FirstMissing | internals/config.py:51-61 | nothing is reported exactly when all required settings are present; a reported name is the earliest missing one, with every one before it present |
| Configuration.FirstMissingAt | internals/config.py:59-61 | when all settings before the i-th are present and the i-th is not, the i-th is the one reported |
| Configuration.Config.constructor | internals/config.py:36 | a new configuration starts with an empty cache |
| Configuration.Config.Load | internals/config.py:42-61 | the cache becomes the old cache overwritten by every environment entry, and the load fails exactly when a required setting is missing, naming the first one in the order DB_USER, DB_PASS, DB_HOST, DB_PORT, DB_NAME |
| Configuration.Config.Create | internals/config.py:25-40 | a configuration is built exactly when the environment holds all five database settings; its cache is then the environment, and otherwise the error names the first missing one |
| Configuration.Config.DbUser | internals/config.py:71 | DB_USER as the cache holds it |
| Configuration.Config.DbPassword | internals/config.py:81 | DB_PASS as the cache holds it |
| Configuration.Config.DbHost | internals/config.py:91 | DB_HOST as the cache holds it |
| Configuration.Config.DbDatabase | internals/config.py:111 | DB_NAME as the cache holds it |
| Configuration.Config.DbPort | internals/config.py:101 | the integer `int()` reads from DB_PORT (white space, then a literal with that value, then white space), failing exactly when that text is not an integer, with the text in the error |
| Configuration.Config.Database | internals/config.py:121-127 | (user, password, host, port, name) in that order, failing exactly when the port does |
| Configuration.Config.Debug | internals/config.py:137 | true exactly when DEBUG is present and spells "true" in any mix of case; false when DEBUG is absent |
| Configuration.DbPortReadsWrittenPort | internals/config.py:101-127 | a port written as Python writes an integer, with any white space before and after it, is read back by `dbPort` and `database` |
| Configuration.LoadedFromEnvironment | internals/config.py:71-137 | after loading from an empty cache, `dbUser`, `dbPassword`, `dbHost` and `dbDatabase` return the environment's values unchanged, and `debug` reads DEBUG from it |

## Left out

- The authentication gate, login and registration flows, two-factor enrollment, password reset and sessions. They are part of the system's design but are not in `internals/logging.py`, `internals/config.py` or `internals/models/user.py`, which are what is modelled.
- `internals/database.py` (PostgreSQL access and password hashing), `internals/emailer.py` (SMTP transport), `internals/models/file.py` (a data holder) and `app.py` (Flask set-up) are not part of this model.
- File system work in `createLogger` is not modelled: `mkdir` of the log directories, the date-stamped file name and the opening of the `FileHandler`. The directories `Logs/` and `Logs/<name>/` are made before the level is checked, so a bad level leaves them behind. A handler is modelled by its kind. The kind says whether it is an instance of `FileHandler` or a subclass, which is all the loop looks at.
- `getLogger(name)` and its registry are not modelled. The logger object is a parameter of `Logging.CreateLogger`, required to carry the name `getLogger` gives it: `name` itself, or "root" for the empty name, which returns the root logger. The adapter's `extra` still uses `name` as given, so for the empty name it holds "" while the logger is named "root". Clearing the handlers only when `hasHandlers()` is true leaves the same empty list as clearing them always, so the model always clears.
- The standard library's `Formatter.format` (rendering the format string, the date format and the style) and the `datefmt`/`style` constructor arguments are not modelled. The formatters are modelled up to the record fields they rewrite.
- `has_request_context()` and the Flask `request` are a parameter of `Logging.ColourCodedFormatter.Format`: the request being handled, or none. `request.user_agent` and `request.cookies` appear as the text they render to.
- The dispatch behind `LoggerAdapter.log` is not modelled: the level check, `process` adding `extra`, and the handlers writing records. The adapters record the calls they pass on to it, in order. A recorded call holds the level and the message; the `*args` and `**kwargs` both adapters' `log` pass on are not modelled. The shortcuts `debug`, `info` and the others route to `log` in Python and are not modelled separately.
- `Config.__init__` also calls `createLogger(__name__)` and `load_dotenv()`, and logs "Loading .env file..." after the load. These are not modelled. The environment `os.environ` is a parameter of `Configuration.Config.Load` and `Configuration.Config.Create`.
- The `print(type(createdAt))` in `User.__init__` is not modelled. `createdAt` is a value the constructor only stores.
- Text.Upper: models `str.upper` only for the ASCII letters, dotless i (U+0131) and long s (U+017F), leaving every other character as it is. This does not change whether a name equals one of the eight colour names. No other character upper-cases to a single ASCII letter, and the multi-letter expansions such as "ß" to "SS" or "ﬁ" to "FI" occur in none of the names.
- Text.Lower: models `str.lower` only for the ASCII letters. This does not change whether a text equals "true" or a level name. Apart from the ASCII capitals, only two characters lower-case to something that starts with an ASCII letter: the Kelvin sign gives "k", and none of those words contains a "k"; capital I with dot above (U+0130) gives "i" followed by the combining dot U+0307, which is not ASCII, so the result cannot equal any of those words.
- Text.ParseInt: accepts only ASCII digits. Python's `int()` also accepts the decimal digits of other scripts, and `Configuration.Config.DbPort` inherits this gap. The limit of 4300 digits that recent Python versions place on `int(str)` is not modelled either.
