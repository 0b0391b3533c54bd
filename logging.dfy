/**
 * Model of internals/logging.py: the ANSI escape codes of `getEscapeCode`, the level-name
 * colouring of `ColourCodedFormatter` and `RequestFormatter`, the suppressible adapters
 * `SuppressedLoggerAdapter` and `EndpointLoggerAdapter`, and what `createLogger` decides
 * and configures.
 */
module Logging {
  import opened Results
  import opened Text

  /** The escape character `\033` that starts every ANSI sequence. */
  const Esc: char := '\U{1B}'

  /** `\033[0m`, written after a coloured level name to reset the terminal's style. */
  const Reset: string := [Esc] + "[0m"

  /** The `ValueError`s raised by this file. */
  datatype LoggingError =
    | InvalidColour(colour: string)   // "<colour> is not a valid colour."
    | InvalidLevel                    // "Invalid level specified"
    | InvalidAdapterMode              // "Invalid adapter mode specified"

  /** The colour names `getEscapeCode` knows, in the order of their codes 30 to 37. */
  const ColourNames: seq<string> := ["BLACK", "RED", "GREEN", "YELLOW", "BLUE", "PURPLE", "CYAN", "WHITE"]

  // ---------------------------------------------------------------------------------------
  // getEscapeCode
  // ---------------------------------------------------------------------------------------

  /** The normal-intensity code of a colour name, matched after upper-casing. */
  function BaseColourCode(name: string): (r: Option<nat>)
    ensures r.Some? <==> Upper(name) in ColourNames
    ensures r.Some? ==> 30 <= r.value <= 37 && ColourNames[r.value - 30] == Upper(name)
  {
    CapitalsColourCode(Upper(name))
  }

  /** The `match` on the upper-cased name. */
  function CapitalsColourCode(upper: string): (r: Option<nat>)
    ensures r.Some? <==> upper in ColourNames
    ensures r.Some? ==> 30 <= r.value <= 37 && ColourNames[r.value - 30] == upper
  {
    match upper
    case "BLACK" => Some(30)
    case "RED" => Some(31)
    case "GREEN" => Some(32)
    case "YELLOW" => Some(33)
    case "BLUE" => Some(34)
    case "PURPLE" => Some(35)
    case "CYAN" => Some(36)
    case "WHITE" => Some(37)
    case _ => None
  }

  /** The name with a trailing (case-sensitive) "_H" removed, and whether it was there. */
  function SplitIntensity(baseColour: string): (r: (string, bool))
    ensures r.1 <==> EndsWith(baseColour, "_H")
    ensures if r.1 then r.0 + "_H" == baseColour else r.0 == baseColour
  {
    if EndsWith(baseColour, "_H") then (baseColour[..|baseColour| - 2], true) else (baseColour, false)
  }

  /** The colour number `getEscapeCode` puts in its result, or the error it raises. */
  function ColourCode(baseColour: string): (r: Result<nat, LoggingError>)
    ensures r.Success? ==> 30 <= r.value <= 37 || 90 <= r.value <= 97
    ensures r.Success? ==> (r.value >= 90 <==> EndsWith(baseColour, "_H"))
    ensures r.Success? ==> ColourNames[r.value % 10] == Upper(SplitIntensity(baseColour).0)
    ensures r.Failure? <==> Upper(SplitIntensity(baseColour).0) !in ColourNames
    ensures r.Failure? ==> r.error == InvalidColour(SplitIntensity(baseColour).0)
  {
    var split := SplitIntensity(baseColour);
    var base := BaseColourCode(split.0);
    if base.None? then Failure(InvalidColour(split.0))
    else
      BaseCodeNamesColour(split.0, base.value);
      Success(if split.1 then base.value + 60 else base.value)
  }

  /** The last digit of a colour's code, at either intensity, is the colour's place in `ColourNames`. */
  lemma BaseCodeNamesColour(name: string, code: nat)
    requires BaseColourCode(name) == Some(code)
    ensures ColourNames[code % 10] == Upper(name) && ColourNames[(code + 60) % 10] == Upper(name)
  {
    assert code % 10 == (code + 60) % 10 == code - 30;
  }

  /**
   * The style part of the escape code, with the branches in the order the source tests them.
   * The third branch is dead: "1;4;" is never produced.
   */
  function StylePrefix(bold: bool, underline: bool): (r: string)
    ensures r == "1;" <==> bold
    ensures r == "4;" <==> !bold && underline
    ensures r == "" <==> !bold && !underline
    ensures r != "1;4;"
  {
    if bold then "1;"
    else if underline then "4;"
    else if bold && underline then "1;4;"
    else ""
  }

  /** `getEscapeCode(baseColour, bold, underline)`. */
  function EscapeCode(baseColour: string, bold: bool := false, underline: bool := false): (r: Result<string, LoggingError>)
    ensures r.Success? <==> ColourCode(baseColour).Success?
    ensures r.Failure? ==> r.error == ColourCode(baseColour).error
    ensures r.Success? ==> |r.value| >= 5 && r.value[..2] == [Esc, '['] && r.value[|r.value| - 1] == 'm'
  {
    match ColourCode(baseColour)
    case Failure(e) => Failure(e)
    case Success(code) => Success([Esc, '['] + StylePrefix(bold, underline) + NatToDecimal(code) + "m")
  }

  /** The two parts of an escape sequence `ESC [ prefix code m`. */
  datatype EscapeParts = EscapeParts(prefix: string, code: nat)

  /** Reads an escape sequence back into its style prefix and its colour number. */
  function ParseEscapeCode(s: string): Option<EscapeParts>
  {
    if |s| >= 3 && s[0] == Esc && s[1] == '[' && s[|s| - 1] == 'm' then ParseEscapeBody(s[2..|s| - 1])
    else None
  }

  /** The length of a style prefix "1;" or "4;" at the start of `body`, or 0. */
  function StyleLength(body: string): (n: nat)
    ensures n <= |body|
  {
    if |body| >= 2 && (body[0] == '1' || body[0] == '4') && body[1] == ';' then 2 else 0
  }

  /**
   * Reads the part of an escape sequence between `ESC [` and `m`: a style prefix, then the
   * colour number written without leading zeros, as an f-string writes it.
   */
  function ParseEscapeBody(body: string): Option<EscapeParts>
  {
    var split := StyleLength(body);
    var digits := body[split..];
    if IsCanonicalDecimal(digits) then Some(EscapeParts(body[..split], DecimalValue(digits)))
    else None
  }

  /** An escape sequence with the given style prefix and colour number. */
  function EscapeSequence(prefix: string, code: nat): string
  {
    [Esc, '['] + prefix + NatToDecimal(code) + "m"
  }

  lemma EscapeBodyDecodes(prefix: string, digits: string)
    requires prefix == "" || prefix == "1;" || prefix == "4;"
    requires IsCanonicalDecimal(digits)
    ensures ParseEscapeBody(prefix + digits) == Some(EscapeParts(prefix, DecimalValue(digits)))
  {
    var body := prefix + digits;
    if prefix == "" {
      assert body == digits;
      assert StyleLength(body) == 0 by {
        if |body| >= 2 { assert IsDigit(body[1]); }
      }
      assert body[0..] == digits && body[..0] == prefix;
    } else {
      assert StyleLength(body) == 2;
      assert body[..2] == prefix && body[2..] == digits;
    }
  }

  lemma EscapeSequenceDecodes(prefix: string, code: nat)
    requires prefix == "" || prefix == "1;" || prefix == "4;"
    ensures ParseEscapeCode(EscapeSequence(prefix, code)) == Some(EscapeParts(prefix, code))
  {
    var digits := NatToDecimal(code);
    var s := EscapeSequence(prefix, code);
    assert s == [Esc, '['] + prefix + digits + "m";
    assert s[0] == Esc && s[1] == '[' && s[|s| - 1] == 'm';
    assert s[2..|s| - 1] == prefix + digits;
    assert ParseEscapeCode(s) == ParseEscapeBody(prefix + digits);
    EscapeBodyDecodes(prefix, digits);
    DecimalRoundTrip(code);
  }

  /**
   * The parser accepts nothing but the sequences `EscapeSequence` writes: whatever it reads
   * is written back to the same text.
   */
  lemma ParseEscapeCodeCanonical(s: string)
    requires ParseEscapeCode(s).Some?
    ensures var parts := ParseEscapeCode(s).value;
            && (parts.prefix == "" || parts.prefix == "1;" || parts.prefix == "4;")
            && s == EscapeSequence(parts.prefix, parts.code)
  {
    var body := s[2..|s| - 1];
    assert ParseEscapeCode(s) == ParseEscapeBody(body);
    var parts := ParseEscapeBody(body).value;
    ParseEscapeBodyCanonical(body);
    Framed(s);
    FramedSequence(parts.prefix, parts.code, body);
  }

  lemma FramedSequence(prefix: string, code: nat, body: string)
    requires body == prefix + NatToDecimal(code)
    ensures EscapeSequence(prefix, code) == [Esc, '['] + body + "m"
  {
  }

  /** A text that starts with `ESC [` and ends with `m` is its body in that frame. */
  lemma Framed(s: string)
    requires |s| >= 3 && s[0] == Esc && s[1] == '[' && s[|s| - 1] == 'm'
    ensures s == [Esc, '['] + s[2..|s| - 1] + "m"
  {
    assert s[..2] == [Esc, '['] && s[|s| - 1..] == "m";
    assert s == s[..2] + s[2..|s| - 1] + s[|s| - 1..];
  }

  lemma ParseEscapeBodyCanonical(body: string)
    requires ParseEscapeBody(body).Some?
    ensures var parts := ParseEscapeBody(body).value;
            && (parts.prefix == "" || parts.prefix == "1;" || parts.prefix == "4;")
            && body == parts.prefix + NatToDecimal(parts.code)
  {
    var split := StyleLength(body);
    var digits := body[split..];
    CanonicalDecimal(digits);
    assert body == body[..split] + digits;
  }

  /** Every escape code `getEscapeCode` returns reads back as its style prefix and colour number. */
  lemma EscapeCodeDecodes(baseColour: string, bold: bool, underline: bool)
    requires EscapeCode(baseColour, bold, underline).Success?
    ensures ParseEscapeCode(EscapeCode(baseColour, bold, underline).value)
            == Some(EscapeParts(StylePrefix(bold, underline), ColourCode(baseColour).value))
  {
    var code := ColourCode(baseColour).value;
    assert EscapeCode(baseColour, bold, underline).value == EscapeSequence(StylePrefix(bold, underline), code);
    EscapeSequenceDecodes(StylePrefix(bold, underline), code);
  }

  /** Different colour numbers or styles give different escape codes. */
  lemma EscapeCodeInjective(c1: string, b1: bool, u1: bool, c2: string, b2: bool, u2: bool)
    requires EscapeCode(c1, b1, u1).Success? && EscapeCode(c2, b2, u2).Success?
    requires EscapeCode(c1, b1, u1).value == EscapeCode(c2, b2, u2).value
    ensures ColourCode(c1).value == ColourCode(c2).value
    ensures StylePrefix(b1, u1) == StylePrefix(b2, u2)
  {
    EscapeCodeDecodes(c1, b1, u1);
    EscapeCodeDecodes(c2, b2, u2);
  }

  predicate IsCapitals(s: string)
  {
    forall i :: 0 <= i < |s| ==> 'A' <= s[i] <= 'Z'
  }

  lemma UpperOfCapitals(s: string)
    requires IsCapitals(s)
    ensures Upper(s) == s
    ensures Upper(Lower(s)) == s
  {
  }

  lemma ColourNamesAreCapitals()
    ensures forall k :: 0 <= k < |ColourNames| ==> IsCapitals(ColourNames[k])
  {
  }

  /** A name in capitals, with no suffix, in either case. */
  lemma ColourCodeOfPlainName(name: string, code: nat)
    requires IsCapitals(name) && |name| >= 1
    requires BaseColourCode(name) == Some(code)
    ensures ColourCode(name) == Success(code)
    ensures ColourCode(Lower(name)) == Success(code)
  {
    UpperOfCapitals(name);
    var lower := Lower(name);
    if |name| >= 2 {
      assert name[|name| - 2] != '_' && lower[|name| - 2] != '_';
      assert name[|name| - 2..][0] == name[|name| - 2];
      assert lower[|name| - 2..][0] == lower[|name| - 2];
    }
    assert SplitIntensity(name) == (name, false);
    assert SplitIntensity(lower) == (lower, false);
    assert Upper(lower) == Upper(name);
  }

  /** A name in capitals with the high-intensity suffix. */
  lemma ColourCodeOfHighName(name: string, code: nat)
    requires BaseColourCode(name) == Some(code)
    ensures ColourCode(name + "_H") == Success(code + 60)
  {
    assert SplitIntensity(name + "_H").0 == name by {
      assert (name + "_H")[..|name|] == name;
    }
  }

  /** A name with the suffix in lower case is not a colour. */
  lemma ColourCodeOfLowerSuffix(name: string)
    requires IsCapitals(name)
    ensures ColourCode(name + "_h") == Failure(InvalidColour(name + "_h"))
  {
    assert !EndsWith(name + "_h", "_H");
    assert SplitIntensity(name + "_h").0 == name + "_h";
    UpperOfCapitals(name);
    var upper := Upper(name + "_h");
    assert upper == name + "_H";
    ColourNamesAreCapitals();
    assert !IsCapitals(upper) by {
      assert upper[|name|] == '_';
    }
    assert upper !in ColourNames;
  }

  /** The i-th colour name is matched to 30 + i. */
  lemma NamedColourCode(i: nat)
    requires i < |ColourNames|
    ensures CapitalsColourCode(ColourNames[i]) == Some(30 + i)
  {
    if i == 0 {
      assert ColourNames[i] == "BLACK";
    } else if i == 1 {
      assert ColourNames[i] == "RED";
    } else if i == 2 {
      assert ColourNames[i] == "GREEN";
    } else if i == 3 {
      assert ColourNames[i] == "YELLOW";
    } else if i == 4 {
      assert ColourNames[i] == "BLUE";
    } else if i == 5 {
      assert ColourNames[i] == "PURPLE";
    } else if i == 6 {
      assert ColourNames[i] == "CYAN";
    } else {
      assert ColourNames[i] == "WHITE";
    }
  }

  /**
   * The colour table: the i-th name, in any ASCII case, gives 30 + i, and with the suffix
   * "_H" gives 90 + i; the suffix in lower case is not recognised.
   */
  lemma ColourCodeTable(i: nat)
    requires i < |ColourNames|
    ensures ColourCode(ColourNames[i]) == Success(30 + i)
    ensures ColourCode(Lower(ColourNames[i])) == Success(30 + i)
    ensures ColourCode(ColourNames[i] + "_H") == Success(90 + i)
    ensures ColourCode(ColourNames[i] + "_h") == Failure(InvalidColour(ColourNames[i] + "_h"))
  {
    var name := ColourNames[i];
    ColourNamesAreCapitals();
    UpperOfCapitals(name);
    NamedColourCode(i);
    ColourCodeOfPlainName(name, 30 + i);
    ColourCodeOfHighName(name, 30 + i);
    ColourCodeOfLowerSuffix(name);
  }

  // ---------------------------------------------------------------------------------------
  // ColourCodedFormatter and RequestFormatter
  // ---------------------------------------------------------------------------------------

  lemma TwoDigitDecimal(n: nat)
    requires 10 <= n < 100
    ensures NatToDecimal(n) == [DigitChar(n / 10), DigitChar(n % 10)]
  {
  }

  /** The escape code without style of a colour whose number is `code`. */
  lemma PlainEscapeCode(name: string, code: nat)
    requires ColourCode(name) == Success(code) && 10 <= code < 100
    ensures EscapeCode(name, false, false) == Success([Esc, '[', DigitChar(code / 10), DigitChar(code % 10), 'm'])
  {
    TwoDigitDecimal(code);
    calc {
      EscapeCode(name, false, false).value;
      [Esc, '['] + StylePrefix(false, false) + NatToDecimal(code) + "m";
      [Esc, '['] + [DigitChar(code / 10), DigitChar(code % 10)] + "m";
      [Esc, '[', DigitChar(code / 10), DigitChar(code % 10), 'm'];
    }
  }

  /** The escape codes without style of the i-th colour, at normal and at high intensity. */
  lemma TableEscapeCode(i: nat)
    requires i < |ColourNames|
    ensures EscapeCode(ColourNames[i], false, false) == Success([Esc, '[', '3', DigitChar(i), 'm'])
    ensures EscapeCode(ColourNames[i] + "_H", false, false) == Success([Esc, '[', '9', DigitChar(i), 'm'])
  {
    ColourCodeTable(i);
    PlainEscapeCode(ColourNames[i], 30 + i);
    assert (30 + i) / 10 == 3 && (30 + i) % 10 == i;
    PlainEscapeCode(ColourNames[i] + "_H", 90 + i);
    assert (90 + i) / 10 == 9 && (90 + i) % 10 == i;
  }

  /** The escape codes of the colours the default colour coding uses. */
  lemma DefaultEscapeCodes()
    ensures EscapeCode("CYAN", false, false) == Success([Esc, '[', '3', '6', 'm'])
    ensures EscapeCode("GREEN", false, false) == Success([Esc, '[', '3', '2', 'm'])
    ensures EscapeCode("YELLOW", false, false) == Success([Esc, '[', '3', '3', 'm'])
    ensures EscapeCode("RED", false, false) == Success([Esc, '[', '3', '1', 'm'])
    ensures EscapeCode("RED_H", false, false) == Success([Esc, '[', '9', '1', 'm'])
  {
    assert EscapeCode("CYAN", false, false) == Success([Esc, '[', '3', '6', 'm']) by {
      assert ColourNames[6] == "CYAN";
      assert DigitChar(6) == '6';
      TableEscapeCode(6);
    }
    assert EscapeCode("GREEN", false, false) == Success([Esc, '[', '3', '2', 'm']) by {
      assert ColourNames[2] == "GREEN";
      assert DigitChar(2) == '2';
      TableEscapeCode(2);
    }
    assert EscapeCode("YELLOW", false, false) == Success([Esc, '[', '3', '3', 'm']) by {
      assert ColourNames[3] == "YELLOW";
      assert DigitChar(3) == '3';
      TableEscapeCode(3);
    }
    RedEscapeCodes();
  }

  lemma RedEscapeCodes()
    ensures EscapeCode("RED", false, false) == Success([Esc, '[', '3', '1', 'm'])
    ensures EscapeCode("RED_H", false, false) == Success([Esc, '[', '9', '1', 'm'])
  {
    assert ColourNames[1] == "RED";
    assert ColourNames[1] + "_H" == "RED_H";
    assert DigitChar(1) == '1';
    TableEscapeCode(1);
  }

  /** The colour coding both formatters use when none is given. */
  function DefaultColourCoding(): (m: map<string, string>)
    ensures m == map[
                   "DEBUG" := [Esc, '[', '3', '6', 'm'],      // CYAN
                   "INFO" := [Esc, '[', '3', '2', 'm'],       // GREEN
                   "WARNING" := [Esc, '[', '3', '3', 'm'],    // YELLOW
                   "ERROR" := [Esc, '[', '3', '1', 'm'],      // RED
                   "CRITICAL" := [Esc, '[', '9', '1', 'm']    // RED_H
                 ]
  {
    DefaultEscapeCodes();
    map[
      "DEBUG" := EscapeCode("CYAN", false, false).value,
      "INFO" := EscapeCode("GREEN", false, false).value,
      "WARNING" := EscapeCode("YELLOW", false, false).value,
      "ERROR" := EscapeCode("RED", false, false).value,
      "CRITICAL" := EscapeCode("RED_H", false, false).value
    ]
  }

  /** What a colouring formatter writes into `record.levelname`. */
  function ColourLevelName(colourCoding: map<string, string>, levelname: string): (r: string)
    ensures levelname !in colourCoding ==> r == levelname
    ensures levelname in colourCoding ==>
              var n := |colourCoding[levelname]|;
              |r| == n + |levelname| + 4 && r[..n] == colourCoding[levelname]
              && r[n..n + |levelname|] == levelname && r[n + |levelname|..] == Reset
  {
    if levelname in colourCoding then colourCoding[levelname] + levelname + Reset else levelname
  }

  /** A colouring whose codes all start with ESC while no level name it knows does. */
  ghost predicate EscapeColouring(colourCoding: map<string, string>)
  {
    forall name :: name in colourCoding ==>
      (|name| == 0 || name[0] != Esc) && |colourCoding[name]| >= 1 && colourCoding[name][0] == Esc
  }

  /** Adding a level whose name does not start with ESC and whose code does keeps a colouring an escape colouring. */
  lemma {:induction false} EscapeColouringExtend(colourCoding: map<string, string>, name: string, code: string)
    requires EscapeColouring(colourCoding)
    requires |name| >= 1 && name[0] != Esc && |code| >= 1 && code[0] == Esc
    ensures EscapeColouring(colourCoding[name := code])
  {
    var m := colourCoding[name := code];
    forall n | n in m
      ensures (|n| == 0 || n[0] != Esc) && |m[n]| >= 1 && m[n][0] == Esc
    {
      if n != name {
        assert n in colourCoding;
      }
    }
  }

  lemma DefaultColourCodingIsEscapeColouring()
    ensures EscapeColouring(DefaultColourCoding())
  {
    var m0: map<string, string> := map[];
    var debug, info, warning, error, critical :=
      [Esc, '[', '3', '6', 'm'], [Esc, '[', '3', '2', 'm'], [Esc, '[', '3', '3', 'm'], [Esc, '[', '3', '1', 'm'], [Esc, '[', '9', '1', 'm'];
    EscapeColouringExtend(m0, "DEBUG", debug);
    var m1 := m0["DEBUG" := debug];
    EscapeColouringExtend(m1, "INFO", info);
    var m2 := m1["INFO" := info];
    EscapeColouringExtend(m2, "WARNING", warning);
    var m3 := m2["WARNING" := warning];
    EscapeColouringExtend(m3, "ERROR", error);
    var m4 := m3["ERROR" := error];
    EscapeColouringExtend(m4, "CRITICAL", critical);
    assert DefaultColourCoding() == m4["CRITICAL" := critical];
  }

  /**
   * A record that passes through two colouring formatters (the same record object goes to
   * every handler) is coloured once: the coloured name is no longer a key.
   */
  lemma ColourLevelNameOnce(colourCoding: map<string, string>, levelname: string)
    requires EscapeColouring(colourCoding)
    ensures ColourLevelName(colourCoding, ColourLevelName(colourCoding, levelname))
            == ColourLevelName(colourCoding, levelname)
  {
    if levelname in colourCoding {
      var coloured := ColourLevelName(colourCoding, levelname);
      assert coloured[0] == Esc;
      assert coloured !in colourCoding;
    }
  }

  /** The request details a formatter or `logRequest` can see; Flask's `remote_addr` may be `None`. */
  datatype Request = Request(
    url: string, path: string, httpMethod: string, remoteAddress: Option<string>, userAgent: string, cookies: string)

  /** The parts of a `LogRecord` the formatters read or write. */
  class LogRecord {
    var levelname: string
    var msg: string
    var url: Option<string>
    var httpMethod: Option<string>
    var remoteAddress: Option<string>
    var userAgent: Option<string>
    var cookies: Option<string>

    constructor(levelname: string, msg: string)
      ensures this.levelname == levelname && this.msg == msg
      ensures url.None? && httpMethod.None? && remoteAddress.None? && userAgent.None? && cookies.None?
    {
      this.levelname := levelname;
      this.msg := msg;
      url, httpMethod, remoteAddress, userAgent, cookies := None, None, None, None, None;
    }
  }

  /** A colour coding given to a formatter's constructor, or the default one for `None`. */
  function CodingOrDefault(colourCoding: Option<map<string, string>>): map<string, string>
  {
    if colourCoding.Some? then colourCoding.value else DefaultColourCoding()
  }

  class ColourCodedFormatter {
    const fmt: string
    const colourCoding: map<string, string>

    constructor(fmt: string, colourCoding: Option<map<string, string>>)
      ensures this.fmt == fmt && this.colourCoding == CodingOrDefault(colourCoding)
    {
      this.fmt := fmt;
      this.colourCoding := CodingOrDefault(colourCoding);
    }

    /**
     * The record-rewriting part of `format`: the request fields are copied from the request
     * being handled, if there is one (`has_request_context()`), and the level name is coloured.
     */
    method Format(record: LogRecord, context: Option<Request>)
      modifies record
      ensures record.levelname == ColourLevelName(colourCoding, old(record.levelname))
      ensures record.msg == old(record.msg)
      ensures context.Some? ==> record.url == Some(context.value.url) && record.httpMethod == Some(context.value.httpMethod)
                                && record.remoteAddress == context.value.remoteAddress
                                && record.userAgent == Some(context.value.userAgent)
                                && record.cookies == Some(context.value.cookies)
      ensures context.None? ==> record.url.None? && record.httpMethod.None? && record.remoteAddress.None?
                                && record.userAgent.None? && record.cookies.None?
    {
      if context.Some? {
        record.url := Some(context.value.url);
        record.httpMethod := Some(context.value.httpMethod);
        record.remoteAddress := context.value.remoteAddress;
        record.userAgent := Some(context.value.userAgent);
        record.cookies := Some(context.value.cookies);
      } else {
        record.url, record.httpMethod, record.remoteAddress, record.userAgent, record.cookies := None, None, None, None, None;
      }
      if record.levelname in colourCoding {
        record.levelname := colourCoding[record.levelname] + record.levelname + Reset;
      }
    }
  }

  class RequestFormatter {
    const fmt: string
    const colourCoding: map<string, string>

    constructor(fmt: string, colourCoding: Option<map<string, string>>)
      ensures this.fmt == fmt && this.colourCoding == CodingOrDefault(colourCoding)
    {
      this.fmt := fmt;
      this.colourCoding := CodingOrDefault(colourCoding);
    }

    /** The record-rewriting part of `format`: only the level name is coloured. */
    method Format(record: LogRecord)
      modifies record
      ensures record.levelname == ColourLevelName(colourCoding, old(record.levelname))
      ensures record.msg == old(record.msg) && record.url == old(record.url)
      ensures record.httpMethod == old(record.httpMethod) && record.remoteAddress == old(record.remoteAddress)
      ensures record.userAgent == old(record.userAgent) && record.cookies == old(record.cookies)
    {
      if record.levelname in colourCoding {
        record.levelname := colourCoding[record.levelname] + record.levelname + Reset;
      }
    }
  }

  // ---------------------------------------------------------------------------------------
  // SuppressedLoggerAdapter and EndpointLoggerAdapter
  // ---------------------------------------------------------------------------------------

  /** One call handed on to `LoggerAdapter.log`. */
  datatype LogCall = LogCall(level: int, msg: string)

  /** The state both adapters keep: the `suppressed` flag and the calls passed on so far. */
  datatype AdapterState = AdapterState(suppressed: bool, forwarded: seq<LogCall>)

  /** What can be done to an adapter. */
  datatype AdapterOp = Suppress | Unsuppress | Log(call: LogCall)

  /** A fresh adapter: not suppressed, nothing passed on. */
  const InitialAdapterState: AdapterState := AdapterState(false, [])

  /** One operation on an adapter. */
  function Step(s: AdapterState, op: AdapterOp): (r: AdapterState)
    ensures r.suppressed == (op.Suppress? || (s.suppressed && !op.Unsuppress?))
    ensures |r.forwarded| >= |s.forwarded| && r.forwarded[..|s.forwarded|] == s.forwarded
    ensures |r.forwarded| > |s.forwarded| <==> op.Log? && !s.suppressed
    ensures |r.forwarded| > |s.forwarded| ==> r.forwarded == s.forwarded + [op.call]
  {
    match op
    case Suppress => s.(suppressed := true)
    case Unsuppress => s.(suppressed := false)
    case Log(call) => if s.suppressed then s else s.(forwarded := s.forwarded + [call])
  }

  /** A sequence of operations, applied in order. */
  function Run(s: AdapterState, ops: seq<AdapterOp>): AdapterState
    decreases |ops|
  {
    if ops == [] then s else Run(Step(s, ops[0]), ops[1..])
  }

  /** Suppressing or unsuppressing twice is the same as doing it once. */
  lemma SuppressIdempotent(s: AdapterState)
    ensures Step(Step(s, Suppress), Suppress) == Step(s, Suppress)
    ensures Step(Step(s, Unsuppress), Unsuppress) == Step(s, Unsuppress)
  {
  }

  /** While nobody unsuppresses a suppressed adapter, nothing at all is passed on. */
  lemma {:induction false} SuppressedForwardsNothing(s: AdapterState, ops: seq<AdapterOp>)
    requires s.suppressed
    requires forall i :: 0 <= i < |ops| ==> !ops[i].Unsuppress?
    ensures Run(s, ops) == s
    decreases |ops|
  {
    if ops != [] {
      SuppressedForwardsNothing(Step(s, ops[0]), ops[1..]);
    }
  }

  /** The calls passed on by an unsuppressed adapter that is only asked to log: all of them, in order. */
  lemma {:induction false} UnsuppressedForwardsAll(s: AdapterState, calls: seq<LogCall>)
    requires !s.suppressed
    ensures Run(s, seq(|calls|, i requires 0 <= i < |calls| => Log(calls[i])))
            == AdapterState(false, s.forwarded + calls)
    decreases |calls|
  {
    var ops := seq(|calls|, i requires 0 <= i < |calls| => Log(calls[i]));
    if calls == [] {
      assert ops == [];
    } else {
      var rest := seq(|calls| - 1, i requires 0 <= i < |calls| - 1 => Log(calls[1..][i]));
      assert ops[1..] == rest;
      UnsuppressedForwardsAll(Step(s, ops[0]), calls[1..]);
      assert s.forwarded + [calls[0]] + calls[1..] == s.forwarded + calls;
    }
  }

  /** Running operations never rewrites what was already passed on, and passes on only logged calls. */
  lemma {:induction false} RunOnlyAppendsLoggedCalls(s: AdapterState, ops: seq<AdapterOp>)
    ensures var r := Run(s, ops);
            |r.forwarded| >= |s.forwarded| && r.forwarded[..|s.forwarded|] == s.forwarded
            && forall k :: |s.forwarded| <= k < |r.forwarded| ==> Log(r.forwarded[k]) in ops
    decreases |ops|
  {
    if ops != [] {
      var t := Step(s, ops[0]);
      RunOnlyAppendsLoggedCalls(t, ops[1..]);
      var r := Run(s, ops);
      assert r == Run(t, ops[1..]);
      forall k | |s.forwarded| <= k < |r.forwarded|
        ensures Log(r.forwarded[k]) in ops
      {
        if k < |t.forwarded| {
          assert r.forwarded[k] == t.forwarded[k] == ops[0].call;
        } else {
          assert Log(r.forwarded[k]) in ops[1..];
        }
      }
    }
  }

  /** How an f-string writes an address that may be `None`. */
  function AddressText(remoteAddress: Option<string>): string
  {
    if remoteAddress.Some? then remoteAddress.value else "None"
  }

  /** A slice that lies inside a prefix of `s` is the same slice of that prefix. */
  lemma SliceOfPrefix(s: string, t: string, i: nat, j: nat)
    requires |t| <= |s| && s[..|t|] == t && i <= j <= |t|
    ensures s[i..j] == t[i..j]
  {
    assert forall k :: 0 <= k < j - i ==> s[i..j][k] == s[..|t|][i + k];
  }

  /**
   * `r` consists of the eight parts, each at its own place: `r[o..o']` is the part whose
   * place runs from offset `o` to offset `o'`.
   */
  predicate PartsAt(r: string, w1: string, a: string, w2: string, p: string, w3: string, m: string, w4: string, u: string)
  {
    var o1, o2, o3, o4 := |w1|, |w1| + |a|, |w1| + |a| + |w2|, |w1| + |a| + |w2| + |p|;
    var o5, o6, o7 := o4 + |w3|, o4 + |w3| + |m|, o4 + |w3| + |m| + |w4|;
    && |r| == o7 + |u|
    && r[..o1] == w1 && r[o1..o2] == a && r[o2..o3] == w2 && r[o3..o4] == p
    && r[o4..o5] == w3 && r[o5..o6] == m && r[o6..o7] == w4 && r[o7..] == u
  }

  /** Each of eight parts sits at its own place in their concatenation. */
  lemma LayoutOfEight(w1: string, a: string, w2: string, p: string, w3: string, m: string, w4: string, u: string)
    ensures PartsAt(w1 + a + w2 + p + w3 + m + w4 + u, w1, a, w2, p, w3, m, w4, u)
  {
    var p1 := w1;
    var p2 := p1 + a;
    var p3 := p2 + w2;
    var p4 := p3 + p;
    var p5 := p4 + w3;
    var p6 := p5 + m;
    var p7 := p6 + w4;
    var r := p7 + u;
    // Each prefix of the message is a prefix of the next one.
    assert r[..|p7|] == p7 && p7[..|p6|] == p6 && p6[..|p5|] == p5 && p5[..|p4|] == p4;
    assert p4[..|p3|] == p3 && p3[..|p2|] == p2 && p2[..|p1|] == p1;
    SliceOfPrefix(r, p7, 0, |p6|);
    SliceOfPrefix(r, p6, 0, |p5|);
    SliceOfPrefix(r, p5, 0, |p4|);
    SliceOfPrefix(r, p4, 0, |p3|);
    SliceOfPrefix(r, p3, 0, |p2|);
    SliceOfPrefix(r, p2, 0, |p1|);
    // Each part is the end of the prefix it closes.
    SliceOfPrefix(r, p2, |p1|, |p2|);
    assert p2[|p1|..|p2|] == a;
    SliceOfPrefix(r, p3, |p2|, |p3|);
    assert p3[|p2|..|p3|] == w2;
    SliceOfPrefix(r, p4, |p3|, |p4|);
    assert p4[|p3|..|p4|] == p;
    SliceOfPrefix(r, p5, |p4|, |p5|);
    assert p5[|p4|..|p5|] == w3;
    SliceOfPrefix(r, p6, |p5|, |p6|);
    assert p6[|p5|..|p6|] == m;
    SliceOfPrefix(r, p7, |p6|, |p7|);
    assert p7[|p6|..|p7|] == w4;
    assert r[|p7|..] == u;
  }

  /** The fixed words of `logRequest`'s message, in order. */
  const RequestFromWords: string := "Request from "
  const ToWords: string := " to "
  const WithMethodWords: string := " with method "
  /** The source's two adjacent f-strings end and start with a space, hence the two spaces. */
  const FromUserAgentWords: string := "  from user agent "

  /**
   * The message `logRequest` writes: the fixed words, with the address, the path, the method
   * and the user agent each in its place between them.
   */
  function RequestMessage(request: Request): (r: string)
    ensures PartsAt(r, RequestFromWords, AddressText(request.remoteAddress), ToWords, request.path,
                    WithMethodWords, request.httpMethod, FromUserAgentWords, request.userAgent)
  {
    var a, p, m, u := AddressText(request.remoteAddress), request.path, request.httpMethod, request.userAgent;
    LayoutOfEight(RequestFromWords, a, ToWords, p, WithMethodWords, m, FromUserAgentWords, u);
    RequestFromWords + a + ToWords + p + WithMethodWords + m + FromUserAgentWords + u
  }

  /** The name of the logger `getLogger(name)` returns: the root logger, named "root", for the empty name. */
  function LoggerName(name: string): string
  {
    if name == "" then "root" else name
  }

  /** `getLogger(name)`: the parts of a Python `Logger` that `createLogger` sets. */
  class Logger {
    const name: string
    var level: int
    var handlers: seq<Handler>

    constructor(name: string)
      ensures this.name == name && level == NotSet && handlers == []
    {
      this.name := name;
      level := NotSet;
      handlers := [];
    }
  }

  class SuppressedLoggerAdapter {
    const logger: Logger
    const extra: map<string, string>
    var suppressed: bool
    /** The calls passed on to `LoggerAdapter.log`. */
    var forwarded: seq<LogCall>

    function State(): AdapterState
      reads this
    {
      AdapterState(suppressed, forwarded)
    }

    constructor(logger: Logger, extra: map<string, string>)
      ensures this.logger == logger && this.extra == extra
      ensures State() == InitialAdapterState
    {
      this.logger := logger;
      this.extra := extra;
      suppressed := false;
      forwarded := [];
    }

    method Suppress()
      modifies this
      ensures State() == Step(old(State()), AdapterOp.Suppress)
    {
      suppressed := true;
    }

    method Unsuppress()
      modifies this
      ensures State() == Step(old(State()), AdapterOp.Unsuppress)
    {
      suppressed := false;
    }

    method Log(level: int, msg: string)
      modifies this
      ensures State() == Step(old(State()), AdapterOp.Log(LogCall(level, msg)))
    {
      if !suppressed {
        forwarded := forwarded + [LogCall(level, msg)];
      }
    }
  }

  class EndpointLoggerAdapter {
    const logger: Logger
    const extra: map<string, string>
    var suppressed: bool
    /** The calls passed on to `LoggerAdapter.log`. */
    var forwarded: seq<LogCall>

    function State(): AdapterState
      reads this
    {
      AdapterState(suppressed, forwarded)
    }

    constructor(logger: Logger, extra: map<string, string>)
      ensures this.logger == logger && this.extra == extra
      ensures State() == InitialAdapterState
    {
      this.logger := logger;
      this.extra := extra;
      suppressed := false;
      forwarded := [];
    }

    method Suppress()
      modifies this
      ensures State() == Step(old(State()), AdapterOp.Suppress)
    {
      suppressed := true;
    }

    method Unsuppress()
      modifies this
      ensures State() == Step(old(State()), AdapterOp.Unsuppress)
    {
      suppressed := false;
    }

    method Log(level: int, msg: string)
      modifies this
      ensures State() == Step(old(State()), AdapterOp.Log(LogCall(level, msg)))
    {
      if !suppressed {
        forwarded := forwarded + [LogCall(level, msg)];
      }
    }

    /** `logRequest(requestData, level)`: logs the request's description through `log`. */
    method LogRequest(request: Request, level: int := Info)
      modifies this
      ensures State() == Step(old(State()), AdapterOp.Log(LogCall(level, RequestMessage(request))))
    {
      Log(level, RequestMessage(request));
    }
  }

  // ---------------------------------------------------------------------------------------
  // createLogger
  // ---------------------------------------------------------------------------------------

  /** The numeric levels of Python's `logging` module. */
  const NotSet: int := 0
  const Debug: int := 10
  const Info: int := 20
  const Warning: int := 30
  const Error: int := 40
  const Critical: int := 50

  /** The level named by `level`, compared after lower-casing. */
  function LevelNumber(level: string): (r: Result<int, LoggingError>)
    ensures r.Success? <==> Lower(level) in ["debug", "info", "warning", "error", "critical"]
    ensures r.Failure? ==> r.error == InvalidLevel
    ensures r.Success? ==> r.value in {Debug, Info, Warning, Error, Critical}
  {
    match Lower(level)
    case "debug" => Success(Debug)
    case "info" => Success(Info)
    case "warning" => Success(Warning)
    case "error" => Success(Error)
    case "critical" => Success(Critical)
    case _ => Failure(InvalidLevel)
  }

  /** Python's own level names, in upper case as `createLogger`'s default "DEBUG", select their levels. */
  lemma LevelNumberTable()
    ensures LevelNumber("DEBUG") == Success(Debug)
    ensures LevelNumber("INFO") == Success(Info)
    ensures LevelNumber("WARNING") == Success(Warning)
    ensures LevelNumber("ERROR") == Success(Error)
    ensures LevelNumber("CRITICAL") == Success(Critical)
  {
    assert Lower("DEBUG") == "debug";
    assert Lower("INFO") == "info";
    assert Lower("WARNING") == "warning";
    assert Lower("ERROR") == "error";
    assert Lower("CRITICAL") == "critical";
  }

  /** Matching is case-insensitive: a level and its lower-case spelling select the same. */
  lemma LevelNumberIgnoresCase(level: string)
    ensures LevelNumber(Lower(level)) == LevelNumber(level)
  {
    assert Lower(Lower(level)) == Lower(level);
  }

  /** The kind of adapter `createLogger` wraps the logger in. */
  datatype AdapterMode = SuppressedMode | EndpointMode

  /** The adapter class selected by `adapterMode`, matched exactly (case-sensitively). */
  function AdapterModeOf(adapterMode: string): (r: Result<AdapterMode, LoggingError>)
    ensures r == Success(SuppressedMode) <==> adapterMode == "suppressed"
    ensures r == Success(EndpointMode) <==> adapterMode == "endpoint"
    ensures r.Failure? <==> adapterMode != "suppressed" && adapterMode != "endpoint"
    ensures r.Failure? ==> r.error == InvalidAdapterMode
  {
    match adapterMode
    case "suppressed" => Success(SuppressedMode)
    case "endpoint" => Success(EndpointMode)
    case _ => Failure(InvalidAdapterMode)
  }

  /** Whether a handler is an instance of `FileHandler` (including its subclasses). */
  datatype HandlerKind = FileHandler | StreamHandler | OtherHandler

  /** The formatter set on a handler: a plain `Formatter` or the shared colour formatter. */
  datatype HandlerFormatter = PlainFormatter(fmt: string) | ColourFormatter(formatter: ColourCodedFormatter)

  class Handler {
    const kind: HandlerKind
    var formatter: Option<HandlerFormatter>

    constructor(kind: HandlerKind)
      ensures this.kind == kind && formatter.None?
    {
      this.kind := kind;
      formatter := None;
    }
  }

  /** The position of the first occurrence of `x` in `s`. */
  function FirstIndex<T(==)>(s: seq<T>, x: T): (k: nat)
    requires x in s
    ensures k < |s| && s[k] == x && x !in s[..k]
  {
    if s[0] == x then 0
    else
      var k := FirstIndex(s[1..], x);
      assert s[..k + 1] == [s[0]] + s[1..][..k];
      k + 1
  }

  /** An occurrence with no earlier one is the first occurrence. */
  lemma {:induction false} FirstIndexIs<T>(s: seq<T>, x: T, k: nat)
    requires k < |s| && s[k] == x && x !in s[..k]
    ensures FirstIndex(s, x) == k
    decreases k
  {
    if k > 0 {
      assert s[..k][0] == s[0];
      assert s[1..][..k - 1] == s[..k][1..];
      FirstIndexIs(s[1..], x, k - 1);
    }
  }

  /** Appending to a sequence does not move the first occurrence of anything already in it. */
  lemma FirstIndexOfAppend<T>(s: seq<T>, h: T)
    ensures forall x :: x in s ==> FirstIndex(s + [h], x) == FirstIndex(s, x)
  {
    forall x | x in s
      ensures FirstIndex(s + [h], x) == FirstIndex(s, x)
    {
      var k := FirstIndex(s, x);
      assert (s + [h])[..k] == s[..k];
      FirstIndexIs(s + [h], x, k);
    }
  }

  /** `r` and `s` hold the same elements. */
  predicate SameElements<T(==)>(r: seq<T>, s: seq<T>)
  {
    && (forall i :: 0 <= i < |r| ==> r[i] in s)
    && (forall j :: 0 <= j < |s| ==> s[j] in r)
  }

  /** No element occurs twice. */
  predicate NoRepeats<T(==)>(r: seq<T>)
  {
    forall i, j :: 0 <= i < j < |r| ==> r[i] != r[j]
  }

  /** The elements of `r`, all taken from `s`, come in the order of their first occurrences in `s`. */
  predicate InFirstOccurrenceOrder<T(==)>(r: seq<T>, s: seq<T>)
  {
    forall i, j :: 0 <= i < j < |r| && r[i] in s && r[j] in s ==> FirstIndex(s, r[i]) < FirstIndex(s, r[j])
  }

  /**
   * The list a sequence of `addHandler` calls builds: a handler already present is not added
   * again, so every handler appears once (and, by `AddHandlersInOrder`, in the order of its
   * first occurrence).
   */
  function AddHandlers<T(==)>(handlers: seq<T>): (r: seq<T>)
    ensures SameElements(r, handlers)
    ensures NoRepeats(r)
    ensures |r| <= |handlers|
  {
    if handlers == [] then []
    else
      var earlier := handlers[..|handlers| - 1];
      var before := AddHandlers(earlier);
      var h := handlers[|handlers| - 1];
      assert handlers == earlier + [h];
      if h in before then before else before + [h]
  }

  /** The handlers `addHandler` keeps come in the order of their first occurrences. */
  lemma {:induction false} AddHandlersInOrder<T>(handlers: seq<T>)
    ensures InFirstOccurrenceOrder(AddHandlers(handlers), handlers)
    decreases |handlers|
  {
    if handlers != [] {
      var earlier := handlers[..|handlers| - 1];
      var h := handlers[|handlers| - 1];
      AddHandlersInOrder(earlier);
      assert handlers == earlier + [h];
      OrderAfterAppend(AddHandlers(earlier), earlier, h);
    }
  }

  /** Appending `h` to `s` keeps `r` in first-occurrence order, and `h` itself, if new, comes last. */
  lemma OrderAfterAppend<T>(r: seq<T>, s: seq<T>, h: T)
    requires SameElements(r, s)
    requires InFirstOccurrenceOrder(r, s)
    ensures InFirstOccurrenceOrder(r, s + [h])
    ensures h !in s ==> InFirstOccurrenceOrder(r + [h], s + [h])
  {
    FirstIndexOfAppend(s, h);
    if h !in s {
      var t := r + [h];
      forall i, j | 0 <= i < j < |t| && t[i] in s + [h] && t[j] in s + [h]
        ensures FirstIndex(s + [h], t[i]) < FirstIndex(s + [h], t[j])
      {
        if j == |r| {
          FirstIndexIs(s + [h], h, |s|);
        }
      }
    }
  }

  lemma AddHandlersStep<T>(handlers: seq<T>, h: T)
    ensures AddHandlers(handlers + [h]) == if h in AddHandlers(handlers) then AddHandlers(handlers) else AddHandlers(handlers) + [h]
  {
    assert (handlers + [h])[..|handlers|] == handlers;
  }

  /** Whether `createLogger` gives a handler of this kind the plain formatter. */
  function UsesPlainFormatter(doColour: bool, kind: HandlerKind): (r: bool)
    ensures kind == FileHandler ==> r
    ensures !doColour ==> r
    ensures doColour && kind != FileHandler ==> !r
  {
    !doColour || kind == FileHandler
  }

  /** The handler objects named by an optional `handlers` argument. */
  function HandlerObjects(handlers: Option<seq<Handler>>): set<Handler>
  {
    if handlers.Some? then set h | h in handlers.value else {}
  }

  /** Whether a handler carries the formatter `createLogger` chooses for its kind. */
  predicate FormattedAsCreated(h: Handler, doColour: bool, formatString: string, colourCoding: map<string, string>)
    reads h
  {
    && h.formatter.Some?
    && if UsesPlainFormatter(doColour, h.kind) then h.formatter.value == PlainFormatter(formatString)
       else (&& h.formatter.value.ColourFormatter?
             && h.formatter.value.formatter.fmt == formatString
             && h.formatter.value.formatter.colourCoding == colourCoding)
  }

  /** The formatter `createLogger` gives a handler of this kind. */
  function ChosenFormatter(kind: HandlerKind, doColour: bool, plain: HandlerFormatter, colour: HandlerFormatter): HandlerFormatter
  {
    if UsesPlainFormatter(doColour, kind) then plain else colour
  }

  /** Whether every handler of the list carries the formatter chosen for its kind. */
  predicate AllChosen(handlers: seq<Handler>, doColour: bool, plain: HandlerFormatter, colour: HandlerFormatter)
    reads set k | 0 <= k < |handlers| :: handlers[k]
  {
    forall k :: 0 <= k < |handlers| ==> handlers[k].formatter == Some(ChosenFormatter(handlers[k].kind, doColour, plain, colour))
  }

  /** One pass of the loop of `createLogger`: `handler.setFormatter(...)`, then `logger.addHandler(handler)`. */
  method AttachHandler(logger: Logger, handler: Handler, doColour: bool, plain: HandlerFormatter, colour: HandlerFormatter)
    requires AllChosen(logger.handlers, doColour, plain, colour)
    modifies logger`handlers, handler`formatter
    ensures logger.handlers == if handler in old(logger.handlers) then old(logger.handlers) else old(logger.handlers) + [handler]
    ensures AllChosen(logger.handlers, doColour, plain, colour)
  {
    var before := logger.handlers;
    label BeforeAssignment:
    handler.formatter := Some(ChosenFormatter(handler.kind, doColour, plain, colour));
    forall k | 0 <= k < |before|
      ensures before[k].formatter == Some(ChosenFormatter(before[k].kind, doColour, plain, colour))
    {
      if before[k] != handler {
        assert before[k].formatter == old@BeforeAssignment(before[k].formatter);
      }
    }
    if handler !in logger.handlers {
      logger.handlers := logger.handlers + [handler];
    }
  }

  /**
   * The loop of `createLogger` over its handlers: each gets the plain formatter if colour is
   * off or it is a file handler, the shared colour formatter otherwise, and is then added.
   */
  method AttachHandlers(
    logger: Logger, targets: seq<Handler>, doColour: bool, plain: HandlerFormatter, colour: HandlerFormatter)
    requires logger.handlers == []
    modifies logger`handlers, set h | h in targets
    ensures logger.handlers == AddHandlers(targets)
    ensures AllChosen(logger.handlers, doColour, plain, colour)
  {
    for i := 0 to |targets|
      invariant logger.handlers == AddHandlers(targets[..i])
      invariant AllChosen(logger.handlers, doColour, plain, colour)
    {
      var handler := targets[i];
      assert targets[..i + 1] == targets[..i] + [handler];
      AddHandlersStep(targets[..i], handler);
      AttachHandler(logger, handler, doColour, plain, colour);
    }
    assert targets[..|targets|] == targets;
  }

  /** The adapter object `createLogger` returns. */
  datatype Adapter = Suppressed(suppressedAdapter: SuppressedLoggerAdapter) | Endpoint(endpointAdapter: EndpointLoggerAdapter)

  /**
   * The handler part of `createLogger`: the logger's handlers are cleared, the given handlers
   * (or a new file handler and a new stream handler) get their formatters and are added.
   */
  method ConfigureHandlers(
    logger: Logger, formatString: string, handlers: Option<seq<Handler>>,
    doColour: bool, colourCoding: Option<map<string, string>>)
    modifies logger`handlers, HandlerObjects(handlers)
    ensures handlers.Some? ==> logger.handlers == AddHandlers(handlers.value)
    ensures handlers.None? ==>
              |logger.handlers| == 2 && fresh(logger.handlers[0]) && fresh(logger.handlers[1])
              && logger.handlers[0].kind == FileHandler && logger.handlers[1].kind == StreamHandler
    ensures forall k :: 0 <= k < |logger.handlers| ==>
              FormattedAsCreated(logger.handlers[k], doColour, formatString, CodingOrDefault(colourCoding))
  {
    logger.handlers := [];
    var targets: seq<Handler>;
    if handlers.None? {
      targets := DefaultHandlers();
    } else {
      targets := handlers.value;
    }
    var colourFormatter := new ColourCodedFormatter(formatString, colourCoding);
    var plain, colour := PlainFormatter(formatString), ColourFormatter(colourFormatter);
    assert handlers.Some? ==> targets == handlers.value;
    AttachHandlers(logger, targets, doColour, plain, colour);
    AllChosenAreCreated(logger.handlers, doColour, formatString, colourFormatter);
  }

  /** The handlers `createLogger` makes when none are given: a file handler, then a stream handler. */
  method DefaultHandlers() returns (targets: seq<Handler>)
    ensures |targets| == 2 && fresh(targets[0]) && fresh(targets[1])
    ensures targets[0].kind == FileHandler && targets[1].kind == StreamHandler
    ensures AddHandlers(targets) == targets
  {
    var fileHandler := new Handler(FileHandler);
    var streamHandler := new Handler(StreamHandler);
    targets := [fileHandler, streamHandler];
    AddHandlersStep([fileHandler], streamHandler);
    assert targets == [fileHandler] + [streamHandler];
  }

  lemma ChosenIsCreated(h: Handler, doColour: bool, formatString: string, colourFormatter: ColourCodedFormatter)
    requires colourFormatter.fmt == formatString
    requires h.formatter == Some(ChosenFormatter(h.kind, doColour, PlainFormatter(formatString), ColourFormatter(colourFormatter)))
    ensures FormattedAsCreated(h, doColour, formatString, colourFormatter.colourCoding)
  {
  }

  lemma AllChosenAreCreated(handlers: seq<Handler>, doColour: bool, formatString: string, colourFormatter: ColourCodedFormatter)
    requires colourFormatter.fmt == formatString
    requires AllChosen(handlers, doColour, PlainFormatter(formatString), ColourFormatter(colourFormatter))
    ensures forall k :: 0 <= k < |handlers| ==>
              FormattedAsCreated(handlers[k], doColour, formatString, colourFormatter.colourCoding)
  {
    forall k | 0 <= k < |handlers|
      ensures FormattedAsCreated(handlers[k], doColour, formatString, colourFormatter.colourCoding)
    {
      ChosenIsCreated(handlers[k], doColour, formatString, colourFormatter);
    }
  }

  /** The adapter `createLogger` wraps the logger in, chosen by the mode (matched as written). */
  method NewAdapter(logger: Logger, name: string, adapterMode: string) returns (r: Result<Adapter, LoggingError>)
    ensures r.Success? <==> AdapterModeOf(adapterMode).Success?
    ensures r.Failure? ==> r.error == InvalidAdapterMode
    ensures r.Success? && r.value.Suppressed? ==>
              var a := r.value.suppressedAdapter;
              adapterMode == "suppressed" && fresh(a) && a.logger == logger
              && a.extra == map["loggername" := name] && a.State() == InitialAdapterState
    ensures r.Success? && r.value.Endpoint? ==>
              var a := r.value.endpointAdapter;
              adapterMode == "endpoint" && fresh(a) && a.logger == logger
              && a.extra == map["loggername" := name] && a.State() == InitialAdapterState
  {
    var extra := map["loggername" := name];
    match AdapterModeOf(adapterMode)
    case Failure(e) =>
      r := Failure(e);
    case Success(SuppressedMode) =>
      var adapter := new SuppressedLoggerAdapter(logger, extra);
      r := Success(Suppressed(adapter));
    case Success(EndpointMode) =>
      var adapter := new EndpointLoggerAdapter(logger, extra);
      r := Success(Endpoint(adapter));
  }

  /** The format string `createLogger` uses when none is given. */
  const DefaultFormatString: string := "[%(asctime)s] [%(loggername)s] [%(levelname)s] %(message)s"

  /**
   * `createLogger(name, ...)`, where `logger` is the logger `getLogger(name)` returns. The level
   * is checked before the logger changes (the log directories are made before it, and are
   * not modelled); then the logger's level and handlers are replaced, each handler gets its
   * formatter, and only then is the adapter mode checked, so a bad mode raises after the logger
   * has been reconfigured. The adapter's `extra` carries `name` as given, even where the
   * logger's own name differs (the root logger for the empty name).
   */
  method CreateLogger(
    name: string, logger: Logger, level: string := "DEBUG", formatString: string := DefaultFormatString,
    handlers: Option<seq<Handler>> := None, doColour: bool := true,
    colourCoding: Option<map<string, string>> := None, adapterMode: string := "suppressed")
    returns (r: Result<Adapter, LoggingError>)
    requires logger.name == LoggerName(name)
    modifies logger, HandlerObjects(handlers)
    ensures LevelNumber(level).Failure? ==>
              r == Failure(InvalidLevel) && unchanged(logger) && unchanged(HandlerObjects(handlers))
    ensures LevelNumber(level).Success? ==> logger.level == LevelNumber(level).value
    ensures LevelNumber(level).Success? && handlers.Some? ==> logger.handlers == AddHandlers(handlers.value)
    ensures LevelNumber(level).Success? && handlers.None? ==>
              |logger.handlers| == 2 && fresh(logger.handlers[0]) && fresh(logger.handlers[1])
              && logger.handlers[0].kind == FileHandler && logger.handlers[1].kind == StreamHandler
    ensures LevelNumber(level).Success? ==>
              forall k :: 0 <= k < |logger.handlers| ==>
                FormattedAsCreated(logger.handlers[k], doColour, formatString, CodingOrDefault(colourCoding))
    ensures LevelNumber(level).Success? ==> (r.Success? <==> AdapterModeOf(adapterMode).Success?)
    ensures LevelNumber(level).Success? && r.Failure? ==> r.error == InvalidAdapterMode
    ensures r.Success? && r.value.Suppressed? ==>
              var a := r.value.suppressedAdapter;
              adapterMode == "suppressed" && fresh(a) && a.logger == logger
              && a.extra == map["loggername" := name] && a.State() == InitialAdapterState
    ensures r.Success? && r.value.Endpoint? ==>
              var a := r.value.endpointAdapter;
              adapterMode == "endpoint" && fresh(a) && a.logger == logger
              && a.extra == map["loggername" := name] && a.State() == InitialAdapterState
  {
    var levelNumber := LevelNumber(level);
    if levelNumber.Failure? {
      return Failure(InvalidLevel);
    }
    logger.level := levelNumber.value;
    ConfigureHandlers(logger, formatString, handlers, doColour, colourCoding);
    r := NewAdapter(logger, name, adapterMode);
  }
}
