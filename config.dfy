/**
 * src/config.rs: the configuration record, its defaults, and how the
 * command-line options are laid over the defaults or over a file config.
 *
 * Reading and parsing the TOML file (`from_file`) is a parameter. The
 * command line is the record Matches, as clap hands it over.
 */
module Config {
  import opened Wrappers

  type u32 = x: int | 0 <= x < 0x1_0000_0000

  datatype Email = Email(address: string, content: Option<string>)

  datatype Ping = Ping(url: string, content: Option<string>)

  datatype Config = Config(
    verbose: Option<bool>,
    timeout: u32,
    urls: seq<string>,
    emails: Option<seq<Email>>,
    pings: Option<seq<Ping>>,
    sender: Option<string>)

  /**
   * The parsed command line. clap refuses a value-taking option given
   * without a value, so a multi-valued option is present exactly when its
   * sequence is non-empty.
   */
  datatype Matches = Matches(
    config: Option<string>,
    verbose: bool,
    timeout: Option<string>,
    urls: seq<string>,
    emails: seq<string>,
    pings: seq<string>,
    sender: Option<string>)

  /** The kinds of failure of `str::parse::<u32>`. */
  datatype IntErrorKind = Empty | InvalidDigit | PosOverflow

  datatype ConfigError =
    | File(reason: string)          // the file could not be read or parsed
    | Timeout(kind: IntErrorKind)   // the timeout option is not a u32
    | Panic(reason: string)         // an `unwrap` on a missing value: the thread panics

  /** `from_file`: the config read from a path, or why it could not be. */
  type FromFile = string -> Result<Config, string>

  /** `from_defaults`. */
  function FromDefaults(): (c: Config)
    ensures c.verbose == Some(false) && c.timeout == 60 && c.urls == []
    ensures c.emails == None && c.pings == None && c.sender == None
  {
    Config(Some(false), 60, [], None, None, None)
  }

  // ---------------------------------------------------------------------
  // `str::parse::<u32>` as the Rust standard library defines it: an
  // optional '+', then decimal digits read left to right, failing at the
  // first non-digit or as soon as the value leaves u32.

  predicate IsDigit(c: char) {
    '0' <= c <= '9'
  }

  function DigitValue(c: char): nat
    requires IsDigit(c)
  {
    (c as int) - ('0' as int)
  }

  predicate AllDigits(s: string) {
    forall i | 0 <= i < |s| :: IsDigit(s[i])
  }

  /** The unbounded value of a digit string. */
  function DecimalValue(s: string): nat
    requires AllDigits(s)
  {
    if s == [] then 0 else DecimalValue(s[..|s| - 1]) * 10 + DigitValue(s[|s| - 1])
  }

  /** The digit loop: accepts exactly the digit strings whose value fits in u32. */
  function Digits(s: string): (r: Result<u32, IntErrorKind>)
    ensures r.Ok? <==> AllDigits(s) && DecimalValue(s) < 0x1_0000_0000
    ensures r.Ok? ==> r.value == DecimalValue(s)
    ensures r.Err? ==> r.error != Empty
  {
    if s == [] then Ok(0)
    else
      var init := s[..|s| - 1];
      var c := s[|s| - 1];
      assert AllDigits(s) ==> AllDigits(init);
      match Digits(init)
      case Err(e) => Err(e)
      case Ok(acc) =>
        if !IsDigit(c) then Err(InvalidDigit)
        else if acc * 10 + DigitValue(c) >= 0x1_0000_0000 then Err(PosOverflow)
        else Ok(acc * 10 + DigitValue(c))
  }

  /** `str::parse::<u32>`. */
  function ParseU32(s: string): (r: Result<u32, IntErrorKind>)
    ensures r == Err(Empty) <==> s == []
    ensures r.Ok? && s[0] != '+' ==> AllDigits(s) && r.value == DecimalValue(s)
    ensures r.Ok? && s[0] == '+' ==> AllDigits(s[1..]) && r.value == DecimalValue(s[1..])
    ensures s != [] && s[0] != '+' ==> (r.Ok? <==> AllDigits(s) && DecimalValue(s) < 0x1_0000_0000)
    ensures |s| > 1 && s[0] == '+' ==> (r.Ok? <==> AllDigits(s[1..]) && DecimalValue(s[1..]) < 0x1_0000_0000)
    ensures s == "+" ==> r == Err(InvalidDigit)
  {
    if s == [] then Err(Empty)
    else if s[0] == '+' then (if |s| == 1 then Err(InvalidDigit) else Digits(s[1..]))
    else Digits(s)
  }

  /** The decimal text of a number, as `to_string` writes it. */
  function Decimal(n: nat): (s: string)
    ensures s != [] && AllDigits(s)
  {
    var d := ['0' + (n % 10) as char];
    if n < 10 then d else Decimal(n / 10) + d
  }

  /** Every u32 written in decimal parses back to itself. */
  lemma {:induction false} ParseDecimal(n: u32)
    ensures ParseU32(Decimal(n)) == Ok(n)
  {
    DecimalValueOfDecimal(n);
  }

  lemma {:induction false} DecimalValueOfDecimal(n: nat)
    ensures DecimalValue(Decimal(n)) == n
  {
    var s := Decimal(n);
    if n >= 10 {
      DecimalValueOfDecimal(n / 10);
      assert s[..|s| - 1] == Decimal(n / 10);
    }
  }

  // ---------------------------------------------------------------------
  // Config::new

  /** Lines 52-56: the file config when a path is given, else the defaults. */
  function Base(m: Matches, fromFile: FromFile): Result<Config, ConfigError> {
    if m.config.Some? then
      match fromFile(m.config.value)
      case Ok(c) => Ok(c)
      case Err(reason) => Err(File(reason))
    else Ok(FromDefaults())
  }

  predicate TimeoutInvalid(m: Matches) {
    m.timeout.Some? && ParseU32(m.timeout.value).Err?
  }

  /** Emails given on the command line: no message of their own. */
  function CliEmails(addresses: seq<string>): (es: seq<Email>)
    ensures |es| == |addresses|
    ensures forall i | 0 <= i < |es| :: es[i] == Email(addresses[i], None)
  {
    seq(|addresses|, i requires 0 <= i < |addresses| => Email(addresses[i], None))
  }

  /** Webhooks given on the command line: no message of their own. */
  function CliPings(urls: seq<string>): (ps: seq<Ping>)
    ensures |ps| == |urls|
    ensures forall i | 0 <= i < |ps| :: ps[i] == Ping(urls[i], None)
  {
    seq(|urls|, i requires 0 <= i < |urls| => Ping(urls[i], None))
  }

  /**
   * What lines 58-108 make of `base`: verbose forced on by the flag, the
   * timeout replaced, and URLs, emails and webhooks appended after the
   * existing ones (an absent email or webhook list starting out empty).
   */
  ghost predicate MergedOver(base: Config, m: Matches, c: Config)
    requires !TimeoutInvalid(m)
  {
    && c.verbose == (if m.verbose then Some(true) else base.verbose)
    && c.timeout == (if m.timeout.Some? then ParseU32(m.timeout.value).value else base.timeout)
    && c.urls == base.urls + m.urls
    && c.emails == (if m.emails == [] then base.emails else Some(base.emails.GetOr([]) + CliEmails(m.emails)))
    && c.pings == (if m.pings == [] then base.pings else Some(base.pings.GetOr([]) + CliPings(m.pings)))
  }

  /** Lines 70-73: each command-line URL pushed in turn. */
  method PushUrls(urls: seq<string>, given: seq<string>) returns (r: seq<string>)
    ensures r == urls + given
  {
    r := urls;
    for i := 0 to |given|
      invariant r == urls + given[..i]
    {
      r := r + [given[i]];
    }
    assert given[..|given|] == given;
  }

  /** Lines 83-89: each command-line address pushed in turn, without a message. */
  method PushEmails(emails: seq<Email>, addresses: seq<string>) returns (r: seq<Email>)
    ensures r == emails + CliEmails(addresses)
  {
    r := emails;
    for i := 0 to |addresses|
      invariant r == emails + CliEmails(addresses[..i])
    {
      r := r + [Email(addresses[i], None)];
    }
    assert addresses[..|addresses|] == addresses;
  }

  /** Lines 100-106: each command-line webhook pushed in turn, without a message. */
  method PushPings(pings: seq<Ping>, urls: seq<string>) returns (r: seq<Ping>)
    ensures r == pings + CliPings(urls)
  {
    r := pings;
    for i := 0 to |urls|
      invariant r == pings + CliPings(urls[..i])
    {
      r := r + [Ping(urls[i], None)];
    }
    assert urls[..|urls|] == urls;
  }

  /** Lines 58-108: the overrides and appends, in the source's order. */
  method Merge(base: Config, m: Matches) returns (r: Result<Config, ConfigError>)
    ensures r.Err? <==> TimeoutInvalid(m)
    ensures r.Err? ==> r.error == Timeout(ParseU32(m.timeout.value).error)
    ensures r.Ok? ==> MergedOver(base, m, r.value) && r.value.sender == base.sender
  {
    var config := base;

    if m.verbose {
      config := config.(verbose := Some(true));
    }

    if m.timeout.Some? {
      var parsed := ParseU32(m.timeout.value);
      if parsed.Err? {
        return Err(Timeout(parsed.error));
      }
      config := config.(timeout := parsed.value);
    }

    if m.urls != [] {
      var urls := PushUrls(config.urls, m.urls);
      config := config.(urls := urls);
    }

    if m.emails != [] {
      if config.emails.None? {
        config := config.(emails := Some([]));
      }
      var emails := PushEmails(config.emails.value, m.emails);
      config := config.(emails := Some(emails));
    }

    if m.pings != [] {
      if config.pings.None? {
        config := config.(pings := Some([]));
      }
      var pings := PushPings(config.pings.value, m.pings);
      config := config.(pings := Some(pings));
    }

    r := Ok(config);
  }

  /**
   * Lines 111-113 as written: the sender flag stores the value of the
   * TIMEOUT argument, and the `unwrap` panics when no timeout was given.
   */
  function OverrideSender(c: Config, m: Matches): (r: Result<Config, ConfigError>)
    ensures m.sender.None? ==> r == Ok(c)
    ensures m.sender.Some? && m.timeout.Some? ==> r.Ok? && r.value.sender == Some(m.timeout.value)
    ensures m.sender.Some? && m.timeout.None? ==> r.Err? && r.error.Panic?
    ensures r.Ok? ==> r.value.(sender := c.sender) == c
  {
    if m.sender.Some? then
      match m.timeout
      case Some(t) => Ok(c.(sender := Some(t)))
      case None => Err(Panic("called `Option::unwrap()` on a `None` value"))
    else Ok(c)
  }

  /** Lines 111-113 as evidently intended: the sender flag stores its own value. */
  function OverrideSenderIntended(c: Config, m: Matches): (r: Config)
    ensures r.sender == (if m.sender.Some? then m.sender else c.sender)
    ensures r.(sender := c.sender) == c
  {
    if m.sender.Some? then c.(sender := m.sender) else c
  }

  /** With a timeout and a sender on the command line, the code as written stores the timeout as the sender. */
  lemma SenderTakenFromTimeout()
    ensures var m := Matches(None, false, Some("5"), ["https://example.test/a"], [], [], Some("me@example.test"));
      && OverrideSender(FromDefaults(), m) == Ok(FromDefaults().(sender := Some("5")))
      && OverrideSenderIntended(FromDefaults(), m).sender == Some("me@example.test")
  {
  }

  /** With a config file, a sender and no timeout, the code as written panics. */
  lemma SenderWithoutTimeoutPanics(c: Config, sender: string)
    ensures OverrideSender(c, Matches(Some("config.toml"), false, None, [], [], [], Some(sender))).Err?
    ensures OverrideSenderIntended(c, Matches(Some("config.toml"), false, None, [], [], [], Some(sender))).sender == Some(sender)
  {
  }

  /** `Config::new`, as written. */
  method New(m: Matches, fromFile: FromFile) returns (r: Result<Config, ConfigError>)
    ensures Base(m, fromFile).Err? ==> r == Base(m, fromFile)
    ensures Base(m, fromFile).Ok? && TimeoutInvalid(m) ==> r == Err(Timeout(ParseU32(m.timeout.value).error))
    ensures r.Ok? <==> Base(m, fromFile).Ok? && !TimeoutInvalid(m) && !(m.sender.Some? && m.timeout.None?)
    ensures r.Ok? ==> MergedOver(Base(m, fromFile).value, m, r.value)
    ensures r.Ok? ==> r.value.sender == (if m.sender.Some? then m.timeout else Base(m, fromFile).value.sender)
  {
    var base: Config;
    if m.config.Some? {
      var file := fromFile(m.config.value);
      if file.Err? {
        return Err(File(file.error));
      }
      base := file.value;
    } else {
      base := FromDefaults();
    }
    var merged := Merge(base, m);
    if merged.Err? {
      return merged;
    }
    r := OverrideSender(merged.value, m);
  }

  /** `Config::new` with the sender taken from its own option. */
  method NewIntended(m: Matches, fromFile: FromFile) returns (r: Result<Config, ConfigError>)
    ensures Base(m, fromFile).Err? ==> r == Base(m, fromFile)
    ensures Base(m, fromFile).Ok? && TimeoutInvalid(m) ==> r == Err(Timeout(ParseU32(m.timeout.value).error))
    ensures r.Ok? <==> Base(m, fromFile).Ok? && !TimeoutInvalid(m)
    ensures r.Ok? ==> MergedOver(Base(m, fromFile).value, m, r.value)
    ensures r.Ok? ==> r.value.sender == (if m.sender.Some? then m.sender else Base(m, fromFile).value.sender)
  {
    var base: Config;
    if m.config.Some? {
      var file := fromFile(m.config.value);
      if file.Err? {
        return Err(File(file.error));
      }
      base := file.value;
    } else {
      base := FromDefaults();
    }
    var merged := Merge(base, m);
    if merged.Err? {
      return merged;
    }
    r := Ok(OverrideSenderIntended(merged.value, m));
  }
}
