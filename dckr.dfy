/**
 * The Docker client helpers of backend-docker/dckr/dckr.go. Every call into
 * the Docker engine is replaced by the engine's reply, passed in as a
 * parameter; the containers that exist in the engine are an explicit set.
 */
module Dckr {
  import opened Wrappers
  import opened GoStrings
  import opened GoStrconv

  /** major * 1000 + minor of the oldest engine accepted (1.6). */
  const MinimalDockerVersion: int := 1006

  datatype Config = Config(useBoot2Docker: bool, endpoint: string, description: string)

  /**
   * Config.String: the endpoint when there is one, else the Boot2Docker
   * marker when that is set, else "unknown"; always followed by the
   * description.
   */
  function ConfigString(c: Config): (r: string)
    ensures HasPrefix(r, "Endpoint: ") <==> c.endpoint != ""
    ensures HasPrefix(r, "Boot2Docker[env] -- ") <==> c.endpoint == "" && c.useBoot2Docker
    ensures HasPrefix(r, "unknown -- ") <==> c.endpoint == "" && !c.useBoot2Docker
    ensures HasSuffix(r, " -- " + c.description)
  {
    if c.endpoint != "" then
      var r := "Endpoint: " + c.endpoint + " -- " + c.description;
      assert r[0] == 'E';
      r
    else if c.useBoot2Docker then
      var r := "Boot2Docker[env] -- " + c.description;
      assert r[0] == 'B';
      r
    else
      var r := "unknown -- " + c.description;
      assert r[0] == 'u';
      r
  }

  // The engine version gate

  /**
   * The string part of checkForMinimalDockerVersion: at least two
   * dot-separated parts, an integer major and minor, and
   * major * 1000 + minor (computed in 64-bit ints) at least 1006.
   */
  function VersionGate(version: string): (r: Result<string, string>)
    ensures r.Success? ==> r.value == version
    ensures '.' !in version ==> r == Failure("unparsable version string: " + version)
  {
    var arr := Split(version, '.');
    if '.' !in version then SplitNoSeparator(version, '.'); Failure("unparsable version string: " + version)
    else if |arr| < 2 then Failure("unparsable version string: " + version)
    else GateParts(version, Atoi(arr[0]), Atoi(arr[1]))
  }

  /** The gate once the version string has at least two parts, from what Atoi made of them. */
  function GateParts(version: string, major: Option<int>, minor: Option<int>): (r: Result<string, string>)
    ensures r.Success? ==> r.value == version
  {
    match major
    case None => Failure("unparsable major version: " + version)
    case Some(major) =>
      match minor
      case None => Failure("unparsable minor version: " + version)
      case Some(minor) =>
        if Wrap64(major * 1000 + minor) < MinimalDockerVersion then
          Failure("unusably old Docker version: " + version)
        else Success(version)
  }

  /** checkForMinimalDockerVersion: the Version() reply, then the gate. */
  function CheckVersion(reply: Result<string, string>): (r: Result<string, string>)
    ensures reply.Failure? ==> r == Failure(reply.error)
    ensures reply.Success? ==> r == VersionGate(reply.value)
  {
    match reply
    case Failure(e) => Failure(e)
    case Success(v) => VersionGate(v)
  }

  lemma SplitVersion(majorText: string, minorText: string, tail: string)
    requires '.' !in majorText && '.' !in minorText
    requires tail == "" || tail[0] == '.'
    ensures var arr := Split(majorText + "." + minorText + tail, '.');
            |arr| >= 2 && arr[0] == majorText && arr[1] == minorText
  {
    assert majorText + "." + minorText + tail == majorText + ['.'] + (minorText + tail);
    SplitCons(majorText, '.', minorText + tail);
    if tail == "" {
      assert minorText + tail == minorText;
      SplitNoSeparator(minorText, '.');
    } else {
      assert minorText + tail == minorText + ['.'] + tail[1..];
      SplitCons(minorText, '.', tail[1..]);
    }
  }

  /** A version string with at least two parts is judged by what Atoi makes of the first two. */
  lemma VersionGateSplits(majorText: string, minorText: string, tail: string)
    requires '.' !in majorText && '.' !in minorText
    requires tail == "" || tail[0] == '.'
    ensures var v := majorText + "." + minorText + tail;
            VersionGate(v) == GateParts(v, Atoi(majorText), Atoi(minorText))
  {
    SplitVersion(majorText, minorText, tail);
    var v := majorText + "." + minorText + tail;
    assert '.' in v by { assert v[|majorText|] == '.'; }
  }

  /** Once both parts parse, the gate is the 64-bit comparison alone. */
  lemma VersionGateParsed(majorText: string, minorText: string, tail: string, major: int, minor: int)
    requires '.' !in majorText && '.' !in minorText
    requires tail == "" || tail[0] == '.'
    requires Atoi(majorText) == Some(major) && Atoi(minorText) == Some(minor)
    ensures var v := majorText + "." + minorText + tail;
            VersionGate(v) == if Wrap64(major * 1000 + minor) < MinimalDockerVersion
                              then Failure("unusably old Docker version: " + v) else Success(v)
  {
    VersionGateSplits(majorText, minorText, tail);
    GatePartsParsed(majorText + "." + minorText + tail, major, minor);
  }

  lemma GatePartsParsed(v: string, major: int, minor: int)
    ensures GateParts(v, Some(major), Some(minor)) == if Wrap64(major * 1000 + minor) < MinimalDockerVersion
                                                      then Failure("unusably old Docker version: " + v) else Success(v)
  {
  }

  /**
   * For ordinary version numbers (minor below 1000, no 64-bit overflow) the
   * gate is the comparison of (major, minor) with (1, 6).
   */
  lemma VersionGateComparesPairs(majorText: string, minorText: string, tail: string, major: int, minor: int)
    requires '.' !in majorText && '.' !in minorText
    requires tail == "" || tail[0] == '.'
    requires Atoi(majorText) == Some(major) && Atoi(minorText) == Some(minor)
    requires 0 <= major <= 1_000_000_000_000 && 0 <= minor < 1000
    ensures VersionGate(majorText + "." + minorText + tail).Success? <==> major > 1 || (major == 1 && minor >= 6)
  {
    VersionGateParsed(majorText, minorText, tail, major, minor);
  }

  /** The minor part is not bounded: 0.1006 passes the gate. */
  lemma LargeMinorPasses()
    ensures VersionGate("0.1006").Success?
  {
    Numeral1('0');
    Numeral4('1', '0', '0', '6');
    VersionGateParsed("0", "1006", "", 0, 1006);
    assert "0" + "." + "1006" + "" == "0.1006";
  }

  lemma Numeral1(a: char)
    requires IsDigit(a)
    ensures Atoi([a]) == Some(DigitValue(a)) && '.' !in [a]
  {
    assert [a][..0] == [];
    AtoiDigits([a]);
  }

  lemma Numeral2(a: char, b: char)
    requires IsDigit(a) && IsDigit(b)
    ensures Atoi([a, b]) == Some(DigitValue(a) * 10 + DigitValue(b)) && '.' !in [a, b]
  {
    assert [a, b][..1] == [a] && [a][..0] == [];
    assert DigitsValue([a]) == DigitValue(a);
    assert DigitsValue([a, b]) == DigitValue(a) * 10 + DigitValue(b);
    AtoiDigits([a, b]);
  }

  lemma Numeral4(a: char, b: char, c: char, d: char)
    requires IsDigit(a) && IsDigit(b) && IsDigit(c) && IsDigit(d)
    ensures Atoi([a, b, c, d]) == Some(((DigitValue(a) * 10 + DigitValue(b)) * 10 + DigitValue(c)) * 10 + DigitValue(d))
    ensures '.' !in [a, b, c, d]
  {
    var s := [a, b, c, d];
    assert s[..3] == [a, b, c] && [a, b, c][..2] == [a, b] && [a, b][..1] == [a] && [a][..0] == [];
    assert DigitsValue([a]) == DigitValue(a);
    assert DigitsValue([a, b]) == DigitValue(a) * 10 + DigitValue(b);
    assert DigitsValue([a, b, c]) == DigitsValue([a, b]) * 10 + DigitValue(c);
    assert DigitsValue(s) == DigitsValue([a, b, c]) * 10 + DigitValue(d);
    AtoiDigits(s);
  }

  /** Docker 1.6 is the oldest version accepted. */
  lemma OldestAccepted()
    ensures VersionGate("1.6").Success?
  {
    Numeral1('1');
    Numeral1('6');
    VersionGateComparesPairs("1", "6", "", 1, 6);
    assert "1" + "." + "6" + "" == "1.6";
  }

  /** Newer version strings with more parts pass. */
  lemma CalendarVersionAccepted()
    ensures VersionGate("17.03.0-ce").Success?
  {
    Numeral2('1', '7');
    Numeral2('0', '3');
    assert "17" + "." + "03" + ".0-ce" == "17.03.0-ce";
    VersionGateComparesPairs("17", "03", ".0-ce", 17, 3);
  }

  lemma TooOldRejected()
    ensures VersionGate("1.5") == Failure("unusably old Docker version: 1.5")
  {
    Numeral1('1');
    Numeral1('5');
    VersionGateParsed("1", "5", "", 1, 5);
    assert "1" + "." + "5" + "" == "1.5";
    assert "unusably old Docker version: " + "1.5" == "unusably old Docker version: 1.5";
  }

  lemma SinglePartRejected()
    ensures VersionGate("1") == Failure("unparsable version string: 1")
  {
    assert '.' !in "1" by { assert "1" == ['1']; }
    assert "unparsable version string: " + "1" == "unparsable version string: 1";
  }

  /** A part that is not an integer is reported as such. */
  lemma UnparsableParts(majorText: string, minorText: string, tail: string)
    requires '.' !in majorText && '.' !in minorText
    requires tail == "" || tail[0] == '.'
    ensures var v := majorText + "." + minorText + tail;
            && (Atoi(majorText).None? ==> VersionGate(v) == Failure("unparsable major version: " + v))
            && (Atoi(majorText).Some? && Atoi(minorText).None? ==> VersionGate(v) == Failure("unparsable minor version: " + v))
  {
    SplitVersion(majorText, minorText, tail);
    var v := majorText + "." + minorText + tail;
    assert '.' in v by { assert v[|majorText|] == '.'; }
  }

  /**
   * The formula is computed in 64-bit ints: a major version whose product
   * with 1000 passes 2^63 - 1 wraps to a negative number and is rejected.
   */
  lemma OverflowingMajorRejected(majorText: string, major: int)
    requires '.' !in majorText && Atoi(majorText) == Some(major)
    requires major == 9223372036854776
    ensures VersionGate(majorText + ".0").Failure?
  {
    Numeral1('0');
    VersionGateParsed(majorText, "0", "", major, 0);
    assert majorText + "." + "0" + "" == majorText + ".0";
    OverflowingProduct();
  }

  lemma OverflowingProduct()
    ensures Wrap64(9223372036854776 * 1000 + 0) < MinimalDockerVersion
  {
    var x := 9223372036854776 * 1000 + 0;
    assert x - MinInt64 == 0x1_0000_0000_0000_0000 + 192;
    assert (x - MinInt64) % 0x1_0000_0000_0000_0000 == 192;
  }

  /** That major version is printable, so the overflow case is reachable. */
  lemma OverflowingMajorExists()
    ensures VersionGate(IntToString(9223372036854776) + ".0").Failure?
  {
    var m := IntToString(9223372036854776);
    assert '.' !in m by {
      forall i | 0 <= i < |m| ensures m[i] != '.' { assert IsDigit(m[i]); }
    }
    AtoiIntToString(9223372036854776);
    OverflowingMajorRejected(m, 9223372036854776);
  }

  // Choosing the first usable configuration

  /** What the engine and the environment answered while a client was made from one configuration. */
  datatype Probe = Probe(
    dockerHost: string,              // the DOCKER_HOST environment variable
    dial: Result<nat, string>,       // docker.NewClient / NewTLSClient: a connection handle, or the error
    ping: Option<string>,            // the error of client.Ping(), if any
    version: Result<string, string>) // the "Version" entry of client.Version(), or its error

  /** The (client, error) pair of NewClient; a connection handle or nil. */
  datatype Made = Made(conn: Option<nat>, err: Option<string>)

  predicate Dials(cfg: Config, probe: Probe)
  {
    cfg.endpoint != "" || (cfg.useBoot2Docker && probe.dockerHost != "")
  }

  /**
   * NewClient: an endpoint or Boot2Docker with DOCKER_HOST set is dialled and
   * pinged; Boot2Docker without DOCKER_HOST gives neither client nor error;
   * a configuration with neither gives "empty docker configuration".
   */
  function NewClient(cfg: Config, probe: Probe): (r: Made)
    ensures cfg.endpoint == "" && !cfg.useBoot2Docker ==> r == Made(None, Some("empty docker configuration"))
    ensures cfg.endpoint == "" && cfg.useBoot2Docker && probe.dockerHost == "" ==> r == Made(None, None)
    ensures r.conn.Some? && r.err.None? <==> Dials(cfg, probe) && probe.dial.Success? && probe.ping.None?
  {
    if Dials(cfg, probe) then
      match probe.dial
      case Failure(e) => Made(None, Some(e))
      case Success(h) => Made(Some(h), probe.ping)
    else if cfg.useBoot2Docker then Made(None, None)
    else Made(None, Some("empty docker configuration"))
  }

  /** How `%s` prints an error value: its text, or "%!s(<nil>)" for nil. */
  function ErrText(err: Option<string>): string
  {
    match err
    case None => "%!s(<nil>)"
    case Some(e) => e
  }

  /** One entry of the aggregated diagnostic. */
  function Diagnostic(what: string, cfg: Config, err: Option<string>): string
  {
    what + ":\n\t" + ConfigString(cfg) + "\nReason:" + ErrText(err) + "\n"
  }

  /** The connection chosen, with the configuration it was made from. */
  datatype Picked = Picked(cfg: Config, conn: nat)

  /** One iteration of NewClientFirstOf: the connection, or the diagnostic entry for this configuration. */
  function Attempt(cfg: Config, probe: Probe): (r: Result<nat, string>)
    ensures r.Success? <==> Dials(cfg, probe) && probe.dial.Success? && probe.ping.None? && CheckVersion(probe.version).Success?
  {
    var made := NewClient(cfg, probe);
    if made.err.Some? || made.conn.None? then
      Failure(Diagnostic("Failed to make new docker client using configuration", cfg, made.err))
    else
      match CheckVersion(probe.version)
      case Failure(e) => Failure(Diagnostic("Docker server version check has failed", cfg, Some(e)))
      case Success(_) => Success(made.conn.value)
  }

  /** The outcome of trying the configurations in order. */
  function FirstOf(cfgs: seq<Config>, probes: seq<Probe>): Result<Picked, string>
    requires |cfgs| == |probes|
  {
    if cfgs == [] then Failure("")
    else
      match Attempt(cfgs[0], probes[0])
      case Success(conn) => Success(Picked(cfgs[0], conn))
      case Failure(d) => AfterFailures(d, FirstOf(cfgs[1..], probes[1..]))
  }

  /** A later outcome, with the diagnostics written so far in front of its error. */
  function AfterFailures(written: string, later: Result<Picked, string>): Result<Picked, string>
  {
    match later
    case Success(p) => Success(p)
    case Failure(ds) => Failure(written + ds)
  }

  lemma FirstOfFrom(cfgs: seq<Config>, probes: seq<Probe>, i: nat, written: string)
    requires |cfgs| == |probes| && i < |cfgs|
    ensures AfterFailures(written, FirstOf(cfgs[i..], probes[i..]))
            == match Attempt(cfgs[i], probes[i])
               case Success(conn) => Success(Picked(cfgs[i], conn))
               case Failure(d) => AfterFailures(written + d, FirstOf(cfgs[i + 1..], probes[i + 1..]))
  {
    assert cfgs[i..][1..] == cfgs[i + 1..] && probes[i..][1..] == probes[i + 1..];
    var later := FirstOf(cfgs[i + 1..], probes[i + 1..]);
    if later.Failure? {
      match Attempt(cfgs[i], probes[i])
      case Success(_) =>
      case Failure(d) => assert written + (d + later.error) == (written + d) + later.error;
    }
  }

  /** NewClientFirstOf: the loop that appends diagnostics to a buffer and returns early. */
  method NewClientFirstOf(cfgs: seq<Config>, probes: seq<Probe>) returns (r: Result<Picked, string>)
    requires |cfgs| == |probes|
    ensures r == FirstOf(cfgs, probes)
  {
    var buf := "";
    assert cfgs[0..] == cfgs && probes[0..] == probes;
    assert AfterFailures(buf, FirstOf(cfgs, probes)) == FirstOf(cfgs, probes) by {
      if FirstOf(cfgs, probes).Failure? {
        assert buf + FirstOf(cfgs, probes).error == FirstOf(cfgs, probes).error;
      }
    }
    for i := 0 to |cfgs|
      invariant FirstOf(cfgs, probes) == AfterFailures(buf, FirstOf(cfgs[i..], probes[i..]))
    {
      FirstOfFrom(cfgs, probes, i, buf);
      var made := NewClient(cfgs[i], probes[i]);
      if made.err.Some? || made.conn.None? {
        buf := buf + Diagnostic("Failed to make new docker client using configuration", cfgs[i], made.err);
      } else {
        var checked := CheckVersion(probes[i].version);
        if checked.Failure? {
          buf := buf + Diagnostic("Docker server version check has failed", cfgs[i], Some(checked.error));
        } else {
          return Success(Picked(cfgs[i], made.conn.value));
        }
      }
    }
    assert cfgs[|cfgs|..] == [] && probes[|probes|..] == [];
    assert buf + "" == buf;
    return Failure(buf);
  }

  /**
   * The client returned is made from the first configuration that dials,
   * pings and passes the version gate; there is one exactly when some
   * configuration does.
   */
  lemma {:induction false} FirstOfPicksFirst(cfgs: seq<Config>, probes: seq<Probe>, k: nat)
    requires |cfgs| == |probes| && k < |cfgs|
    requires Attempt(cfgs[k], probes[k]).Success?
    requires forall j :: 0 <= j < k ==> Attempt(cfgs[j], probes[j]).Failure?
    ensures FirstOf(cfgs, probes) == Success(Picked(cfgs[k], Attempt(cfgs[k], probes[k]).value))
  {
    FirstOfPicksFrom(cfgs, probes, 0, k);
    assert cfgs[0..] == cfgs && probes[0..] == probes;
  }

  lemma {:induction false} FirstOfPicksFrom(cfgs: seq<Config>, probes: seq<Probe>, i: nat, k: nat)
    requires |cfgs| == |probes| && i <= k < |cfgs|
    requires Attempt(cfgs[k], probes[k]).Success?
    requires forall j :: i <= j < k ==> Attempt(cfgs[j], probes[j]).Failure?
    ensures FirstOf(cfgs[i..], probes[i..]) == Success(Picked(cfgs[k], Attempt(cfgs[k], probes[k]).value))
    decreases k - i
  {
    assert cfgs[i..][0] == cfgs[i] && probes[i..][0] == probes[i];
    assert cfgs[i..][1..] == cfgs[i + 1..] && probes[i..][1..] == probes[i + 1..];
    if i < k {
      FirstOfPicksFrom(cfgs, probes, i + 1, k);
    }
  }

  /** Configurations after the accepted one are never consulted. */
  lemma {:induction false} FirstOfShortCircuits(
    cfgs: seq<Config>, probes: seq<Probe>, k: nat, moreCfgs: seq<Config>, moreProbes: seq<Probe>)
    requires |cfgs| == |probes| && k < |cfgs| && |moreCfgs| == |moreProbes|
    requires Attempt(cfgs[k], probes[k]).Success?
    requires forall j :: 0 <= j < k ==> Attempt(cfgs[j], probes[j]).Failure?
    ensures FirstOf(cfgs[..k + 1] + moreCfgs, probes[..k + 1] + moreProbes) == FirstOf(cfgs, probes)
  {
    var c2 := cfgs[..k + 1] + moreCfgs;
    var p2 := probes[..k + 1] + moreProbes;
    FirstOfPicksFirst(cfgs, probes, k);
    FirstOfPicksFirst(c2, p2, k);
  }

  function Concat(parts: seq<string>): string
  {
    if parts == [] then "" else parts[0] + Concat(parts[1..])
  }

  /**
   * When no configuration is usable the error text is the diagnostic
   * entries of all configurations, in order.
   */
  lemma {:induction false} FirstOfReportsEveryConfig(cfgs: seq<Config>, probes: seq<Probe>)
    requires |cfgs| == |probes|
    requires forall k :: 0 <= k < |cfgs| ==> Attempt(cfgs[k], probes[k]).Failure?
    ensures FirstOf(cfgs, probes)
            == Failure(Concat(seq(|cfgs|, k requires 0 <= k < |cfgs| => Attempt(cfgs[k], probes[k]).error)))
  {
    var entries := seq(|cfgs|, k requires 0 <= k < |cfgs| => Attempt(cfgs[k], probes[k]).error);
    if cfgs != [] {
      FirstOfReportsEveryConfig(cfgs[1..], probes[1..]);
      var rest := seq(|cfgs| - 1, k requires 0 <= k < |cfgs| - 1 => Attempt(cfgs[1..][k], probes[1..][k]).error);
      assert entries[1..] == rest;
    }
  }
}

module DckrImages {
  import opened Wrappers
  import opened GoStrings
  import opened Dckr

  // Images

  /** An image as the engine's inspect call describes it; config is None for a nil Config. */
  datatype EngineImage = EngineImage(id: string, repoTags: seq<string>, config: Option<map<string, string>>)

  /** An image as the engine's list call describes it. */
  datatype ListedImage = ListedImage(id: string, repoTags: seq<string>, labels: map<string, string>)

  /** dckr.Image; a nil label map is the empty map. */
  datatype Image = Image(id: string, repoTag: string, labels: map<string, string>)

  const NoImage := Image("", "", map[])

  /** The repository tag an image is known by: its first tag, or "" when it has none. */
  function FirstTag(tags: seq<string>): (t: string)
    ensures tags == [] ==> t == ""
    ensures tags != [] ==> t == tags[0]
  {
    if |tags| > 0 then tags[0] else ""
  }

  /** makeImage: identity, first tag, and the labels of the image config when there is one. */
  function MakeImage(img: EngineImage): (r: Image)
    ensures r.id == img.id
    ensures r.repoTag == "" || r.repoTag in img.repoTags
    ensures img.repoTags != [] ==> r.repoTag == img.repoTags[0]
    ensures img.config.Some? ==> r.labels == img.config.value
    ensures img.config.None? ==> r.labels == map[]
  {
    Image(img.id, FirstTag(img.repoTags), if img.config.Some? then img.config.value else map[])
  }

  /** makeImage2: identity, first tag and the listed labels. */
  function MakeListedImage(img: ListedImage): (r: Image)
    ensures r.id == img.id && r.labels == img.labels
    ensures r.repoTag == "" || r.repoTag in img.repoTags
    ensures img.repoTags != [] ==> r.repoTag == img.repoTags[0]
  {
    Image(img.id, FirstTag(img.repoTags), img.labels)
  }

  /** Client.InspectImage: the zero Image and the error, or the converted image. */
  function InspectImage(reply: Result<EngineImage, string>): (r: (Image, Option<string>))
    ensures reply.Failure? ==> r == (NoImage, Some(reply.error))
    ensures reply.Success? ==> r == (MakeImage(reply.value), None)
  {
    match reply
    case Failure(e) => (NoImage, Some(e))
    case Success(img) => (MakeImage(img), None)
  }

  /** Client.ListImages: one converted image per listed image, in the engine's order. */
  method ListImages(reply: Result<seq<ListedImage>, string>) returns (r: Result<seq<Image>, string>)
    ensures reply.Failure? ==> r == Failure(reply.error)
    ensures reply.Success? ==> r.Success? && |r.value| == |reply.value|
    ensures reply.Success? ==> forall i :: 0 <= i < |reply.value| ==> r.value[i] == MakeListedImage(reply.value[i])
  {
    if reply.Failure? {
      return Failure(reply.error);
    }
    var imgs := reply.value;
    var ret: seq<Image> := [];
    for i := 0 to |imgs|
      invariant |ret| == i
      invariant forall j :: 0 <= j < i ==> ret[j] == MakeListedImage(imgs[j])
    {
      ret := ret + [MakeListedImage(imgs[i])];
    }
    return Success(ret);
  }

  // The build log

  const StepPrefix := "Step "
  const SuccessPrefix := "Successfully built "

  /**
   * The strings bytes.Buffer.ReadString('\n') hands out until the end of
   * the buffer: every line with its newline, then the rest without one
   * (possibly empty).
   */
  function ReadLines(s: string): (lines: seq<string>)
    ensures |lines| >= 1
    decreases |s|
  {
    var i := IndexOf(s, '\n');
    if i == |s| then [s] else [s[..i + 1]] + ReadLines(s[i + 1..])
  }

  /** Reading the lines loses nothing: they concatenate back to the output. */
  lemma {:induction false} ReadLinesConcat(s: string)
    ensures Concat(ReadLines(s)) == s
    decreases |s|
  {
    var i := IndexOf(s, '\n');
    if i < |s| {
      var line, rest := s[..i + 1], s[i + 1..];
      ReadLinesConcat(rest);
      calc {
        Concat(ReadLines(s));
        Concat([line] + ReadLines(rest));
        { ConcatCons(line, ReadLines(rest)); }
        line + Concat(ReadLines(rest));
        line + rest;
        { assert s == s[..i + 1] + s[i + 1..]; }
        s;
      }
    } else {
      ConcatCons(s, []);
      assert [s] + [] == [s] && s + "" == s;
    }
  }

  lemma ConcatCons(first: string, rest: seq<string>)
    ensures Concat([first] + rest) == first + Concat(rest)
  {
    assert ([first] + rest)[1..] == rest;
  }

  /** Every line but the last ends at its only newline; the last has none. */
  /** A line as ReadString returns it before the end: its only newline is its last character. */
  predicate EndsAtNewline(line: string)
  {
    |line| > 0 && line[|line| - 1] == '\n' && '\n' !in line[..|line| - 1]
  }

  lemma {:induction false} ReadLinesShape(s: string)
    ensures var lines := ReadLines(s);
            && '\n' !in lines[|lines| - 1]
            && forall k :: 0 <= k < |lines| - 1 ==> EndsAtNewline(lines[k])
    decreases |s|
  {
    var i := IndexOf(s, '\n');
    if i < |s| {
      var line, rest := s[..i + 1], s[i + 1..];
      ReadLinesShape(rest);
      var tail := ReadLines(rest);
      var lines := ReadLines(s);
      assert lines == [line] + tail;
      assert line[..|line| - 1] == s[..i];
      assert EndsAtNewline(line);
      forall k | 0 <= k < |lines| - 1 ensures EndsAtNewline(lines[k]) {
        if k > 0 {
          assert lines[k] == tail[k - 1];
        }
      }
      assert lines[|lines| - 1] == tail[|tail| - 1];
    } else {
      assert ReadLines(s) == [s];
    }
  }


  /**
   * The image ID a build log announces: the trimmed text after the prefix
   * on the last line that starts with "Successfully built ", or "" when no
   * line does.
   */
  function BuiltImageID(lines: seq<string>): string
  {
    if lines == [] then "" else ScanLine(BuiltImageID(lines[..|lines| - 1]), lines[|lines| - 1])
  }

  /** The image ID after one more line of the log. */
  function ScanLine(id: string, line: string): string
  {
    if HasPrefix(line, StepPrefix) then id
    else if HasPrefix(line, SuccessPrefix) then TrimSpace(line[|SuccessPrefix|..])
    else id
  }

  predicate Announces(line: string)
  {
    HasPrefix(line, SuccessPrefix)
  }

  /** With no announcement the ID stays "". */
  lemma {:induction false} NoAnnouncementNoID(lines: seq<string>)
    requires forall k :: 0 <= k < |lines| ==> !Announces(lines[k])
    ensures BuiltImageID(lines) == ""
  {
    if lines != [] {
      NoAnnouncementNoID(lines[..|lines| - 1]);
    }
  }

  /** Otherwise it is the trimmed rest of the last announcing line. */
  lemma {:induction false} LastAnnouncementWins(lines: seq<string>, k: nat)
    requires k < |lines| && Announces(lines[k])
    requires forall j :: k < j < |lines| ==> !Announces(lines[j])
    ensures BuiltImageID(lines) == TrimSpace(lines[k][|SuccessPrefix|..])
  {
    var line := lines[|lines| - 1];
    StepIsNoAnnouncement(line);
    if k < |lines| - 1 {
      LastAnnouncementWins(lines[..|lines| - 1], k);
    }
  }

  lemma {:induction false} StepIsNoAnnouncement(line: string)
    ensures HasPrefix(line, StepPrefix) ==> !HasPrefix(line, SuccessPrefix)
  {
    if HasPrefix(line, StepPrefix) {
      assert line[1] == StepPrefix[1];
    }
  }

  /** A line that does not announce an image ("Step " lines included) leaves the ID alone. */
  lemma {:induction false} OtherLinesIgnored(lines: seq<string>, line: string)
    requires !HasPrefix(line, SuccessPrefix)
    ensures BuiltImageID(lines + [line]) == BuiltImageID(lines)
  {
    assert (lines + [line])[..|lines|] == lines;
  }

  /** The last line of the output is the text after its last newline. */
  lemma {:induction false} ReadLinesLast(done: string, last: string)
    requires done == [] || done[|done| - 1] == '\n'
    requires '\n' !in last
    ensures var lines := ReadLines(done + last); lines[|lines| - 1] == last
    decreases |done|
  {
    var s := done + last;
    if done == [] {
      assert s == last;
      assert IndexOf(s, '\n') == |s|;
    } else {
      var i := IndexOf(s, '\n');
      assert s[|done| - 1] == '\n';
      assert i < |done|;
      var rest := done[i + 1..];
      assert s[i + 1..] == rest + last;
      assert ReadLines(s) == [s[..i + 1]] + ReadLines(rest + last);
      ReadLinesLast(rest, last);
    }
  }

  /** An announcement on a final line with no newline still counts. */
  lemma {:induction false} UnterminatedAnnouncementCounts(done: string, last: string)
    requires done == [] || done[|done| - 1] == '\n'
    requires '\n' !in last && Announces(last)
    ensures BuiltImageID(ReadLines(done + last)) == TrimSpace(last[|SuccessPrefix|..])
  {
    ReadLinesLast(done, last);
    var lines := ReadLines(done + last);
    LastAnnouncementWins(lines, |lines| - 1);
  }

  lemma {:induction false} ReadLinesStep(s: string, i: nat)
    requires i == IndexOf(s, '\n')
    ensures i < |s| ==> ReadLines(s) == [s[..i + 1]] + ReadLines(s[i + 1..])
    ensures i == |s| ==> ReadLines(s) == [s]
  {
  }

  lemma {:induction false} BuiltImageIDSnoc(lines: seq<string>, line: string)
    ensures BuiltImageID(lines + [line]) == ScanLine(BuiltImageID(lines), line)
  {
    assert (lines + [line])[..|lines|] == lines;
  }

  /**
   * One call of buf.ReadString('\n'): the text up to and including the
   * next newline, or the rest of the buffer and the end-of-file error when
   * there is no newline left.
   */
  method ReadString(buf: string) returns (line: string, rest: string, eof: bool)
    ensures |rest| <= |buf| && (|rest| < |buf| || eof)
    ensures !eof ==> ReadLines(buf) == [line] + ReadLines(rest)
    ensures eof ==> ReadLines(buf) == [line]
  {
    var i := IndexOf(buf, '\n');
    ReadLinesStep(buf, i);
    if i < |buf| {
      line, rest, eof := buf[..i + 1], buf[i + 1..], false;
    } else {
      line, rest, eof := buf, [], true;
    }
  }

  /** Moving one line from the unread lines to the lines read. */
  lemma ReadOneMore(all: seq<string>, read: seq<string>, unread: seq<string>, line: string, after: seq<string>, atEnd: bool)
    requires all == read + unread
    requires !atEnd ==> unread == [line] + after
    requires atEnd ==> unread == [line]
    ensures !atEnd ==> all == (read + [line]) + after
    ensures atEnd ==> all == read + [line]
  {
    if !atEnd {
      assert read + ([line] + after) == (read + [line]) + after;
    }
  }

  /** The body of the scan loop: a "Step " line is skipped, an announcement sets the ID. */
  method ScanStep(id: string, line: string) returns (id': string)
    ensures id' == ScanLine(id, line)
  {
    id' := id;
    if HasPrefix(line, StepPrefix) {
    } else if HasPrefix(line, SuccessPrefix) {
      id' := TrimSpace(line[|SuccessPrefix|..]);
    }
  }

  /**
   * The scan loop of BuildImage: ReadString consumes the buffer a line at a
   * time until it reports the end, and each line is matched against the
   * two prefixes.
   */
  method ScanBuildOutput(output: string) returns (id: string)
    ensures id == BuiltImageID(ReadLines(output))
  {
    id := "";
    var buf := output;
    var eof := false;
    ghost var read: seq<string> := [];
    while !eof
      invariant !eof ==> ReadLines(output) == read + ReadLines(buf)
      invariant eof ==> ReadLines(output) == read
      invariant id == BuiltImageID(read)
      decreases |buf|, if eof then 0 else 1
    {
      var line, rest, atEnd := ReadString(buf);
      BuiltImageIDSnoc(read, line);
      ReadOneMore(ReadLines(output), read, ReadLines(buf), line, ReadLines(rest), atEnd);
      read := read + [line];
      id := ScanStep(id, line);
      buf, eof := rest, atEnd;
    }
  }

  // Building with a client that may have to reconnect

  /** What the engine answered during one BuildImage call. */
  datatype BuildReplies = BuildReplies(
    build: Option<string>,                // the error of the build call, if any
    output: string,                       // the build log written to the buffer
    ping: Option<string>,                 // the error of the ping after the build, if any
    reconnect: Probe,                     // the answers to NewClient(cfg) when reconnecting
    inspect: string -> Result<EngineImage, string>) // the engine's answer to inspecting each image ID

  /** What BuildImage returns; a nil connection makes the call dereference nil instead. */
  datatype BuildOutcome = Built(image: Image, err: Option<string>) | NilClientDereference

  datatype BuildEnd = BuildEnd(outcome: BuildOutcome, conn: Option<nat>)

  function BuiltFromInspect(reply: Result<EngineImage, string>): BuildOutcome
  {
    var (img, err) := InspectImage(reply);
    Built(img, err)
  }

  /**
   * BuildImage: a failed build returns the zero image and its error; else
   * the log is scanned, and when the connection no longer answers a ping a
   * new client is made from the same configuration. If that fails the
   * scanned ID is returned with its error; otherwise the new connection
   * replaces the old one (even when it is nil) and the scanned image ID is
   * inspected.
   */
  function BuildSpec(cfg: Config, conn: Option<nat>, rep: BuildReplies): (e: BuildEnd)
    ensures conn.None? ==> e == BuildEnd(NilClientDereference, None)
    ensures conn.Some? && rep.build.Some? ==> e == BuildEnd(Built(NoImage, rep.build), conn)
    ensures conn.Some? && rep.build.None? && rep.ping.None?
            ==> e == BuildEnd(BuiltFromInspect(rep.inspect(BuiltImageID(ReadLines(rep.output)))), conn)
    ensures conn.Some? && rep.build.None? && rep.ping.Some? && NewClient(cfg, rep.reconnect).err.None?
            && NewClient(cfg, rep.reconnect).conn.Some?
            ==> e == BuildEnd(BuiltFromInspect(rep.inspect(BuiltImageID(ReadLines(rep.output)))), NewClient(cfg, rep.reconnect).conn)
    ensures e.outcome.NilClientDereference? ==> e.conn.None?
    ensures e.conn != conn ==> rep.ping.Some? && NewClient(cfg, rep.reconnect).err.None?
  {
    if conn.None? then BuildEnd(NilClientDereference, None)
    else if rep.build.Some? then BuildEnd(Built(NoImage, rep.build), conn)
    else
      var id := BuiltImageID(ReadLines(rep.output));
      if rep.ping.None? then BuildEnd(BuiltFromInspect(rep.inspect(id)), conn)
      else
        var made := NewClient(cfg, rep.reconnect);
        if made.err.Some? then BuildEnd(Built(Image(id, "", map[]), made.err), conn)
        else if made.conn.None? then BuildEnd(NilClientDereference, None)
        else BuildEnd(BuiltFromInspect(rep.inspect(id)), made.conn)
  }

  /**
   * The image a successful build returns is the one the log announces:
   * when the engine answers an inspection of an ID with the image of that
   * ID, the image returned without error carries the last announced ID,
   * and a log without an announcement inspects the empty ID. A corollary
   * of BuildSpec's clauses that inspect the scanned ID; what that ID is
   * comes from LastAnnouncementWins and NoAnnouncementNoID.
   */
  lemma BuiltImageIsAnnounced(cfg: Config, conn: nat, rep: BuildReplies)
    requires rep.build.None?
    requires forall x :: rep.inspect(x).Success? ==> rep.inspect(x).value.id == x
    ensures var e := BuildSpec(cfg, Some(conn), rep);
            e.outcome.Built? && e.outcome.err.None? ==> e.outcome.image.id == BuiltImageID(ReadLines(rep.output))
  {
  }

  /** A connection lost during the build does not change the result when reconnecting works. */
  lemma ReconnectIsTransparent(cfg: Config, conn: nat, rep: BuildReplies)
    requires rep.build.None? && rep.ping.Some?
    requires NewClient(cfg, rep.reconnect).err.None? && NewClient(cfg, rep.reconnect).conn.Some?
    ensures BuildSpec(cfg, Some(conn), rep).outcome == BuildSpec(cfg, Some(conn), rep.(ping := None)).outcome
    ensures BuildSpec(cfg, Some(conn), rep).conn == NewClient(cfg, rep.reconnect).conn
  {
  }

  /** When reconnecting fails, the image (ID only) is returned with the reconnect error. */
  lemma ReconnectFailureKeepsScannedID(cfg: Config, conn: nat, rep: BuildReplies)
    requires rep.build.None? && rep.ping.Some? && NewClient(cfg, rep.reconnect).err.Some?
    ensures BuildSpec(cfg, Some(conn), rep)
            == BuildEnd(Built(Image(BuiltImageID(ReadLines(rep.output)), "", map[]), NewClient(cfg, rep.reconnect).err), Some(conn))
  {
  }

  /**
   * A Boot2Docker configuration whose DOCKER_HOST has gone empty makes the
   * reconnect install a nil connection, and the inspection after it
   * dereferences nil.
   */
  lemma EmptyBoot2DockerReconnectDereferencesNil(cfg: Config, conn: nat, rep: BuildReplies)
    requires cfg.endpoint == "" && cfg.useBoot2Docker && rep.reconnect.dockerHost == ""
    requires rep.build.None? && rep.ping.Some?
    ensures BuildSpec(cfg, Some(conn), rep) == BuildEnd(NilClientDereference, None)
  {
  }

  /** dckr.Client: the configuration it was made from and its connection (None for nil). */
  class Client {
    var cfg: Config
    var conn: Option<nat>

    /** The client NewClientFirstOf returns. */
    constructor (p: Picked)
      ensures cfg == p.cfg && conn == Some(p.conn)
    {
      cfg := p.cfg;
      conn := Some(p.conn);
    }

    /** Client.BuildImage, reassigning the connection on reconnect. */
    method BuildImage(rep: BuildReplies) returns (r: BuildOutcome)
      modifies this
      ensures cfg == old(cfg)
      ensures BuildEnd(r, conn) == BuildSpec(cfg, old(conn), rep)
    {
      if conn.None? {
        return NilClientDereference;
      }
      if rep.build.Some? {
        return Built(NoImage, rep.build);
      }
      var id := ScanBuildOutput(rep.output);
      if rep.ping.Some? {
        var nc := NewClient(cfg, rep.reconnect);
        if nc.err.Some? {
          return Built(Image(id, "", map[]), nc.err);
        }
        conn := nc.conn;
      }
      if conn.None? {
        return NilClientDereference;
      }
      var (img, err) := InspectImage(rep.inspect(id));
      return Built(img, err);
    }
  }

  // Containers

  /** The containers that exist in the engine. */
  class Engine {
    var live: set<string>

    constructor (live: set<string>)
      ensures this.live == live
    {
      this.live := live;
    }

    /**
     * Client.ExecuteImage: inspect, create, start. A container whose start
     * fails is force-removed, so only a running container is left behind,
     * and its ID is returned exactly when the call succeeds.
     */
    method ExecuteImage(inspect: Result<EngineImage, string>, create: Result<string, string>, start: Option<string>)
      returns (cid: string, err: Option<string>)
      requires create.Success? ==> create.value != "" && create.value !in live
      modifies this
      ensures inspect.Failure? ==> err == Some(inspect.error)
      ensures inspect.Success? && create.Failure? ==> err == Some(create.error)
      ensures inspect.Success? && create.Success? ==> err == start
      ensures err.Some? ==> cid == "" && live == old(live)
      ensures err.None? ==> cid == create.value && cid !in old(live) && live == old(live) + {cid}
    {
      if inspect.Failure? {
        return "", Some(inspect.error);
      }
      if create.Failure? {
        return "", Some(create.error);
      }
      var id := create.value;
      live := live + {id};
      if start.Some? {
        live := live - {id};
        return "", start;
      }
      return id, None;
    }

    /**
     * Client.WaitContainer: the exit code and error of the wait, and the
     * container removed whenever removeOnExit is set, whatever the wait
     * answered.
     */
    method WaitContainer(id: string, removeOnExit: bool, exitCode: int, waitErr: Option<string>)
      returns (code: int, err: Option<string>)
      modifies this
      ensures code == exitCode && err == waitErr
      ensures removeOnExit ==> live == old(live) - {id}
      ensures !removeOnExit ==> live == old(live)
    {
      if removeOnExit {
        live := live - {id};
      }
      return exitCode, waitErr;
    }
  }
}
