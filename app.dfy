/**
  cli/app.py: the parsers behind `monitor`, and `network`'s validation, probe sequence and
  output summaries. The shell is an oracle: `Shell.respond` maps a command line to the text it
  prints, and `run_cmd` returns that text stripped. Metric values stay text; the parsers only
  pick tokens by position.
*/
module App {
  import opened Wrappers
  import opened PyStr

  // ================================================================ metric parsers

  /** The one failure of the positional parsers: a token index that is not there. */
  datatype ParseError = IndexError

  /** Every word with its commas removed. */
  function RemoveCommas(words: seq<string>): (r: seq<string>)
    ensures |r| == |words|
    ensures forall i :: 0 <= i < |words| ==> r[i] == RemoveChar(words[i], ',')
  {
    if words == [] then [] else [RemoveChar(words[0], ',')] + RemoveCommas(words[1..])
  }

  /** get_load: the load averages are the words of the `uptime | awk` output, commas removed. */
  function LoadAverages(uptime: string): seq<string> {
    RemoveCommas(Split(uptime))
  }

  lemma {:induction false} RemoveCharAppend(a: string, b: string, c: char)
    ensures RemoveChar(a + b, c) == RemoveChar(a, c) + RemoveChar(b, c)
  {
    if a == [] {
      assert a + b == b;
    } else {
      assert (a + b)[1..] == a[1..] + b;
      RemoveCharAppend(a[1..], b, c);
    }
  }

  lemma SplitCommaHead(x: string, rest: string)
    requires IsWord(x)
    ensures Split(x + ", " + rest) == [x + ","] + Split(rest)
  {
    var w := x + ",";
    assert IsWord(w) by {
      forall j | 0 <= j < |w| ensures !IsSpace(w[j]) {
        if j < |x| {
          assert w[j] == x[j];
        }
      }
    }
    assert x + ", " + rest == w + (" " + rest);
    SplitWordFirst(w, " " + rest);
    SplitSkipsSpace(" ", rest);
  }

  lemma DropTrailingComma(x: string)
    requires ',' !in x
    ensures RemoveChar(x + ",", ',') == x
  {
    RemoveCharAppend(x, ",", ',');
    assert RemoveChar(",", ',') == "";
  }

  /** The averages of "x1, x2, ..., xn" are exactly x1 ... xn, for comma-free words. */
  lemma {:induction false} LoadOfCommaList(xs: seq<string>)
    requires forall x :: x in xs ==> IsWord(x) && ',' !in x
    ensures LoadAverages(Join(", ", xs)) == xs
  {
    if |xs| == 1 {
      SplitJoinWords(xs);
      assert Join(" ", xs) == Join(", ", xs);
    } else if |xs| > 1 {
      var rest := Join(", ", xs[1..]);
      assert Join(", ", xs) == xs[0] + ", " + rest;
      SplitCommaHead(xs[0], rest);
      DropTrailingComma(xs[0]);
      LoadOfCommaList(xs[1..]);
      var words := [xs[0] + ","] + Split(rest);
      assert RemoveCommas(words) == [RemoveChar(words[0], ',')] + RemoveCommas(words[1..]);
      assert words[1..] == Split(rest);
    }
  }

  /**
    get_cpu: user is the second-to-last word of the first comma-separated segment, system the
    first word of the second segment and idle the first word of the fourth.
  */
  function CpuUsage(top: string): (r: Result<(string, string, string), ParseError>)
    ensures r.Ok? ==> IsWord(r.value.0) && IsWord(r.value.1) && IsWord(r.value.2)
    ensures r.Ok? ==> |SplitOn(top, ',')| >= 4
  {
    var segments := SplitOn(top, ',');
    var first := Split(segments[0]);
    if |first| < 2 || |segments| < 2 then Err(IndexError)
    else
      var second := Split(segments[1]);
      if second == [] || |segments| < 4 then Err(IndexError)
      else
        var fourth := Split(segments[3]);
        if fourth == [] then Err(IndexError)
        else Ok((first[|first| - 2], second[0], fourth[0]))
  }

  /** For a line made of comma-free segments, the fields come from the segments named above. */
  lemma CpuOfSegments(segments: seq<string>)
    requires forall s :: s in segments ==> ',' !in s
    requires |segments| >= 1
    ensures var r := CpuUsage(Join(",", segments));
      && (r.Ok? <==> |segments| >= 4 && |Split(segments[0])| >= 2 && Split(segments[1]) != [] && Split(segments[3]) != [])
      && (r.Ok? ==> r.value == (Split(segments[0])[|Split(segments[0])| - 2], Split(segments[1])[0], Split(segments[3])[0]))
  {
    SplitOnJoin(segments, ',');
    CpuOfSplit(Join(",", segments), segments);
  }

  lemma CpuOfSplit(top: string, segments: seq<string>)
    requires SplitOn(top, ',') == segments
    ensures var r := CpuUsage(top);
      && (r.Ok? <==> |segments| >= 4 && |Split(segments[0])| >= 2 && Split(segments[1]) != [] && Split(segments[3]) != [])
      && (r.Ok? ==> r.value == (Split(segments[0])[|Split(segments[0])| - 2], Split(segments[1])[0], Split(segments[3])[0]))
  {
  }

  /** get_memory: total, used and free are the second, third and fourth words. */
  function Memory(free: string): Result<(string, string, string), ParseError> {
    var words := Split(free);
    if |words| < 4 then Err(IndexError) else Ok((words[1], words[2], words[3]))
  }

  /** get_disk: size, used, available and percent are the second to fifth words, "%" kept. */
  function Disk(df: string): Result<(string, string, string, string), ParseError> {
    var words := Split(df);
    if |words| < 5 then Err(IndexError) else Ok((words[1], words[2], words[3], words[4]))
  }

  /** Both parsers read a whitespace-separated row back token by token, and fail only when it is too short. */
  lemma RowParsers(words: seq<string>)
    requires forall w :: w in words ==> IsWord(w)
    ensures Memory(Join(" ", words)) == if |words| < 4 then Err(IndexError) else Ok((words[1], words[2], words[3]))
    ensures Disk(Join(" ", words)) == if |words| < 5 then Err(IndexError) else Ok((words[1], words[2], words[3], words[4]))
  {
    SplitJoinWords(words);
  }

  // ================================================================ network helpers

  /** normalize_url: a URL without an http:// or https:// scheme gets http://. */
  function NormalizeUrl(u: string): (r: string)
    ensures StartsWith(r, "http://") || StartsWith(r, "https://")
    ensures StartsWith(u, "http://") || StartsWith(u, "https://") ==> r == u
    ensures !(StartsWith(u, "http://") || StartsWith(u, "https://")) ==> r == "http://" + u
  {
    if StartsWith(u, "http://") || StartsWith(u, "https://") then u else "http://" + u
  }

  lemma NormalizeUrlIdempotent(u: string)
    ensures NormalizeUrl(NormalizeUrl(u)) == NormalizeUrl(u)
  {
  }

  /** A ping statistics line: it mentions both "packets transmitted" and "packet loss". */
  predicate IsTransmitLine(ln: string) {
    Contains(ln, "packets transmitted") && Contains(ln, "packet loss")
  }

  /** A ping round-trip line, in Linux or BSD spelling. */
  predicate IsRttLine(ln: string) {
    Contains(ln, "rtt min/avg/max") || Contains(ln, "round-trip min/avg/max")
  }

  /** The words of a statistics line once its commas are gone. */
  function TransmitWords(ln: string): seq<string> {
    Split(RemoveChar(ln, ','))
  }

  /** What a line sets `sent` to: int(parts[0]) of a statistics line, unless that raises. */
  function SentOf(ln: string): Option<int> {
    if !IsTransmitLine(ln) then None
    else
      var parts := TransmitWords(ln);
      if parts == [] then None else ParseInt(parts[0])
  }

  /** What a line sets `loss` to: parts[6] of a statistics line, read once `sent` was set. */
  function LossOf(ln: string): Option<string> {
    if SentOf(ln).None? then None
    else
      var parts := TransmitWords(ln);
      if |parts| > 6 then Some(parts[6]) else None
  }

  /** The evidently intended `loss`: parts[5], the percentage in front of "packet loss". */
  function IntendedLossOf(ln: string): Option<string> {
    if SentOf(ln).None? then None
    else
      var parts := TransmitWords(ln);
      if |parts| > 5 then Some(parts[5]) else None
  }

  /** What a line sets `avg` to: the second "/"-field after the first "=", stripped. */
  function AvgOf(ln: string): Option<string> {
    if !IsRttLine(ln) then None
    else
      var halves := SplitOn(ln, '=');
      if |halves| < 2 then None
      else
        var fields := SplitOn(halves[1], '/');
        if |fields| < 2 then None else Some(Strip(fields[1]))
  }

  /** The value a variable ends with when each line may overwrite it: the last line's that is set. */
  function Latest<T>(lines: seq<string>, f: string -> Option<T>): Option<T> {
    if lines == [] then None
    else if f(lines[|lines| - 1]).Some? then f(lines[|lines| - 1])
    else Latest(lines[..|lines| - 1], f)
  }

  /** Latest is the value of the last line that sets one, or None when no line does. */
  lemma {:induction false} LatestIsLastSet<T>(lines: seq<string>, f: string -> Option<T>)
    ensures Latest(lines, f).None? <==> forall i :: 0 <= i < |lines| ==> f(lines[i]).None?
    ensures Latest(lines, f).Some? ==>
      exists i :: 0 <= i < |lines| && f(lines[i]) == Latest(lines, f)
        && forall j :: i < j < |lines| ==> f(lines[j]).None?
  {
    if lines != [] {
      var n := |lines| - 1;
      var init := lines[..n];
      LatestIsLastSet(init, f);
      assert forall i :: 0 <= i < n ==> init[i] == lines[i];
      if f(lines[n]).None? {
        if Latest(init, f).Some? {
          var i :| 0 <= i < |init| && f(init[i]) == Latest(init, f)
            && forall j :: i < j < |init| ==> f(init[j]).None?;
          assert f(lines[i]) == Latest(lines, f);
        }
      }
    }
  }

  /** A later line overrides an earlier one; earlier lines only count when no later line sets the value. */
  lemma {:induction false} LatestAppend<T>(xs: seq<string>, ys: seq<string>, f: string -> Option<T>)
    ensures Latest(xs + ys, f) == if Latest(ys, f).Some? then Latest(ys, f) else Latest(xs, f)
  {
    if ys == [] {
      assert xs + ys == xs;
    } else {
      var last := ys[|ys| - 1];
      assert (xs + ys)[|xs + ys| - 1] == last;
      assert (xs + ys)[..|xs + ys| - 1] == xs + ys[..|ys| - 1];
      LatestAppend(xs, ys[..|ys| - 1], f);
    }
  }

  /** The " | "-joined fields of the ping summary, in the order sent, loss, average. */
  function PingFields(sent: Option<int>, loss: Option<string>, avg: Option<string>): seq<string> {
    (if sent.Some? then ["sent=" + IntToString(sent.value)] else [])
    + (if loss.Some? then ["loss=" + loss.value] else [])
    + (if avg.Some? then ["avg_rtt_ms=" + avg.value] else [])
  }

  /** summarize_ping with the intended `loss`, read from the percentage word. */
  function IntendedPingSummary(out: string): string {
    var lines := SplitLines(out);
    var fields := PingFields(Latest(lines, SentOf), Latest(lines, IntendedLossOf), Latest(lines, AvgOf));
    if fields != [] then Join(" | ", fields)
    else if out != "" then Truncate(Strip(out), 200)
    else ""
  }

  /** summarize_ping: the fields found, in the order sent, loss, average; otherwise the stripped output cut to 200 characters. */
  function PingSummary(out: string): string {
    var lines := SplitLines(out);
    var fields := PingFields(Latest(lines, SentOf), Latest(lines, LossOf), Latest(lines, AvgOf));
    if fields != [] then Join(" | ", fields)
    else if out != "" then Truncate(Strip(out), 200)
    else ""
  }

  /** The statistics branch of the summarize_ping loop body. */
  method StatisticsStep(ln: string, sent: Option<int>, loss: Option<string>)
    returns (sent': Option<int>, loss': Option<string>)
    ensures sent' == if SentOf(ln).Some? then SentOf(ln) else sent
    ensures loss' == if LossOf(ln).Some? then LossOf(ln) else loss
  {
    sent', loss' := sent, loss;
    if IsTransmitLine(ln) {
      var parts := TransmitWords(ln);
      if parts != [] && ParseInt(parts[0]).Some? {
        sent' := ParseInt(parts[0]);
        if |parts| > 6 {
          loss' := Some(parts[6]);
        }
      }
    }
  }

  /** The round-trip branch of the summarize_ping loop body. */
  method RttStep(ln: string, avg: Option<string>) returns (avg': Option<string>)
    ensures avg' == if AvgOf(ln).Some? then AvgOf(ln) else avg
  {
    avg' := avg;
    if IsRttLine(ln) {
      var halves := SplitOn(ln, '=');
      if |halves| >= 2 {
        var fields := SplitOn(halves[1], '/');
        if |fields| >= 2 {
          avg' := Some(Strip(fields[1]));
        }
      }
    }
  }

  /** summarize_ping: one pass over the lines, each matching line overwriting sent, loss and avg. */
  method SummarizePing(out: string) returns (summary: string)
    ensures summary == PingSummary(out)
  {
    var lines := SplitLines(out);
    var sent: Option<int> := None;
    var loss: Option<string> := None;
    var avg: Option<string> := None;
    var i := 0;
    while i < |lines|
      invariant 0 <= i <= |lines|
      invariant sent == Latest(lines[..i], SentOf)
      invariant loss == Latest(lines[..i], LossOf)
      invariant avg == Latest(lines[..i], AvgOf)
    {
      sent, loss := StatisticsStep(lines[i], sent, loss);
      avg := RttStep(lines[i], avg);
      assert lines[..i + 1][..i] == lines[..i];
      i := i + 1;
    }
    assert lines[..i] == lines;
    var bits := PingFields(sent, loss, avg);
    if bits != [] {
      summary := Join(" | ", bits);
    } else if out != "" {
      summary := Truncate(Strip(out), 200);
    } else {
      summary := "";
    }
  }

  /** Output without statistics or round-trip lines is shown as is, stripped and cut to 200 characters. */
  lemma PingWithoutStatistics(out: string)
    requires forall ln :: ln in SplitLines(out) ==> !IsTransmitLine(ln) && !IsRttLine(ln)
    ensures PingSummary(out) == if out == "" then "" else Truncate(Strip(out), 200)
  {
    var lines := SplitLines(out);
    LatestIsLastSet(lines, SentOf);
    LatestIsLastSet(lines, LossOf);
    LatestIsLastSet(lines, AvgOf);
  }

  /** The words of the standard statistics line "N packets transmitted, M received, P% packet loss". */
  predicate StandardStatistics(ln: string, n: string, p: string) {
    var parts := TransmitWords(ln);
    && IsTransmitLine(ln) && ParseInt(n).Some?
    && |parts| >= 8 && parts[0] == n && parts[1] == "packets" && parts[2] == "transmitted"
    && parts[4] == "received" && parts[5] == p && parts[6] == "packet" && parts[7] == "loss"
  }

  /** On the standard statistics line the code as written reports the word "packet" as the loss. */
  lemma LossOfIsWord(ln: string, n: string, p: string)
    requires StandardStatistics(ln, n, p)
    ensures SentOf(ln) == ParseInt(n)
    ensures LossOf(ln) == Some("packet")
  {
  }

  /** On the standard statistics line the intended reading reports the percentage. */
  lemma IntendedLossIsPercentage(ln: string, n: string, p: string)
    requires StandardStatistics(ln, n, p)
    ensures IntendedLossOf(ln) == Some(p)
  {
  }

  /** The non-blank lines, in order. */
  function NonBlank(lines: seq<string>): (r: seq<string>)
    ensures |r| <= |lines|
    ensures forall l :: l in r <==> l in lines && Strip(l) != ""
  {
    if lines == [] then []
    else (if Strip(lines[0]) != "" then [lines[0]] else []) + NonBlank(lines[1..])
  }

  /** Filtering keeps the order of the lines: the kept lines of a + b are those of a, then those of b. */
  lemma {:induction false} NonBlankAppend(a: seq<string>, b: seq<string>)
    ensures NonBlank(a + b) == NonBlank(a) + NonBlank(b)
  {
    if a == [] {
      assert a + b == b;
    } else {
      var head := if Strip(a[0]) != "" then [a[0]] else [];
      assert (a + b)[0] == a[0];
      assert (a + b)[1..] == a[1..] + b;
      assert NonBlank(a + b) == head + NonBlank(a[1..] + b);
      NonBlankAppend(a[1..], b);
    }
  }

  /** summarize_trace: long output keeps its first and last six non-blank lines around "...". */
  function SummarizeTrace(out: string, maxLines: int): string {
    var lines := NonBlank(SplitLines(out));
    if |lines| <= maxLines then out
    else Join("\n", Take(lines, 6) + ["..."] + TakeLast(lines, 6))
  }

  /** Short output is kept verbatim; long output is, line by line, the head, "..." and the tail. */
  lemma TraceSummaryShape(out: string, maxLines: int)
    ensures var lines := NonBlank(SplitLines(out));
      && (|lines| <= maxLines ==> SummarizeTrace(out, maxLines) == out)
      && (|lines| > maxLines ==> SplitOn(SummarizeTrace(out, maxLines), '\n') == Take(lines, 6) + ["..."] + TakeLast(lines, 6))
  {
    var lines := NonBlank(SplitLines(out));
    if |lines| > maxLines {
      var parts := Take(lines, 6) + ["..."] + TakeLast(lines, 6);
      forall p | p in parts ensures '\n' !in p {
        if p != "..." {
          assert p in lines;
          assert IsLine(p);
        }
      }
      SplitOnJoin(parts, '\n');
    }
  }

  // ================================================================ the shell

  /** What run_cmd returns for cmd: the command's standard output, stripped. */
  function Output(respond: string -> string, cmd: string): string {
    Strip(respond(cmd))
  }

  /** `run_cmd(first) or run_cmd(second)`: the commands run, and the output kept. */
  function Either(respond: string -> string, first: string, second: string): (seq<string>, string) {
    if Output(respond, first) != "" then ([first], Output(respond, first))
    else ([first, second], Output(respond, second))
  }

  /** The shell behind run_cmd: what each command prints, and the commands run so far. */
  class Shell {
    const respond: string -> string
    var calls: seq<string>

    constructor (respond: string -> string)
      ensures this.respond == respond && calls == []
    {
      this.respond := respond;
      calls := [];
    }

    /** run_cmd */
    method Run(cmd: string) returns (out: string)
      modifies this
      ensures calls == old(calls) + [cmd]
      ensures out == Output(respond, cmd)
    {
      calls := calls + [cmd];
      out := Strip(respond(cmd));
    }

    /** `run_cmd(first) or run_cmd(second)` */
    method RunEither(first: string, second: string) returns (out: string)
      modifies this
      ensures calls == old(calls) + Either(respond, first, second).0
      ensures out == Either(respond, first, second).1
    {
      out := Run(first);
      if out == "" {
        out := Run(second);
      }
    }
  }

  // ================================================================ network

  /** The options of `network`; an absent --url, --host or --domain is None. */
  datatype NetworkArgs = NetworkArgs(
    url: Option<string>, host: Option<string>, domain: Option<string>,
    requests: int, dtype: string, sockets: bool, noTrace: bool)

  /** What `network` prints: a section heading (title and underline) or a line of text. */
  datatype Printed = Heading(title: string) | Text(line: string)

  /** An option that was passed, but is empty after stripping. */
  predicate Blank(v: Option<string>) {
    v.Some? && Strip(v.value) == ""
  }

  /** An option that is truthy in Python: passed and non-empty. */
  predicate Given(v: Option<string>) {
    v.Some? && v.value != ""
  }

  /** typer.Exit with its code, after the warning that precedes it. */
  datatype Rejection = Rejection(code: int, warning: string)

  /** The validation block of `network`: blank values first, then the demand for some section. */
  function Validate(a: NetworkArgs): (r: Option<Rejection>)
    ensures r.Some? ==> r.value.code == 1 || r.value.code == 2
    ensures (r.Some? && r.value.code == 2) <==> Blank(a.host) || Blank(a.url) || Blank(a.domain)
    ensures (r.Some? && r.value.code == 1) <==>
      !Blank(a.host) && !Blank(a.url) && !Blank(a.domain)
      && !Given(a.host) && !Given(a.url) && !Given(a.domain) && !a.sockets
    ensures Blank(a.host) ==> r == Some(Rejection(2, "--host was provided but empty"))
    ensures !Blank(a.host) && Blank(a.url) ==> r == Some(Rejection(2, "--url was provided but empty"))
    ensures !Blank(a.host) && !Blank(a.url) && Blank(a.domain) ==> r == Some(Rejection(2, "--domain was provided but empty"))
  {
    if Blank(a.host) then Some(Rejection(2, "--host was provided but empty"))
    else if Blank(a.url) then Some(Rejection(2, "--url was provided but empty"))
    else if Blank(a.domain) then Some(Rejection(2, "--domain was provided but empty"))
    else if !(Given(a.host) || Given(a.url) || Given(a.domain) || a.sockets) then
      Some(Rejection(1, "Nothing to do. Provide at least one of: --host, --url, --domain, --sockets"))
    else None
  }

  /** warn(msg) */
  function Warn(msg: string): Printed {
    Text("[warn] " + msg)
  }

  function PingCommand(requests: int, host: string): string {
    "ping -c " + IntToString(requests) + " " + host
  }

  const CurlFormat: string :=
    "HTTP %{http_code} | total %{time_total}s | connect %{time_connect}s | ttfb %{time_starttransfer}s\n"

  /** The command curl_brief runs. */
  function CurlBriefCommand(u: string): string {
    "curl -s -o /dev/null -w \"" + CurlFormat + "\" " + u
  }

  /** The commands a section runs and the lines it prints. */
  datatype Session = Session(calls: seq<string>, printed: seq<Printed>)

  const Idle := Session([], [])

  function Then(x: Session, y: Session): Session {
    Session(x.calls + y.calls, x.printed + y.printed)
  }

  /** The ping section. */
  function PingSection(respond: string -> string, host: string, requests: int): Session {
    var out := Output(respond, PingCommand(requests, host));
    Session([PingCommand(requests, host)], [Heading("Ping"),
      Text(if out != "" then PingSummary(out) else "[warn] ping not available or produced no output")])
  }

  /** The traceroute section, with mtr as the fallback. */
  function TraceSection(respond: string -> string, host: string): Session {
    var run := Either(respond, "traceroute " + host, "mtr -r " + host);
    Session(run.0, [Heading("Traceroute"),
      Text(if run.1 != "" then SummarizeTrace(run.1, 12) else "[warn] traceroute/mtr not available or produced no output")])
  }

  /** The host sections: ping, then traceroute unless --no-trace. */
  function HostSection(respond: string -> string, host: string, requests: int, noTrace: bool): Session {
    Then(PingSection(respond, host, requests), OptionalTrace(respond, host, noTrace))
  }

  function OptionalTrace(respond: string -> string, host: string, noTrace: bool): Session {
    if noTrace then Idle else TraceSection(respond, host)
  }


  /** The HTTP section: the curl timing line, then the response headers. */
  function UrlSection(respond: string -> string, url: string): Session {
    var u := NormalizeUrl(url);
    var headers := Output(respond, "curl -s -I " + u);
    Session([CurlBriefCommand(u), "curl -s -I " + u], [Heading("HTTP (curl)"),
      Text(Output(respond, CurlBriefCommand(u))),
      Text(if headers != "" then Strip(headers) else "[warn] curl not available or produced no output")])
  }

  /** The DNS section: dig, with the nslookup fallback. */
  function DnsSection(respond: string -> string, domain: string, dtype: string): Session {
    var (calls, out) := Either(respond, "dig +short " + domain + " " + dtype, "nslookup -type=" + dtype + " " + domain);
    Session(calls, [Heading("DNS"),
      Text(if out != "" then Strip(out) else "[warn] dig/nslookup not available or produced no output")])
  }

  /** The sockets section. */
  function SocketsSection(respond: string -> string): Session {
    var out := Output(respond, "ss -tulwn");
    Session(["ss -tulwn"], [Heading("Sockets (ss)"),
      Text(if out != "" then out else "[warn] ss not available or produced no output")])
  }

  /** The exit code of `network` (0 when it returns), the commands it runs and what it prints. */
  datatype NetworkRun = NetworkRun(code: int, calls: seq<string>, printed: seq<Printed>)

  /** What `network` does: validate, then run the requested sections in a fixed order. */
  function NetworkSpec(a: NetworkArgs, respond: string -> string): (r: NetworkRun)
    ensures r.code == 0 <==> Validate(a).None?
    ensures r.code != 0 ==> r.calls == [] && r.printed == [Warn(Validate(a).value.warning)]
  {
    match Validate(a)
    case Some(rejection) => NetworkRun(rejection.code, [], [Warn(rejection.warning)])
    case None =>
      var s := Sections(a, respond);
      NetworkRun(0, s.calls, s.printed)
  }

  function HostPart(a: NetworkArgs, respond: string -> string): Session {
    if Given(a.host) then HostSection(respond, a.host.value, a.requests, a.noTrace) else Idle
  }

  function UrlPart(a: NetworkArgs, respond: string -> string): Session {
    if Given(a.url) then UrlSection(respond, a.url.value) else Idle
  }

  function DnsPart(a: NetworkArgs, respond: string -> string): Session {
    if Given(a.domain) then DnsSection(respond, a.domain.value, a.dtype) else Idle
  }

  function SocketsPart(a: NetworkArgs, respond: string -> string): Session {
    if a.sockets then SocketsSection(respond) else Idle
  }

  /** The requested sections, in the order host, url, domain, sockets. */
  function Sections(a: NetworkArgs, respond: string -> string): Session {
    Then(Then(Then(HostPart(a, respond), UrlPart(a, respond)), DnsPart(a, respond)), SocketsPart(a, respond))
  }

  method PingProbe(shell: Shell, host: string, requests: int) returns (printed: seq<Printed>)
    modifies shell
    ensures shell.calls == old(shell.calls) + PingSection(shell.respond, host, requests).calls
    ensures printed == PingSection(shell.respond, host, requests).printed
  {
    printed := [Heading("Ping")];
    var out := shell.Run(PingCommand(requests, host));
    if out != "" {
      var summary := SummarizePing(out);
      printed := printed + [Text(summary)];
    } else {
      printed := printed + [Text("[warn] ping not available or produced no output")];
    }
  }

  method TraceProbe(shell: Shell, host: string) returns (printed: seq<Printed>)
    modifies shell
    ensures shell.calls == old(shell.calls) + TraceSection(shell.respond, host).calls
    ensures printed == TraceSection(shell.respond, host).printed
  {
    printed := [Heading("Traceroute")];
    var out := shell.RunEither("traceroute " + host, "mtr -r " + host);
    if out != "" {
      printed := printed + [Text(SummarizeTrace(out, 12))];
    } else {
      printed := printed + [Text("[warn] traceroute/mtr not available or produced no output")];
    }
  }

  method MaybeTrace(shell: Shell, host: string, noTrace: bool) returns (printed: seq<Printed>)
    modifies shell
    ensures shell.calls == old(shell.calls) + OptionalTrace(shell.respond, host, noTrace).calls
    ensures printed == OptionalTrace(shell.respond, host, noTrace).printed
  {
    printed := [];
    if !noTrace {
      printed := TraceProbe(shell, host);
    } else {
      assert shell.calls == shell.calls + [];
    }
  }

  method HostProbe(shell: Shell, host: string, requests: int, noTrace: bool) returns (printed: seq<Printed>)
    modifies shell
    ensures shell.calls == old(shell.calls) + HostSection(shell.respond, host, requests, noTrace).calls
    ensures printed == HostSection(shell.respond, host, requests, noTrace).printed
  {
    ghost var start := shell.calls;
    var first := PingProbe(shell, host, requests);
    ghost var middle := shell.calls;
    var more := MaybeTrace(shell, host, noTrace);
    printed := first + more;
    ThenStep(start, middle, shell.calls, first, more,
      PingSection(shell.respond, host, requests), OptionalTrace(shell.respond, host, noTrace));
  }

  /** Running two sections one after the other runs and prints what Then joins. */
  lemma ThenStep(start: seq<string>, middle: seq<string>, end: seq<string>, p: seq<Printed>, q: seq<Printed>, x: Session, y: Session)
    requires middle == start + x.calls && end == middle + y.calls
    requires p == x.printed && q == y.printed
    ensures end == start + Then(x, y).calls && p + q == Then(x, y).printed
  {
  }

  method UrlProbe(shell: Shell, url: string) returns (printed: seq<Printed>)
    modifies shell
    ensures shell.calls == old(shell.calls) + UrlSection(shell.respond, url).calls
    ensures printed == UrlSection(shell.respond, url).printed
  {
    printed := [Heading("HTTP (curl)")];
    var u := NormalizeUrl(url);
    var brief := shell.Run(CurlBriefCommand(u));
    printed := printed + [Text(brief)];
    var headers := shell.Run("curl -s -I " + u);
    printed := printed + [Text(if headers != "" then Strip(headers) else "[warn] curl not available or produced no output")];
  }

  method DnsProbe(shell: Shell, domain: string, dtype: string) returns (printed: seq<Printed>)
    modifies shell
    ensures shell.calls == old(shell.calls) + DnsSection(shell.respond, domain, dtype).calls
    ensures printed == DnsSection(shell.respond, domain, dtype).printed
  {
    printed := [Heading("DNS")];
    var out := shell.RunEither("dig +short " + domain + " " + dtype, "nslookup -type=" + dtype + " " + domain);
    printed := printed + [Text(if out != "" then Strip(out) else "[warn] dig/nslookup not available or produced no output")];
  }

  method SocketsProbe(shell: Shell) returns (printed: seq<Printed>)
    modifies shell
    ensures shell.calls == old(shell.calls) + SocketsSection(shell.respond).calls
    ensures printed == SocketsSection(shell.respond).printed
  {
    printed := [Heading("Sockets (ss)")];
    var out := shell.Run("ss -tulwn");
    printed := printed + [Text(if out != "" then out else "[warn] ss not available or produced no output")];
  }

  method MaybeHost(a: NetworkArgs, shell: Shell) returns (printed: seq<Printed>)
    modifies shell
    ensures shell.calls == old(shell.calls) + HostPart(a, shell.respond).calls
    ensures printed == HostPart(a, shell.respond).printed
  {
    printed := [];
    if Given(a.host) {
      printed := HostProbe(shell, a.host.value, a.requests, a.noTrace);
    }
  }

  method MaybeUrl(a: NetworkArgs, shell: Shell) returns (printed: seq<Printed>)
    modifies shell
    ensures shell.calls == old(shell.calls) + UrlPart(a, shell.respond).calls
    ensures printed == UrlPart(a, shell.respond).printed
  {
    printed := [];
    if Given(a.url) {
      printed := UrlProbe(shell, a.url.value);
    }
  }

  method MaybeDns(a: NetworkArgs, shell: Shell) returns (printed: seq<Printed>)
    modifies shell
    ensures shell.calls == old(shell.calls) + DnsPart(a, shell.respond).calls
    ensures printed == DnsPart(a, shell.respond).printed
  {
    printed := [];
    if Given(a.domain) {
      printed := DnsProbe(shell, a.domain.value, a.dtype);
    }
  }

  method MaybeSockets(a: NetworkArgs, shell: Shell) returns (printed: seq<Printed>)
    modifies shell
    ensures shell.calls == old(shell.calls) + SocketsPart(a, shell.respond).calls
    ensures printed == SocketsPart(a, shell.respond).printed
  {
    printed := [];
    if a.sockets {
      printed := SocketsProbe(shell);
    }
  }

  lemma Regroup<T>(c: seq<T>, p1: seq<T>, p2: seq<T>, p3: seq<T>, p4: seq<T>)
    ensures c + p1 + p2 + p3 + p4 == c + (p1 + p2 + p3 + p4)
  {
  }

  lemma RegroupLast<T>(a: seq<T>, b: seq<T>, c: seq<T>, d: seq<T>)
    ensures a + b + c + d == a + b + (c + d)
  {
  }

  /** network: validation, then ping/traceroute, HTTP, DNS and sockets, each only when requested. */
  method Network(a: NetworkArgs, shell: Shell) returns (code: int, printed: seq<Printed>)
    modifies shell
    ensures code == NetworkSpec(a, shell.respond).code
    ensures shell.calls == old(shell.calls) + NetworkSpec(a, shell.respond).calls
    ensures printed == NetworkSpec(a, shell.respond).printed
  {
    var rejection := Validate(a);
    if rejection.Some? {
      assert NetworkSpec(a, shell.respond) == NetworkRun(rejection.value.code, [], [Warn(rejection.value.warning)]);
      return rejection.value.code, [Warn(rejection.value.warning)];
    }
    ghost var c0 := shell.calls;
    var host := MaybeHost(a, shell);
    var url := MaybeUrl(a, shell);
    var dns := MaybeDns(a, shell);
    var sockets := MaybeSockets(a, shell);
    code, printed := 0, host + url + dns + sockets;
    ghost var r := shell.respond;
    Regroup(c0, HostPart(a, r).calls, UrlPart(a, r).calls, DnsPart(a, r).calls, SocketsPart(a, r).calls);
    assert NetworkSpec(a, r) == NetworkRun(0, Sections(a, r).calls, Sections(a, r).printed);
  }


  /** The section titles among the printed lines, in order. */
  function Headings(ps: seq<Printed>): seq<string> {
    if ps == [] then []
    else (if ps[0].Heading? then [ps[0].title] else []) + Headings(ps[1..])
  }

  lemma {:induction false} HeadingsAppend(xs: seq<Printed>, ys: seq<Printed>)
    ensures Headings(xs + ys) == Headings(xs) + Headings(ys)
  {
    if xs == [] {
      assert xs + ys == ys;
    } else {
      assert (xs + ys)[1..] == xs[1..] + ys;
      HeadingsAppend(xs[1..], ys);
    }
  }

  lemma {:induction false} TextHeadings(body: seq<Printed>)
    requires forall i :: 0 <= i < |body| ==> body[i].Text?
    ensures Headings(body) == []
  {
    if body != [] {
      TextHeadings(body[1..]);
    }
  }

  /** A section prints its heading, then lines of text. */
  lemma SectionHeadings(title: string, body: seq<Printed>)
    requires forall i :: 0 <= i < |body| ==> body[i].Text?
    ensures Headings([Heading(title)] + body) == [title]
  {
    assert ([Heading(title)] + body)[1..] == body;
    TextHeadings(body);
  }

  lemma PingHeadings(respond: string -> string, host: string, requests: int)
    ensures Headings(PingSection(respond, host, requests).printed) == ["Ping"]
  {
    var ping := PingSection(respond, host, requests).printed;
    SectionHeadings("Ping", ping[1..]);
    assert ping == [Heading("Ping")] + ping[1..];
  }

  lemma TraceHeadings(respond: string -> string, host: string)
    ensures Headings(TraceSection(respond, host).printed) == ["Traceroute"]
  {
    var trace := TraceSection(respond, host).printed;
    SectionHeadings("Traceroute", trace[1..]);
    assert trace == [Heading("Traceroute")] + trace[1..];
  }

  lemma OptionalTraceHeadings(respond: string -> string, host: string, noTrace: bool)
    ensures Headings(OptionalTrace(respond, host, noTrace).printed) == if noTrace then [] else ["Traceroute"]
  {
    if !noTrace {
      TraceHeadings(respond, host);
    }
  }

  lemma HostHeadings(a: NetworkArgs, respond: string -> string)
    ensures Headings(HostPart(a, respond).printed) ==
      if Given(a.host) then ["Ping"] + (if a.noTrace then [] else ["Traceroute"]) else []
  {
    if Given(a.host) {
      var ping := PingSection(respond, a.host.value, a.requests);
      var trace := OptionalTrace(respond, a.host.value, a.noTrace);
      PingHeadings(respond, a.host.value, a.requests);
      OptionalTraceHeadings(respond, a.host.value, a.noTrace);
      HeadingsAppend(ping.printed, trace.printed);
    }
  }

  lemma UrlHeadings(respond: string -> string, url: string)
    ensures Headings(UrlSection(respond, url).printed) == ["HTTP (curl)"]
  {
    var p := UrlSection(respond, url).printed;
    var body := p[1..];
    assert |p| == 3 && p[0] == Heading("HTTP (curl)");
    assert body[0].Text? && body[1].Text?;
    SectionHeadings("HTTP (curl)", body);
    assert p == [Heading("HTTP (curl)")] + body;
  }

  lemma DnsHeadings(respond: string -> string, domain: string, dtype: string)
    ensures Headings(DnsSection(respond, domain, dtype).printed) == ["DNS"]
  {
    var d := DnsSection(respond, domain, dtype).printed;
    SectionHeadings("DNS", d[1..]);
    assert d == [Heading("DNS")] + d[1..];
  }

  lemma SocketsHeadings(respond: string -> string)
    ensures Headings(SocketsSection(respond).printed) == ["Sockets (ss)"]
  {
    var k := SocketsSection(respond).printed;
    SectionHeadings("Sockets (ss)", k[1..]);
    assert k == [Heading("Sockets (ss)")] + k[1..];
  }

  lemma OtherHeadings(a: NetworkArgs, respond: string -> string)
    ensures Headings(UrlPart(a, respond).printed) == if Given(a.url) then ["HTTP (curl)"] else []
    ensures Headings(DnsPart(a, respond).printed) == if Given(a.domain) then ["DNS"] else []
    ensures Headings(SocketsPart(a, respond).printed) == if a.sockets then ["Sockets (ss)"] else []
  {
    if Given(a.url) {
      UrlHeadings(respond, a.url.value);
    }
    if Given(a.domain) {
      DnsHeadings(respond, a.domain.value, a.dtype);
    }
    if a.sockets {
      SocketsHeadings(respond);
    }
  }

  /** Once validation passes, network runs and prints the four parts one after the other. */
  lemma SpecParts(a: NetworkArgs, respond: string -> string)
    requires Validate(a).None?
    ensures NetworkSpec(a, respond).calls ==
      HostPart(a, respond).calls + UrlPart(a, respond).calls + DnsPart(a, respond).calls + SocketsPart(a, respond).calls
    ensures NetworkSpec(a, respond).printed ==
      HostPart(a, respond).printed + UrlPart(a, respond).printed + DnsPart(a, respond).printed + SocketsPart(a, respond).printed
  {
  }

  lemma NotInCalls(c: string, calls: seq<string>, letters: string)
    requires CallsStartWith(calls, letters) && c != [] && c[0] !in letters
    ensures c !in calls
  {
  }

  /** The sections appear in the order ping, traceroute, HTTP, DNS, sockets, each only when requested. */
  lemma NetworkSectionOrder(a: NetworkArgs, respond: string -> string)
    requires Validate(a).None?
    ensures Headings(NetworkSpec(a, respond).printed) ==
      (if Given(a.host) then ["Ping"] + (if a.noTrace then [] else ["Traceroute"]) else [])
      + (if Given(a.url) then ["HTTP (curl)"] else [])
      + (if Given(a.domain) then ["DNS"] else [])
      + (if a.sockets then ["Sockets (ss)"] else [])
  {
    var h, u, d, k := HostPart(a, respond).printed, UrlPart(a, respond).printed, DnsPart(a, respond).printed, SocketsPart(a, respond).printed;
    SpecParts(a, respond);
    HeadingsAppend(h, u);
    HeadingsAppend(h + u, d);
    HeadingsAppend(h + u + d, k);
    HostHeadings(a, respond);
    OtherHeadings(a, respond);
  }

  /** Every command in calls begins with one of the given letters. */
  predicate CallsStartWith(calls: seq<string>, letters: string) {
    forall c :: c in calls ==> c != [] && c[0] in letters
  }

  lemma PingLetters(respond: string -> string, host: string, requests: int)
    ensures CallsStartWith(PingSection(respond, host, requests).calls, "p")
  {
    assert PingCommand(requests, host)[0] == 'p';
  }

  lemma TraceLetters(respond: string -> string, host: string)
    ensures CallsStartWith(TraceSection(respond, host).calls, "tm")
  {
    assert ("traceroute " + host)[0] == 't';
    assert ("mtr -r " + host)[0] == 'm';
  }

  /** Every command the host sections run begins with p, t or m (ping, traceroute, mtr). */
  lemma HostLetters(respond: string -> string, host: string, requests: int, noTrace: bool)
    ensures CallsStartWith(HostSection(respond, host, requests, noTrace).calls, "ptm")
  {
    PingLetters(respond, host, requests);
    TraceLetters(respond, host);
  }


  lemma UrlLetters(respond: string -> string, url: string)
    ensures CallsStartWith(UrlSection(respond, url).calls, "c")
  {
    var u := NormalizeUrl(url);
    assert CurlBriefCommand(u)[0] == 'c';
    assert ("curl -s -I " + u)[0] == 'c';
  }

  lemma DnsLetters(respond: string -> string, domain: string, dtype: string)
    ensures CallsStartWith(DnsSection(respond, domain, dtype).calls, "dn")
  {
    assert ("dig +short " + domain + " " + dtype)[0] == 'd';
    assert ("nslookup -type=" + dtype + " " + domain)[0] == 'n';
  }

  /** Every command the host sections run begins with the letter of its tool: p(ing), t(raceroute) or m(tr). */
  lemma HostCallLetters(a: NetworkArgs, respond: string -> string)
    ensures CallsStartWith(HostPart(a, respond).calls, "ptm")
  {
    if Given(a.host) {
      HostLetters(respond, a.host.value, a.requests, a.noTrace);
    }
  }

  /** Every command the other sections run begins with the letter of its tool. */
  lemma OtherCallLetters(a: NetworkArgs, respond: string -> string)
    ensures CallsStartWith(UrlPart(a, respond).calls, "c")
    ensures CallsStartWith(DnsPart(a, respond).calls, "dn")
    ensures CallsStartWith(SocketsPart(a, respond).calls, "s")
  {
    if Given(a.url) {
      UrlLetters(respond, a.url.value);
    }
    if Given(a.domain) {
      DnsLetters(respond, a.domain.value, a.dtype);
    }
  }

  lemma TraceCalls(respond: string -> string, host: string)
    ensures ("mtr -r " + host) in TraceSection(respond, host).calls <==> Output(respond, "traceroute " + host) == ""
  {
    assert ("mtr -r " + host)[0] == 'm' && ("traceroute " + host)[0] == 't';
  }

  lemma HostTraceCalls(respond: string -> string, host: string, requests: int, noTrace: bool)
    ensures ("mtr -r " + host) in HostSection(respond, host, requests, noTrace).calls
        <==> !noTrace && Output(respond, "traceroute " + host) == ""
  {
    var mtr := "mtr -r " + host;
    assert PingCommand(requests, host)[0] == 'p' && mtr[0] == 'm';
    assert mtr !in PingSection(respond, host, requests).calls;
    TraceCalls(respond, host);
  }


  /** mtr runs only as the fallback of a traceroute that printed nothing. */
  lemma TracerouteFallback(a: NetworkArgs, respond: string -> string)
    requires Validate(a).None? && Given(a.host)
    ensures ("mtr -r " + a.host.value) in NetworkSpec(a, respond).calls
        <==> !a.noTrace && Output(respond, "traceroute " + a.host.value) == ""
  {
    var mtr := "mtr -r " + a.host.value;
    var h, u, d, k := HostPart(a, respond), UrlPart(a, respond), DnsPart(a, respond), SocketsPart(a, respond);
    HostTraceCalls(respond, a.host.value, a.requests, a.noTrace);
    OtherCallLetters(a, respond);
    SpecParts(a, respond);
    assert mtr[0] == 'm';
    NotInCalls(mtr, u.calls, "c");
    NotInCalls(mtr, d.calls, "dn");
    NotInCalls(mtr, k.calls, "s");
  }

  /** When traceroute printed nothing, the mtr report is what the Traceroute section shows. */
  lemma TracerouteFallbackPrinted(a: NetworkArgs, respond: string -> string)
    requires Validate(a).None? && Given(a.host)
    requires !a.noTrace && Output(respond, "traceroute " + a.host.value) == ""
    requires Output(respond, "mtr -r " + a.host.value) != ""
    ensures Text(SummarizeTrace(Output(respond, "mtr -r " + a.host.value), 12)) in NetworkSpec(a, respond).printed
  {
    var h, u, d, k := HostPart(a, respond), UrlPart(a, respond), DnsPart(a, respond), SocketsPart(a, respond);
    SpecParts(a, respond);
    assert Text(SummarizeTrace(Output(respond, "mtr -r " + a.host.value), 12)) in h.printed;
  }

  /** nslookup runs only as the fallback of a dig that printed nothing. */
  lemma DnsSectionCalls(respond: string -> string, domain: string, dtype: string)
    ensures ("nslookup -type=" + dtype + " " + domain) in DnsSection(respond, domain, dtype).calls
        <==> Output(respond, "dig +short " + domain + " " + dtype) == ""
  {
    assert ("nslookup -type=" + dtype + " " + domain)[0] == 'n';
    assert ("dig +short " + domain + " " + dtype)[0] == 'd';
  }

  lemma DnsFallback(a: NetworkArgs, respond: string -> string)
    requires Validate(a).None? && Given(a.domain)
    ensures ("nslookup -type=" + a.dtype + " " + a.domain.value) in NetworkSpec(a, respond).calls
        <==> Output(respond, "dig +short " + a.domain.value + " " + a.dtype) == ""
  {
    var nslookup := "nslookup -type=" + a.dtype + " " + a.domain.value;
    var h, u, d, k := HostPart(a, respond), UrlPart(a, respond), DnsPart(a, respond), SocketsPart(a, respond);
    HostCallLetters(a, respond);
    OtherCallLetters(a, respond);
    DnsSectionCalls(respond, a.domain.value, a.dtype);
    SpecParts(a, respond);
    assert nslookup[0] == 'n';
    NotInCalls(nslookup, h.calls, "ptm");
    NotInCalls(nslookup, u.calls, "c");
    NotInCalls(nslookup, k.calls, "s");
  }

  /** An empty --url, as in tests/test_network.py, exits with code 2 before any command runs. */
  lemma EmptyUrlExits(a: NetworkArgs, respond: string -> string)
    requires a.host.None? && a.url == Some("")
    ensures NetworkSpec(a, respond) == NetworkRun(2, [], [Text("[warn] --url was provided but empty")])
  {
    assert Strip("") == "";
    assert "[warn] " + "--url was provided but empty" == "[warn] --url was provided but empty";
  }

  // ================================================================ monitor

  /** The options of `monitor` that decide what it runs; --verbose is not part of this model. */
  datatype MonitorArgs = MonitorArgs(load: bool, cpu: bool, ram: bool, disk: bool, io: bool, interval: int)

  /** A dashboard panel: its title, column headers and rows of cells. */
  datatype Panel = Panel(title: string, columns: seq<string>, rows: seq<seq<string>>)

  /** typer.BadParameter, a crash on a missing token, or the dashboard of panels. */
  datatype MonitorOutcome = BadParameter(message: string) | Crashed(error: ParseError) | Dashboard(panels: seq<Panel>)

  /** The four panels `monitor` can show, in the order it shows them. */
  datatype Metric = LoadMetric | CpuMetric | RamMetric | DiskMetric

  const LoadCommand := "uptime | awk -F'average:' '{print $2}'"
  const CpuCommand := "top -bn1 | grep \"Cpu(s)\""
  const MemoryCommand := "free -m | grep Mem"
  const DiskCommand := "df -h / | tail -1"

  /** The commands a panel's get_* function runs: get_load also reads the core count. */
  function MetricCommands(m: Metric): seq<string> {
    match m
    case LoadMetric => [LoadCommand, "nproc"]
    case CpuMetric => [CpuCommand]
    case RamMetric => [MemoryCommand]
    case DiskMetric => [DiskCommand]
  }

  function MetricTitle(m: Metric): string {
    match m
    case LoadMetric => "System Load Averages"
    case CpuMetric => "CPU Usage"
    case RamMetric => "Memory Usage"
    case DiskMetric => "Disk Usage"
  }

  /** A panel, or the IndexError raised while its values are read. */
  function MetricPanel(m: Metric, respond: string -> string): (r: Result<Panel, ParseError>)
    ensures r.Ok? ==> r.value.title == MetricTitle(m)
    ensures r.Ok? ==> forall row :: row in r.value.rows ==> |row| == |r.value.columns|
  {
    match m
    case LoadMetric =>
      var averages := LoadAverages(Output(respond, LoadCommand));
      if |averages| < 3 then Err(IndexError)
      else Ok(Panel(MetricTitle(m), ["Interval", "Load"],
        [["1 Minute", averages[0]], ["5 Minutes", averages[1]], ["15 Minutes", averages[2]]]))
    case CpuMetric =>
      (match CpuUsage(Output(respond, CpuCommand))
       case Err(e) => Err(e)
       case Ok((user, system, idle)) =>
         Ok(Panel(MetricTitle(m), ["User (%)", "System (%)", "Idle (%)"], [[user, system, idle]])))
    case RamMetric =>
      (match Memory(Output(respond, MemoryCommand))
       case Err(e) => Err(e)
       case Ok((total, used, free)) =>
         Ok(Panel(MetricTitle(m), ["Total (MB)", "Used (MB)", "Free (MB)"], [[total, used, free]])))
    case DiskMetric =>
      (match Disk(Output(respond, DiskCommand))
       case Err(e) => Err(e)
       case Ok((size, used, available, percent)) =>
         Ok(Panel(MetricTitle(m), ["Size", "Used", "Available", "Usage %"], [[size, used, available, percent]])))
  }

  /** What each of the four panels would come out as on a given shell. */
  datatype Readings = Readings(load: Result<Panel, ParseError>, cpu: Result<Panel, ParseError>,
                               ram: Result<Panel, ParseError>, disk: Result<Panel, ParseError>)

  function Read(read: Readings, m: Metric): Result<Panel, ParseError> {
    match m
    case LoadMetric => read.load
    case CpuMetric => read.cpu
    case RamMetric => read.ram
    case DiskMetric => read.disk
  }

  /** The panel readings of a shell. */
  function Reader(respond: string -> string): Readings {
    Readings(MetricPanel(LoadMetric, respond), MetricPanel(CpuMetric, respond),
             MetricPanel(RamMetric, respond), MetricPanel(DiskMetric, respond))
  }

  lemma ReaderRead(respond: string -> string, m: Metric)
    ensures Read(Reader(respond), m) == MetricPanel(m, respond)
  {
  }

  function On(b: bool, m: Metric): seq<Metric> {
    if b then [m] else []
  }

  /** The panels requested, in the fixed order load, cpu, ram, disk; --io selects nothing. */
  function Enabled(args: MonitorArgs): seq<Metric> {
    On(args.load, LoadMetric) + On(args.cpu, CpuMetric) + On(args.ram, RamMetric) + On(args.disk, DiskMetric)
  }

  /** Reading the panels one after the other: the first IndexError ends the command. */
  function RunMetrics(ms: seq<Metric>, read: Readings): (seq<string>, MonitorOutcome) {
    if ms == [] then ([], Dashboard([]))
    else
      match Read(read, ms[0])
      case Err(e) => (MetricCommands(ms[0]), Crashed(e))
      case Ok(p) =>
        var rest := RunMetrics(ms[1..], read);
        (MetricCommands(ms[0]) + rest.0, match rest.1 case Dashboard(ps) => Dashboard([p] + ps) case other => other)
  }

  /** What `monitor` runs and how it ends. */
  function MonitorSpec(args: MonitorArgs, read: Readings): (seq<string>, MonitorOutcome) {
    if args.interval <= 0 then ([], BadParameter("Interval must be a positive integer."))
    else RunMetrics(Enabled(args), read)
  }

  predicate AllShown(ms: seq<Metric>, read: Readings) {
    forall i :: 0 <= i < |ms| ==> Read(read, ms[i]).Ok?
  }

  function Commands(ms: seq<Metric>): seq<string> {
    if ms == [] then [] else MetricCommands(ms[0]) + Commands(ms[1..])
  }

  function Panels(ms: seq<Metric>, read: Readings): (ps: seq<Panel>)
    requires AllShown(ms, read)
    ensures |ps| == |ms|
    ensures forall i :: 0 <= i < |ms| ==> ps[i] == Read(read, ms[i]).value
  {
    if ms == [] then [] else [Read(read, ms[0]).value] + Panels(ms[1..], read)
  }

  lemma PanelsAppend(done: seq<Metric>, m: Metric, read: Readings)
    requires AllShown(done, read) && Read(read, m).Ok?
    ensures AllShown(done + [m], read)
    ensures Panels(done + [m], read) == Panels(done, read) + [Read(read, m).value]
  {
    var ms := done + [m];
    assert forall i :: 0 <= i < |done| ==> ms[i] == done[i];
    assert ms[|done|] == m;
  }

  lemma {:induction false} CommandsAppend(xs: seq<Metric>, ys: seq<Metric>)
    ensures Commands(xs + ys) == Commands(xs) + Commands(ys)
  {
    if xs == [] {
      assert xs + ys == ys;
    } else {
      assert (xs + ys)[1..] == xs[1..] + ys;
      CommandsAppend(xs[1..], ys);
    }
  }

  /** When every panel can be read, all commands run and the dashboard shows every panel in order. */
  lemma {:induction false} RunMetricsShown(ms: seq<Metric>, read: Readings)
    requires AllShown(ms, read)
    ensures RunMetrics(ms, read) == (Commands(ms), Dashboard(Panels(ms, read)))
  {
    if ms != [] {
      RunMetricsShown(ms[1..], read);
    }
  }

  /** The first panel that cannot be read ends the command: nothing after it runs. */
  lemma {:induction false} RunMetricsCrash(done: seq<Metric>, m: Metric, rest: seq<Metric>, read: Readings)
    requires AllShown(done, read) && Read(read, m).Err?
    ensures RunMetrics(done + [m] + rest, read) == (Commands(done) + MetricCommands(m), Crashed(Read(read, m).error))
  {
    var ms := done + [m] + rest;
    if done == [] {
      assert ms == [m] + rest && ms[0] == m;
      assert RunMetrics(ms, read) == (MetricCommands(m), Crashed(Read(read, m).error));
      assert Commands(done) + MetricCommands(m) == MetricCommands(m);
    } else {
      assert ms[0] == done[0] && Read(read, ms[0]).Ok?;
      assert ms[1..] == done[1..] + [m] + rest;
      assert AllShown(done[1..], read) by {
        forall i | 0 <= i < |done[1..]| ensures Read(read, done[1..][i]).Ok? {
          assert done[1..][i] == done[i + 1];
        }
      }
      RunMetricsCrash(done[1..], m, rest, read);
      var tail := RunMetrics(ms[1..], read);
      assert RunMetrics(ms, read) == (MetricCommands(done[0]) + tail.0, tail.1);
      assert Commands(done) == MetricCommands(done[0]) + Commands(done[1..]);
      assert MetricCommands(done[0]) + (Commands(done[1..]) + MetricCommands(m))
          == MetricCommands(done[0]) + Commands(done[1..]) + MetricCommands(m);
    }
  }

  /** The first panel that cannot be read, when there is one. */
  lemma {:induction false} FirstFailure(ms: seq<Metric>, read: Readings) returns (k: nat)
    requires !AllShown(ms, read)
    ensures k < |ms| && Read(read, ms[k]).Err? && AllShown(ms[..k], read)
  {
    if Read(read, ms[0]).Err? {
      k := 0;
    } else {
      var j := FirstFailure(ms[1..], read);
      k := j + 1;
      assert ms[..k] == [ms[0]] + ms[1..][..j];
    }
  }

  /** Reading panels ends as a dashboard exactly when every one of them reads; otherwise the first failure decides. */
  lemma RunMetricsOutcome(ms: seq<Metric>, read: Readings)
    ensures RunMetrics(ms, read).1.Dashboard? <==> AllShown(ms, read)
    ensures !RunMetrics(ms, read).1.BadParameter?
  {
    if AllShown(ms, read) {
      RunMetricsShown(ms, read);
    } else {
      var k := FirstFailure(ms, read);
      assert ms == ms[..k] + [ms[k]] + ms[k + 1..];
      RunMetricsCrash(ms[..k], ms[k], ms[k + 1..], read);
    }
  }

  /** monitor with every requested panel readable: all their commands run, the dashboard shows them in order. */
  lemma MonitorDashboard(args: MonitorArgs, read: Readings)
    requires args.interval > 0 && AllShown(Enabled(args), read)
    ensures MonitorSpec(args, read).0 == Commands(Enabled(args))
    ensures MonitorSpec(args, read).1.Dashboard?
    ensures var ps := MonitorSpec(args, read).1.panels;
      && |ps| == |Enabled(args)|
      && (forall i :: 0 <= i < |ps| ==> ps[i] == Read(read, Enabled(args)[i]).value)
  {
    RunMetricsShown(Enabled(args), read);
  }

  /** monitor stops at the first requested panel whose values cannot be read: the commands of later panels never run. */
  lemma MonitorCrash(args: MonitorArgs, read: Readings, k: nat)
    requires args.interval > 0 && k < |Enabled(args)|
    requires AllShown(Enabled(args)[..k], read) && Read(read, Enabled(args)[k]).Err?
    ensures MonitorSpec(args, read) == (Commands(Enabled(args)[..k]) + MetricCommands(Enabled(args)[k]), Crashed(IndexError))
  {
    var ms := Enabled(args);
    assert ms == ms[..k] + [ms[k]] + ms[k + 1..];
    RunMetricsCrash(ms[..k], ms[k], ms[k + 1..], read);
    assert Read(read, ms[k]).error == IndexError;
  }

  /** monitor rejects a non-positive interval before running anything, and otherwise ends as a dashboard exactly when every requested panel reads. */
  lemma MonitorOutcomes(args: MonitorArgs, read: Readings)
    ensures MonitorSpec(args, read).1.BadParameter? <==> args.interval <= 0
    ensures args.interval <= 0 ==> MonitorSpec(args, read).0 == []
    ensures MonitorSpec(args, read).1.Dashboard? <==> args.interval > 0 && AllShown(Enabled(args), read)
  {
    RunMetricsOutcome(Enabled(args), read);
  }

  lemma ShownStep(done: seq<Metric>, m: Metric, read: Readings)
    requires AllShown(done, read) && Read(read, m).Ok?
    ensures AllShown(done + [m], read) && Panels(done + [m], read) == Panels(done, read) + [Read(read, m).value]
    ensures Commands(done + [m]) == Commands(done) + MetricCommands(m)
  {
    PanelsAppend(done, m, read);
    CommandsAppend(done, [m]);
    assert Commands([m]) == MetricCommands(m);
  }

  /** One `if <flag>:` block of monitor: read the panel and append it, or stop at its IndexError;
      once an IndexError has been raised, nothing more happens. */
  method MonitorStep(on: bool, m: Metric, read: Readings, crash: Option<ParseError>, calls: seq<string>, panels: seq<Panel>,
                     ghost all: seq<Metric>, ghost done: seq<Metric>, ghost rest: seq<Metric>)
    returns (crash': Option<ParseError>, calls': seq<string>, panels': seq<Panel>, ghost done': seq<Metric>)
    requires crash.None? ==>
      && all == done + On(on, m) + rest
      && AllShown(done, read) && panels == Panels(done, read) && calls == Commands(done)
    requires crash.Some? ==> (calls, Crashed(crash.value)) == RunMetrics(all, read)
    ensures crash'.None? ==>
      && all == done' + rest && AllShown(done', read) && panels' == Panels(done', read) && calls' == Commands(done')
    ensures crash'.Some? ==> (calls', Crashed(crash'.value)) == RunMetrics(all, read)
  {
    crash', calls', panels', done' := crash, calls, panels, done;
    if crash.None? && on {
      calls' := calls + MetricCommands(m);
      match Read(read, m) {
        case Err(e) =>
          crash' := Some(e);
          RunMetricsCrash(done, m, rest, read);
        case Ok(p) =>
          ShownStep(done, m, read);
          panels' := panels + [p];
          done' := done + [m];
      }
    } else if crash.None? {
      assert done + [] == done;
    }
  }

  /** Two consecutive blocks of monitor. */
  method MonitorSteps(on1: bool, m1: Metric, on2: bool, m2: Metric, read: Readings,
                      crash: Option<ParseError>, calls: seq<string>, panels: seq<Panel>,
                      ghost all: seq<Metric>, ghost done: seq<Metric>, ghost rest: seq<Metric>)
    returns (crash': Option<ParseError>, calls': seq<string>, panels': seq<Panel>, ghost done': seq<Metric>)
    requires crash.None? ==>
      && all == done + On(on1, m1) + On(on2, m2) + rest
      && AllShown(done, read) && panels == Panels(done, read) && calls == Commands(done)
    requires crash.Some? ==> (calls, Crashed(crash.value)) == RunMetrics(all, read)
    ensures crash'.None? ==>
      && all == done' + rest && AllShown(done', read) && panels' == Panels(done', read) && calls' == Commands(done')
    ensures crash'.Some? ==> (calls', Crashed(crash'.value)) == RunMetrics(all, read)
  {
    if crash.None? {
      RegroupLast(done, On(on1, m1), On(on2, m2), rest);
    }
    crash', calls', panels', done' := MonitorStep(on1, m1, read, crash, calls, panels, all, done, On(on2, m2) + rest);
    crash', calls', panels', done' := MonitorStep(on2, m2, read, crash', calls', panels', all, done', rest);
  }

  /** The load, cpu, ram and disk blocks of monitor, in that order. */
  method MonitorBlocks(l: bool, c: bool, r: bool, d: bool, read: Readings, ghost all: seq<Metric>)
    returns (crash: Option<ParseError>, calls: seq<string>, panels: seq<Panel>)
    requires all == On(l, LoadMetric) + On(c, CpuMetric) + On(r, RamMetric) + On(d, DiskMetric)
    ensures crash.None? ==> AllShown(all, read) && panels == Panels(all, read) && calls == Commands(all)
    ensures crash.Some? ==> (calls, Crashed(crash.value)) == RunMetrics(all, read)
  {
    ghost var rd := On(r, RamMetric) + On(d, DiskMetric);
    RegroupLast([], On(l, LoadMetric), On(c, CpuMetric), rd);
    RegroupLast(On(l, LoadMetric), On(c, CpuMetric), On(r, RamMetric), On(d, DiskMetric));
    ghost var done: seq<Metric>;
    crash, calls, panels, done := MonitorSteps(l, LoadMetric, c, CpuMetric, read, None, [], [], all, [], rd);
    if crash.None? {
      RegroupLast(done, On(r, RamMetric), On(d, DiskMetric), []);
    }
    crash, calls, panels, done := MonitorSteps(r, RamMetric, d, DiskMetric, read, crash, calls, panels, all, done, []);
    if crash.None? {
      assert all == done;
    }
  }

  /** monitor: reject a non-positive interval, then run the blocks; the first IndexError ends the command. */
  method Monitor(args: MonitorArgs, read: Readings) returns (calls: seq<string>, outcome: MonitorOutcome)
    ensures (calls, outcome) == MonitorSpec(args, read)
  {
    if args.interval <= 0 {
      return [], BadParameter("Interval must be a positive integer.");
    }
    var crash, panels;
    crash, calls, panels := MonitorBlocks(args.load, args.cpu, args.ram, args.disk, read, Enabled(args));
    if crash.Some? {
      outcome := Crashed(crash.value);
    } else {
      RunMetricsShown(Enabled(args), read);
      outcome := Dashboard(panels);
    }
  }
}
