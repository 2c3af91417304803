/**
 * GPU discovery (pkg/gpu/gpu.go): NVIDIA cards from nvidia-smi CSV output,
 * one AMD card from radeontop text, and a placeholder integrated GPU from
 * lspci, concatenated in that order. Whether each tool is on PATH and what it
 * printed are inputs.
 */
module Gpu {
  import opened Wrappers
  import opened Text
  import opened Types

  /** What one external tool gave: not on PATH, a failed run, or its standard output. */
  datatype ToolRun = Absent | Failed | Output(stdout: string)

  /** The three tools the aggregator consults. */
  datatype GpuTools = GpuTools(nvidiaSmi: ToolRun, radeontop: ToolRun, lspci: ToolRun)

  /** nvidia-smi separates its CSV columns with a comma and one space. */
  const CsvSeparator := ", "
  const LineSeparator := "\n"

  // ---------------------------------------------------------------------
  // NVIDIA
  // ---------------------------------------------------------------------

  /** A number field of nvidia-smi; one that does not parse counts as 0. */
  function ParseFloatOrZero(s: string): (v: real)
    ensures ParseFloat(s).Some? ==> v == ParseFloat(s).value
    ensures ParseFloat(s).None? ==> v == 0.0
  {
    match ParseFloat(s)
    case Some(x) => x
    case None => 0.0
  }

  /** The entry one nvidia-smi line describes: index, name, utilization, temperature. */
  function ParseNVIDIALine(line: string): (g: Option<GPUMetrics>)
    ensures g.Some? ==> g.value.Type == NvidiaType && g.value.Error == ""
  {
    var parts := Split(line, CsvSeparator);
    if |parts| < 4 then None
    else
      var index := TrimSpace(parts[0]);
      var name := TrimSpace(parts[1]);
      var usage := ParseFloatOrZero(TrimSpace(parts[2]));
      var temperature := ParseFloatOrZero(TrimSpace(parts[3]));
      Some(GPUMetrics("NVIDIA GPU " + index + " (" + name + ")", NvidiaType, usage, temperature, ""))
  }

  /** The entry nvidia-smi reports for one card, from its four (trimmed) CSV fields. */
  function NvidiaEntry(index: string, name: string, usage: string, temperature: string): GPUMetrics {
    GPUMetrics("NVIDIA GPU " + TrimSpace(index) + " (" + TrimSpace(name) + ")", NvidiaType,
               ParseFloatOrZero(TrimSpace(usage)), ParseFloatOrZero(TrimSpace(temperature)), "")
  }

  lemma CsvSeparatorUnbordered()
    ensures CsvSeparator != [] && Unbordered(CsvSeparator)
  {
    assert CsvSeparator[1..] == " " && CsvSeparator[..1] == ",";
  }

  /**
   * Parsing a CSV line built from separator-free fields: fewer than four
   * fields give no entry; otherwise the first four make the entry and any
   * further fields are ignored.
   */
  lemma ParseNvidiaCsv(fields: seq<string>)
    requires |fields| >= 1
    requires forall k :: 0 <= k < |fields| ==> !Contains(fields[k], CsvSeparator)
    ensures |fields| < 4 ==> ParseNVIDIALine(Join(fields, CsvSeparator)).None?
    ensures |fields| >= 4 ==>
      ParseNVIDIALine(Join(fields, CsvSeparator)) == Some(NvidiaEntry(fields[0], fields[1], fields[2], fields[3]))
  {
    CsvSeparatorUnbordered();
    SplitJoin(fields, CsvSeparator);
  }

  /**
   * A line of four comma-free fields, none with white space at either end,
   * gives the card named after its index and name, with the two numbers
   * read as usage and temperature (0 where one does not parse).
   */
  lemma ParseNvidiaFields(index: string, name: string, usage: string, temperature: string)
    requires forall i :: 0 <= i < |index| ==> index[i] != ','
    requires forall i :: 0 <= i < |name| ==> name[i] != ','
    requires forall i :: 0 <= i < |usage| ==> usage[i] != ','
    requires forall i :: 0 <= i < |temperature| ==> temperature[i] != ','
    requires index != [] ==> !IsSpace(index[0]) && !IsSpace(index[|index| - 1])
    requires name != [] ==> !IsSpace(name[0]) && !IsSpace(name[|name| - 1])
    requires usage != [] ==> !IsSpace(usage[0]) && !IsSpace(usage[|usage| - 1])
    requires temperature != [] ==> !IsSpace(temperature[0]) && !IsSpace(temperature[|temperature| - 1])
    ensures ParseNVIDIALine(index + CsvSeparator + name + CsvSeparator + usage + CsvSeparator + temperature)
         == Some(GPUMetrics("NVIDIA GPU " + index + " (" + name + ")", NvidiaType,
                            ParseFloatOrZero(usage), ParseFloatOrZero(temperature), ""))
  {
    FourFields(index, name, usage, temperature, index + CsvSeparator + name + CsvSeparator + usage + CsvSeparator + temperature);
    TrimSpaceNoop(index);
    TrimSpaceNoop(name);
    TrimSpaceNoop(usage);
    TrimSpaceNoop(temperature);
  }

  /** A sample nvidia-smi line: card 0, "Test GPU", 45.5 % at 62 degrees. */
  lemma ParseNvidiaSample(index: string, name: string, usage: string, temperature: string)
    requires index == "0" && name == "Test GPU" && usage == "45.5" && temperature == "62.0"
    ensures ParseNVIDIALine(index + CsvSeparator + name + CsvSeparator + usage + CsvSeparator + temperature)
         == Some(GPUMetrics("NVIDIA GPU " + index + " (" + name + ")", NvidiaType, 45.5, 62.0, ""))
  {
    ParseNvidiaFields(index, name, usage, temperature);
    ParseTwoPlaceDecimal(usage, 45.5);
    ParseTwoPlaceDecimal(temperature, 62.0);
  }

  /** A line of four comma-free fields parses to the entry of those fields. */
  lemma FourFields(index: string, name: string, usage: string, temperature: string, line: string)
    requires line == index + CsvSeparator + name + CsvSeparator + usage + CsvSeparator + temperature
    requires forall i :: 0 <= i < |index| ==> index[i] != ','
    requires forall i :: 0 <= i < |name| ==> name[i] != ','
    requires forall i :: 0 <= i < |usage| ==> usage[i] != ','
    requires forall i :: 0 <= i < |temperature| ==> temperature[i] != ','
    ensures ParseNVIDIALine(line) == Some(NvidiaEntry(index, name, usage, temperature))
  {
    var fields := [index, name, usage, temperature];
    assert Join(fields[3..], CsvSeparator) == temperature;
    assert Join(fields[2..], CsvSeparator) == usage + CsvSeparator + temperature;
    assert Join(fields[1..], CsvSeparator) == name + CsvSeparator + usage + CsvSeparator + temperature;
    assert Join(fields, CsvSeparator) == line;
    NoCsvSeparator(index);
    NoCsvSeparator(name);
    NoCsvSeparator(usage);
    NoCsvSeparator(temperature);
    ParseNvidiaCsv(fields);
  }

  /** A reading written as two digits, a point and one digit parses to its value. */
  lemma ParseTwoPlaceDecimal(s: string, v: real)
    requires |s| == 4 && IsDigit(s[0]) && IsDigit(s[1]) && s[2] == '.' && IsDigit(s[3])
    requires v == (DigitValue(s[0]) * 10 + DigitValue(s[1])) as real + DigitValue(s[3]) as real / 10.0
    ensures ParseFloat(s) == Some(v)
  {
    var whole, frac := s[..2], s[3..];
    assert s == "" + whole + "." + frac;
    ParseFloatDecimal("", whole, frac);
    assert whole[..1] == [s[0]] && whole[1] == s[1];
    assert [s[0]][..0] == [];
    assert DigitsValue([s[0]]) == DigitValue(s[0]);
    assert DigitsValue(whole) == DigitValue(s[0]) * 10 + DigitValue(s[1]);
    assert frac == [s[3]] && frac[..0] == [];
    assert DigitsValue(frac) == DigitValue(s[3]);
    assert Pow10(1) == 10;
  }

  /** A field without a comma cannot hold the separator. */
  lemma NoCsvSeparator(s: string)
    requires forall i :: 0 <= i < |s| ==> s[i] != ','
    ensures !Contains(s, CsvSeparator)
  {
    forall j | 0 <= j <= |s|
      ensures !OccursAt(s, CsvSeparator, j)
    {
      if j + 2 <= |s| {
        assert s[j..j + 2][0] == s[j];
      }
    }
    IndexSpec(s, CsvSeparator);
  }

  /** A line with unreadable numbers still gives an entry, with 0 usage and temperature. */
  lemma ParseNvidiaUnavailableNumbers(index: string, name: string, na: string)
    requires index == "1" && name == "Quadro" && na == "[N/A]"
    ensures ParseNVIDIALine(index + CsvSeparator + name + CsvSeparator + na + CsvSeparator + na)
         == Some(GPUMetrics("NVIDIA GPU " + index + " (" + name + ")", NvidiaType, 0.0, 0.0, ""))
  {
    ParseNvidiaFields(index, name, na, na);
    NotInString(na, '.');
    assert !IsDigit(na[0]);
  }

  /** The entries one output line adds: none for a blank line, at most one otherwise. */
  function LineEntries(line: string): (gpus: seq<GPUMetrics>)
    ensures |gpus| <= 1
  {
    if TrimSpace(line) == "" then [] else OptionToSeq(ParseNVIDIALine(line))
  }

  /** The entries of a list of nvidia-smi lines, line by line in order. */
  function NvidiaEntries(lines: seq<string>): (gpus: seq<GPUMetrics>)
    ensures |gpus| <= |lines|
  {
    if lines == [] then []
    else
      var init := lines[..|lines| - 1];
      var last := lines[|lines| - 1];
      NvidiaEntries(init) + LineEntries(last)
  }

  /** Every NVIDIA entry is tagged "nvidia" and carries no error. */
  lemma {:induction false} NvidiaEntriesTyped(lines: seq<string>)
    ensures forall g :: g in NvidiaEntries(lines) ==> g.Type == NvidiaType && g.Error == ""
  {
    if lines != [] {
      NvidiaEntriesTyped(lines[..|lines| - 1]);
    }
  }

  /** Lines contribute independently and in order. */
  lemma {:induction false} NvidiaEntriesAppend(a: seq<string>, b: seq<string>)
    ensures NvidiaEntries(a + b) == NvidiaEntries(a) + NvidiaEntries(b)
    decreases |b|
  {
    if b == [] {
      assert a + b == a;
    } else {
      var b' := b[..|b| - 1];
      assert (a + b)[..|a + b| - 1] == a + b';
      NvidiaEntriesAppend(a, b');
    }
  }

  /** One more line adds its own entries at the end. */
  lemma NvidiaEntriesSnoc(lines: seq<string>, line: string)
    ensures NvidiaEntries(lines + [line]) == NvidiaEntries(lines) + LineEntries(line)
  {
    assert (lines + [line])[..|lines|] == lines;
  }

  /** The entries of the first i + 1 lines extend those of the first i by line i's. */
  lemma NvidiaEntriesStep(lines: seq<string>, i: nat)
    requires i < |lines|
    ensures NvidiaEntries(lines[..i + 1]) == NvidiaEntries(lines[..i]) + LineEntries(lines[i])
  {
    assert lines[..i + 1] == lines[..i] + [lines[i]];
    NvidiaEntriesSnoc(lines[..i], lines[i]);
  }

  /** What the NVIDIA collector reports for one run of nvidia-smi. */
  function NvidiaGPUs(run: ToolRun): (gpus: seq<GPUMetrics>)
    ensures !run.Output? ==> gpus == []
    ensures run.Output? ==> |gpus| <= |Split(TrimSpace(run.stdout), LineSeparator)|
    ensures forall g :: g in gpus ==> g.Type == NvidiaType && g.Error == ""
  {
    match run
    case Output(out) =>
      var lines := Split(TrimSpace(out), LineSeparator);
      NvidiaEntriesTyped(lines);
      NvidiaEntries(lines)
    case _ => []
  }

  /** Empty or all-blank output reports no card. */
  lemma NvidiaBlankOutput(out: string)
    requires forall i :: 0 <= i < |out| ==> IsSpace(out[i])
    ensures NvidiaGPUs(Output(out)) == []
  {
    TrimSpaceTrailing("", out);
    assert "" + out == out;
    assert Split("", LineSeparator) == [""];
    assert NvidiaEntries([""]) == NvidiaEntries([]) + LineEntries("");
  }

  /** collectNVIDIAGPUs: one entry per well-formed non-blank line, in output order. */
  method CollectNVIDIAGPUs(run: ToolRun) returns (gpus: seq<GPUMetrics>)
    ensures gpus == NvidiaGPUs(run)
  {
    gpus := [];
    match run {
      case Absent =>
        return;
      case Failed =>
        return;
      case Output(out) =>
        var lines := Split(TrimSpace(out), LineSeparator);
        gpus := CollectNvidiaLines(lines);
    }
  }

  /** The line loop of collectNVIDIAGPUs: skip blank lines, append each parsed entry. */
  method CollectNvidiaLines(lines: seq<string>) returns (gpus: seq<GPUMetrics>)
    ensures gpus == NvidiaEntries(lines)
  {
    gpus := [];
    for i := 0 to |lines|
      invariant gpus == NvidiaEntries(lines[..i])
    {
      var line := lines[i];
      NvidiaEntriesStep(lines, i);
      if TrimSpace(line) == "" {
        assert LineEntries(line) == [];
        continue;
      }
      var gpu := ParseNVIDIALine(line);
      assert LineEntries(line) == OptionToSeq(gpu);
      if gpu.Some? {
        gpus := gpus + [gpu.value];
      }
    }
    assert lines[..|lines|] == lines;
  }

  // ---------------------------------------------------------------------
  // AMD: the pattern gpu\s+(\d+\.?\d*)% in radeontop output
  // ---------------------------------------------------------------------

  /** The regular-expression class \s: tab, newline, form feed, carriage return, space. */
  predicate IsRegexSpace(c: char) {
    c == '\t' || c == '\n' || c as int == 12 || c == '\r' || c == ' '
  }

  /** The end of the longest run of characters satisfying `p` that starts at `i`. */
  function SpanEnd(s: string, i: nat, p: char -> bool): (j: nat)
    requires i <= |s|
    ensures i <= j <= |s|
    ensures forall k :: i <= k < j ==> p(s[k])
    ensures j < |s| ==> !p(s[j])
    decreases |s| - i
  {
    if i < |s| && p(s[i]) then SpanEnd(s, i + 1, p) else i
  }

  /**
   * The pattern matches at `i` with its group spanning [w, e): "gpu", at least
   * one \s, then digits with at most one point and a leading digit, then "%".
   */
  ghost predicate RegexMatchAt(line: string, i: nat, w: nat, e: nat) {
    && i + 3 < w < e < |line|
    && line[i..i + 3] == "gpu"
    && (forall k :: i + 3 <= k < w ==> IsRegexSpace(line[k]))
    && IsDigit(line[w])
    && (forall k :: w < k < e ==> IsDigit(line[k]) || line[k] == '.')
    && (forall k, l :: w < k < l < e && line[k] == '.' ==> line[l] != '.')
    && line[e] == '%'
  }

  /** The shape of the captured group: a leading digit, then digits with at most one point. */
  predicate IsUsageGroup(g: string) {
    && g != []
    && IsDigit(g[0])
    && (forall k :: 0 <= k < |g| ==> IsDigit(g[k]) || g[k] == '.')
    && (forall k, l :: 0 <= k < l < |g| && g[k] == '.' ==> g[l] != '.')
  }

  /** A group of that shape always parses, to a value that is not negative. */
  lemma UsageGroupParses(g: string)
    requires IsUsageGroup(g)
    ensures ParseFloat(g).Some? && ParseFloat(g).value >= 0.0
  {
    IndexSpec(g, ".");
    match Index(g, ".")
    case None =>
      forall k | 0 <= k < |g|
        ensures IsDigit(g[k])
      {
        if k + 1 <= |g| {
          assert !OccursAt(g, ".", k);
          assert g[k..k + 1] == [g[k]];
        }
      }
    case Some(i) =>
      assert g[i..i + 1] == "." && g[i] == '.';
      assert AllDigits(g[..i]) by {
        forall k | 0 <= k < i
          ensures IsDigit(g[..i][k])
        {
          assert g[..i][k] == g[k];
          assert !OccursAt(g, ".", k);
          assert g[k..k + 1] == [g[k]];
        }
      }
      var frac := g[i + 1..];
      forall k | 0 <= k < |frac|
        ensures IsDigit(frac[k])
      {
        assert frac[k] == g[i + 1 + k];
      }
  }

  /** The group the pattern captures when its match starts at `i`. */
  function UsageMatchAt(line: string, i: nat): (c: Option<string>)
    ensures c.Some? ==> OccursAt(line, "gpu", i) && IsUsageGroup(c.value)
  {
    if !OccursAt(line, "gpu", i) then None
    else
      var w := SpanEnd(line, i + 3, IsRegexSpace);
      var d := SpanEnd(line, w, IsDigit);
      if w == i + 3 || d == w then None
      else
        var e := if d < |line| && line[d] == '.' then SpanEnd(line, d + 1, IsDigit) else d;
        if e < |line| && line[e] == '%' then
          var g := line[w..e];
          assert forall k :: 0 <= k < |g| ==> g[k] == line[w + k];
          assert forall k :: 0 <= k < |g| && w + k != d ==> IsDigit(g[k]);
          Some(g)
        else None
  }

  /** What UsageMatchAt finds is a match of the pattern, with that group. */
  lemma UsageMatchAtSound(line: string, i: nat)
    requires UsageMatchAt(line, i).Some?
    ensures exists w: nat, e: nat :: RegexMatchAt(line, i, w, e) && UsageMatchAt(line, i) == Some(line[w..e])
  {
    var w := SpanEnd(line, i + 3, IsRegexSpace);
    var d := SpanEnd(line, w, IsDigit);
    var e := if d < |line| && line[d] == '.' then SpanEnd(line, d + 1, IsDigit) else d;
    assert line[i..i + 3] == "gpu";
    assert RegexMatchAt(line, i, w, e);
  }

  /** A run of `p` that ends where `p` fails is the run SpanEnd finds. */
  lemma {:induction false} SpanEndUnique(s: string, i: nat, p: char -> bool, j: nat)
    requires i <= j <= |s|
    requires forall k :: i <= k < j ==> p(s[k])
    requires j < |s| ==> !p(s[j])
    ensures SpanEnd(s, i, p) == j
    decreases j - i
  {
    if i < j {
      SpanEndUnique(s, i + 1, p, j);
    }
  }

  /** A run of `p` stops at or before any position where `p` fails. */
  lemma {:induction false} SpanEndBound(s: string, i: nat, p: char -> bool, b: nat)
    requires i <= b < |s| && !p(s[b])
    ensures SpanEnd(s, i, p) <= b
    decreases b - i
  {
    if i < b && p(s[i]) {
      SpanEndBound(s, i + 1, p, b);
    }
  }

  /** Every match of the pattern at `i` is the one UsageMatchAt finds: the group is unique. */
  lemma UsageMatchAtComplete(line: string, i: nat, w: nat, e: nat)
    requires RegexMatchAt(line, i, w, e)
    ensures UsageMatchAt(line, i) == Some(line[w..e])
  {
    assert OccursAt(line, "gpu", i);
    assert !IsRegexSpace(line[w]);
    SpanEndUnique(line, i + 3, IsRegexSpace, w);
    var d := SpanEnd(line, w, IsDigit);
    assert !IsDigit(line[e]);
    SpanEndBound(line, w, IsDigit, e);
    assert d > w;
    if d < e {
      assert line[d] == '.';
      forall k | d + 1 <= k < e
        ensures IsDigit(line[k])
      {
        assert line[k] != '.';
      }
      SpanEndUnique(line, d + 1, IsDigit, e);
    } else {
      assert line[d] == '%';
    }
  }

  /** The leftmost match of the pattern at or after `i`: its group. */
  function FindUsageFrom(line: string, i: nat): (c: Option<string>)
    requires i <= |line|
    ensures c.Some? ==> IsUsageGroup(c.value)
    decreases |line| - i
  {
    if i == |line| then None
    else if UsageMatchAt(line, i).Some? then UsageMatchAt(line, i)
    else FindUsageFrom(line, i + 1)
  }

  /** The match at the leftmost start `k` at or after `i` is the one found. */
  lemma {:induction false} FindUsageFromLeftmost(line: string, i: nat, k: nat)
    requires i <= k < |line| && UsageMatchAt(line, k).Some?
    requires forall j :: i <= j < k ==> UsageMatchAt(line, j).None?
    ensures FindUsageFrom(line, i) == UsageMatchAt(line, k)
    decreases k - i
  {
    if i < k {
      FindUsageFromLeftmost(line, i + 1, k);
    }
  }

  /** Nothing is found exactly when the pattern matches at no start at or after `i`. */
  lemma {:induction false} FindUsageFromNone(line: string, i: nat)
    requires i <= |line|
    ensures FindUsageFrom(line, i).None? <==> forall k :: i <= k < |line| ==> UsageMatchAt(line, k).None?
    decreases |line| - i
  {
    if i < |line| {
      FindUsageFromNone(line, i + 1);
      var here := UsageMatchAt(line, i);
      if here.None? {
        assert FindUsageFrom(line, i) == FindUsageFrom(line, i + 1);
      } else {
        assert FindUsageFrom(line, i) == here;
      }
    }
  }

  /** regexp FindStringSubmatch: the group of the leftmost match. */
  function FindUsage(line: string): (c: Option<string>)
    ensures c.Some? ==> IsUsageGroup(c.value)
  {
    FindUsageFrom(line, 0)
  }

  /** The usage one radeontop line reports, if it has the pattern and the group parses. */
  function RadeonLineUsage(line: string): (u: Option<real>)
    ensures u.Some? ==> Contains(line, "gpu") && Contains(line, "%") && FindUsage(line).Some?
    ensures u.Some? ==> u.value >= 0.0
    ensures u.Some? ==> ParseFloat(FindUsage(line).value) == u
  {
    if Contains(line, "gpu") && Contains(line, "%") then
      match FindUsage(line)
      case None => None
      case Some(group) => ParseFloat(group)
    else None
  }

  /**
   * A line with both keywords reports a usage exactly when the pattern
   * matches: with exact reals the captured group always parses, so in this
   * model the parse error is never taken.
   */
  lemma RadeonUsageWhenMatched(line: string)
    ensures RadeonLineUsage(line).Some? <==> Contains(line, "gpu") && Contains(line, "%") && FindUsage(line).Some?
  {
    if FindUsage(line).Some? {
      UsageGroupParses(FindUsage(line).value);
    }
  }

  /** The usage of the first line, in order, that reports one. */
  function FirstRadeonUsage(lines: seq<string>): (r: Option<real>)
    ensures r.Some? ==> r.value >= 0.0
  {
    if lines == [] then None
    else if RadeonLineUsage(lines[0]).Some? then RadeonLineUsage(lines[0])
    else FirstRadeonUsage(lines[1..])
  }

  /** The reading of the first line that has one is the result. */
  lemma {:induction false} FirstRadeonUsageAt(lines: seq<string>, k: nat)
    requires k < |lines| && RadeonLineUsage(lines[k]).Some?
    requires forall j :: 0 <= j < k ==> RadeonLineUsage(lines[j]).None?
    ensures FirstRadeonUsage(lines) == RadeonLineUsage(lines[k])
  {
    if k > 0 {
      assert RadeonLineUsage(lines[0]).None?;
      assert forall j :: 0 <= j < k - 1 ==> lines[1..][j] == lines[j + 1];
      FirstRadeonUsageAt(lines[1..], k - 1);
    }
  }

  /** No reading exactly when no line has one. */
  lemma {:induction false} FirstRadeonUsageNone(lines: seq<string>)
    ensures FirstRadeonUsage(lines).None? <==> forall i :: 0 <= i < |lines| ==> RadeonLineUsage(lines[i]).None?
  {
    if lines != [] {
      FirstRadeonUsageNone(lines[1..]);
      assert forall i :: 1 <= i < |lines| ==> lines[i] == lines[1..][i - 1];
    }
  }

  /** The AMD entry radeontop output describes, if any. */
  function RadeontopEntry(output: string): (g: Option<GPUMetrics>)
    ensures g.Some? ==> (g.value.Type == AmdType && g.value.Name == "AMD GPU" &&
                         g.value.Temperature == 0.0 && g.value.Error == "")
    ensures g.None? <==> FirstRadeonUsage(Split(output, LineSeparator)).None?
    ensures g.Some? ==> Some(g.value.UsagePercent) == FirstRadeonUsage(Split(output, LineSeparator))
  {
    match FirstRadeonUsage(Split(output, LineSeparator))
    case None => None
    case Some(usage) => Some(GPUMetrics("AMD GPU", AmdType, usage, 0.0, ""))
  }

  /** In "gpu 12.50%" the pattern captures "12.50". */
  lemma SampleCapture(line: string)
    requires line == "gpu 12.50%"
    ensures FindUsage(line) == Some("12.50")
  {
    assert line[0..3] == "gpu" && line[9] == '%';
    assert RegexMatchAt(line, 0, 4, 9);
    UsageMatchAtComplete(line, 0, 4, 9);
    FindUsageFromLeftmost(line, 0, 0);
    assert line[4..9] == "12.50";
  }

  /** The digits of "12.50" denote 12 and 50 hundredths. */
  lemma SampleDigits()
    ensures DecimalValue("12", "50") == 12.5
  {
    assert DigitsValue("12") == 12 by { assert "12"[..1] == "1" && DigitsValue("1") == 1; }
    assert DigitsValue("50") == 50 by { assert "50"[..1] == "5" && DigitsValue("5") == 5; }
    assert Pow10(2) == 100;
  }

  /** "12.50" reads as 12.5. */
  lemma SampleUsageValue()
    ensures ParseFloat("12.50") == Some(12.5)
  {
    assert "12.50" == "" + "12" + "." + "50";
    ParseFloatDecimal("", "12", "50");
    SampleDigits();
  }

  /** The line "gpu 12.50%" reports a usage of 12.5. */
  lemma SampleLineUsage(line: string)
    requires line == "gpu 12.50%"
    ensures RadeonLineUsage(line) == Some(12.5)
  {
    SampleCapture(line);
    SampleUsageValue();
    assert OccursAt(line, "gpu", 0) && OccursAt(line, "%", 9) by { assert line[9..10] == "%"; }
    IndexSpec(line, "gpu");
    IndexSpec(line, "%");
  }

  /** A radeontop output "gpu 12.50%" describes an AMD GPU at 12.5 % usage. */
  lemma RadeontopSample(output: string)
    requires output == "gpu 12.50%"
    ensures RadeontopEntry(output) == Some(GPUMetrics("AMD GPU", AmdType, 12.5, 0.0, ""))
  {
    SampleLineUsage(output);
    assert forall i :: 0 <= i < |output| ==> output[i] != '\n';
    NotInString(output, '\n');
    assert Split(output, LineSeparator) == [output];
    assert [output][1..] == [];
  }

  /** parseRadeontopOutput: scan the lines and stop at the first usage reading. */
  method ParseRadeontopOutput(output: string) returns (gpu: Option<GPUMetrics>)
    ensures gpu == RadeontopEntry(output)
  {
    var lines := Split(output, LineSeparator);
    for i := 0 to |lines|
      invariant FirstRadeonUsage(lines[i..]) == FirstRadeonUsage(lines)
    {
      var line := lines[i];
      assert lines[i..][1..] == lines[i + 1..];
      if Contains(line, "gpu") && Contains(line, "%") {
        var matches := FindUsage(line);
        if matches.Some? {
          var usage := ParseFloat(matches.value);
          if usage.None? {
            continue;
          }
          return Some(GPUMetrics("AMD GPU", AmdType, usage.value, 0.0, ""));
        }
      }
    }
    return None;
  }

  /** What the AMD collector reports for one run of radeontop. */
  function AmdGPUs(run: ToolRun): (gpus: seq<GPUMetrics>)
    ensures |gpus| <= 1
    ensures forall g :: g in gpus ==> g.Type == AmdType
  {
    match run
    case Output(out) => OptionToSeq(RadeontopEntry(out))
    case _ => []
  }

  /** collectAMDGPUs: at most one entry, from the first usage line. */
  method CollectAMDGPUs(run: ToolRun) returns (gpus: seq<GPUMetrics>)
    ensures gpus == AmdGPUs(run)
  {
    gpus := [];
    match run {
      case Absent =>
        return;
      case Failed =>
        return;
      case Output(out) =>
        var gpu := ParseRadeontopOutput(out);
        if gpu.Some? {
          gpus := gpus + [gpu.value];
        }
    }
  }

  // ---------------------------------------------------------------------
  // Integrated GPU and the aggregate
  // ---------------------------------------------------------------------

  const IntegratedNotImplemented := "Integrated GPU monitoring not fully implemented"

  /**
   * collectIntegratedGPU: a placeholder entry, flagged with an error, exactly
   * when lspci mentions "VGA" and "Intel" or "AMD" (case-sensitive).
   */
  function CollectIntegratedGPU(run: ToolRun): (g: Option<GPUMetrics>)
    ensures g.Some? <==> (run.Output? && Contains(run.stdout, "VGA") &&
                          (Contains(run.stdout, "Intel") || Contains(run.stdout, "AMD")))
    ensures g.Some? ==> (g.value.Type == IntegratedType && g.value.Error != "" &&
                         g.value.UsagePercent == 0.0 && g.value.Temperature == 0.0)
  {
    match run
    case Output(out) =>
      if Contains(out, "VGA") && (Contains(out, "Intel") || Contains(out, "AMD")) then
        Some(GPUMetrics("Integrated GPU", IntegratedType, 0.0, 0.0, IntegratedNotImplemented))
      else None
    case _ => None
  }

  /** All GPUs: the NVIDIA entries, then the AMD entry, then the integrated one. */
  function AllGPUs(tools: GpuTools): (gpus: seq<GPUMetrics>)
    ensures |NvidiaGPUs(tools.nvidiaSmi)| <= |gpus| <= |NvidiaGPUs(tools.nvidiaSmi)| + 2
    ensures gpus[..|NvidiaGPUs(tools.nvidiaSmi)|] == NvidiaGPUs(tools.nvidiaSmi)
  {
    NvidiaGPUs(tools.nvidiaSmi) + AmdGPUs(tools.radeontop) + OptionToSeq(CollectIntegratedGPU(tools.lspci))
  }

  /** CollectAllGPUMetrics: concatenate the vendors' contributions in order. */
  method CollectAllGPUMetrics(tools: GpuTools) returns (gpus: seq<GPUMetrics>)
    ensures gpus == AllGPUs(tools)
  {
    gpus := [];
    var nvidiaGPUs := CollectNVIDIAGPUs(tools.nvidiaSmi);
    gpus := gpus + nvidiaGPUs;
    assert gpus == nvidiaGPUs;
    var amdGPUs := CollectAMDGPUs(tools.radeontop);
    gpus := gpus + amdGPUs;
    var integratedGPU := CollectIntegratedGPU(tools.lspci);
    if integratedGPU.Some? {
      gpus := gpus + [integratedGPU.value];
    }
  }

  /**
   * Every entry carries one of the three vendor tags, entries are grouped by
   * vendor in the order NVIDIA, AMD, integrated, and AMD and integrated give
   * at most one entry each.
   */
  lemma AllGPUsByVendor(tools: GpuTools)
    ensures forall g :: g in AllGPUs(tools) ==> KnownGpuType(g.Type)
    ensures forall i, j :: 0 <= i < j < |AllGPUs(tools)| ==>
      VendorRank(AllGPUs(tools)[i].Type) <= VendorRank(AllGPUs(tools)[j].Type)
    ensures |AllGPUs(tools)| <= |NvidiaGPUs(tools.nvidiaSmi)| + 2
  {
    var nv, amd, ig := NvidiaGPUs(tools.nvidiaSmi), AmdGPUs(tools.radeontop), OptionToSeq(CollectIntegratedGPU(tools.lspci));
    var all := AllGPUs(tools);
    assert forall k :: 0 <= k < |nv| ==> nv[k] in nv;
    assert forall k :: 0 <= k < |amd| ==> amd[k] in amd;
    forall k | 0 <= k < |all|
      ensures VendorRank(all[k].Type) == if k < |nv| then 0 else if k < |nv| + |amd| then 1 else 2
    {
      if k < |nv| {
        assert all[k] == nv[k];
      } else if k < |nv| + |amd| {
        assert all[k] == amd[k - |nv|];
      } else {
        assert all[k] == ig[k - |nv| - |amd|];
      }
    }
  }

  /**
   * A tool that is missing or fails contributes nothing, and no error entry
   * either: with no tool that runs there are no GPUs at all.
   */
  lemma NoToolsNoGPUs(tools: GpuTools)
    requires !tools.nvidiaSmi.Output? && !tools.radeontop.Output? && !tools.lspci.Output?
    ensures AllGPUs(tools) == []
  {
  }
}
