/**
  The Deep Clean job's pure parts: counting the entries of a folder whose
  removal succeeded, the decimal rendering of counts, and the log lines
  the job writes.

  The filesystem is not modelled. A folder is the sequence of outcomes of
  removing its entries one by one (true: removed without error); whether
  the user's temporary folder could be located is a boolean.
 */
module Cleanup {
  import opened Wrappers

  // ---------------------------------------------------------------------------
  // Counting removed entries
  // ---------------------------------------------------------------------------

  /** The number of successful removals among `outcomes`. */
  function CountTrue(outcomes: seq<bool>): (n: nat)
    ensures n <= |outcomes|
  {
    if outcomes == [] then 0
    else CountTrue(outcomes[..|outcomes| - 1]) + (if outcomes[|outcomes| - 1] then 1 else 0)
  }

  /** The count is the multiplicity of `true` among the outcomes. */
  lemma {:induction false} CountTrueIsMultiplicity(outcomes: seq<bool>)
    ensures CountTrue(outcomes) == multiset(outcomes)[true]
  {
    if outcomes != [] {
      var init := outcomes[..|outcomes| - 1];
      CountTrueIsMultiplicity(init);
      assert outcomes == init + [outcomes[|outcomes| - 1]];
    }
  }

  /**
    Remove every entry of one folder, counting only the entries whose
    removal reported no error. A folder that cannot be opened has no
    entries. An error while advancing to the next entry throws and ends
    the program; that run is not modelled.
   */
  method DeleteTempFolder(outcomes: seq<bool>) returns (count: nat)
    ensures count == CountTrue(outcomes)
    ensures count <= |outcomes|
  {
    count := 0;
    var i := 0;
    while i < |outcomes|
      invariant 0 <= i <= |outcomes|
      invariant count == CountTrue(outcomes[..i])
    {
      assert outcomes[..i + 1][..i] == outcomes[..i];
      if outcomes[i] {
        count := count + 1;
      }
      i := i + 1;
    }
    assert outcomes[..i] == outcomes;
  }

  /** The successes of two runs of removals together are the successes of each. */
  lemma CountTrueAppend(a: seq<bool>, b: seq<bool>)
    ensures CountTrue(a + b) == CountTrue(a) + CountTrue(b)
  {
    CountTrueIsMultiplicity(a);
    CountTrueIsMultiplicity(b);
    CountTrueIsMultiplicity(a + b);
  }

  // ---------------------------------------------------------------------------
  // Decimal text of a count, as the standard library's to_string writes it
  // ---------------------------------------------------------------------------

  predicate IsDigits(s: string)
  {
    forall i :: 0 <= i < |s| ==> '0' <= s[i] <= '9'
  }

  function DigitChar(d: nat): (c: char)
    requires d < 10
    ensures '0' <= c <= '9'
    ensures c as int - '0' as int == d
  {
    ('0' as int + d) as char
  }

  /** Decimal digits of `n`, most significant first, without leading zeros. */
  function NatToString(n: nat): (s: string)
    ensures |s| > 0 && IsDigits(s)
    ensures s[0] == '0' ==> n == 0
    decreases n
  {
    if n < 10 then [DigitChar(n)] else NatToString(n / 10) + [DigitChar(n % 10)]
  }

  /** The value of a string of decimal digits. */
  function ParseDecimal(s: string): nat
    requires IsDigits(s)
  {
    if s == [] then 0
    else ParseDecimal(s[..|s| - 1]) * 10 + (s[|s| - 1] as int - '0' as int)
  }

  /** Reading back the text of a count gives the count. */
  lemma {:induction false} ParseNatToString(n: nat)
    ensures ParseDecimal(NatToString(n)) == n
    decreases n
  {
    var s := NatToString(n);
    if n >= 10 {
      ParseNatToString(n / 10);
      assert s[..|s| - 1] == NatToString(n / 10);
    }
  }

  /** Different counts are written differently. */
  lemma NatToStringInjective(m: nat, n: nat)
    requires NatToString(m) == NatToString(n)
    ensures m == n
  {
    ParseNatToString(m);
    ParseNatToString(n);
  }

  /**
    The number written between `pre` and `post` in `line`, if `line`
    consists of exactly those three parts.
   */
  function ReadCount(line: string, pre: string, post: string): Option<nat>
  {
    if |pre| + |post| < |line| && line[..|pre|] == pre && line[|line| - |post|..] == post
       && IsDigits(line[|pre|..|line| - |post|])
    then Some(ParseDecimal(line[|pre|..|line| - |post|]))
    else None
  }

  /** A count framed by two fixed texts reads back as itself. */
  lemma ReadCountFramed(pre: string, n: nat, post: string)
    ensures ReadCount(pre + NatToString(n) + post, pre, post) == Some(n)
  {
    var line := pre + NatToString(n) + post;
    assert line[..|pre|] == pre;
    assert line[|line| - |post|..] == post;
    assert line[|pre|..|line| - |post|] == NatToString(n);
    ParseNatToString(n);
  }

  // ---------------------------------------------------------------------------
  // The job's log
  // ---------------------------------------------------------------------------

  const TempPrefix := "  %TEMP%: removed "
  const WinTempPrefix := "  C:\\Windows\\Temp: removed "
  const PrefetchPrefix := "  Prefetch: removed "
  const ItemsSuffix := " items"
  const DnsLine := "  DNS cache flushed"
  const TotalPrefix := "\n  Total: "
  const TotalSuffix := " items cleared"

  /** The total the job reports: the temporary folder counts only when it was found. */
  function JobTotal(tempFound: bool, n1: nat, n2: nat, n3: nat): (total: nat)
    ensures tempFound ==> total == n1 + n2 + n3
    ensures !tempFound ==> total == n2 + n3
  {
    (if tempFound then n1 else 0) + n2 + n3
  }

  /** The line reporting how many entries of one folder were removed. */
  function FolderLine(prefix: string, n: nat): string
  {
    prefix + NatToString(n) + ItemsSuffix
  }

  /** The closing line with the job's total. */
  function TotalLine(total: nat): string
  {
    TotalPrefix + NatToString(total) + TotalSuffix
  }

  /** The lines the job logs before its total: one per folder attempted, then the DNS line. */
  function FolderLines(tempFound: bool, n1: nat, n2: nat, n3: nat): (lines: seq<string>)
    ensures |lines| == if tempFound then 4 else 3
  {
    (if tempFound then [FolderLine(TempPrefix, n1)] else [])
    + [FolderLine(WinTempPrefix, n2), FolderLine(PrefetchPrefix, n3), DnsLine]
  }

  /**
    The temporary folder's line comes first when that folder was found;
    the other two folders and the DNS line always close the list, in that order.
   */
  lemma FolderLinesShape(tempFound: bool, n1: nat, n2: nat, n3: nat)
    ensures var lines := FolderLines(tempFound, n1, n2, n3);
            && (tempFound ==> lines[0] == FolderLine(TempPrefix, n1))
            && lines[|lines| - 3..] == [FolderLine(WinTempPrefix, n2), FolderLine(PrefetchPrefix, n3), DnsLine]
  {
  }

  /** The lines the job passes to its log callback, in order. */
  function JobLines(tempFound: bool, n1: nat, n2: nat, n3: nat): (lines: seq<string>)
    ensures |lines| == |FolderLines(tempFound, n1, n2, n3)| + 1
  {
    FolderLines(tempFound, n1, n2, n3) + [TotalLine(JobTotal(tempFound, n1, n2, n3))]
  }

  /** The total line closes the log, after every folder line. */
  lemma JobLinesShape(tempFound: bool, n1: nat, n2: nat, n3: nat)
    ensures var lines := JobLines(tempFound, n1, n2, n3);
            && lines[..|lines| - 1] == FolderLines(tempFound, n1, n2, n3)
            && lines[|lines| - 1] == TotalLine(JobTotal(tempFound, n1, n2, n3))
  {
  }

  /** The folder lines, as the job logs them one after another. */
  lemma FolderLinesInOrder(tempFound: bool, n1: nat, n2: nat, n3: nat, head: seq<string>)
    requires head == if tempFound then [FolderLine(TempPrefix, n1)] else []
    ensures head + [FolderLine(WinTempPrefix, n2), FolderLine(PrefetchPrefix, n3), DnsLine]
            == FolderLines(tempFound, n1, n2, n3)
  {
  }

  /** What the Clean panel's log sink makes of a run of lines: each one followed by a newline. */
  function Sink(lines: seq<string>): (s: string)
    ensures |s| >= |lines|
  {
    if lines == [] then ""
    else Sink(lines[..|lines| - 1]) + lines[|lines| - 1] + "\n"
  }

  /** Logging two runs of lines one after the other logs each in turn. */
  lemma {:induction false} SinkAppend(a: seq<string>, b: seq<string>)
    ensures Sink(a + b) == Sink(a) + Sink(b)
  {
    if b == [] {
      assert a + b == a;
    } else {
      var b' := b[..|b| - 1];
      assert (a + b)[..|a + b| - 1] == a + b';
      assert (a + b)[|a + b| - 1] == b[|b| - 1];
      SinkAppend(a, b');
    }
  }

  lemma SinkSnoc(lines: seq<string>, line: string)
    ensures Sink(lines + [line]) == Sink(lines) + line + "\n"
  {
    assert (lines + [line])[..|lines|] == lines;
  }

  /** The summary line appended after the run. */
  function CompletionMessage(total: nat): (msg: string)
    ensures |msg| > |"Clean complete — "| + |" items removed"|
  {
    "Clean complete — " + NatToString(total) + " items removed"
  }

  /** The total can be read back from the summary line. */
  lemma CompletionMessageReadsBack(total: nat)
    ensures ReadCount(CompletionMessage(total), "Clean complete — ", " items removed") == Some(total)
  {
    ReadCountFramed("Clean complete — ", total, " items removed");
  }

  /**
    The job's total is the number of successful removals over the folders
    it attempted: the temporary folder only if it was found.
   */
  lemma JobTotalIsRemovals(tempFound: bool, temp: seq<bool>, win: seq<bool>, prefetch: seq<bool>)
    ensures JobTotal(tempFound, CountTrue(temp), CountTrue(win), CountTrue(prefetch))
            == CountTrue((if tempFound then temp else []) + win + prefetch)
  {
    CountTrueAppend((if tempFound then temp else []) + win, prefetch);
    CountTrueAppend(if tempFound then temp else [], win);
  }

  /**
    The log of a run holds one line per folder that was attempted, then the
    DNS line, then the total; and the total read from the last line is
    the sum of the counts read from the folder lines.
   */
  lemma JobLogTotals(tempFound: bool, n1: nat, n2: nat, n3: nat)
    ensures var lines := JobLines(tempFound, n1, n2, n3);
            var k := if tempFound then 1 else 0;
            && |lines| == k + 4
            && (tempFound ==> ReadCount(lines[0], TempPrefix, ItemsSuffix) == Some(n1))
            && ReadCount(lines[k], WinTempPrefix, ItemsSuffix) == Some(n2)
            && ReadCount(lines[k + 1], PrefetchPrefix, ItemsSuffix) == Some(n3)
            && lines[k + 2] == DnsLine
            && ReadCount(lines[k + 3], TotalPrefix, TotalSuffix)
               == Some((if tempFound then n1 else 0) + n2 + n3)
  {
    ReadCountFramed(TempPrefix, n1, ItemsSuffix);
    ReadCountFramed(WinTempPrefix, n2, ItemsSuffix);
    ReadCountFramed(PrefetchPrefix, n3, ItemsSuffix);
    ReadCountFramed(TotalPrefix, JobTotal(tempFound, n1, n2, n3), TotalSuffix);
  }

  /** Counts 120, 0 and 40 from the three folders give a total line of 160. */
  lemma ScenarioTotal160()
    ensures JobTotal(true, 120, 0, 40) == 160
    ensures JobLines(true, 120, 0, 40)[4] == "\n  Total: 160 items cleared"
  {
    assert NatToString(1) == "1";
    assert NatToString(16) == "16";
    assert NatToString(160) == "160";
  }
}
