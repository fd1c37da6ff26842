/** File names of the election manager (apps/election-manager/src/utils/filenames.ts):
    `sanitizeString` and the name of a ballot export package.
    `moment(time).format(...)` becomes a broken-down local time `DateTime`. */
module Filenames {

  const SectionSeparator := "__"
  const SubsectionSeparator := "_"
  const WordSeparator := "-"

  /** The regular expression class [a-z0-9] under the `i` flag: ASCII letters
      of either case and ASCII digits. */
  predicate IsAsciiAlnum(c: char) {
    ('a' <= c <= 'z') || ('A' <= c <= 'Z') || ('0' <= c <= '9')
  }

  /** The characters a sanitized string may contain. */
  predicate IsSanitizedChar(c: char) {
    ('a' <= c <= 'z') || ('0' <= c <= '9') || c == '-'
  }

  function ToLower(c: char): (d: char)
    ensures IsAsciiAlnum(c) ==> IsAsciiAlnum(d) && d != '-' && IsSanitizedChar(d)
    ensures !IsAsciiAlnum(c) ==> d == c
  {
    if 'A' <= c <= 'Z' then (c as int - 'A' as int + 'a' as int) as char else c
  }

  /** `toLocaleLowerCase` on a string of ASCII characters. */
  function Lower(s: string): (r: string)
    ensures |r| == |s|
    ensures forall i :: 0 <= i < |s| ==> r[i] == ToLower(s[i])
  {
    if s == [] then [] else [ToLower(s[0])] + Lower(s[1..])
  }

  /** The leading run of non-alphanumeric characters removed. */
  function SkipNonAlnum(s: string): (r: string)
    ensures |r| <= |s|
    ensures r == [] || IsAsciiAlnum(r[0])
  {
    if s == [] || IsAsciiAlnum(s[0]) then s else SkipNonAlnum(s[1..])
  }

  /** What SkipNonAlnum leaves is a suffix, and everything before it is a
      non-alphanumeric character. */
  lemma {:induction false} SkipNonAlnumShape(s: string)
    ensures SkipNonAlnum(s) == s[|s| - |SkipNonAlnum(s)|..]
    ensures forall i :: 0 <= i < |s| - |SkipNonAlnum(s)| ==> !IsAsciiAlnum(s[i])
  {
    if s != [] && !IsAsciiAlnum(s[0]) {
      SkipNonAlnumShape(s[1..]);
    }
  }

  /** `.replace(/[^a-z0-9]+/gi, '-')`: every maximal run of other characters
      becomes a single '-'. */
  function ReplaceRuns(s: string): string
    decreases |s|
  {
    if s == [] then []
    else if IsAsciiAlnum(s[0]) then [s[0]] + ReplaceRuns(s[1..])
    else WordSeparator + ReplaceRuns(SkipNonAlnum(s[1..]))
  }

  /** `.replace(/(^-|-$)+/g, '')`: a leading and a trailing '-' removed. */
  function TrimDashes(s: string): string {
    var t := if |s| > 0 && s[0] == '-' then s[1..] else s;
    if |t| > 0 && t[|t| - 1] == '-' then t[..|t| - 1] else t
  }

  function SanitizeString(input: string): string {
    Lower(TrimDashes(ReplaceRuns(input)))
  }

  /** No two consecutive '-'. */
  predicate NoDoubleDash(s: string) {
    |s| < 2 || (!(s[0] == '-' && s[1] == '-') && NoDoubleDash(s[1..]))
  }

  /** The alphanumeric characters of s, in order. */
  function Alnums(s: string): string {
    if s == [] then []
    else if IsAsciiAlnum(s[0]) then [s[0]] + Alnums(s[1..])
    else Alnums(s[1..])
  }

  predicate IsSanitized(s: string) {
    && (forall i :: 0 <= i < |s| ==> IsSanitizedChar(s[i]))
    && NoDoubleDash(s)
    && (|s| > 0 ==> s[0] != '-' && s[|s| - 1] != '-')
  }

  /** What ReplaceRuns produces: only alphanumerics and single dashes; it
      starts with '-' exactly when the input starts with another character. */
  lemma {:induction false} ReplaceRunsShape(s: string)
    ensures forall i :: 0 <= i < |ReplaceRuns(s)| ==> IsAsciiAlnum(ReplaceRuns(s)[i]) || ReplaceRuns(s)[i] == '-'
    ensures NoDoubleDash(ReplaceRuns(s))
    ensures ReplaceRuns(s) == [] <==> s == []
    ensures s != [] ==> (ReplaceRuns(s)[0] == '-' <==> !IsAsciiAlnum(s[0]))
    ensures Alnums(ReplaceRuns(s)) == Alnums(s)
    decreases |s|
  {
    if s == [] {
    } else if IsAsciiAlnum(s[0]) {
      ReplaceRunsShape(s[1..]);
      var r := ReplaceRuns(s[1..]);
      assert ReplaceRuns(s) == [s[0]] + r;
      assert ([s[0]] + r)[1..] == r;
    } else {
      var t := SkipNonAlnum(s[1..]);
      ReplaceRunsShape(t);
      AlnumsOfSkipped(s[1..]);
      var r := ReplaceRuns(t);
      assert ReplaceRuns(s) == "-" + r;
      assert ("-" + r)[1..] == r;
    }
  }

  /** An input of alphanumerics alone is left as it is. */
  lemma {:induction false} ReplaceRunsOfAlnums(s: string)
    requires forall i :: 0 <= i < |s| ==> IsAsciiAlnum(s[i])
    ensures ReplaceRuns(s) == s
    decreases |s|
  {
    if s != [] {
      ReplaceRunsOfAlnums(s[1..]);
    }
  }

  /** A maximal run of other characters, preceded by nothing or by an
      alphanumeric and followed by nothing or by an alphanumeric, becomes one
      '-' between the replaced parts on either side. */
  lemma {:induction false} ReplaceRunsOfRun(a: string, run: string, b: string)
    requires a == [] || IsAsciiAlnum(a[|a| - 1])
    requires run != [] && forall i :: 0 <= i < |run| ==> !IsAsciiAlnum(run[i])
    requires b == [] || IsAsciiAlnum(b[0])
    ensures ReplaceRuns(a + run + b) == ReplaceRuns(a) + WordSeparator + ReplaceRuns(b)
  {
    assert a + run + b == a + (run + b);
    ReplaceRunsSplit(a, run + b);
    ReplaceRunsOfLeadingRun(run, b);
    assert ReplaceRuns(a) + (WordSeparator + ReplaceRuns(b)) == ReplaceRuns(a) + WordSeparator + ReplaceRuns(b);
  }

  /** No run crosses the end of a string that is empty or ends with an
      alphanumeric, so the two parts are replaced independently. */
  lemma {:induction false} ReplaceRunsSplit(a: string, x: string)
    requires a == [] || IsAsciiAlnum(a[|a| - 1])
    ensures ReplaceRuns(a + x) == ReplaceRuns(a) + ReplaceRuns(x)
    decreases |a|
  {
    if a == [] {
      assert a + x == x;
    } else if IsAsciiAlnum(a[0]) {
      assert a[1..] == [] || a[1..][|a| - 2] == a[|a| - 1];
      ReplaceRunsSplit(a[1..], x);
      SplitAfterAlnumHead(a, x);
    } else {
      var c := SkipNonAlnum(a);
      SkipNonAlnumShape(a);
      var lead := a[..|a| - |c|];
      assert c != [] && |c| < |a|;
      assert a == lead + c;
      assert c[|c| - 1] == a[|a| - 1];
      assert forall i :: 0 <= i < |lead| ==> lead[i] == a[i];
      ReplaceRunsSplit(c, x);
      SplitAfterLeadingRun(lead, c, x);
    }
  }

  lemma {:induction false} SplitAfterAlnumHead(a: string, x: string)
    requires a != [] && IsAsciiAlnum(a[0])
    requires ReplaceRuns(a[1..] + x) == ReplaceRuns(a[1..]) + ReplaceRuns(x)
    ensures ReplaceRuns(a + x) == ReplaceRuns(a) + ReplaceRuns(x)
  {
    HeadTail(a, x);
    ReplaceRunsOfCons(a + x, a[0], a[1..] + x);
    ReplaceRunsOfCons(a, a[0], a[1..]);
    Chain(ReplaceRuns(a + x), ReplaceRuns(a[1..] + x), ReplaceRuns(a), ReplaceRuns(a[1..]), ReplaceRuns(x), [a[0]]);
  }

  lemma {:induction false} SplitAfterLeadingRun(lead: string, c: string, x: string)
    requires lead != [] && forall i :: 0 <= i < |lead| ==> !IsAsciiAlnum(lead[i])
    requires c != [] && IsAsciiAlnum(c[0])
    requires ReplaceRuns(c + x) == ReplaceRuns(c) + ReplaceRuns(x)
    ensures ReplaceRuns(lead + c + x) == ReplaceRuns(lead + c) + ReplaceRuns(x)
  {
    var t := c + x;
    assert lead + c + x == lead + t;
    assert t[0] == c[0];
    ReplaceRunsOfLeadingRun(lead, c);
    ReplaceRunsOfLeadingRun(lead, t);
    Chain(ReplaceRuns(lead + t), ReplaceRuns(t), ReplaceRuns(lead + c), ReplaceRuns(c), ReplaceRuns(x), WordSeparator);
  }

  lemma HeadTail(a: string, x: string)
    requires a != []
    ensures a + x == [a[0]] + (a[1..] + x)
  {
    assert a == [a[0]] + a[1..];
  }

  /** The equational step both cases end with. */
  lemma Chain(whole: string, rest: string, left: string, leftRest: string, right: string, head: string)
    requires whole == head + rest && rest == leftRest + right && left == head + leftRest
    ensures whole == left + right
  {
  }

  /** An alphanumeric head is kept in front of the replaced rest. */
  lemma {:induction false} ReplaceRunsOfCons(s: string, h: char, t: string)
    requires s == [h] + t && IsAsciiAlnum(h)
    ensures ReplaceRuns(s) == [h] + ReplaceRuns(t)
  {
    assert s[0] == h && s[1..] == t;
  }

  /** A leading run of other characters becomes one '-' in front of the
      replacement of the rest. */
  lemma {:induction false} ReplaceRunsOfLeadingRun(run: string, b: string)
    requires run != [] && forall i :: 0 <= i < |run| ==> !IsAsciiAlnum(run[i])
    requires b == [] || IsAsciiAlnum(b[0])
    ensures ReplaceRuns(run + b) == WordSeparator + ReplaceRuns(b)
  {
    var s := run + b;
    assert s[0] == run[0];
    assert s[1..] == run[1..] + b;
    SkipRun(run[1..], b);
  }

  lemma {:induction false} SkipRun(run: string, b: string)
    requires forall i :: 0 <= i < |run| ==> !IsAsciiAlnum(run[i])
    requires b == [] || IsAsciiAlnum(b[0])
    ensures SkipNonAlnum(run + b) == b
  {
    if run == [] {
      assert run + b == b;
    } else {
      var s := run + b;
      assert s[0] == run[0] && !IsAsciiAlnum(s[0]);
      assert s[1..] == run[1..] + b;
      assert SkipNonAlnum(s) == SkipNonAlnum(s[1..]);
      SkipRun(run[1..], b);
    }
  }

  lemma {:induction false} AlnumsOfSkipped(s: string)
    ensures Alnums(SkipNonAlnum(s)) == Alnums(s)
  {
    if s != [] && !IsAsciiAlnum(s[0]) {
      AlnumsOfSkipped(s[1..]);
    }
  }

  lemma {:induction false} NoDoubleDashSuffix(s: string, k: nat)
    requires NoDoubleDash(s) && k <= |s|
    ensures NoDoubleDash(s[k..])
  {
    if k > 0 && |s| >= 2 {
      NoDoubleDashSuffix(s[1..], k - 1);
      assert s[1..][k - 1..] == s[k..];
    }
  }

  lemma {:induction false} NoDoubleDashPrefix(s: string, k: nat)
    requires NoDoubleDash(s) && k <= |s|
    ensures NoDoubleDash(s[..k])
  {
    if k >= 2 {
      NoDoubleDashPrefix(s[1..], k - 1);
      assert s[..k][1..] == s[1..][..k - 1];
    }
  }

  lemma {:induction false} AlnumsAppendNonAlnum(s: string, c: char)
    requires !IsAsciiAlnum(c)
    ensures Alnums(s + [c]) == Alnums(s)
  {
    if s == [] {
      assert [c][1..] == [];
    } else {
      AlnumsAppendNonAlnum(s[1..], c);
      assert (s + [c])[1..] == s[1..] + [c];
    }
  }

  /** Trimming keeps the alphanumerics and the single dashes and leaves no
      dash at either end. */
  lemma TrimDashesShape(s: string)
    requires forall i :: 0 <= i < |s| ==> IsAsciiAlnum(s[i]) || s[i] == '-'
    requires NoDoubleDash(s)
    ensures var t := TrimDashes(s);
      && (forall i :: 0 <= i < |t| ==> IsAsciiAlnum(t[i]) || t[i] == '-')
      && NoDoubleDash(t)
      && (|t| > 0 ==> t[0] != '-' && t[|t| - 1] != '-')
      && Alnums(t) == Alnums(s)
  {
    var u := if |s| > 0 && s[0] == '-' then s[1..] else s;
    TrimLeadingDash(s);
    TrimTrailingDash(u);
  }

  /** Trimming removes at most one '-' at each end and keeps everything
      in between. */
  lemma TrimDashesKeepsInside(s: string)
    ensures var t := TrimDashes(s);
      s == t || s == "-" + t || s == t + "-" || s == "-" + t + "-"
  {
    var u := if |s| > 0 && s[0] == '-' then s[1..] else s;
    var t := TrimDashes(s);
    assert u == s || s == "-" + u;
    assert t == u || u == t + "-";
  }

  lemma TrimLeadingDash(s: string)
    requires forall i :: 0 <= i < |s| ==> IsAsciiAlnum(s[i]) || s[i] == '-'
    requires NoDoubleDash(s)
    ensures var u := if |s| > 0 && s[0] == '-' then s[1..] else s;
      && (forall i :: 0 <= i < |u| ==> IsAsciiAlnum(u[i]) || u[i] == '-')
      && NoDoubleDash(u)
      && (|u| > 0 ==> u[0] != '-')
      && Alnums(u) == Alnums(s)
  {
    if |s| > 0 && s[0] == '-' {
      NoDoubleDashSuffix(s, 1);
      if |s| > 1 {
        assert s[1] == s[1..][0];
      }
    }
  }

  lemma TrimTrailingDash(u: string)
    requires forall i :: 0 <= i < |u| ==> IsAsciiAlnum(u[i]) || u[i] == '-'
    requires NoDoubleDash(u)
    requires |u| > 0 ==> u[0] != '-'
    ensures var t := if |u| > 0 && u[|u| - 1] == '-' then u[..|u| - 1] else u;
      && (forall i :: 0 <= i < |t| ==> IsAsciiAlnum(t[i]) || t[i] == '-')
      && NoDoubleDash(t)
      && (|t| > 0 ==> t[0] != '-' && t[|t| - 1] != '-')
      && Alnums(t) == Alnums(u)
  {
    if |u| > 0 && u[|u| - 1] == '-' {
      var t := u[..|u| - 1];
      NoDoubleDashPrefix(u, |u| - 1);
      AlnumsAppendNonAlnum(t, '-');
      assert u == t + ['-'];
      if |t| > 0 {
        assert t[0] == u[0];
        NoDoubleDashSuffix(u, |u| - 2);
        assert u[|u| - 2..] == [t[|t| - 1], '-'];
      }
    }
  }

  lemma {:induction false} LowerKeepsNoDoubleDash(s: string)
    requires NoDoubleDash(s)
    ensures NoDoubleDash(Lower(s))
  {
    if |s| >= 2 {
      LowerKeepsNoDoubleDash(s[1..]);
      assert Lower(s)[1..] == Lower(s[1..]);
    }
  }

  lemma {:induction false} LowerAlnums(s: string)
    ensures Alnums(Lower(s)) == Lower(Alnums(s))
  {
    if s != [] {
      LowerAlnums(s[1..]);
      assert Lower(s)[1..] == Lower(s[1..]);
      assert IsAsciiAlnum(Lower(s)[0]) <==> IsAsciiAlnum(s[0]);
    }
  }

  /** The output holds only lower-case ASCII letters, digits and single
      inner dashes, never a dash at either end. */
  lemma SanitizeStringIsSanitized(input: string)
    ensures IsSanitized(SanitizeString(input))
  {
    var r := ReplaceRuns(input);
    ReplaceRunsShape(input);
    TrimDashesShape(r);
    var t := TrimDashes(r);
    LowerKeepsNoDoubleDash(t);
  }

  /** The alphanumeric characters of the input survive, in order, lower-cased. */
  lemma SanitizeStringKeepsAlnums(input: string)
    ensures Alnums(SanitizeString(input)) == Lower(Alnums(input))
  {
    var r := ReplaceRuns(input);
    ReplaceRunsShape(input);
    TrimDashesShape(r);
    LowerAlnums(TrimDashes(r));
  }

  /** A sanitized string is left alone by each of the three steps. */
  lemma {:induction false} ReplaceRunsOfSanitizedChars(s: string)
    requires forall i :: 0 <= i < |s| ==> IsSanitizedChar(s[i])
    requires NoDoubleDash(s)
    requires |s| > 0 ==> s[|s| - 1] != '-'
    ensures ReplaceRuns(s) == s
    decreases |s|
  {
    if s != [] {
      NoDoubleDashSuffix(s, 1);
      if IsAsciiAlnum(s[0]) {
        ReplaceRunsOfSanitizedChars(s[1..]);
      } else {
        assert s[0] == '-' && |s| >= 2 && s[1] != '-';
        assert SkipNonAlnum(s[1..]) == s[1..];
        ReplaceRunsOfSanitizedChars(s[1..]);
      }
    }
  }

  lemma LowerOfSanitized(s: string)
    requires forall i :: 0 <= i < |s| ==> IsSanitizedChar(s[i])
    ensures Lower(s) == s
  {
  }

  /** sanitizeString is idempotent. */
  lemma SanitizeStringIdempotent(input: string)
    ensures SanitizeString(SanitizeString(input)) == SanitizeString(input)
  {
    var s := SanitizeString(input);
    SanitizeStringIsSanitized(input);
    ReplaceRunsOfSanitizedChars(s);
    LowerOfSanitized(s);
  }

  /** A local time as `moment` would break it down. */
  datatype DateTime = DateTime(year: nat, month: nat, day: nat, hour: nat, minute: nat, second: nat)

  predicate ValidDateTime(t: DateTime) {
    t.year <= 9999 && 1 <= t.month <= 12 && 1 <= t.day <= 31 && t.hour < 24 && t.minute < 60 && t.second < 60
  }

  predicate IsDigit(c: char) {
    '0' <= c <= '9'
  }

  /** The decimal numeral of n. */
  function Decimal(n: nat): (r: string)
    ensures |r| >= 1
    ensures forall i :: 0 <= i < |r| ==> IsDigit(r[i])
  {
    if n < 10 then [('0' as int + n) as char] else Decimal(n / 10) + [('0' as int + n % 10) as char]
  }

  /** The value of a string of decimal digits. */
  function DecimalValue(s: string): nat
    requires forall i :: 0 <= i < |s| ==> IsDigit(s[i])
  {
    if s == [] then 0
    else
      var last := s[|s| - 1];
      assert IsDigit(last);
      10 * DecimalValue(s[..|s| - 1]) + (last as int - '0' as int)
  }

  /** n in decimal, left-padded with '0' to `width` characters. */
  function Pad(n: nat, width: nat): (r: string)
    ensures forall i :: 0 <= i < |r| ==> IsDigit(r[i])
  {
    var d := Decimal(n);
    if |d| >= width then d else seq(width - |d|, _ => '0') + d
  }

  lemma {:induction false} DecimalRoundTrip(n: nat)
    ensures DecimalValue(Decimal(n)) == n
  {
    if n >= 10 {
      DecimalRoundTrip(n / 10);
      var d := Decimal(n);
      assert d[..|d| - 1] == Decimal(n / 10);
    }
  }

  lemma {:induction false} DecimalLength(n: nat, width: nat)
    requires width >= 1
    requires n < Power10(width)
    ensures |Decimal(n)| <= width
  {
    if n >= 10 {
      DecimalLength(n / 10, width - 1);
    }
  }

  function Power10(k: nat): nat {
    if k == 0 then 1 else 10 * Power10(k - 1)
  }

  lemma {:induction false} LeadingZeros(z: string, d: string)
    requires forall i :: 0 <= i < |z| ==> z[i] == '0'
    requires forall i :: 0 <= i < |d| ==> IsDigit(d[i])
    ensures forall i :: 0 <= i < |z + d| ==> IsDigit((z + d)[i])
    ensures DecimalValue(z + d) == DecimalValue(d)
    decreases |d|
  {
    if d == [] {
      assert z + d == z;
      AllZeros(z);
    } else {
      var d' := d[..|d| - 1];
      LeadingZeros(z, d');
      assert (z + d)[..|z + d| - 1] == z + d';
    }
  }

  lemma {:induction false} AllZeros(z: string)
    requires forall i :: 0 <= i < |z| ==> z[i] == '0'
    ensures DecimalValue(z) == 0
  {
    if z != [] {
      AllZeros(z[..|z| - 1]);
    }
  }

  /** A padded field has exactly `width` digits and reads back as n. */
  lemma PadRoundTrip(n: nat, width: nat)
    requires 1 <= width
    requires n < Power10(width)
    ensures |Pad(n, width)| == width
    ensures DecimalValue(Pad(n, width)) == n
  {
    DecimalLength(n, width);
    DecimalRoundTrip(n);
    var d := Decimal(n);
    if |d| < width {
      LeadingZeros(seq(width - |d|, _ => '0'), d);
    }
  }

  /** moment's `YYYY-MM-DD_HH-mm-ss`. */
  function FormatTime(t: DateTime): string {
    Pad(t.year, 4) + WordSeparator + Pad(t.month, 2) + WordSeparator + Pad(t.day, 2) + SubsectionSeparator +
    Pad(t.hour, 2) + WordSeparator + Pad(t.minute, 2) + WordSeparator + Pad(t.second, 2)
  }

  /** The time part has the layout YYYY-MM-DD_HH-mm-ss: separators at
      fixed positions, and each field is a digit string that reads back as
      the time's own value. */
  lemma FormatTimeLayout(t: DateTime)
    requires ValidDateTime(t)
    ensures var f := FormatTime(t);
      && |f| == 19
      && f[4] == '-' && f[7] == '-' && f[10] == '_' && f[13] == '-' && f[16] == '-'
      && f[0..4] == Pad(t.year, 4) && DecimalValue(f[0..4]) == t.year
      && f[5..7] == Pad(t.month, 2) && DecimalValue(f[5..7]) == t.month
      && f[8..10] == Pad(t.day, 2) && DecimalValue(f[8..10]) == t.day
      && f[11..13] == Pad(t.hour, 2) && DecimalValue(f[11..13]) == t.hour
      && f[14..16] == Pad(t.minute, 2) && DecimalValue(f[14..16]) == t.minute
      && f[17..19] == Pad(t.second, 2) && DecimalValue(f[17..19]) == t.second
  {
    assert Power10(2) == 100 && Power10(4) == 10000;
    PadRoundTrip(t.year, 4);
    PadRoundTrip(t.month, 2);
    PadRoundTrip(t.day, 2);
    PadRoundTrip(t.hour, 2);
    PadRoundTrip(t.minute, 2);
    PadRoundTrip(t.second, 2);
    var y, mo, d, h, mi, se := Pad(t.year, 4), Pad(t.month, 2), Pad(t.day, 2), Pad(t.hour, 2), Pad(t.minute, 2), Pad(t.second, 2);
    var f := FormatTime(t);
    var p1 := y + "-";
    var p2 := p1 + mo + "-";
    var p3 := p2 + d + "_";
    var p4 := p3 + h + "-";
    var p5 := p4 + mi + "-";
    assert f == p5 + se;
    assert f[17..19] == se;
    assert f[..17] == p5;
    assert p5[14..16] == mi && p5[16] == '-' && p5[..14] == p4;
    assert p4[11..13] == h && p4[13] == '-' && p4[..11] == p3;
    assert p3[8..10] == d && p3[10] == '_' && p3[..8] == p2;
    assert p2[5..7] == mo && p2[7] == '-' && p2[..5] == p1;
    assert p1[0..4] == y && p1[4] == '-';
  }

  /** `electionHash.slice(0, 10)`. */
  function Prefix(s: string, n: nat): (r: string)
    ensures |r| == if |s| < n then |s| else n
    ensures r == s[..|r|]
  {
    if |s| < n then s else s[..n]
  }

  /** generateFilenameForBallotExportPackage. */
  function ExportPackageFilename(countyName: string, title: string, electionHash: string, time: DateTime): string {
    PackageName(SanitizeString(countyName), SanitizeString(title), Prefix(electionHash, 10), FormatTime(time))
  }

  function PackageName(county: string, title: string, hashPrefix: string, time: string): string {
    county + SubsectionSeparator + title + SubsectionSeparator + hashPrefix + SectionSeparator + time + ".zip"
  }

  /** The package name reads `<county>_<title>_<hash prefix>__<time>.zip`:
      the county part is everything before the first '_' and the title part
      everything between the first and the second '_' (a sanitized name holds
      no '_'); then come the first ten characters of the hash, and the name
      ends with "__", the 19-character time and ".zip". */
  lemma ExportPackageFilenameShape(countyName: string, title: string, electionHash: string, time: DateTime)
    requires ValidDateTime(time)
    ensures var name := ExportPackageFilename(countyName, title, electionHash, time);
      var county := SanitizeString(countyName);
      && name[..|county|] == county
      && (forall i :: 0 <= i < |county| ==> name[i] != '_')
      && name[|county|] == '_'
      && |name| >= 26
      && name[|name| - 4..] == ".zip"
      && name[|name| - 23..|name| - 4] == FormatTime(time)
      && name[|name| - 25..|name| - 23] == SectionSeparator
  {
    var county := SanitizeString(countyName);
    SanitizeStringIsSanitized(countyName);
    NoUnderscore(county);
    FormatTimeLength(time);
    PackageNameShape(county, SanitizeString(title), Prefix(electionHash, 10), FormatTime(time));
  }

  /** Between the county's '_' and the "__" before the time stand the
      sanitized title, a '_' and the hash prefix. */
  lemma ExportPackageFilenameMiddle(countyName: string, title: string, electionHash: string, time: DateTime)
    requires ValidDateTime(time)
    ensures var name := ExportPackageFilename(countyName, title, electionHash, time);
      var county := SanitizeString(countyName);
      && |county| + 1 <= |name| - 25
      && name[|county| + 1..|name| - 25] == SanitizeString(title) + SubsectionSeparator + Prefix(electionHash, 10)
  {
    FormatTimeLength(time);
    PackageNameShape(SanitizeString(countyName), SanitizeString(title), Prefix(electionHash, 10), FormatTime(time));
  }

  /** A sanitized county or title holds no '_', so the separators of the
      package name can be found again. */
  lemma SanitizeStringNoUnderscore(input: string)
    ensures forall i :: 0 <= i < |SanitizeString(input)| ==> SanitizeString(input)[i] != '_'
  {
    SanitizeStringIsSanitized(input);
    NoUnderscore(SanitizeString(input));
  }

  lemma NoUnderscore(s: string)
    requires IsSanitized(s)
    ensures forall i :: 0 <= i < |s| ==> s[i] != '_'
  {
  }

  lemma PackageNameShape(county: string, title: string, hashPrefix: string, time: string)
    requires |time| == 19
    ensures var name := PackageName(county, title, hashPrefix, time);
      && name[..|county|] == county
      && (forall i :: 0 <= i < |county| ==> name[i] == county[i])
      && name[|county|] == '_'
      && |name| >= |county| + 26
      && name[|name| - 4..] == ".zip"
      && name[|name| - 23..|name| - 4] == time
      && name[|name| - 25..|name| - 23] == SectionSeparator
    ensures var name := PackageName(county, title, hashPrefix, time);
      && |county| + 1 <= |name| - 25
      && name[|county| + 1..|name| - 25] == title + SubsectionSeparator + hashPrefix
  {
    var name := PackageName(county, title, hashPrefix, time);
    var middle := title + SubsectionSeparator + hashPrefix;
    var rest := SubsectionSeparator + middle;
    assert name == county + rest + (SectionSeparator + time + ".zip");
    TailParts(county + rest, time);
    HeadParts(county, rest);
    MiddlePart(county + SubsectionSeparator, middle, SectionSeparator + time + ".zip");
    assert county + rest == county + SubsectionSeparator + middle;
  }

  /** The middle of a three-part concatenation. */
  lemma MiddlePart(a: string, m: string, b: string)
    ensures (a + m + b)[|a|..|a| + |m|] == m
  {
    assert forall i :: 0 <= i < |m| ==> (a + m + b)[|a| + i] == m[i];
  }

  /** `head + "__" + t + ".zip"` ends with the 19 characters of `t`, then ".zip". */
  lemma TailParts(head: string, t: string)
    requires |t| == 19
    ensures var s := head + (SectionSeparator + t + ".zip");
      && |s| == |head| + 25
      && s[|s| - 4..] == ".zip"
      && s[|s| - 23..|s| - 4] == t
      && s[|s| - 25..|s| - 23] == SectionSeparator
  {
    var s := head + (SectionSeparator + t + ".zip");
    assert forall i :: 0 <= i < 19 ==> s[|head| + 2 + i] == t[i];
  }

  lemma HeadParts(county: string, rest: string)
    requires |rest| >= 1
    ensures var s := county + rest;
      && s[..|county|] == county && s[|county|] == rest[0]
  {
  }

  lemma FormatTimeLength(t: DateTime)
    requires ValidDateTime(t)
    ensures |FormatTime(t)| == 19
  {
    assert Power10(2) == 100 && Power10(4) == 10000;
    PadRoundTrip(t.year, 4);
    PadRoundTrip(t.month, 2);
    PadRoundTrip(t.day, 2);
    PadRoundTrip(t.hour, 2);
    PadRoundTrip(t.minute, 2);
    PadRoundTrip(t.second, 2);
  }
}
