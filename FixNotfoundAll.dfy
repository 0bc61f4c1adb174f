/** scripts/fix_notfound_all.py: pulls every `CAT-` number out of the not-found list,
    removes duplicates, sorts them, and writes them back as a JSON array with ten
    zero-padded plates per line. */
module FixNotfoundAll {
  import opened Decimal
  import opened Text

  const Marker: string := "CAT-"
  const PerLine := 10

  /** The longest run of at most `max` leading digits of `s`. */
  function DigitRun(s: string, max: nat): (g: string)
    ensures |g| <= max && |g| <= |s| && g == s[..|g|] && AllDigits(g)
    ensures |g| < max && |g| < |s| ==> !IsDigit(s[|g|])
  {
    if max == 0 || s == [] || !IsDigit(s[0]) then [] else [s[0]] + DigitRun(s[1..], max - 1)
  }

  /** `re.findall(r'CAT-(\d{1,4})', text)`, each group read as `int(n)`: scanning from
      the left, a match is the marker followed by one to four digits (as many as
      there are, up to four), and scanning resumes after the match. */
  function Extract(text: string): (nums: seq<nat>)
    ensures forall k :: 0 <= k < |nums| ==> nums[k] < 10000
    decreases |text|
  {
    if |text| < 5 then []
    else if text[..4] == Marker && IsDigit(text[4]) then
      var g := DigitRun(text[4..], 4);
      GroupBelowTenThousand(g);
      [DecimalValue(g)] + Extract(text[4 + |g|..])
    else Extract(text[1..])
  }

  lemma GroupBelowTenThousand(g: string)
    requires |g| <= 4 && AllDigits(g)
    ensures DecimalValue(g) < 10000
  {
    DecimalValueBound(g);
    assert Pow10(4) == 10000 && Pow10(3) == 1000 && Pow10(2) == 100 && Pow10(1) == 10;
  }

  /** Every marker followed by a digit in the text contributes its number. */
  lemma {:induction false} ExtractFindsEveryMarker(text: string, i: nat)
    requires i + 4 < |text| && OccursAt(text, Marker, i) && IsDigit(text[i + 4])
    ensures DecimalValue(DigitRun(text[i + 4..], 4)) in Extract(text)
    decreases |text|
  {
    if text[..4] == Marker && IsDigit(text[4]) && i == 0 {
      assert text[i + 4..] == text[4..];
    } else {
      var d := SkipTo(text, i);
      ExtractFindsEveryMarker(text[d..], i - d);
    }
  }

  /** At `i` the text holds the marker followed by a digit, and `v` is the value of the
      digit group there. */
  predicate GroupAt(text: string, i: nat, v: nat) {
    i + 4 < |text| && OccursAt(text, Marker, i) && IsDigit(text[i + 4])
    && v == DecimalValue(DigitRun(text[i + 4..], 4))
  }

  /** Every extracted number is the digit group of a marker followed by a digit: the
      converse of `ExtractFindsEveryMarker`. */
  lemma {:induction false} ExtractComesFromMarker(text: string, v: nat) returns (i: nat)
    requires v in Extract(text)
    ensures GroupAt(text, i, v)
    decreases |text|
  {
    var d, head := ExtractStep(text, v);
    if head {
      i := 0;
    } else {
      var j := ExtractComesFromMarker(text[d..], v);
      i := UnshiftGroup(text, d, j, v);
    }
  }

  /** One step of the scan: either `v` is the group of a match at the start, or it is
      found by the scan resumed at `d`. */
  lemma ExtractStep(text: string, v: nat) returns (d: nat, head: bool)
    requires v in Extract(text)
    ensures head ==> GroupAt(text, 0, v)
    ensures !head ==> 0 < d <= |text| && v in Extract(text[d..])
  {
    assert |text| >= 5;
    if text[..4] == Marker && IsDigit(text[4]) {
      var g := DigitRun(text[4..], 4);
      assert Extract(text) == [DecimalValue(g)] + Extract(text[4 + |g|..]);
      head := v == DecimalValue(g);
      d := 4 + |g|;
      assert text[0..4] == text[..4];
      assert text[0 + 4..] == text[4..];
    } else {
      assert Extract(text) == Extract(text[1..]);
      head, d := false, 1;
    }
  }

  /** A group in a suffix of the text is a group of the text. */
  lemma UnshiftGroup(text: string, d: nat, j: nat, v: nat) returns (i: nat)
    requires d <= |text| && GroupAt(text[d..], j, v)
    ensures i == d + j && GroupAt(text, i, v)
  {
    i := d + j;
    assert text[i..i + 4] == text[d..][j..j + 4];
    assert text[i + 4..] == text[d..][j + 4..];
  }

  /** Where scanning resumes when the text does not start with the match at `i`: past
      the match at the start, or one character on. The match at `i` is still ahead,
      and what is found from there is found in the whole text. */
  lemma SkipTo(text: string, i: nat) returns (d: nat)
    requires i + 4 < |text| && OccursAt(text, Marker, i) && IsDigit(text[i + 4])
    requires !(text[..4] == Marker && IsDigit(text[4]) && i == 0)
    ensures 0 < d <= i && i - d + 4 < |text[d..]|
    ensures OccursAt(text[d..], Marker, i - d) && IsDigit(text[d..][i - d + 4])
    ensures text[d..][i - d + 4..] == text[i + 4..]
    ensures forall v :: v in Extract(text[d..]) ==> v in Extract(text)
  {
    if text[..4] == Marker && IsDigit(text[4]) {
      var g := DigitRun(text[4..], 4);
      d := 4 + |g|;
      assert Extract(text) == [DecimalValue(g)] + Extract(text[d..]);
      MatchHidesNoMarker(text, i);
    } else {
      d := 1;
      assert Extract(text) == Extract(text[1..]);
      assert text[i..i + 4] == Marker;
    }
    ShiftOccurrence(text, d, i);
  }

  /** A marker other than the one a match starts with begins after the match. */
  lemma MatchHidesNoMarker(text: string, i: nat)
    requires |text| >= 5 && text[..4] == Marker && IsDigit(text[4])
    requires 0 < i && i + 4 <= |text| && OccursAt(text, Marker, i)
    ensures i >= 4 + |DigitRun(text[4..], 4)|
  {
    var g := DigitRun(text[4..], 4);
    assert text[i] == text[i..i + 4][0] == 'C';
    assert forall p :: 1 <= p < 4 ==> text[p] == text[..4][p];
    assert forall p :: 4 <= p < 4 + |g| ==> text[p] == g[p - 4];
  }

  /** An occurrence survives dropping a prefix of the text that ends before it. */
  lemma ShiftOccurrence(text: string, d: nat, i: nat)
    requires d <= i && i + 4 < |text| && OccursAt(text, Marker, i) && IsDigit(text[i + 4])
    ensures OccursAt(text[d..], Marker, i - d) && IsDigit(text[d..][i - d + 4])
    ensures text[d..][i - d + 4..] == text[i + 4..]
  {
    assert text[d..][i - d..i - d + 4] == text[i..i + 4];
  }

  predicate StrictlyIncreasing(s: seq<nat>) {
    forall j, k :: 0 <= j < k < |s| ==> s[j] < s[k]
  }

  /** The values a sequence holds. */
  function Elements(s: seq<nat>): set<nat> {
    set k | 0 <= k < |s| :: s[k]
  }

  /** Inserts `x` into a strictly increasing sequence unless it is already there. */
  function InsertUnique(s: seq<nat>, x: nat): (r: seq<nat>)
    requires StrictlyIncreasing(s)
    ensures StrictlyIncreasing(r)
    ensures Elements(r) == Elements(s) + {x}
  {
    if s == [] || x < s[0] then ElementsCons(x, s); [x] + s
    else if x == s[0] then assert s[0] in Elements(s); s
    else
      var t := InsertUnique(s[1..], x);
      InsertBehindHead(s, x, t);
      [s[0]] + t
  }

  /** `sorted({int(n) for n in nums})`: the distinct values, ascending. */
  function SortedUnique(xs: seq<nat>): (r: seq<nat>)
    ensures StrictlyIncreasing(r)
    ensures Elements(r) == Elements(xs)
  {
    if xs == [] then []
    else
      var r := InsertUnique(SortedUnique(xs[..|xs| - 1]), xs[|xs| - 1]);
      assert Elements(xs) == Elements(xs[..|xs| - 1]) + {xs[|xs| - 1]} by {
        assert xs == xs[..|xs| - 1] + [xs[|xs| - 1]];
      }
      r
  }

  /** A sequence without repeats has as many elements as its set of values. */
  lemma ElementsCons(a: nat, t: seq<nat>)
    ensures Elements([a] + t) == {a} + Elements(t)
  {
    var l := [a] + t;
    forall y | y in Elements(l)
      ensures y in {a} + Elements(t)
    {
      var k :| 0 <= k < |l| && l[k] == y;
      if k > 0 {
        assert t[k - 1] == y;
      }
    }
    forall y | y in Elements(t)
      ensures y in Elements(l)
    {
      var k :| 0 <= k < |t| && t[k] == y;
      assert l[k + 1] == y;
    }
    assert l[0] == a;
  }

  /** The step of `InsertUnique` that keeps the head and inserts into the tail. */
  lemma InsertBehindHead(s: seq<nat>, x: nat, t: seq<nat>)
    requires StrictlyIncreasing(s) && s != [] && s[0] < x
    requires StrictlyIncreasing(t) && Elements(t) == Elements(s[1..]) + {x}
    ensures StrictlyIncreasing([s[0]] + t)
    ensures Elements([s[0]] + t) == Elements(s) + {x}
  {
    ElementsCons(s[0], t);
    ElementsCons(s[0], s[1..]);
    assert s == [s[0]] + s[1..];
    forall k | 0 <= k < |t|
      ensures s[0] < t[k]
    {
      assert t[k] in Elements(t);
      if t[k] != x {
        var m :| 0 <= m < |s[1..]| && s[1..][m] == t[k];
        assert s[m + 1] == t[k];
      }
    }
  }

  lemma {:induction false} IncreasingCount(s: seq<nat>)
    requires StrictlyIncreasing(s)
    ensures |Elements(s)| == |s|
  {
    if s != [] {
      var init := s[..|s| - 1];
      IncreasingCount(init);
      assert Elements(s) == Elements(init) + {s[|s| - 1]};
      assert s[|s| - 1] !in Elements(init);
    }
  }

  /** The count the script reports equals the number of distinct extracted numbers. */
  lemma CountIsDistinctNumbers(xs: seq<nat>)
    ensures |SortedUnique(xs)| == |Elements(xs)|
  {
    IncreasingCount(SortedUnique(xs));
  }

  /** `f'"CAT-{n:04d}"'`. */
  function Item(n: nat): string {
    "\"" + Marker + ZeroPad(n, 4) + "\""
  }

  /** The numbers of line `j`: `nums[10 j : 10 j + 10]`. */
  function Chunk(nums: seq<nat>, j: nat): seq<nat>
    requires PerLine * j < |nums|
  {
    nums[PerLine * j .. if PerLine * j + PerLine <= |nums| then PerLine * j + PerLine else |nums|]
  }

  /** `', '.join(...)` over the items of a chunk. */
  function Items(chunk: seq<nat>): string {
    Join(seq(|chunk|, k requires 0 <= k < |chunk| => Item(chunk[k])), ", ")
  }

  /** A line's items end with the closing quote of the last item. */
  lemma ItemsEndWithQuote(chunk: seq<nat>)
    requires chunk != []
    ensures |Items(chunk)| > 0 && Items(chunk)[|Items(chunk)| - 1] == '"'
  {
    var parts := seq(|chunk|, k requires 0 <= k < |chunk| => Item(chunk[k]));
    assert Join(parts, ", ") == (if |parts| == 1 then parts[0] else Join(parts[..|parts| - 1], ", ") + ", " + parts[|parts| - 1]);
  }

  /** `s.rstrip(',')`. */
  function RStripComma(s: string): (r: string)
    ensures |r| <= |s| && r == s[..|r|]
  {
    if s != [] && s[|s| - 1] == ',' then RStripComma(s[..|s| - 1]) else s
  }

  /** Stripping commas from a line that ends in a comma after a quote removes
      exactly that comma. */
  lemma StripOneComma(body: string)
    requires |body| > 0 && body[|body| - 1] == '"'
    ensures RStripComma(body + ",") == body
  {
    assert (body + ",")[..|body|] == body;
  }

  /** `lines` groups of ten cover `n` numbers when the last group starts before `n`. */
  lemma LinesCovered(n: nat, lines: nat)
    requires PerLine * lines >= n
    requires lines > 0 ==> PerLine * (lines - 1) < n
    ensures LineCount(n) == lines
    ensures forall j: nat :: j < lines <==> PerLine * j < n
  {
  }

  /** The number of lines: one per started group of ten. */
  function LineCount(n: nat): nat {
    (n + PerLine - 1) / PerLine
  }

  /** The loop over `range(0, len(nums_int), 10)` followed by the removal of the last
      line's trailing comma. Line `j` holds chunk `j`, indented by two spaces, and every
      line but the last ends with ','. */
  method FormatLines(nums: seq<nat>) returns (lines: seq<string>)
    ensures |lines| == LineCount(|nums|)
    ensures forall j: nat :: j < |lines| <==> PerLine * j < |nums|
    ensures forall j :: 0 <= j < |lines| ==>
      lines[j] == "  " + Items(Chunk(nums, j)) + (if j < |lines| - 1 then "," else "")
  {
    lines := [];
    var i := 0;
    while i < |nums|
      invariant i == PerLine * |lines|
      invariant |lines| > 0 ==> PerLine * (|lines| - 1) < |nums|
      invariant forall j :: 0 <= j < |lines| ==> lines[j] == "  " + Items(Chunk(nums, j)) + ","
    {
      var chunk := nums[i .. if i + PerLine <= |nums| then i + PerLine else |nums|];
      assert chunk == Chunk(nums, |lines|);
      var items := Items(chunk);
      lines := lines + ["  " + items + ","];
      i := i + PerLine;
    }
    LinesCovered(|nums|, |lines|);
    if |lines| > 0 {
      var last := |lines| - 1;
      ghost var body := "  " + Items(Chunk(nums, last));
      ItemsEndWithQuote(Chunk(nums, last));
      StripOneComma(body);
      lines := lines[last := RStripComma(lines[last])];
    }
  }

  /** `'[\n' + '\n'.join(lines) + '\n]\n'`. */
  function Document(lines: seq<string>): string {
    "[\n" + Join(lines, "\n") + "\n]\n"
  }

  /** The whole transformation of the file's text: the document written back and the
      count reported. */
  method FixNotfound(text: string) returns (out: string, count: nat)
    ensures count == |Elements(Extract(text))|
    ensures var nums := SortedUnique(Extract(text));
      exists lines: seq<string> ::
      && |lines| == LineCount(count)
      && (forall j: nat :: j < |lines| <==> PerLine * j < |nums|)
      && (forall j :: 0 <= j < |lines| ==>
            lines[j] == "  " + Items(Chunk(nums, j)) + (if j < |lines| - 1 then "," else ""))
      && out == Document(lines)
  {
    var nums := Extract(text);
    var numsInt := SortedUnique(nums);
    var lines := FormatLines(numsInt);
    out := Document(lines);
    count := |numsInt|;
    CountIsDistinctNumbers(nums);
  }

  /** Chunks are consecutive slices covering the numbers in order; all but the last
      hold exactly ten numbers and the last holds one to ten. */
  lemma ChunksCover(nums: seq<nat>, j: nat)
    requires PerLine * j < |nums|
    ensures Chunk(nums, j) == nums[PerLine * j .. PerLine * j + |Chunk(nums, j)|]
    ensures j < LineCount(|nums|) - 1 ==> |Chunk(nums, j)| == PerLine
    ensures j == LineCount(|nums|) - 1 ==> 1 <= |Chunk(nums, j)| <= PerLine
  {
  }

  /** With no numbers there are no lines and the document is `[`, a blank line and `]`. */
  lemma EmptyDocument()
    ensures LineCount(0) == 0 && Document([]) == "[\n\n]\n"
  {
  }
}
