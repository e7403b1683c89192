/**
  The lines reproduce_memory_exhaustion appends to its $output string, one
  constructor per kind of line, and the exact text each one adds.
*/
module Report {
  import opened Decimal
  import opened ByteFormat

  /** A reading of memory_get_usage(true) and memory_get_peak_usage(true). */
  datatype Sample = Sample(memory: int, peak: int)

  /** Which loop a progress line comes from: Test 2 counts images, Test 3 attachments. */
  datatype ItemKind = Images | Attachments

  datatype Line =
    | Title
    | StartTime(date: string)
    | InitialMemory(bytes: int)
    | InitialPeak(bytes: int)
    | Test1Heading
    | AttachmentsFound(count: nat)
    | ExecutionTime(seconds: string)
    | MemoryIncrease(bytes: int)
    | PeakMemoryIncrease(bytes: int)
    | Test2Heading
    | UnattachedImagesFound(count: nat)
    | Progress(kind: ItemKind, count: nat, sample: Sample)
    | NoAttachmentsFound
    | PreviousImageLinkCalls(calls: nat)
    | UnattachedImagesTested(count: nat)
    | Test3Heading
    | AdjacentImageLinkCalls(calls: nat)
    | AttachmentsTested(count: nat)
    | OverallHeading
    | TotalExecutionTime(seconds: string)
    | FinalMemory(bytes: int)
    | FinalPeak(bytes: int)
    | TotalMemoryIncrease(bytes: int)
    | TotalPeakMemoryIncrease(bytes: int)
    | MemoryLimit(limit: string)
    | MemoryUsage(percent: string)

  function KindText(kind: ItemKind): string {
    match kind
    case Images => "images"
    case Attachments => "attachments"
  }

  /** The text that one `$output .= ...` statement appends. */
  function Render(line: Line): (text: string)
  {
    match line
    case Title => "=== Memory Exhaustion Test Results ===\n"
    case StartTime(date) => "Start Time: " + date + "\n"
    case InitialMemory(bytes) => "Initial Memory Usage: " + FormatBytes(bytes) + "\n"
    case InitialPeak(bytes) => "Initial Peak Memory: " + FormatBytes(bytes) + "\n"
    case Test1Heading => "--- TEST 1: get_children() Function ---\n"
    case AttachmentsFound(count) => "Attachments Found: " + NatText(count) + "\n"
    case ExecutionTime(seconds) => "Execution Time: " + seconds + " seconds\n"
    case MemoryIncrease(bytes) => "Memory Increase: " + FormatBytes(bytes) + "\n"
    case PeakMemoryIncrease(bytes) => "Peak Memory Increase: " + FormatBytes(bytes) + "\n\n"
    case Test2Heading =>
      "--- TEST 2: previous_image_link() Chain (Simulating Unattached Attachment Page) ---\n"
    case UnattachedImagesFound(count) => "Found " + NatText(count) + " unattached images to test\n"
    case Progress(kind, count, sample) =>
      "Progress: " + NatText(count) + " " + KindText(kind) + " processed, Current Memory: "
      + FormatBytes(sample.memory) + ", Peak: " + FormatBytes(sample.peak) + "\n"
    case NoAttachmentsFound => "No attachments found to test previous_image_link()\n"
    case PreviousImageLinkCalls(calls) => "Previous Image Link Calls: " + NatText(calls) + "\n"
    case UnattachedImagesTested(count) => "Unattached Images Tested: " + NatText(count) + "\n"
    case Test3Heading => "--- TEST 3: Direct adjacent_image_link() with post_parent=0 Simulation ---\n"
    case AdjacentImageLinkCalls(calls) => "Adjacent Image Link Calls: " + NatText(calls) + "\n"
    case AttachmentsTested(count) => "Attachments Tested: " + NatText(count) + "\n"
    case OverallHeading => "--- OVERALL RESULTS ---\n"
    case TotalExecutionTime(seconds) => "Total Execution Time: " + seconds + " seconds\n"
    case FinalMemory(bytes) => "Final Memory Usage: " + FormatBytes(bytes) + "\n"
    case FinalPeak(bytes) => "Final Peak Memory: " + FormatBytes(bytes) + "\n"
    case TotalMemoryIncrease(bytes) => "Total Memory Increase: " + FormatBytes(bytes) + "\n"
    case TotalPeakMemoryIncrease(bytes) => "Total Peak Memory Increase: " + FormatBytes(bytes) + "\n\n"
    case MemoryLimit(limit) => "PHP Memory Limit: " + limit + "\n"
    case MemoryUsage(percent) => "Memory Usage: " + percent + "% of limit\n"
  }

  /** A non-empty text whose last character is a newline. */
  predicate EndsLine(text: string) {
    |text| > 0 && text[|text| - 1] == '\n'
  }

  /** Every `$output .=` statement appends a non-empty text that ends the line. */
  lemma RenderEndsLine(line: Line)
    ensures EndsLine(Render(line))
  {
    match line
    case Title => HeadingsEndLine();
    case Test1Heading => HeadingsEndLine();
    case OverallHeading => HeadingsEndLine();
    case NoAttachmentsFound => HeadingsEndLine();
    case Test2Heading => Test2HeadingEndsLine();
    case Test3Heading => Test3HeadingEndsLine();
    case Progress(kind, count, sample) => ProgressEndsLine(kind, count, sample);
    case StartTime(_) => TextLineEndsLine(line);
    case ExecutionTime(_) => TextLineEndsLine(line);
    case TotalExecutionTime(_) => TextLineEndsLine(line);
    case MemoryLimit(_) => TextLineEndsLine(line);
    case MemoryUsage(_) => TextLineEndsLine(line);
    case AttachmentsFound(_) => CountLineEndsLine(line);
    case UnattachedImagesFound(_) => CountLineEndsLine(line);
    case PreviousImageLinkCalls(_) => CountLineEndsLine(line);
    case UnattachedImagesTested(_) => CountLineEndsLine(line);
    case AdjacentImageLinkCalls(_) => CountLineEndsLine(line);
    case AttachmentsTested(_) => CountLineEndsLine(line);
    case InitialMemory(_) => BytesLineEndsLine(line);
    case InitialPeak(_) => BytesLineEndsLine(line);
    case MemoryIncrease(_) => BytesLineEndsLine(line);
    case PeakMemoryIncrease(_) => BytesLineEndsLine(line);
    case FinalMemory(_) => BytesLineEndsLine(line);
    case FinalPeak(_) => BytesLineEndsLine(line);
    case TotalMemoryIncrease(_) => BytesLineEndsLine(line);
    case TotalPeakMemoryIncrease(_) => BytesLineEndsLine(line);
  }

  // The cases of RenderEndsLine, in groups small enough to prove one at a time.

  lemma HeadingsEndLine()
    ensures EndsLine(Render(Title)) && EndsLine(Render(Test1Heading))
    ensures EndsLine(Render(OverallHeading)) && EndsLine(Render(NoAttachmentsFound))
  {
  }

  lemma Test2HeadingEndsLine()
    ensures EndsLine(Render(Test2Heading))
  {
  }

  lemma Test3HeadingEndsLine()
    ensures EndsLine(Render(Test3Heading))
  {
  }

  lemma ProgressEndsLine(kind: ItemKind, count: nat, sample: Sample)
    ensures EndsLine(Render(Progress(kind, count, sample)))
  {
  }

  lemma TextLineEndsLine(line: Line)
    requires line.StartTime? || line.ExecutionTime? || line.TotalExecutionTime?
          || line.MemoryLimit? || line.MemoryUsage?
    ensures EndsLine(Render(line))
  {
  }

  lemma CountLineEndsLine(line: Line)
    requires line.AttachmentsFound? || line.UnattachedImagesFound? || line.PreviousImageLinkCalls?
          || line.UnattachedImagesTested? || line.AdjacentImageLinkCalls? || line.AttachmentsTested?
    ensures EndsLine(Render(line))
  {
  }

  lemma BytesLineEndsLine(line: Line)
    requires line.InitialMemory? || line.InitialPeak? || line.MemoryIncrease? || line.PeakMemoryIncrease?
          || line.FinalMemory? || line.FinalPeak? || line.TotalMemoryIncrease? || line.TotalPeakMemoryIncrease?
    ensures EndsLine(Render(line))
  {
  }

  /** The texts f(x) of the items x of xs, concatenated in order. */
  function Concat<T>(xs: seq<T>, f: T -> string): (text: string)
  {
    if xs == [] then "" else Concat(xs[..|xs| - 1], f) + f(xs[|xs| - 1])
  }

  lemma {:induction false} ConcatAppend<T>(xs: seq<T>, ys: seq<T>, f: T -> string)
    ensures Concat(xs + ys, f) == Concat(xs, f) + Concat(ys, f)
    decreases |ys|
  {
    if ys == [] {
      assert xs + ys == xs;
    } else {
      var init := ys[..|ys| - 1];
      assert (xs + ys)[..|xs + ys| - 1] == xs + init;
      ConcatAppend(xs, init, f);
    }
  }

  lemma ConcatSingle<T>(x: T, f: T -> string)
    ensures Concat([x], f) == f(x)
  {
    assert [x][..0] == [];
    assert Concat([x], f) == "" + f(x);
  }

  /** The report text: the lines' texts in order. */
  function Text(lines: seq<Line>): string
  {
    Concat(lines, Render)
  }

  /** Appending lines appends their text: the report can be built with `.=`. */
  lemma TextAppend(a: seq<Line>, b: seq<Line>)
    ensures Text(a + b) == Text(a) + Text(b)
  {
    ConcatAppend(a, b, Render);
  }

  lemma TextSingle(line: Line)
    ensures Text([line]) == Render(line)
  {
    ConcatSingle(line, Render);
  }

  /**
    The progress lines a loop emits over its first n items when it emits one
    after every item whose running count is a multiple of `every`; probe(c)
    is the memory reading taken at count c.
  */
  function ProgressLines(kind: ItemKind, every: nat, n: nat, probe: nat -> Sample): (lines: seq<Line>)
    requires every > 0
  {
    if n == 0 then []
    else ProgressLines(kind, every, n - 1, probe)
         + (if n % every == 0 then [Progress(kind, n, probe(n))] else [])
  }

  /**
    The text a loop appends over its first n items: after the item that
    brings the count to a multiple of `every`, the progress line for that
    count and the reading taken then. This is Text(ProgressLines(...))
    written in the shape of the loop, one step per item; ProgressTextIsText
    proves the two equal.
  */
  function ProgressText(kind: ItemKind, every: nat, n: nat, probe: nat -> Sample): (text: string)
    requires every > 0
  {
    if n == 0 then ""
    else ProgressText(kind, every, n - 1, probe)
         + (if n % every == 0 then Render(Progress(kind, n, probe(n))) else "")
  }

  /** What the loop appends is the text of its progress lines. */
  lemma {:induction false} ProgressTextIsText(kind: ItemKind, every: nat, n: nat, probe: nat -> Sample)
    requires every > 0
    ensures ProgressText(kind, every, n, probe) == Text(ProgressLines(kind, every, n, probe))
  {
    if n > 0 {
      ProgressTextIsText(kind, every, n - 1, probe);
      var step := if n % every == 0 then [Progress(kind, n, probe(n))] else [];
      TextAppend(ProgressLines(kind, every, n - 1, probe), step);
      if step != [] {
        TextSingle(step[0]);
      }
    }
  }

  lemma DivUnique(x: int, d: int, a: int, b: int)
    requires d > 0 && 0 <= b < d && x == d * a + b
    ensures x / d == a && x % d == b
  {
    var q, r := x / d, x % d;
    assert d * q + r == d * a + b;
    assert d * (q - a) == b - r;
    if q - a >= 1 {
      assert false;
    } else if q - a <= -1 {
      assert false;
    }
  }

  lemma DivStep(n: nat, every: nat)
    requires n > 0 && every > 0
    ensures n % every == 0 ==> (n - 1) / every + 1 == n / every && every * (n / every) == n
    ensures n % every != 0 ==> (n - 1) / every == n / every
  {
    var q, r := n / every, n % every;
    if r == 0 {
      DivUnique(n - 1, every, q - 1, every - 1);
    } else {
      DivUnique(n - 1, every, q, r - 1);
    }
  }

  /**
    Over n items there are exactly n / every progress lines, and the j-th
    reports the count every * (j + 1) with the reading taken at that count.
  */
  lemma {:induction false} ProgressLinesClosedForm(kind: ItemKind, every: nat, n: nat, probe: nat -> Sample)
    requires every > 0
    ensures |ProgressLines(kind, every, n, probe)| == n / every
    ensures forall j :: 0 <= j < n / every ==>
      ProgressLines(kind, every, n, probe)[j] == Progress(kind, every * (j + 1), probe(every * (j + 1)))
  {
    if n > 0 {
      ProgressLinesClosedForm(kind, every, n - 1, probe);
      DivStep(n, every);
    }
  }
  /** How many progress lines of the given kind the lines hold. */
  function CountProgress(lines: seq<Line>, kind: ItemKind): nat
  {
    if lines == [] then 0
    else
      var last := lines[|lines| - 1];
      CountProgress(lines[..|lines| - 1], kind) + (if last.Progress? && last.kind == kind then 1 else 0)
  }

  lemma {:induction false} CountProgressAppend(a: seq<Line>, b: seq<Line>, kind: ItemKind)
    ensures CountProgress(a + b, kind) == CountProgress(a, kind) + CountProgress(b, kind)
    decreases |b|
  {
    if b == [] {
      assert a + b == a;
    } else {
      var init := b[..|b| - 1];
      assert (a + b)[..|a + b| - 1] == a + init;
      CountProgressAppend(a, init, kind);
    }
  }

  /** A loop over n items prints n / every progress lines of its own kind and none of the other. */
  lemma {:induction false} CountProgressLines(kind: ItemKind, every: nat, n: nat, probe: nat -> Sample, counted: ItemKind)
    requires every > 0
    ensures CountProgress(ProgressLines(kind, every, n, probe), counted) == if counted == kind then n / every else 0
  {
    if n > 0 {
      CountProgressLines(kind, every, n - 1, probe, counted);
      var step := if n % every == 0 then [Progress(kind, n, probe(n))] else [];
      CountProgressAppend(ProgressLines(kind, every, n - 1, probe), step, counted);
      assert step != [] ==> step[..0] == [];
      DivStep(n, every);
    }
  }
}
