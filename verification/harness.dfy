/**
  reproduce_memory_exhaustion: one fetch of attachment records, then
  Test 2 (previous_image_link over the unattached images) and Test 3
  (adjacent_image_link in both calls over every record), each call made with
  the record installed in the global $post and the globals restored after it.

  The WordPress functions the harness calls are parameters: the fetch result
  `children` (get_children), `isImage` (wp_attachment_is_image), and the two
  link functions, which read the ambient $post and $wp_query and so receive
  them as arguments here. Clock and memory readings are inputs too (Probes).
*/
module Harness {
  import opened Decimal
  import opened Report

  /** An attachment post as the fetch returns it: its ID and post_parent (0: unattached). */
  datatype Record = Record(id: nat, parent: nat)

  /** What a link function returns: link markup, or a falsy value. */
  datatype Link = NoLink | Markup(html: string)

  /** The $wp_query flags the harness sets before calling previous_image_link. */
  datatype QueryFlags = QueryFlags(isAttachment: bool, isSingle: bool, isSingular: bool)

  const AttachmentPage := QueryFlags(true, true, true)

  /** How many calls / records between two progress lines in Test 2 and in Test 3. */
  const PreviousProgressEvery := 100
  const AdjacentProgressEvery := 50

  /** previous_image_link(false, ''): depends on the global $post and the flags of $wp_query. */
  type PreviousLinkFunction = (Option<Record>, QueryFlags) -> Link

  /**
    adjacent_image_link(false, '', third): the same ambient reads; the bool is
    the third argument, true for the first call of a record and false for the
    second.
  */
  type AdjacentLinkFunction = (Option<Record>, QueryFlags, bool) -> Link

  /** The object the global $wp_query refers to: a handle shared by everyone who copies it. */
  class Query {
    var isAttachment: bool
    var isSingle: bool
    var isSingular: bool

    constructor (flags: QueryFlags)
      ensures Flags() == flags
    {
      isAttachment, isSingle, isSingular := flags.isAttachment, flags.isSingle, flags.isSingular;
    }

    function Flags(): QueryFlags
      reads this
    {
      QueryFlags(isAttachment, isSingle, isSingular)
    }
  }

  /** The globals $post and $wp_query. */
  class Context {
    var post: Option<Record>
    var wpQuery: Query

    constructor (post: Option<Record>, wpQuery: Query)
      ensures this.post == post && this.wpQuery == wpQuery
    {
      this.post, this.wpQuery := post, wpQuery;
    }
  }

  /** One row of $previous_results. */
  datatype PreviousResult = PreviousResult(prevLink: Link, postId: nat, postParent: nat)

  /** One row of $adjacent_results. */
  datatype AdjacentResult = AdjacentResult(prev: Link, next: Link, postId: nat)

  /** Clock, memory and environment readings, which the model takes as given. */
  datatype Interval = Interval(start: Sample, end: Sample, elapsed: string)

  datatype Probes = Probes(
    startDate: string,                 // date('Y-m-d H:i:s')
    overallStart: Sample,
    test1: Interval,
    test2: Interval,
    test3: Interval,
    previousProgress: nat -> Sample,   // reading taken when the Test 2 call count is c
    adjacentProgress: nat -> Sample,   // reading taken when c records are done in Test 3
    overallEnd: Sample,
    totalElapsed: string,              // round($overall_execution_time, 4)
    memoryLimit: string,               // ini_get('memory_limit')
    usagePercent: string)              // round($usage_percentage, 2)

  // ---------------------------------------------------------------------------
  // The Test 2 filter

  predicate IsUnattachedImage(r: Record, isImage: nat -> bool) {
    r.parent == 0 && isImage(r.id)
  }

  /** array_filter($children, ...): the unattached images, in fetch order. */
  function UnattachedImages(children: seq<Record>, isImage: nat -> bool): (images: seq<Record>)
    ensures |images| <= |children|
  {
    if children == [] then []
    else
      var last := children[|children| - 1];
      UnattachedImages(children[..|children| - 1], isImage)
      + (if IsUnattachedImage(last, isImage) then [last] else [])
  }

  /** The filter distributes over concatenation: it keeps the fetch order. */
  lemma {:induction false} UnattachedImagesAppend(a: seq<Record>, b: seq<Record>, isImage: nat -> bool)
    ensures UnattachedImages(a + b, isImage) == UnattachedImages(a, isImage) + UnattachedImages(b, isImage)
    decreases |b|
  {
    if b == [] {
      assert a + b == a;
    } else {
      var init := b[..|b| - 1];
      assert (a + b)[..|a + b| - 1] == a + init;
      UnattachedImagesAppend(a, init, isImage);
    }
  }

  /** A record is kept exactly when it was fetched and is an unattached image. */
  lemma {:induction false} UnattachedImagesMembers(children: seq<Record>, isImage: nat -> bool, r: Record)
    ensures r in UnattachedImages(children, isImage) <==> r in children && IsUnattachedImage(r, isImage)
  {
    if children != [] {
      var init := children[..|children| - 1];
      assert children == init + [children[|children| - 1]];
      UnattachedImagesMembers(init, isImage, r);
    }
  }

  // ---------------------------------------------------------------------------
  // One save / overwrite / call / restore cycle

  /**
    The body of one Test 2 iteration around the call: $post becomes the
    attachment, the shared $wp_query object gets its three flags set, the
    link function runs, and both globals get their old bindings back. The
    flags stay set, because the object they live on is the one restored.
  */
  method ResolvePrevious(ctx: Context, attachment: Record, previousImageLink: PreviousLinkFunction)
    returns (prevLink: Link)
    modifies ctx, ctx.wpQuery
    ensures ctx.post == old(ctx.post) && ctx.wpQuery == old(ctx.wpQuery)
    ensures ctx.wpQuery.Flags() == AttachmentPage
    ensures prevLink == previousImageLink(Some(attachment), AttachmentPage)
  {
    var originalPost := ctx.post;
    var originalQuery := ctx.wpQuery;
    ctx.post := Some(attachment);
    ctx.wpQuery.isAttachment := true;
    ctx.wpQuery.isSingle := true;
    ctx.wpQuery.isSingular := true;
    prevLink := previousImageLink(ctx.post, ctx.wpQuery.Flags());
    ctx.post := originalPost;
    ctx.wpQuery := originalQuery;
  }

  /**
    The body of one Test 3 iteration around the calls: $post becomes the
    attachment for both calls and gets its old value back; $wp_query is not
    touched.
  */
  method ResolveAdjacent(ctx: Context, attachment: Record, adjacentImageLink: AdjacentLinkFunction)
    returns (prevLink: Link, nextLink: Link)
    modifies ctx
    ensures ctx.post == old(ctx.post) && ctx.wpQuery == old(ctx.wpQuery)
    ensures prevLink == adjacentImageLink(Some(attachment), ctx.wpQuery.Flags(), true)
    ensures nextLink == adjacentImageLink(Some(attachment), ctx.wpQuery.Flags(), false)
  {
    var originalPost := ctx.post;
    ctx.post := Some(attachment);
    prevLink := adjacentImageLink(ctx.post, ctx.wpQuery.Flags(), true);
    nextLink := adjacentImageLink(ctx.post, ctx.wpQuery.Flags(), false);
    ctx.post := originalPost;
  }

  // ---------------------------------------------------------------------------
  // The result rows the two loops collect

  /** The $previous_results rows for these images: each image's link, ID and parent. */
  function PreviousRows(images: seq<Record>, previousImageLink: PreviousLinkFunction): (rows: seq<PreviousResult>)
    ensures |rows| == |images|
  {
    if images == [] then []
    else
      var last := images[|images| - 1];
      PreviousRows(images[..|images| - 1], previousImageLink)
      + [PreviousResult(previousImageLink(Some(last), AttachmentPage), last.id, last.parent)]
  }

  /** The $adjacent_results rows for these records under the given $wp_query flags. */
  function AdjacentRows(children: seq<Record>, adjacentImageLink: AdjacentLinkFunction, flags: QueryFlags)
    : (rows: seq<AdjacentResult>)
    ensures |rows| == |children|
  {
    if children == [] then []
    else
      var last := children[|children| - 1];
      AdjacentRows(children[..|children| - 1], adjacentImageLink, flags)
      + [AdjacentResult(adjacentImageLink(Some(last), flags, true), adjacentImageLink(Some(last), flags, false), last.id)]
  }

  /** Row i belongs to image i: one row per call, in image order. */
  lemma {:induction false} PreviousRowsAt(images: seq<Record>, previousImageLink: PreviousLinkFunction)
    ensures |PreviousRows(images, previousImageLink)| == |images|
    ensures forall i :: 0 <= i < |images| ==>
      PreviousRows(images, previousImageLink)[i]
      == PreviousResult(previousImageLink(Some(images[i]), AttachmentPage), images[i].id, images[i].parent)
  {
    if images != [] {
      PreviousRowsAt(images[..|images| - 1], previousImageLink);
    }
  }

  /** Row i belongs to record i, with its two links. */
  lemma {:induction false} AdjacentRowsAt(children: seq<Record>, adjacentImageLink: AdjacentLinkFunction, flags: QueryFlags)
    ensures |AdjacentRows(children, adjacentImageLink, flags)| == |children|
    ensures forall i :: 0 <= i < |children| ==>
      AdjacentRows(children, adjacentImageLink, flags)[i]
      == AdjacentResult(adjacentImageLink(Some(children[i]), flags, true),
                        adjacentImageLink(Some(children[i]), flags, false),
                        children[i].id)
  {
    if children != [] {
      AdjacentRowsAt(children[..|children| - 1], adjacentImageLink, flags);
    }
  }

  // ---------------------------------------------------------------------------
  // What the two loops print

  /** The lines of the Test 2 branch: the image count and a progress line per 100 calls, or the empty-fetch notice. */
  function PreviousLoopLines(children: seq<Record>, isImage: nat -> bool, probe: nat -> Sample): seq<Line>
  {
    if children == [] then [NoAttachmentsFound]
    else
      var n := |UnattachedImages(children, isImage)|;
      [UnattachedImagesFound(n)] + ProgressLines(Images, PreviousProgressEvery, n, probe)
  }

  /** The lines of the Test 3 loop: a progress line per 50 records. */
  function AdjacentLoopLines(children: seq<Record>, probe: nat -> Sample): seq<Line>
  {
    ProgressLines(Attachments, AdjacentProgressEvery, |children|, probe)
  }

  // ---------------------------------------------------------------------------
  // The two loops

  /**
    The Test 2 loop over the filtered images: one previous_image_link call
    per image, in order, each with that image as $post and the
    attachment-page flags set; one result row per call; a progress line
    after every 100th call. Afterwards $post and $wp_query are bound as
    before, and the flags remain set when at least one call was made.
  */
  method CallPreviousImageLink(ctx: Context, images: seq<Record>,
                               previousImageLink: PreviousLinkFunction, probe: nat -> Sample)
    returns (previousCalls: nat, previousResults: seq<PreviousResult>, output: string)
    modifies ctx, ctx.wpQuery
    ensures ctx.post == old(ctx.post) && ctx.wpQuery == old(ctx.wpQuery)
    ensures previousCalls == |images|
    ensures previousResults == PreviousRows(images, previousImageLink)
    ensures ctx.wpQuery.Flags() == if images == [] then old(ctx.wpQuery.Flags()) else AttachmentPage
    ensures output == Text(ProgressLines(Images, PreviousProgressEvery, |images|, probe))
  {
    previousCalls := 0;
    previousResults := [];
    output := "";
    var i := 0;
    while i < |images|
      invariant 0 <= i <= |images|
      invariant ctx.post == old(ctx.post) && ctx.wpQuery == old(ctx.wpQuery)
      invariant ctx.wpQuery.Flags() == if i == 0 then old(ctx.wpQuery.Flags()) else AttachmentPage
      invariant previousCalls == i
      invariant previousResults == PreviousRows(images[..i], previousImageLink)
      invariant output == ProgressText(Images, PreviousProgressEvery, i, probe)
    {
      var attachment := images[i];
      var prevLink := ResolvePrevious(ctx, attachment, previousImageLink);
      previousCalls := previousCalls + 1;
      previousResults := previousResults + [PreviousResult(prevLink, attachment.id, attachment.parent)];
      assert images[..i + 1][..i] == images[..i];
      if previousCalls % PreviousProgressEvery == 0 {
        output := output + Render(Progress(Images, previousCalls, probe(previousCalls)));
      }
      i := i + 1;
    }
    assert images[..i] == images;
    ProgressTextIsText(Images, PreviousProgressEvery, i, probe);
  }

  /**
    Test 2's branch on the fetch result: on a non-empty fetch, the count of
    unattached images and then the loop over them; on an empty one, the
    notice and no call.
  */
  method TestPreviousImageLink(ctx: Context, children: seq<Record>, isImage: nat -> bool,
                               previousImageLink: PreviousLinkFunction, probe: nat -> Sample)
    returns (previousCalls: nat, previousResults: seq<PreviousResult>, output: string)
    modifies ctx, ctx.wpQuery
    ensures ctx.post == old(ctx.post) && ctx.wpQuery == old(ctx.wpQuery)
    ensures var images := UnattachedImages(children, isImage);
            && previousCalls == |images|
            && previousResults == PreviousRows(images, previousImageLink)
            && ctx.wpQuery.Flags() == if images == [] then old(ctx.wpQuery.Flags()) else AttachmentPage
    ensures output == Text(PreviousLoopLines(children, isImage, probe))
  {
    if children != [] {
      var images := UnattachedImages(children, isImage);
      var found := UnattachedImagesFound(|images|);
      var loop;
      previousCalls, previousResults, loop := CallPreviousImageLink(ctx, images, previousImageLink, probe);
      output := Render(found) + loop;
      TextSingle(found);
      TextAppend([found], ProgressLines(Images, PreviousProgressEvery, |images|, probe));
    } else {
      previousCalls, previousResults := 0, [];
      output := Render(NoAttachmentsFound);
      TextSingle(NoAttachmentsFound);
    }
  }

  /**
    The Test 3 loop: every record, in order, gets two adjacent_image_link
    calls with itself as $post and the $wp_query flags as they are; one
    result row and two calls per record; a progress line after every 50th
    record. Afterwards $post is bound as before and $wp_query is untouched.
  */
  method CallAdjacentImageLink(ctx: Context, children: seq<Record>,
                               adjacentImageLink: AdjacentLinkFunction, probe: nat -> Sample)
    returns (adjacentCalls: nat, adjacentResults: seq<AdjacentResult>, output: string)
    modifies ctx
    ensures ctx.post == old(ctx.post) && ctx.wpQuery == old(ctx.wpQuery)
    ensures adjacentCalls == 2 * |children|
    ensures adjacentResults == AdjacentRows(children, adjacentImageLink, ctx.wpQuery.Flags())
    ensures output == Text(AdjacentLoopLines(children, probe))
  {
    adjacentCalls := 0;
    adjacentResults := [];
    output := "";
    ghost var flags := ctx.wpQuery.Flags();
    var i := 0;
    while i < |children|
      invariant 0 <= i <= |children|
      invariant ctx.post == old(ctx.post) && ctx.wpQuery == old(ctx.wpQuery)
      invariant ctx.wpQuery.Flags() == flags
      invariant adjacentCalls == 2 * i
      invariant adjacentResults == AdjacentRows(children[..i], adjacentImageLink, flags)
      invariant output == ProgressText(Attachments, AdjacentProgressEvery, i, probe)
    {
      var attachment := children[i];
      var prevLink, nextLink := ResolveAdjacent(ctx, attachment, adjacentImageLink);
      adjacentCalls := adjacentCalls + 2;
      adjacentResults := adjacentResults + [AdjacentResult(prevLink, nextLink, attachment.id)];
      assert children[..i + 1][..i] == children[..i];
      assert |adjacentResults| == i + 1;
      if |adjacentResults| % AdjacentProgressEvery == 0 {
        output := output + Render(Progress(Attachments, |adjacentResults|, probe(|adjacentResults|)));
      }
      i := i + 1;
    }
    assert children[..i] == children;
    ProgressTextIsText(Attachments, AdjacentProgressEvery, i, probe);
  }

  /** Test 3's branch on the fetch result: the loop on a non-empty fetch, nothing on an empty one. */
  method TestAdjacentImageLink(ctx: Context, children: seq<Record>,
                               adjacentImageLink: AdjacentLinkFunction, probe: nat -> Sample)
    returns (adjacentCalls: nat, adjacentResults: seq<AdjacentResult>, output: string)
    modifies ctx
    ensures ctx.post == old(ctx.post) && ctx.wpQuery == old(ctx.wpQuery)
    ensures adjacentCalls == 2 * |children|
    ensures adjacentResults == AdjacentRows(children, adjacentImageLink, ctx.wpQuery.Flags())
    ensures output == Text(AdjacentLoopLines(children, probe))
  {
    if children != [] {
      adjacentCalls, adjacentResults, output := CallAdjacentImageLink(ctx, children, adjacentImageLink, probe);
    } else {
      adjacentCalls, adjacentResults, output := 0, [], "";
    }
  }

  // ---------------------------------------------------------------------------
  // The whole report

  function Stats(interval: Interval): seq<Line> {
    [ ExecutionTime(interval.elapsed),
      MemoryIncrease(interval.end.memory - interval.start.memory),
      PeakMemoryIncrease(interval.end.peak - interval.start.peak) ]
  }

  function HeaderLines(p: Probes): seq<Line> {
    [Title, StartTime(p.startDate), InitialMemory(p.overallStart.memory), InitialPeak(p.overallStart.peak)]
  }

  function Test1Lines(children: seq<Record>, p: Probes): seq<Line> {
    [Test1Heading, AttachmentsFound(|children|)] + Stats(p.test1)
  }

  function Test2Lines(children: seq<Record>, isImage: nat -> bool, p: Probes): seq<Line> {
    var n := |UnattachedImages(children, isImage)|;
    [Test2Heading] + PreviousLoopLines(children, isImage, p.previousProgress)
    + [PreviousImageLinkCalls(n), UnattachedImagesTested(n)] + Stats(p.test2)
  }

  function Test3Lines(children: seq<Record>, p: Probes): seq<Line> {
    [Test3Heading] + AdjacentLoopLines(children, p.adjacentProgress)
    + [AdjacentImageLinkCalls(2 * |children|), AttachmentsTested(|children|)] + Stats(p.test3)
  }

  function OverallLines(p: Probes): seq<Line> {
    [ OverallHeading,
      TotalExecutionTime(p.totalElapsed),
      FinalMemory(p.overallEnd.memory),
      FinalPeak(p.overallEnd.peak),
      TotalMemoryIncrease(p.overallEnd.memory - p.overallStart.memory),
      TotalPeakMemoryIncrease(p.overallEnd.peak - p.overallStart.peak) ]
  }

  /** The memory-limit section: the percentage line only when the limit is not '-1' (unlimited). */
  function LimitLines(p: Probes): seq<Line> {
    [MemoryLimit(p.memoryLimit)] + (if p.memoryLimit != "-1" then [MemoryUsage(p.usagePercent)] else [])
  }

  /** The report as a sequence of lines, fixed by the fetch result, the image test and the readings. */
  function ReportLines(children: seq<Record>, isImage: nat -> bool, p: Probes): seq<Line> {
    HeaderLines(p) + Test1Lines(children, p) + Test2Lines(children, isImage, p) + Test3Lines(children, p)
    + OverallLines(p) + LimitLines(p)
  }

  /**
    The report starts with the title and ends with the usage line, or with
    the limit line when the limit is '-1'. Besides the lines of the two loop
    sections it has 28 lines; counting the Test 2 "Found" line or notice
    among them, there are 29 lines besides the progress lines, and one more
    when the limit is not '-1'.
  */
  lemma ReportLinesShape(children: seq<Record>, isImage: nat -> bool, p: Probes)
    ensures var lines := ReportLines(children, isImage, p);
      && |lines|
         == 28 + |PreviousLoopLines(children, isImage, p.previousProgress)|
            + |AdjacentLoopLines(children, p.adjacentProgress)| + (if p.memoryLimit != "-1" then 1 else 0)
      && lines[0] == Title
      && lines[|lines| - 1]
         == if p.memoryLimit != "-1" then MemoryUsage(p.usagePercent) else MemoryLimit(p.memoryLimit)
    ensures |ReportLines(children, isImage, p)|
         == 29 + |UnattachedImages(children, isImage)| / PreviousProgressEvery
            + |children| / AdjacentProgressEvery + (if p.memoryLimit != "-1" then 1 else 0)
  {
    LoopLinesCount(children, isImage, p);
  }

  // The loop sections: the Test 2 "Found" line or notice and n / 100 progress lines; |children| / 50 in Test 3.
  lemma LoopLinesCount(children: seq<Record>, isImage: nat -> bool, p: Probes)
    ensures |PreviousLoopLines(children, isImage, p.previousProgress)|
         == 1 + |UnattachedImages(children, isImage)| / PreviousProgressEvery
    ensures |AdjacentLoopLines(children, p.adjacentProgress)| == |children| / AdjacentProgressEvery
  {
    ProgressLinesClosedForm(Images, PreviousProgressEvery, |UnattachedImages(children, isImage)|, p.previousProgress);
    ProgressLinesClosedForm(Attachments, AdjacentProgressEvery, |children|, p.adjacentProgress);
  }

  /**
    reproduce_memory_exhaustion: the returned text is the report for this
    fetch result; it does not depend on the globals or on what the link
    functions return. The globals are bound as before; the $wp_query
    object keeps the attachment-page flags when Test 2 made a call.
  */
  method ReproduceMemoryExhaustion(ctx: Context, children: seq<Record>, isImage: nat -> bool,
                                   previousImageLink: PreviousLinkFunction,
                                   adjacentImageLink: AdjacentLinkFunction, p: Probes)
    returns (output: string)
    modifies ctx, ctx.wpQuery
    ensures output == Text(ReportLines(children, isImage, p))
    ensures ctx.post == old(ctx.post) && ctx.wpQuery == old(ctx.wpQuery)
    ensures ctx.wpQuery.Flags()
         == if UnattachedImages(children, isImage) == [] then old(ctx.wpQuery.Flags()) else AttachmentPage
  {
    output := Text(HeaderLines(p));
    output := output + Text(Test1Lines(children, p));

    // Test 2
    var previousCalls, previousResults, loop2 :=
      TestPreviousImageLink(ctx, children, isImage, previousImageLink, p.previousProgress);
    output := output + Text([Test2Heading]) + loop2
              + Text([PreviousImageLinkCalls(previousCalls), UnattachedImagesTested(|previousResults|)] + Stats(p.test2));

    // Test 3
    var adjacentCalls, adjacentResults, loop3 :=
      TestAdjacentImageLink(ctx, children, adjacentImageLink, p.adjacentProgress);
    output := output + Text([Test3Heading]) + loop3
              + Text([AdjacentImageLinkCalls(adjacentCalls), AttachmentsTested(|adjacentResults|)] + Stats(p.test3));

    output := output + Text(OverallLines(p)) + Text(LimitLines(p));

    TextOfReport(children, isImage, p);
  }

  lemma TextOfReport(children: seq<Record>, isImage: nat -> bool, p: Probes)
    ensures var n := |UnattachedImages(children, isImage)|;
      Text(ReportLines(children, isImage, p))
      == Text(HeaderLines(p)) + Text(Test1Lines(children, p))
         + Text([Test2Heading]) + Text(PreviousLoopLines(children, isImage, p.previousProgress))
         + Text([PreviousImageLinkCalls(n), UnattachedImagesTested(n)] + Stats(p.test2))
         + Text([Test3Heading]) + Text(AdjacentLoopLines(children, p.adjacentProgress))
         + Text([AdjacentImageLinkCalls(2 * |children|), AttachmentsTested(|children|)] + Stats(p.test3))
         + Text(OverallLines(p)) + Text(LimitLines(p))
  {
    var n := |UnattachedImages(children, isImage)|;
    ReportSections(children, isImage, p);
    TextOfSections(HeaderLines(p), Test1Lines(children, p),
                   [Test2Heading], PreviousLoopLines(children, isImage, p.previousProgress),
                   [PreviousImageLinkCalls(n), UnattachedImagesTested(n)] + Stats(p.test2),
                   [Test3Heading], AdjacentLoopLines(children, p.adjacentProgress),
                   [AdjacentImageLinkCalls(2 * |children|), AttachmentsTested(|children|)] + Stats(p.test3),
                   OverallLines(p), LimitLines(p));
  }

  // The report's lines as ten consecutive parts, the loops' lines among them.
  lemma ReportSections(children: seq<Record>, isImage: nat -> bool, p: Probes)
    ensures var n := |UnattachedImages(children, isImage)|;
      ReportLines(children, isImage, p)
      == HeaderLines(p) + Test1Lines(children, p)
         + [Test2Heading] + PreviousLoopLines(children, isImage, p.previousProgress)
         + ([PreviousImageLinkCalls(n), UnattachedImagesTested(n)] + Stats(p.test2))
         + [Test3Heading] + AdjacentLoopLines(children, p.adjacentProgress)
         + ([AdjacentImageLinkCalls(2 * |children|), AttachmentsTested(|children|)] + Stats(p.test3))
         + OverallLines(p) + LimitLines(p)
  {
  }

  // The text of the report's ten consecutive parts, part by part.
  lemma TextOfSections(h: seq<Line>, t1: seq<Line>, a2: seq<Line>, b2: seq<Line>, c2: seq<Line>,
                       a3: seq<Line>, b3: seq<Line>, c3: seq<Line>, o: seq<Line>, l: seq<Line>)
    ensures Text(h + t1 + a2 + b2 + c2 + a3 + b3 + c3 + o + l)
         == Text(h) + Text(t1) + Text(a2) + Text(b2) + Text(c2) + Text(a3) + Text(b3) + Text(c3)
            + Text(o) + Text(l)
  {
    TextAppend(h + t1 + a2 + b2 + c2 + a3 + b3 + c3 + o, l);
    TextAppend(h + t1 + a2 + b2 + c2 + a3 + b3 + c3, o);
    TextAppend(h + t1 + a2 + b2 + c2 + a3 + b3, c3);
    TextAppend(h + t1 + a2 + b2 + c2 + a3, b3);
    TextAppend(h + t1 + a2 + b2 + c2, a3);
    TextAppend(h + t1 + a2 + b2, c2);
    TextAppend(h + t1 + a2, b2);
    TextAppend(h + t1, a2);
    TextAppend(h, t1);
  }

  // ---------------------------------------------------------------------------
  // Properties of the report

  lemma Test2ProgressCount(children: seq<Record>, isImage: nat -> bool, p: Probes, kind: ItemKind)
    ensures CountProgress(Test2Lines(children, isImage, p), kind)
         == CountProgress(PreviousLoopLines(children, isImage, p.previousProgress), kind)
  {
    var n := |UnattachedImages(children, isImage)|;
    var a, b, c := [Test2Heading], PreviousLoopLines(children, isImage, p.previousProgress),
                   [PreviousImageLinkCalls(n), UnattachedImagesTested(n)] + Stats(p.test2);
    assert Test2Lines(children, isImage, p) == a + b + c;
    CountProgressAppend(a + b, c, kind);
    CountProgressAppend(a, b, kind);
    NoProgressIn(a, kind);
    NoProgressIn(c, kind);
  }

  lemma Test3ProgressCount(children: seq<Record>, p: Probes, kind: ItemKind)
    ensures CountProgress(Test3Lines(children, p), kind)
         == CountProgress(AdjacentLoopLines(children, p.adjacentProgress), kind)
  {
    var a, b, c := [Test3Heading], AdjacentLoopLines(children, p.adjacentProgress),
                   [AdjacentImageLinkCalls(2 * |children|), AttachmentsTested(|children|)] + Stats(p.test3);
    assert Test3Lines(children, p) == a + b + c;
    CountProgressAppend(a + b, c, kind);
    CountProgressAppend(a, b, kind);
    NoProgressIn(a, kind);
    NoProgressIn(c, kind);
  }

  lemma ReportProgressSplit(children: seq<Record>, isImage: nat -> bool, p: Probes, kind: ItemKind)
    ensures CountProgress(ReportLines(children, isImage, p), kind)
         == CountProgress(PreviousLoopLines(children, isImage, p.previousProgress), kind)
            + CountProgress(AdjacentLoopLines(children, p.adjacentProgress), kind)
  {
    var h, t1, t2, t3 := HeaderLines(p), Test1Lines(children, p), Test2Lines(children, isImage, p), Test3Lines(children, p);
    var o, l := OverallLines(p), LimitLines(p);
    CountProgressAppend(h + t1 + t2 + t3 + o, l, kind);
    CountProgressAppend(h + t1 + t2 + t3, o, kind);
    CountProgressAppend(h + t1 + t2, t3, kind);
    CountProgressAppend(h + t1, t2, kind);
    CountProgressAppend(h, t1, kind);
    NoProgressIn(h, kind);
    NoProgressIn(t1, kind);
    NoProgressIn(o, kind);
    NoProgressIn(l, kind);
    Test2ProgressCount(children, isImage, p, kind);
    Test3ProgressCount(children, p, kind);
  }

  /**
    The whole report holds |unattached images| / 100 Test 2 progress lines
    and |children| / 50 Test 3 progress lines: one per full block of 100
    calls and of 50 records.
  */
  lemma ReportProgressCounts(children: seq<Record>, isImage: nat -> bool, p: Probes)
    ensures CountProgress(ReportLines(children, isImage, p), Images)
         == |UnattachedImages(children, isImage)| / PreviousProgressEvery
    ensures CountProgress(ReportLines(children, isImage, p), Attachments)
         == |children| / AdjacentProgressEvery
  {
    var n := |UnattachedImages(children, isImage)|;
    ReportProgressSplit(children, isImage, p, Images);
    ReportProgressSplit(children, isImage, p, Attachments);
    CountProgressLines(Attachments, AdjacentProgressEvery, |children|, p.adjacentProgress, Images);
    CountProgressLines(Attachments, AdjacentProgressEvery, |children|, p.adjacentProgress, Attachments);
    if children != [] {
      var found := [UnattachedImagesFound(n)];
      var ps := ProgressLines(Images, PreviousProgressEvery, n, p.previousProgress);
      CountProgressAppend(found, ps, Images);
      CountProgressAppend(found, ps, Attachments);
      NoProgressIn(found, Images);
      NoProgressIn(found, Attachments);
      CountProgressLines(Images, PreviousProgressEvery, n, p.previousProgress, Images);
      CountProgressLines(Images, PreviousProgressEvery, n, p.previousProgress, Attachments);
    } else {
      NoProgressIn([NoAttachmentsFound], Images);
      NoProgressIn([NoAttachmentsFound], Attachments);
    }
  }

  lemma {:induction false} NoProgressIn(lines: seq<Line>, kind: ItemKind)
    requires forall i :: 0 <= i < |lines| ==> !lines[i].Progress?
    ensures CountProgress(lines, kind) == 0
  {
    if lines != [] {
      NoProgressIn(lines[..|lines| - 1], kind);
    }
  }

  /**
    An empty fetch: Test 1 reports 0 attachments, Test 2 prints the
    no-attachments notice and reports 0 calls and 0 images tested, Test 3
    reports 0 calls and 0 attachments tested.
  */
  lemma EmptyFetchReport(isImage: nat -> bool, p: Probes)
    ensures Test1Lines([], p) == [Test1Heading, AttachmentsFound(0)] + Stats(p.test1)
    ensures Test2Lines([], isImage, p)
         == [Test2Heading, NoAttachmentsFound, PreviousImageLinkCalls(0), UnattachedImagesTested(0)] + Stats(p.test2)
    ensures Test3Lines([], p)
         == [Test3Heading, AdjacentImageLinkCalls(0), AttachmentsTested(0)] + Stats(p.test3)
  {
  }

  /**
    Three records: A unattached image, B unattached non-image, C attached
    image. Test 2 calls previous_image_link for A alone; Test 3 makes six
    adjacent_image_link calls over A, B and C.
  */
  lemma ThreeRecordScenario(isImage: nat -> bool, p: Probes)
    requires isImage(1) && !isImage(2) && isImage(3)
    ensures var children := [Record(1, 0), Record(2, 0), Record(3, 5)];
            && UnattachedImages(children, isImage) == [Record(1, 0)]
            && Test2Lines(children, isImage, p)
               == [Test2Heading, UnattachedImagesFound(1), PreviousImageLinkCalls(1), UnattachedImagesTested(1)]
                  + Stats(p.test2)
            && Test3Lines(children, p)
               == [Test3Heading, AdjacentImageLinkCalls(6), AttachmentsTested(3)] + Stats(p.test3)
  {
    var children := [Record(1, 0), Record(2, 0), Record(3, 5)];
    assert children[..2] == [Record(1, 0), Record(2, 0)];
    assert children[..2][..1] == [Record(1, 0)];
    assert children[..2][..1][..0] == [];
    assert UnattachedImages(children, isImage) == [Record(1, 0)];
  }
}
