/**
 * The walk of analizer.py (`list_and_classify_items_in_directory`): every
 * entry below the root is visited once; a regular file is classified, its
 * size added to its category's total, and it is flagged when writable or
 * larger than the threshold; a directory is only listed; any other entry is
 * passed over.
 *
 * The recursive directory listing and the per-file `stat` calls are not
 * modelled: the walk receives the listing as a sequence of entries that
 * already carry each file's MIME type, size and mode.
 */
module Walker {

  import opened Wrappers
  import opened Classifier
  import opened Permissions
  import opened Aggregator

  /** One entry of the recursive listing, as the filesystem describes it. */
  datatype Entry =
    | File(name: string, mime: Option<string>, size: nat, mode: Mode)
    | Dir(name: string)
    | Other

  /** What the walk reports for one entry (the printed lines, as values). */
  datatype Report =
    | FileReport(name: string, category: Category, size: nat, worldWritable: bool, large: bool)
    | DirReport(name: string)
    | Blank

  /** The outcome of one walk: the root is missing, or the reports of the listing. */
  datatype Outcome = DirectoryMissing | Listed(reports: seq<Report>)

  /**
   * The large-file test: strictly greater than the threshold in bytes. The
   * threshold is the integer part of the source's floating-point byte count;
   * for a whole-number size the strict comparison gives the same verdict.
   */
  predicate IsLarge(size: nat, threshold: int): (r: bool)
    ensures r <==> size >= threshold + 1
    ensures size == threshold ==> !r
    ensures threshold < 0 ==> r
  {
    size > threshold
  }

  /** The bytes the files among `entries` contribute to `category`. */
  function TotalFor(entries: seq<Entry>, category: Category): nat {
    if entries == [] then 0
    else
      (if entries[0].File? && Classify(entries[0].mime) == category then entries[0].size else 0)
      + TotalFor(entries[1..], category)
  }

  /** The bytes of all files among `entries`, whatever their category. */
  function FileBytes(entries: seq<Entry>): nat {
    if entries == [] then 0
    else (if entries[0].File? then entries[0].size else 0) + FileBytes(entries[1..])
  }

  /** Appending one entry adds its size to its own category's total and to no other. */
  lemma {:induction false} TotalForAppend(entries: seq<Entry>, e: Entry, category: Category)
    ensures TotalFor(entries + [e], category)
            == TotalFor(entries, category)
               + (if e.File? && Classify(e.mime) == category then e.size else 0)
  {
    if entries != [] {
      assert (entries + [e])[1..] == entries[1..] + [e];
      TotalForAppend(entries[1..], e, category);
    }
  }

  /** Directories and other entries contribute to no total. */
  lemma NonFilesAddNothing(entries: seq<Entry>, e: Entry, category: Category)
    requires !e.File?
    ensures TotalFor(entries + [e], category) == TotalFor(entries, category)
  {
    TotalForAppend(entries, e, category);
  }

  /** The per-category totals of `entries`, summed over the categories in `keys`. */
  function SumTotals(keys: seq<Category>, entries: seq<Entry>): nat {
    if keys == [] then 0 else TotalFor(entries, keys[0]) + SumTotals(keys[1..], entries)
  }

  /** Peeling the first entry off every category total at once. */
  lemma {:induction false} SumTotalsFirst(keys: seq<Category>, entries: seq<Entry>)
    requires entries != []
    requires forall i, j :: 0 <= i < j < |keys| ==> keys[i] != keys[j]
    ensures SumTotals(keys, entries)
            == SumTotals(keys, entries[1..])
               + (if entries[0].File? && Classify(entries[0].mime) in keys then entries[0].size else 0)
  {
    if keys != [] {
      SumTotalsFirst(keys[1..], entries);
      if entries[0].File? {
        HeadNotInTail(keys, Classify(entries[0].mime));
      }
    }
  }

  /**
   * The category totals partition the file bytes: summed over the eight
   * categories they give the size of every file seen, each counted once.
   */
  lemma {:induction false} TotalsPartitionFileBytes(entries: seq<Entry>)
    ensures SumTotals(Categories, entries) == FileBytes(entries)
  {
    if entries == [] {
      assert SumTotals(Categories, entries) == 0 by {
        ZeroSumTotals(Categories);
      }
    } else {
      CategoriesDistinct();
      SumTotalsFirst(Categories, entries);
      TotalsPartitionFileBytes(entries[1..]);
    }
  }

  /** With no entries every total is zero. */
  lemma {:induction false} ZeroSumTotals(keys: seq<Category>)
    ensures SumTotals(keys, []) == 0
  {
    if keys != [] {
      ZeroSumTotals(keys[1..]);
    }
  }

  /** The report of one entry, with the threshold in bytes. */
  function ReportOf(e: Entry, threshold: int): (r: Report)
    ensures e.File? <==> r.FileReport?
    ensures e.Dir? <==> r.DirReport?
    ensures e.File? ==> r.category == Classify(e.mime) && r.size == e.size && r.name == e.name
    ensures e.File? ==> (r.large <==> e.size > threshold)
    ensures e.File? ==> r.worldWritable == IsWorldWritable(e.mode)
    ensures e.Dir? ==> r.name == e.name
  {
    match e
    case File(name, mime, size, mode) =>
      FileReport(name, Classify(mime), size, IsWorldWritable(mode), IsLarge(size, threshold))
    case Dir(name) => DirReport(name)
    case Other => Blank
  }

  /** A file exactly at the threshold is not large; one byte more is. */
  lemma ThresholdIsStrict(name: string, mime: Option<string>, mode: Mode, threshold: nat)
    ensures !ReportOf(File(name, mime, threshold, mode), threshold).large
    ensures ReportOf(File(name, mime, threshold + 1, mode), threshold).large
  {
  }

  /** Each category of `now` holds its value in `start` plus the bytes its files in `done` add. */
  ghost predicate Accumulated(start: map<Category, nat>, now: map<Category, nat>, done: seq<Entry>) {
    forall c: Category :: c in start && c in now && now[c] == start[c] + TotalFor(done, c)
  }

  /**
   * One loop step keeps the totals accumulated: a file's size goes to its own
   * category, any other entry leaves the table as it was.
   */
  lemma StepKeepsTotals(
    start: map<Category, nat>, before: map<Category, nat>, after: map<Category, nat>,
    done: seq<Entry>, e: Entry)
    requires Accumulated(start, before, done)
    requires e.File? ==> after == before[Classify(e.mime) := before[Classify(e.mime)] + e.size]
    requires !e.File? ==> after == before
    ensures Accumulated(start, after, done + [e])
  {
    forall c: Category
      ensures c in after && after[c] == start[c] + TotalFor(done + [e], c)
    {
      TotalForAppend(done, e, c);
    }
  }

  /**
   * The loop body for one entry: a file's size is added to its category's
   * total; every entry yields its report.
   */
  method Visit(table: CategorySizes, e: Entry, threshold: int) returns (report: Report)
    requires table.Valid()
    modifies table
    ensures table.Valid()
    ensures report == ReportOf(e, threshold)
    ensures e.File? ==> table.sizes == old(table.sizes)[Classify(e.mime) := old(table.sizes)[Classify(e.mime)] + e.size]
    ensures !e.File? ==> table.sizes == old(table.sizes)
  {
    match e {
      case File(name, mime, size, mode) =>
        var category := Classify(mime);
        table.Add(category, size);
        var writable := IsWorldWritable(mode);
        report := FileReport(name, category, size, writable, IsLarge(size, threshold));
      case Dir(name) =>
        report := DirReport(name);
      case Other =>
        report := Blank;
    }
  }

  /** Summed over distinct keys, accumulated totals grow by the sum of the per-category bytes. */
  lemma {:induction false} SumOverAccumulated(
    keys: seq<Category>, start: map<Category, nat>, now: map<Category, nat>, done: seq<Entry>)
    requires forall k :: k in keys ==> k in start && k in now
    requires forall k :: k in keys ==> now[k] == start[k] + TotalFor(done, k)
    ensures SumOver(keys, now) == SumOver(keys, start) + SumTotals(keys, done)
  {
    if keys != [] {
      SumOverAccumulated(keys[1..], start, now, done);
    }
  }

  /**
   * The loop of the walk: each entry of the listing is reported in turn and
   * each file's size is added to its category's total in `table`.
   */
  method ClassifyEntries(table: CategorySizes, entries: seq<Entry>, threshold: int)
    returns (reports: seq<Report>)
    requires table.Valid()
    modifies table
    ensures table.Valid()
    ensures |reports| == |entries|
    ensures forall i :: 0 <= i < |entries| ==> reports[i] == ReportOf(entries[i], threshold)
    ensures forall c: Category :: table.sizes[c] == old(table.sizes[c]) + TotalFor(entries, c)
    ensures table.GrandTotal() == old(table.GrandTotal()) + FileBytes(entries)
  {
    reports := [];
    var i := 0;
    while i < |entries|
      invariant 0 <= i <= |entries|
      invariant table.Valid()
      invariant |reports| == i
      invariant forall j :: 0 <= j < i ==> reports[j] == ReportOf(entries[j], threshold)
      invariant Accumulated(old(table.sizes), table.sizes, entries[..i])
    {
      var e := entries[i];
      ghost var before := table.sizes;
      assert entries[..i + 1] == entries[..i] + [e];
      var report := Visit(table, e, threshold);
      reports := reports + [report];
      StepKeepsTotals(old(table.sizes), before, table.sizes, entries[..i], e);
      i := i + 1;
    }
    assert entries[..i] == entries;
    SumOverAccumulated(Categories, old(table.sizes), table.sizes, entries);
    TotalsPartitionFileBytes(entries);
  }

  /**
   * The walk: a missing root is reported and changes nothing; otherwise the
   * whole listing is classified into `table`.
   */
  method ListAndClassify(table: CategorySizes, rootExists: bool, entries: seq<Entry>, threshold: int)
    returns (outcome: Outcome)
    requires table.Valid()
    modifies table
    ensures table.Valid()
    ensures !rootExists ==> outcome == DirectoryMissing && table.sizes == old(table.sizes)
    ensures rootExists ==> outcome.Listed?
    ensures rootExists ==> |outcome.reports| == |entries|
    ensures rootExists ==> forall i :: 0 <= i < |entries| ==> outcome.reports[i] == ReportOf(entries[i], threshold)
    ensures rootExists ==> forall c: Category :: table.sizes[c] == old(table.sizes[c]) + TotalFor(entries, c)
    ensures rootExists ==> table.GrandTotal() == old(table.GrandTotal()) + FileBytes(entries)
  {
    if !rootExists {
      return DirectoryMissing;
    }
    var reports := ClassifyEntries(table, entries, threshold);
    outcome := Listed(reports);
  }

  /**
   * A walk that starts from the all-zero table leaves each category holding
   * exactly the bytes of the files classified into it, and the grand total
   * equal to the bytes of all files.
   */
  method ScanFromZero(entries: seq<Entry>, threshold: int)
    returns (reports: seq<Report>, totals: map<Category, nat>)
    ensures |reports| == |entries|
    ensures forall i :: 0 <= i < |entries| ==> reports[i] == ReportOf(entries[i], threshold)
    ensures forall c: Category :: c in totals && totals[c] == TotalFor(entries, c)
    ensures SumOver(Categories, totals) == FileBytes(entries)
  {
    var table := new CategorySizes();
    assert table.GrandTotal() == 0 by {
      AllZeroSum(Categories, table.sizes);
    }
    reports := ClassifyEntries(table, entries, threshold);
    totals := table.sizes;
  }

  /** A table whose listed values are all zero sums to zero. */
  lemma {:induction false} AllZeroSum(keys: seq<Category>, m: map<Category, nat>)
    requires forall k :: k in keys ==> k in m && m[k] == 0
    ensures SumOver(keys, m) == 0
  {
    if keys != [] {
      AllZeroSum(keys[1..], m);
    }
  }
}
