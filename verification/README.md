# File-system analyzer: classify-and-aggregate core

A Dafny model of the core of `analizer.py`, a one-shot tool that walks a
directory tree, files each regular file under one of eight content
categories by its MIME type, keeps a running byte total per category, and
flags files that are writable or larger than a threshold.

The model has four modules:

- `Classifier` (`classifier.dfy`): the eight categories of the size table as
  a datatype `Category`, listed in the table's declaration order and each
  with its label string (`Label`), and `Classify`, the ordered decision table
  of `classify_file`. It takes the MIME type (or its absence) as input and
  returns a `Category`; the label the source returns is `Label` of it. The
  eight strings `classify_file` returns are exactly the eight keys of the
  table, so one `Label` serves as both the return value and the key. Because
  the table is keyed by every `Category`, the `+=` lookup in the walk cannot
  fail. Python's `if mime_type:` is false for `None` and for the empty
  string; both give `Unknown file type`. The prefix tests are plain
  `startswith` calls with no slash, so `"textual"` is a text file; the model
  follows the code here rather than a `text/*` reading.
- `Permissions` (`permissions.dfy`): `IsWorldWritable`, the test
  `st_mode & 0o222 != 0` on a 32-bit mode word. The mask includes the owner's
  write bit, so a file writable by its owner alone is flagged. The function's
  name suggests only group and other bits; the model follows the code.
- `Aggregator` (`aggregator.dfy`): the module-level dictionary
  `category_sizes` as a class `CategorySizes` whose `sizes` map is updated in
  place. `Add` is the `+=` of the walk; `TotalSizes` is `print_total_sizes`
  with the megabyte formatting removed.
- `Walker` (`walker.dfy`): the loop of `list_and_classify_items_in_directory`
  over a given listing of entries (`File`, `Dir`, `Other`). Each entry yields
  one report value in place of its printed lines. `Other` entries yield only
  the blank line (`Blank`) printed after every entry. The early return when
  the root is missing is the `DirectoryMissing` outcome. The totals are specified by `TotalFor`, the bytes
  of the files classified into one category, and `FileBytes`, the bytes of
  all files.

## Model

| member | source | states |
|---|---|---|
| `Classifier.Classify` | analizer.py:19-54 | a missing MIME type is `Unknown file type` |
| `Classifier.Position` | analizer.py:6-16 | each category has a place in the table's declaration order |
| `Classifier.Label` | analizer.py:7-14 | the string returned for each category is the table key at that category's position in the declaration order |
| `Classifier.CategoriesDistinct` | analizer.py:6-16 | the eight categories are all listed, none twice, and no two share a label, so the table has eight distinct keys |
| `Classifier.ClassifyText` | analizer.py:34-35 | a type is a text file iff it starts with `text` |
| `Classifier.ClassifyImage` | analizer.py:36-37 | a type is an image file iff it starts with `image` and not with `text` |
| `Classifier.ClassifyAudio` | analizer.py:38-39 | a type is an audio file iff it starts with `audio` and with neither earlier prefix |
| `Classifier.ClassifyVideo` | analizer.py:40-41 | a type is a video file iff it starts with `video` and with none of the three earlier prefixes |
| `Classifier.ClassifyExecutable` | analizer.py:44-45 | a type is an executable iff it is exactly `application/x-executable` or `application/x-msdownload` |
| `Classifier.ClassifyArchive` | analizer.py:46-47 | a type is an archive iff it is exactly `application/zip` or `application/x-tar` |
| `Classifier.ClassifyApplication` | analizer.py:42-49 | a type is a generic application file iff it starts with `application` and is none of the four special types |
| `Classifier.ClassifyUnknown` | analizer.py:50-54 | the result is `Unknown file type` iff the type is missing or has none of the five top-level prefixes |
| `Classifier.ApplicationExcludesEarlierPrefixes` | analizer.py:34-42 | a type starting with `application` reaches the application branch: it is not empty and has none of the four earlier prefixes |
| `Classifier.TextPrefixWithoutSlash` | analizer.py:34-35 | `textual` is a text file: the prefix test has no slash |
| `Classifier.ApplicationPrefixWithoutSlash` | analizer.py:42-49 | `applicationx` is an application file |
| `Classifier.SpecialTypesAreApplication` | analizer.py:42-47 | the four exact-match types lie inside the `application` branch |
| `Permissions.IsWorldWritable` | analizer.py:57-67 | the check holds iff the owner, group or other write bit is set (mask 0o222, owner bit included) |
| `Permissions.OnlyWriteBitsMatter` | analizer.py:67 | two modes with the same write bits get the same verdict |
| `Permissions.OwnerOnlyFileIsFlagged` | analizer.py:67 | a file with mode 0o100600 is flagged |
| `Permissions.ReadOnlyFileIsNotFlagged` | analizer.py:67 | a file with mode 0o100444, whose write bits are all clear, is not flagged |
| `Aggregator.SumOverUpdate` | analizer.py:96 | adding to one key of the table raises the sum over distinct keys by exactly that amount |
| `Aggregator.CategorySizes.constructor` | analizer.py:6-16 | the table has every category as a key, each at zero |
| `Aggregator.CategorySizes.Add` | analizer.py:96 | that one total grows by the size and the other seven are unchanged; no total decreases; the grand total grows by the size |
| `Aggregator.CategorySizes.TotalSizes` | analizer.py:112-119 | one (label, bytes) pair per category, in declaration order, each with the table's current total; every category appears exactly once, zero totals included, and no label repeats |
| `Aggregator.SummaryListsEachCategoryOnce` | analizer.py:117-119 | the summary lists every category's label exactly once, zero totals included |
| `Walker.TotalForAppend` | analizer.py:92-96 | a further entry adds its size to its own category's total and to no other |
| `Walker.NonFilesAddNothing` | analizer.py:107-109 | directories and other entries change no total |
| `Walker.SumTotalsFirst` | analizer.py:96 | over distinct categories, one file adds its size to the sum of the totals exactly once |
| `Walker.TotalsPartitionFileBytes` | analizer.py:92-96 | the eight category totals sum to the bytes of all files seen |
| `Walker.IsLarge` | analizer.py:105 | a file is large iff it is at least one byte above the threshold; a file exactly at the threshold is not; under a negative threshold every file is large |
| `Walker.ReportOf` | analizer.py:93-108 | files, and only files, get a file report with their name, size and category; the world-writable flag is the permission check on the file's mode; the large flag is `size > threshold`; directories, and only directories, get a directory report carrying their name |
| `Walker.ThresholdIsStrict` | analizer.py:105 | a file of exactly the threshold size is not large; one byte larger is |
| `Walker.StepKeepsTotals` | analizer.py:93-109 | one step of the loop keeps each total equal to its start value plus the bytes of that category's files seen so far |
| `Walker.Visit` | analizer.py:93-109 | a file adds its size to its own category and nothing else changes; other entries change nothing; the report is the entry's report |
| `Walker.ClassifyEntries` | analizer.py:92-109 | one report per entry in order; each category grows by the bytes of its files; the grand total grows by the bytes of all files |
| `Walker.ListAndClassify` | analizer.py:80-109 | with a missing root nothing changes and the outcome says so; otherwise as the loop |
| `Walker.ScanFromZero` | analizer.py:92-109 | starting from the all-zero table, one report per entry in order, each category ends holding exactly the bytes of its files, and the totals sum to the bytes of all files |

## Left out

- The MIME lookup `mimetypes.guess_type` (analizer.py:30) is a library extension table. Its result is an input of each `File` entry.
- Filesystem access is not modelled: path resolution, the existence test, `rglob`, `is_file`/`is_dir` and `stat` (analizer.py:67, 80, 85, 92-95, 107). The listing is a given sequence of entries carrying size and mode, and the existence test is a boolean input. Traversal order, symbolic-link handling and completeness of the recursive listing are not expressed.
- The threshold is an integer number of bytes. The source multiplies a floating-point megabyte count by 1024*1024 (analizer.py:82). For an integer size and any finite threshold `t`, negative ones included, `size > t` equals `size > floor(t)`, so the model covers every finite threshold. Infinite and NaN thresholds, which `float` accepts, are not modelled: under positive infinity or NaN no file is ever large, under negative infinity every file is.
- A failing `stat` is not modelled. If a file vanishes between `is_file()` and `stat()` (analizer.py:93-95, 67), the exception ends the walk with partial totals and no summary; entries here always carry a size and a mode.
- Floating-point megabyte conversion and two-decimal formatting (analizer.py:97, 118) are not modelled; sizes stay in bytes.
- Printed output (analizer.py:86, 89, 98, 102, 106, 108-109, 116-119) becomes report values and a summary sequence.
- The command-line block (analizer.py:122-137) is not modelled: argument parsing, the default threshold of 5 MB, the usage message and the fall-through after a usage error.
- The mode word is modelled as 32 bits; Python's integer `st_mode` is unbounded, but real mode words fit.
