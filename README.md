# cmap: the compaction-log scanner, in Dafny

cmap reads a Couchbase server log and draws when each vbucket was compacted
and when rebalances started and ended. This project models the part that
reads the log: `Parser` goes over the log line by line. It classifies each
line by first match, gets each recognised line's timestamp from the memoised
`get_datetime`, and records:

- the rebalance start and end timestamps;
- each vbucket's compaction timestamps, keyed by the id read off the line's
  trailing path token;
- the running bounds `first` and `last`.

The project has six modules:

- `Results`: `Option` and `Result`.
- `PyStr`: the Python `str` operations the scanner relies on. These are `in`,
  `strip()`, `split()`, `replace(c, '')`, `strip(c)` and `split(sep)[-1]`, on
  `seq<char>`.
- `PyInt`: Python's `int()` on an optional sign followed by decimal digits.
- `Memoize`: `memodict`, a class whose method fills its `map` lazily.
- `Scanner`: what `parse` computes, as functions on values. `Classify` gives
  a line's category, `VbucketId` the id pipeline, `Step` one loop iteration
  and `Scan` the whole loop. The lemmas here are the properties of the scan.
- `Cmap`: the class `Parser`, whose fields are updated in place by the
  imperative `Parse` loop. `Parse` is proved to leave its fields as `Scan`
  says, and it keeps the bounds invariant as a loop invariant.

`get_datetime` is the function inside the `Memo` passed to `Parse`. Timestamps
are integers, and the model assumes nothing else about them. The scanner only
stores and compares them, so every property holds whatever the date parsing
returns.

A "Compacting" line whose id `int()` cannot parse raises `ValueError`
(cmap.py:65-73), which ends the scan part-way. By then the failing line has
already moved `first` and `last` (cmap.py:61-62), and the lines after it are
not read. `Scan` stops there and returns the `ScanError`.

The program is Python 2: cmap.py:101 hands `PADDING / 2` to `range`, which
needs Python 2's integer division. So each line is a byte string, one byte per `char` here, and
`split()` and `strip()` break only on the six ASCII white-space bytes.

## Model

| member | source | states |
|---|---|---|
| Memoize.Memo.constructor | cmap.py:17-22 | `memodict(f)` starts with an empty dictionary, consistent with `f` |
| Memoize.Memo.Get | cmap.py:18-22 | a lookup returns `f(key)` and leaves `cache[key] == f(key)`; a present key leaves the dictionary as it was; no other key's entry changes; every entry stays equal to `f` at its key |
| Memoize.LookupTwice | cmap.py:18-22 | two lookups of one key return the same value `f(key)`, and the second leaves the cache unchanged |
| PyStr.IsSpace | cmap.py:67-68 | no ensures; the white space of a Python 2 byte string (space, `\t`, `\n`, `\x0b`, `\x0c`, `\r`), on which `strip()` and `split()` act |
| PyStr.Contains | cmap.py:45-64 | no ensures; the `in` tests, whose meaning is stated by `PyStr.ContainsIff` |
| PyStr.ContainsIff | cmap.py:45-64 | the substring test `p in s` holds exactly when `p` occurs at some index of `s` |
| PyStr.StripSpaceLeft | cmap.py:67 | no ensures; `lstrip()`, characterised by `PyStr.StripSpaceLeftShape` |
| PyStr.StripSpaceRight | cmap.py:67 | no ensures; `rstrip()`, characterised by `PyStr.StripSpaceRightShape` |
| PyStr.StripSpace | cmap.py:67 | no ensures; `strip()`, whose effect on `split()` is stated by `PyStr.WordsStripSpace` |
| PyStr.StripSpaceLeftShape | cmap.py:67 | `lstrip()` leaves a suffix not starting with white space, and what it drops is all white space |
| PyStr.StripSpaceRightShape | cmap.py:67 | `rstrip()` leaves a prefix not ending with white space, and what it drops is all white space |
| PyStr.WordsLeadingSpace | cmap.py:67-68 | white space before a string adds no word to its `split()` |
| PyStr.WordsTrailingSpace | cmap.py:67-68 | white space after a string, such as the line's newline, adds no word to its `split()` |
| PyStr.WordsStripSpace | cmap.py:67-68 | `strip()` before `split()` changes nothing |
| PyStr.WordsStripSpaceLeft | cmap.py:67-68 | `lstrip()` before `split()` changes nothing |
| PyStr.WordsStripSpaceRight | cmap.py:67-68 | `rstrip()` before `split()` changes nothing |
| PyStr.Words | cmap.py:68 | `split()` yields only nonempty words free of white space |
| PyStr.WordsEmptyIff | cmap.py:68 | `split()` is empty exactly when the line is all white space, i.e. when `[-1]` would raise |
| PyStr.WordsAppendWord | cmap.py:68 | a line ending in white space and a word `w` has `split()` equal to the split of the rest followed by `w`, so `split()[-1] == w` |
| PyStr.Delete | cmap.py:69-70 | `replace(c, '')` leaves no `c` and is never longer |
| PyStr.DeleteConcat | cmap.py:69-70 | `replace(c, '')` distributes over concatenation |
| PyStr.DeleteAbsent | cmap.py:69-70 | `replace(c, '')` on a string without `c` is the identity |
| PyStr.StripLeft | cmap.py:71 | `lstrip(c)` is a suffix, drops only `c`, and does not start with `c` |
| PyStr.StripRight | cmap.py:71 | `rstrip(c)` is a prefix, drops only `c`, and does not end with `c` |
| PyStr.StripLeftAppend | cmap.py:71 | after a character other than `c`, the rest survives `lstrip(c)` intact |
| PyStr.StripRightOne | cmap.py:71 | one trailing `c` after another character is all `rstrip(c)` removes |
| PyStr.LastSegment | cmap.py:72 | `split(sep)[-1]` is a suffix without `sep`, and the character before it is `sep` |
| PyStr.Strip | cmap.py:71 | no ensures; `strip('"')`, the composition of `PyStr.StripLeft` and `PyStr.StripRight` |
| PyStr.LastSegmentAfter | cmap.py:72 | whatever precedes the last `sep` does not affect `split(sep)[-1]` |
| PyInt.ParseInt | cmap.py:65 | `int()` succeeds exactly on an optional sign followed by one or more digits |
| PyInt.ParseIntDecimal | cmap.py:65 | `int()` reads back every integer's decimal spelling, with `-` for negatives |
| PyInt.ParseIntRejects | cmap.py:65 | `int()` fails on the empty string and on any non-digit other than a leading sign |
| PyInt.DigitsOfDecimal | cmap.py:65 | the value of a natural number's decimal spelling is that number |
| PyInt.DecimalOfDigits | cmap.py:65 | a canonical digit string is the decimal spelling of its value |
| Scanner.DeleteBrackets | cmap.py:69-70 | removing every `<` and then every `>` from `<"dir/seg">` leaves `"dir'/seg"`, and only `dir` loses characters |
| Scanner.StripAndSegment | cmap.py:71-72 | stripping `"` and keeping the last `/`-segment of `"dir/seg"` gives `seg` |
| Scanner.IdText | cmap.py:66-72 | no ensures; the text handed to `int()`, or none when `split()` is empty; its meaning is stated by `Scanner.IdTextOfPath` and `Scanner.CompactingHasToken` |
| Scanner.VbucketId | cmap.py:65-73 | no ensures; the whole id pipeline including `int()`, stated by `Scanner.VbucketIdOfDecimal`, `Scanner.VbucketIdExample` and `Scanner.VbucketIdNotInteger` |
| Scanner.IdTextOfPath | cmap.py:65-73 | a line with a white-space character, `<"dir/seg">` and then only white space (such as its newline) hands `seg` to `int()`, whatever precedes it |
| Scanner.VbucketIdOfDecimal | cmap.py:65-73 | such a trailing `<"dir/n">` yields vbucket `n` for every natural `n` written in decimal, with or without trailing white space |
| Scanner.VbucketIdExample | cmap.py:65-73 | a trailing `<"/data/bucket/5">`, followed by the newline or any other white space, yields vbucket 5 |
| Scanner.VbucketIdNotInteger | cmap.py:65-73 | a final segment that is not an integer literal is an error carrying that segment, with or without trailing white space |
| Scanner.CompactingHasToken | cmap.py:64-68 | a line containing "Compacting" always has a last token, so only `int()` can fail on it |
| Scanner.IsCompactionRelated | cmap.py:56-59 | no ensures; a compactor keyword and neither "from" nor "initial call" |
| Scanner.Classify | cmap.py:45-64 | no ensures; the first-match classification, whose consequences are stated by `StepAdministrative`, `StepRebalanceStart`, `StepRebalanceEnd`, `StepExcludedCompaction` and `StepUnrecordedCompaction` |
| Scanner.Min | cmap.py:50 | no ensures; `min(first, t)` with `first` possibly infinite, stated through `Scanner.Widen` |
| Scanner.Max | cmap.py:51 | no ensures; `max(last, t)`, stated through `Scanner.Widen` |
| Scanner.Recorded | cmap.py:74 | no ensures; reading a `defaultdict(list)`, an absent key giving the empty list; stated by `Scanner.RecordedUpdate` |
| Scanner.Step | cmap.py:45-74 | no ensures; one iteration of the loop, stated by those lemmas and `StepRecordedCompaction`, `StepBadVbucketId`, `StepBounds` and `StepLists` |
| Scanner.Scan | cmap.py:44-74 | no ensures; the whole loop, stopping at the first error, stated by `ScanAppend`, `ScanFailsIff`, `ScanRebalanceLists`, `ScanCompactionList`, `ScanBoundsExact` and `ScanKeepsBounded` |
| Scanner.StepFails | cmap.py:64-73 | one line raises exactly when it is a "Compacting" compactor line whose id does not parse |
| Scanner.Widen | cmap.py:50-51 | the `min`/`max` update makes `first <= t <= last`, never raises `first`, never lowers `last`, and touches no list |
| Scanner.StepAdministrative | cmap.py:45-46 | a line containing "master" changes no field, whatever else it contains |
| Scanner.StepRebalanceStart | cmap.py:48-51 | a start line appends exactly its timestamp to the starts, and nothing to the ends or the compactions, even when it has other keywords |
| Scanner.StepRebalanceEnd | cmap.py:52-55 | an end line that is not a start line appends exactly its timestamp to the ends only |
| Scanner.StepExcludedCompaction | cmap.py:56-59 | a compactor line with "from" or "initial call" changes no field, not even the bounds |
| Scanner.StepUnrecordedCompaction | cmap.py:61-64 | a compactor line without "Compacting" moves only `first` and `last` |
| Scanner.StepRecordedCompaction | cmap.py:64-74 | a "Compacting" line appends its timestamp to the end of its vbucket's list, adds that key, and touches no other key |
| Scanner.RecordedUpdate | cmap.py:74 | appending to `compactions[b]` on a `defaultdict(list)` adds key `b` and changes no other key's list |
| Scanner.StepBadVbucketId | cmap.py:61-73 | a "Compacting" line whose id does not parse raises the error after the bounds moved, with no list changed |
| Scanner.StepBounds | cmap.py:50-62 | every recognised line ends with `first <= t <= last`, with `first` not raised and `last` not lowered; every other line changes nothing |
| Scanner.StepStored | cmap.py:49-74 | after one line, a stored timestamp was stored before, or it is the line's own timestamp and the line is recognised |
| Scanner.StepKeepsBounded | cmap.py:49-74 | one line keeps every stored timestamp within `[first, last]` |
| Scanner.ScanAppend | cmap.py:44 | scanning `a + b` is scanning `a` and then, unless it raised, `b` from where `a` left off |
| Scanner.SkippedLineIrrelevant | cmap.py:45-59 | inserting a skipped line anywhere in a file changes neither the fields nor the error |
| Scanner.ScanFailsIff | cmap.py:64-73 | the scan raises exactly when some "Compacting" compactor line's id does not parse |
| Scanner.ScanWidens | cmap.py:50-62 | over a whole file, `first` never rises and `last` never falls |
| Scanner.ScanKeepsBounded | cmap.py:44-74 | a scan from a bounded state keeps every stored timestamp within `[first, last]` |
| Scanner.ScanBounded | cmap.py:35-74 | after scanning any file from a fresh parser, every stored timestamp lies in `[first, last]` |
| Scanner.StepLists | cmap.py:48-74 | a line that does not raise adds its timestamp to the one list its category names, and nothing elsewhere |
| Scanner.ScanRebalanceLists | cmap.py:44-55 | a scan that does not raise appends exactly the start and end lines' timestamps, in file order |
| Scanner.ScanCompactionList | cmap.py:44-74 | a scan that does not raise appends to each vbucket's list exactly its "Compacting" lines' timestamps, in file order, and creates the key only for such a line |
| Scanner.ScanBoundsExact | cmap.py:44-62 | after a scan that does not raise, `first` and `last` cover every recognised line and are either the initial bounds or some recognised line's timestamp |
| Scanner.ScenarioRebalance | cmap.py:35-55 | a fresh parser given a start and then an end line records one of each, with bounds exactly those two timestamps |
| Scanner.ScenarioCompactions | cmap.py:35-74 | a fresh parser given only "Compacting" lines for one vbucket maps that vbucket to all their timestamps in file order, and records nothing else |
| Scanner.ScenarioExcluded | cmap.py:35-59 | a fresh parser given a compactor line with "from" stays as it was |
| Cmap.Parser.constructor | cmap.py:35-40 | a new parser has no compactions or rebalances, `first` infinite and `last` zero, which is a bounded state |
| Cmap.Parser.Parse | cmap.py:42-74 | the fields end as `Scan` of the old fields over the lines, and the result is the error that stopped it, if any; it keeps the memo consistent, keeps every stored timestamp within `[first, last]`, and never raises `first` or lowers `last` |
| Cmap.Parser.ParseLine | cmap.py:45-74 | one iteration of the loop changes the fields as `Step` says for that line and its timestamp, and returns its error |
| Cmap.ScanFile | cmap.py:140-141 | `Parser()` followed by `parse` ends as `Scan` from the initial state, with every stored timestamp in `[first, last]` |

## Left out

- `get_datetime`'s date parsing (cmap.py:26-30) is not modelled. It uses `dateutil`, `time.mktime` and float milliseconds. The model takes it as the function wrapped by the `Memo`, from line to integer. Its exceptions (a line without a comma, an unparsable date) are not modelled, and integers stand for the float timestamps.
- File handling (cmap.py:43-44) is not modelled: the file is given as the sequence of its lines.
- `Drawer` (cmap.py:77-136) and the drawing part of `main` (cmap.py:143-157) are not modelled. They are SVG output and float scaling.
- Python 2 `int()` details beyond an optional sign and ASCII digits are not modelled: surrounding white space, and the `long` type it returns for large values. Integers are unbounded here.
- Idempotence across runs is not stated separately. `Scan` is a function, so the same file and the same `get_datetime` always give the same outcome.
