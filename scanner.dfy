/**
 * What `Parser.parse` computes, as functions over values: how one log line is
 * classified, how a vbucket id is read off a compaction line, what one line
 * does to the scanner's state, and what a whole sequence of lines does.
 * The class in module Cmap is proved to follow these definitions; the
 * lemmas here state what the definitions promise.
 */
module Scanner {
  import opened Results
  import opened PyStr
  import PyInt

  // ---------------------------------------------------------------------------
  // The keywords the classification looks for

  const Master: string := "master"
  const RebalanceStarted: string := "Started rebalancing bucket"
  const RebalanceCompleted: string := "Rebalance completed successfully"
  const MaybeCompact: string := "maybe_compact_vbucket"
  const SpawnCompactor: string := "spawn_vbucket_compactor"
  const From: string := "from"
  const InitialCall: string := "initial call"
  const Compacting: string := "Compacting"

  /** The kinds of log line, in the order in which they are tried. */
  datatype Category =
    | Administrative            // mentions "master": skipped
    | RebalanceStart
    | RebalanceEnd
    | Compaction(recorded: bool) // a compactor line; recorded when it also says "Compacting"
    | Unrecognised

  /** A compactor keyword, and neither "from" nor "initial call". */
  predicate IsCompactionRelated(line: string) {
    && (Contains(line, MaybeCompact) || Contains(line, SpawnCompactor))
    && !Contains(line, From)
    && !Contains(line, InitialCall)
  }

  /** The first matching category wins. */
  function Classify(line: string): Category {
    if Contains(line, Master) then Administrative
    else if Contains(line, RebalanceStarted) then RebalanceStart
    else if Contains(line, RebalanceCompleted) then RebalanceEnd
    else if IsCompactionRelated(line) then Compaction(Contains(line, Compacting))
    else Unrecognised
  }

  /** The lines that update the time bounds. */
  predicate Recognised(c: Category) {
    c.RebalanceStart? || c.RebalanceEnd? || c.Compaction?
  }

  // ---------------------------------------------------------------------------
  // The vbucket id of a "Compacting" line

  /** Why reading a vbucket id failed: `split()[-1]` found no token, or `int()` refused the segment. */
  datatype ScanError = NoToken | InvalidLiteral(segment: string)

  /**
   * The text `int()` is applied to: the last white-space separated token of
   * the line with its surrounding white space stripped, with every `<` and then every `>` removed, `"` stripped from both
   * ends, and only what follows its last `/` kept.
   */
  function IdText(line: string): Option<string> {
    var ws := Words(StripSpace(line));
    if ws == [] then None
    else Some(LastSegment(Strip(Delete(Delete(ws[|ws| - 1], '<'), '>'), '"'), '/'))
  }

  function VbucketId(line: string): Result<int, ScanError> {
    match IdText(line)
    case None => Err(NoToken)
    case Some(text) =>
      match PyInt.ParseInt(text)
      case Some(b) => Ok(b)
      case None => Err(InvalidLiteral(text))
  }

  /** The trailing token `<"dir/seg">` is one word. */
  lemma PathTokenIsWord(dir: string, seg: string)
    requires NoSpace(dir) && NoSpace(seg)
    ensures NoSpace("<\"" + dir + "/" + seg + "\">")
  {
    var tok := "<\"" + dir + "/" + seg + "\">";
    forall i | 0 <= i < |tok| ensures !IsSpace(tok[i]) {
      if 2 <= i < 2 + |dir| {
        assert tok[i] == dir[i - 2];
      } else if 3 + |dir| <= i < 3 + |dir| + |seg| {
        assert tok[i] == seg[i - 3 - |dir|];
      }
    }
  }

  /** Removing `<` from `<"dir/seg">` touches only the opening bracket and `dir`. */
  lemma DeleteOpening(dir: string, mid: string)
    requires '<' !in mid
    ensures Delete(['<', '"'] + dir + mid + ['"', '>'], '<') == ['"'] + Delete(dir, '<') + mid + ['"', '>']
  {
    var open, close := ['<', '"'], ['"', '>'];
    assert Delete(open, '<') == ['"'] by {
      assert open[1..] == ['"'];
      assert Delete(['"'], '<') == ['"'] + Delete([], '<');
    }
    DeleteAbsent(mid + close, '<');
    AppendAssoc(open + dir, mid, close);
    DeleteThree(open, dir, mid + close, '<');
    AppendAssoc(['"'] + Delete(dir, '<'), mid, close);
  }

  /** Removing `>` from `"dir/seg">` touches only the closing bracket and `dir`. */
  lemma DeleteClosing(dir: string, mid: string)
    requires '>' !in mid
    ensures Delete(['"'] + dir + mid + ['"', '>'], '>') == ['"'] + Delete(dir, '>') + mid + ['"']
  {
    var open, close := ['"'], ['"', '>'];
    assert Delete(open, '>') == open by {
      assert Delete(open, '>') == ['"'] + Delete([], '>');
    }
    assert Delete(close, '>') == ['"'] by {
      assert close[1..] == ['>'];
      assert Delete(['>'], '>') == [] + Delete([], '>');
    }
    DeleteAbsent(mid, '>');
    DeleteConcat(mid, close, '>');
    AppendAssoc(open + dir, mid, close);
    DeleteThree(open, dir, mid + close, '>');
    AppendAssoc(open + Delete(dir, '>'), mid, ['"']);
  }

  /** Deleting from three concatenated pieces deletes from each. */
  lemma DeleteThree(a: string, b: string, c: string, x: char)
    ensures Delete(a + b + c, x) == Delete(a, x) + Delete(b, x) + Delete(c, x)
  {
    DeleteConcat(a + b, c, x);
    DeleteConcat(a, b, x);
  }

  /** Removing `<` and then `>` from `<"dir/seg">` leaves `"dir'/seg"`, where only `dir` loses characters. */
  lemma DeleteBrackets(dir: string, seg: string)
    requires '<' !in seg && '>' !in seg
    ensures Delete(Delete("<\"" + dir + "/" + seg + "\">", '<'), '>')
         == "\"" + Delete(Delete(dir, '<'), '>') + "/" + seg + "\""
  {
    var mid := ['/'] + seg;
    assert "<\"" + dir + "/" + seg + "\">" == ['<', '"'] + dir + mid + ['"', '>'];
    DeleteOpening(dir, mid);
    DeleteClosing(Delete(dir, '<'), mid);
  }

  /** Stripping `"` from `"dir/seg"` and keeping the last `/`-segment leaves `seg`. */
  lemma StripAndSegment(dir: string, seg: string)
    requires seg != [] && seg[|seg| - 1] != '"' && '/' !in seg
    ensures LastSegment(Strip("\"" + dir + "/" + seg + "\"", '"'), '/') == seg
  {
    var y := StripLeft(['"'] + dir, '"');
    assert "\"" + dir + "/" + seg + "\"" == (['"'] + dir) + (['/'] + seg + ['"']);
    StripLeftAppend(['"'] + dir, ['/'] + seg + ['"'], '"');
    StripRightOfSegment(y, seg);
    LastSegmentAfter(y, '/', seg);
  }

  /** The closing `"` after `y/seg` is all `rstrip('"')` removes. */
  lemma StripRightOfSegment(y: string, seg: string)
    requires seg != [] && seg[|seg| - 1] != '"'
    ensures StripRight(y + (['/'] + seg + ['"']), '"') == y + ['/'] + seg
  {
    var a := y + ['/'] + seg;
    assert y + (['/'] + seg + ['"']) == a + ['"'];
    assert a[|a| - 1] == seg[|seg| - 1];
    StripRightOne(a, '"');
  }

  /**
   * A line ending in a white-space character, `<"dir/seg">` and any trailing
   * white space (such as the line's own newline), with no white space in
   * `dir/seg`, yields `seg`.
   */
  lemma IdTextOfPath(p: string, c: char, dir: string, seg: string, q: string)
    requires IsSpace(c) && AllSpace(q)
    requires NoSpace(dir) && NoSpace(seg)
    requires seg != [] && seg[|seg| - 1] != '"'
    requires '/' !in seg && '<' !in seg && '>' !in seg
    ensures IdText(p + [c] + "<\"" + dir + "/" + seg + "\">" + q) == Some(seg)
  {
    var tok := "<\"" + dir + "/" + seg + "\">";
    var line := p + [c] + "<\"" + dir + "/" + seg + "\">" + q;
    PathTokenIsWord(dir, seg);
    assert line == (p + [c] + tok) + q;
    WordsStripSpace(line);
    WordsTrailingSpace(p + [c] + tok, q);
    WordsAppendWord(p, c, tok);
    DeleteBrackets(dir, seg);
    StripAndSegment(Delete(Delete(dir, '<'), '>'), seg);
  }

  /** A trailing `<"dir/n">` for a natural number `n` written in decimal yields vbucket `n`. */
  lemma VbucketIdOfDecimal(p: string, c: char, dir: string, n: nat, q: string)
    requires IsSpace(c) && AllSpace(q) && NoSpace(dir)
    ensures VbucketId(p + [c] + "<\"" + dir + "/" + PyInt.Decimal(n) + "\">" + q) == Ok(n)
  {
    var d := PyInt.Decimal(n);
    assert NoSpace(d) && d[|d| - 1] != '"' && '/' !in d && '<' !in d && '>' !in d by {
      assert forall i | 0 <= i < |d| :: PyInt.IsDigit(d[i]);
    }
    IdTextOfPath(p, c, dir, d, q);
    PyInt.ParseIntDecimal(n);
  }

  /** The usual shape, `... Compacting <"/data/bucket/5">` and then the newline or other white space, yields vbucket 5. */
  lemma VbucketIdExample(p: string, q: string)
    requires AllSpace(q)
    ensures VbucketId(p + " <\"/data/bucket/5\">" + q) == Ok(5)
  {
    var five := PyInt.Decimal(5);
    assert five == "5";
    assert p + " <\"/data/bucket/5\">" + q == p + [' '] + "<\"" + "/data/bucket" + "/" + five + "\">" + q;
    VbucketIdOfDecimal(p, ' ', "/data/bucket", 5, q);
  }

  /** A final segment that is not an integer literal is an error carrying that segment. */
  lemma VbucketIdNotInteger(p: string, c: char, dir: string, seg: string, q: string)
    requires IsSpace(c) && AllSpace(q)
    requires NoSpace(dir) && NoSpace(seg)
    requires seg != [] && seg[|seg| - 1] != '"'
    requires '/' !in seg && '<' !in seg && '>' !in seg
    requires !PyInt.IsIntLiteral(seg)
    ensures VbucketId(p + [c] + "<\"" + dir + "/" + seg + "\">" + q) == Err(InvalidLiteral(seg))
  {
    IdTextOfPath(p, c, dir, seg, q);
  }

  /** A line that says "Compacting" always has a last token, so only `int()` can fail on it. */
  lemma CompactingHasToken(line: string)
    requires Contains(line, Compacting)
    ensures IdText(line).Some?
    ensures VbucketId(line) != Err(NoToken)
  {
    ContainsIff(line, Compacting);
    var i :| OccursAt(line, Compacting, i);
    assert line[i] == line[i..i + |Compacting|][0] == 'C';
    WordsStripSpace(line);
    WordsEmptyIff(line);
  }

  // ---------------------------------------------------------------------------
  // The scanner's state

  /** `first` starts at `float('inf')`; every other value it takes is a timestamp. */
  datatype Extended = Infinity | Finite(value: int)

  /** Python's `min(first, t)`. */
  function Min(e: Extended, t: int): Extended {
    match e
    case Infinity => Finite(t)
    case Finite(v) => Finite(if t < v then t else v)
  }

  /** Python's `max(last, t)`. */
  function Max(a: int, t: int): int {
    if t > a then t else a
  }

  /** `e <= t`; infinity is above every timestamp. */
  predicate AtMost(e: Extended, t: int) {
    e.Finite? && e.value <= t
  }

  /** `a <= b` on extended values. */
  predicate NoLater(a: Extended, b: Extended) {
    b.Infinity? || (a.Finite? && a.value <= b.value)
  }

  /**
   * The fields of `Parser`: per-vbucket compaction timestamps, rebalance
   * start and end timestamps, and the running bounds `first` and `last`.
   */
  datatype State = State(
    compactions: map<int, seq<int>>,
    rebStarts: seq<int>,
    rebEnds: seq<int>,
    first: Extended,
    last: int)

  /** `Parser()`: nothing recorded, `first` infinite and `last` zero. */
  const Initial: State := State(map[], [], [], Infinity, 0)

  /** Reading a `defaultdict(list)`: an absent key reads as the empty list. */
  function Recorded(m: map<int, seq<int>>, b: int): seq<int> {
    if b in m then m[b] else []
  }

  /** `first <= t <= last`. */
  predicate Covers(s: State, t: int) {
    AtMost(s.first, t) && t <= s.last
  }

  /** Going from `s` to `r`, `first` did not increase and `last` did not decrease. */
  predicate Widens(s: State, r: State) {
    NoLater(r.first, s.first) && s.last <= r.last
  }

  /** `t` is one of the timestamps the state holds. */
  ghost predicate Stored(s: State, t: int) {
    t in s.rebStarts || t in s.rebEnds || exists b | b in s.compactions :: t in s.compactions[b]
  }

  /** Every stored timestamp lies between `first` and `last`. */
  ghost predicate Bounded(s: State) {
    forall t | Stored(s, t) :: Covers(s, t)
  }

  /** The bound update every recognised line performs. */
  function Widen(s: State, t: int): (r: State)
    ensures Covers(r, t) && Widens(s, r)
    ensures r.compactions == s.compactions && r.rebStarts == s.rebStarts && r.rebEnds == s.rebEnds
    ensures AtMost(r.first, t) && (r.first == s.first || r.first == Finite(t))
    ensures r.last == s.last || r.last == t
  {
    s.(first := Min(s.first, t), last := Max(s.last, t))
  }

  /** What `parse` leaves behind and whether it stopped on an exception. */
  datatype Outcome = Outcome(state: State, error: Option<ScanError>)

  /** One iteration of the loop of `parse`, for a line whose timestamp is `t`. */
  function Step(s: State, line: string, t: int): Outcome {
    match Classify(line)
    case Administrative => Outcome(s, None)
    case Unrecognised => Outcome(s, None)
    case RebalanceStart => Outcome(Widen(s, t).(rebStarts := s.rebStarts + [t]), None)
    case RebalanceEnd => Outcome(Widen(s, t).(rebEnds := s.rebEnds + [t]), None)
    case Compaction(recorded) =>
      var w := Widen(s, t);
      if !recorded then Outcome(w, None)
      else
        match VbucketId(line)
        case Err(e) => Outcome(w, Some(e))
        case Ok(b) => Outcome(w.(compactions := w.compactions[b := Recorded(w.compactions, b) + [t]]), None)
  }

  /** The whole loop of `parse`: lines in order, stopping at the first exception. */
  function Scan(s: State, lines: seq<string>, ts: string -> int): Outcome
    decreases |lines|
  {
    if lines == [] then Outcome(s, None)
    else
      var o := Step(s, lines[0], ts(lines[0]));
      if o.error.Some? then o else Scan(o.state, lines[1..], ts)
  }

  // ---------------------------------------------------------------------------
  // One line

  /** A line mentioning "master" changes nothing, whatever else it says. */
  lemma StepAdministrative(s: State, line: string, t: int)
    requires Contains(line, Master)
    ensures Step(s, line, t) == Outcome(s, None)
  {
  }

  /** A rebalance start appends one timestamp to the starts and to nothing else, even if it mentions other keywords. */
  lemma StepRebalanceStart(s: State, line: string, t: int)
    requires !Contains(line, Master) && Contains(line, RebalanceStarted)
    ensures var o := Step(s, line, t);
      && o.error == None
      && o.state.rebStarts == s.rebStarts + [t]
      && o.state.rebEnds == s.rebEnds && o.state.compactions == s.compactions
      && Covers(o.state, t) && Widens(s, o.state)
  {
  }

  /** A rebalance end that is not a start appends one timestamp to the ends and to nothing else. */
  lemma StepRebalanceEnd(s: State, line: string, t: int)
    requires !Contains(line, Master) && !Contains(line, RebalanceStarted)
    requires Contains(line, RebalanceCompleted)
    ensures var o := Step(s, line, t);
      && o.error == None
      && o.state.rebEnds == s.rebEnds + [t]
      && o.state.rebStarts == s.rebStarts && o.state.compactions == s.compactions
      && Covers(o.state, t) && Widens(s, o.state)
  {
  }

  /** A compactor line that says "from" or "initial call" changes nothing, not even the bounds. */
  lemma StepExcludedCompaction(s: State, line: string, t: int)
    requires !Contains(line, Master) && !Contains(line, RebalanceStarted)
    requires !Contains(line, RebalanceCompleted)
    requires Contains(line, MaybeCompact) || Contains(line, SpawnCompactor)
    requires Contains(line, From) || Contains(line, InitialCall)
    ensures Step(s, line, t) == Outcome(s, None)
  {
  }

  /** A compactor line without "Compacting" moves only the bounds. */
  lemma StepUnrecordedCompaction(s: State, line: string, t: int)
    requires Classify(line) == Compaction(false)
    ensures var o := Step(s, line, t);
      && o.error == None
      && o.state.compactions == s.compactions
      && o.state.rebStarts == s.rebStarts && o.state.rebEnds == s.rebEnds
      && Covers(o.state, t) && Widens(s, o.state)
  {
  }

  /** A "Compacting" line appends its timestamp to its vbucket's list, and touches no other vbucket. */
  lemma StepRecordedCompaction(s: State, line: string, t: int, b: int)
    requires Classify(line) == Compaction(true) && VbucketId(line) == Ok(b)
    ensures var o := Step(s, line, t);
      && o.error == None
      && o.state.compactions.Keys == s.compactions.Keys + {b}
      && Recorded(o.state.compactions, b) == Recorded(s.compactions, b) + [t]
      && (forall k | k != b :: Recorded(o.state.compactions, k) == Recorded(s.compactions, k))
      && o.state.rebStarts == s.rebStarts && o.state.rebEnds == s.rebEnds
      && Covers(o.state, t) && Widens(s, o.state)
  {
    var w := Widen(s, t);
    var m := s.compactions[b := Recorded(s.compactions, b) + [t]];
    assert Step(s, line, t) == Outcome(w.(compactions := m), None);
    RecordedUpdate(s.compactions, b, [t]);
  }

  /** Appending to one key of a compaction index adds that key and leaves every other key's list alone. */
  lemma RecordedUpdate(m: map<int, seq<int>>, b: int, extra: seq<int>)
    ensures var n := m[b := Recorded(m, b) + extra];
      && n.Keys == m.Keys + {b}
      && Recorded(n, b) == Recorded(m, b) + extra
      && (forall k | k != b :: Recorded(n, k) == Recorded(m, k))
  {
  }

  /** A "Compacting" line whose id does not parse stops the scan after the bounds have moved. */
  lemma StepBadVbucketId(s: State, line: string, t: int)
    requires Classify(line) == Compaction(true) && VbucketId(line).Err?
    ensures var o := Step(s, line, t);
      && o.error == Some(VbucketId(line).error)
      && o.state.compactions == s.compactions
      && o.state.rebStarts == s.rebStarts && o.state.rebEnds == s.rebEnds
      && Covers(o.state, t) && Widens(s, o.state)
  {
    assert Step(s, line, t) == Outcome(Widen(s, t), Some(VbucketId(line).error));
  }

  /** One line raises exactly when it is a "Compacting" compactor line whose id does not parse. */
  lemma StepFails(s: State, line: string, t: int)
    ensures Step(s, line, t).error.Some? <==> Failing(line)
  {
    var c := Classify(line);
    if c == Compaction(true) {
      var w := Widen(s, t);
      match VbucketId(line)
      case Err(e) =>
        assert Step(s, line, t) == Outcome(w, Some(e));
      case Ok(b) =>
        assert Step(s, line, t) == Outcome(w.(compactions := w.compactions[b := Recorded(w.compactions, b) + [t]]), None);
    } else {
      assert !Failing(line);
      assert Step(s, line, t).error == None;
    }
  }

  /** Every recognised line moves the bounds to cover its timestamp; every other line changes nothing. */
  lemma StepBounds(s: State, line: string, t: int)
    ensures var o := Step(s, line, t);
      if Recognised(Classify(line)) then Covers(o.state, t) && Widens(s, o.state)
      else o == Outcome(s, None)
  {
  }

  /** Widening the bounds keeps every timestamp already covered covered. */
  lemma WidenedCovers(s: State, r: State, t: int)
    requires Covers(s, t) && Widens(s, r)
    ensures Covers(r, t)
  {
  }

  /** A timestamp stored after one line was stored before, or is that line's own. */
  lemma StepStored(s: State, line: string, t: int, u: int)
    requires Stored(Step(s, line, t).state, u)
    ensures Stored(s, u) || (u == t && Recognised(Classify(line)))
  {
    var o := Step(s, line, t);
    var r := o.state;
    StepBounds(s, line, t);
    if Recognised(Classify(line)) && u != t {
      if o.error.None? {
        StepLists(s, line, t);
        forall b | b in r.compactions
          ensures r.compactions[b] == Recorded(s.compactions, b) || r.compactions[b] == Recorded(s.compactions, b) + [t]
        {
          assert Recorded(r.compactions, b) == r.compactions[b];
        }
      } else {
        assert r == Widen(s, t);
      }
      StoredGrows(s, r, t, u);
    }
  }

  /** If each list of `r` is the same list of `s`, possibly with `t` appended, `r` stores nothing new but `t`. */
  lemma StoredGrows(s: State, r: State, t: int, u: int)
    requires r.rebStarts == s.rebStarts || r.rebStarts == s.rebStarts + [t]
    requires r.rebEnds == s.rebEnds || r.rebEnds == s.rebEnds + [t]
    requires forall b | b in r.compactions ::
      r.compactions[b] == Recorded(s.compactions, b) || r.compactions[b] == Recorded(s.compactions, b) + [t]
    requires Stored(r, u) && u != t
    ensures Stored(s, u)
  {
    if u !in r.rebStarts && u !in r.rebEnds {
      var b :| b in r.compactions && u in r.compactions[b];
      assert u in Recorded(s.compactions, b);
      assert b in s.compactions && u in s.compactions[b];
    }
  }

  /** One line keeps every stored timestamp between the bounds. */
  lemma StepKeepsBounded(s: State, line: string, t: int)
    requires Bounded(s)
    ensures Bounded(Step(s, line, t).state)
  {
    var r := Step(s, line, t).state;
    StepBounds(s, line, t);
    forall u | Stored(r, u) ensures Covers(r, u) {
      StepStored(s, line, t, u);
      if Stored(s, u) {
        WidenedCovers(s, r, u);
      }
    }
  }

  // ---------------------------------------------------------------------------
  // A whole file

  lemma AppendAssoc<T>(a: seq<T>, b: seq<T>, c: seq<T>)
    ensures a + b + c == a + (b + c)
  {
  }

  /** A line that stops the scan: it moves the bounds but adds to none of the lists. */
  predicate Failing(line: string) {
    Classify(line) == Compaction(true) && VbucketId(line).Err?
  }

  /** The timestamps of the rebalance-start lines, in file order. */
  function StartsOf(lines: seq<string>, ts: string -> int): seq<int> {
    if lines == [] then []
    else (if Classify(lines[0]) == RebalanceStart then [ts(lines[0])] else []) + StartsOf(lines[1..], ts)
  }

  /** The timestamps of the rebalance-end lines, in file order. */
  function EndsOf(lines: seq<string>, ts: string -> int): seq<int> {
    if lines == [] then []
    else (if Classify(lines[0]) == RebalanceEnd then [ts(lines[0])] else []) + EndsOf(lines[1..], ts)
  }

  /** The timestamps of the "Compacting" lines for vbucket `b`, in file order. */
  function CompactionsOf(lines: seq<string>, ts: string -> int, b: int): seq<int> {
    if lines == [] then []
    else
      (if Classify(lines[0]) == Compaction(true) && VbucketId(lines[0]) == Ok(b) then [ts(lines[0])] else [])
      + CompactionsOf(lines[1..], ts, b)
  }

  /** Scanning `a + b` is scanning `a`, then `b` from where `a` left off unless `a` failed. */
  lemma {:induction false} ScanAppend(s: State, a: seq<string>, b: seq<string>, ts: string -> int)
    ensures Scan(s, a + b, ts) ==
      var o := Scan(s, a, ts);
      if o.error.Some? then o else Scan(o.state, b, ts)
    decreases |a|
  {
    if a == [] {
      assert a + b == b;
    } else {
      assert (a + b)[0] == a[0];
      assert (a + b)[1..] == a[1..] + b;
      var o := Step(s, a[0], ts(a[0]));
      if o.error.None? {
        ScanAppend(o.state, a[1..], b, ts);
      }
    }
  }

  /** Inserting a line that is skipped (master, excluded or unmatched) anywhere changes nothing. */
  lemma SkippedLineIrrelevant(s: State, a: seq<string>, line: string, b: seq<string>, ts: string -> int)
    requires !Recognised(Classify(line))
    ensures Scan(s, a + [line] + b, ts) == Scan(s, a + b, ts)
  {
    ScanAppend(s, a, [line] + b, ts);
    ScanAppend(s, a, b, ts);
    assert a + [line] + b == a + ([line] + b);
    assert ([line] + b)[1..] == b;
  }

  /** The scan fails exactly when some "Compacting" line's vbucket id does not parse. */
  lemma {:induction false} ScanFailsIff(s: State, lines: seq<string>, ts: string -> int)
    ensures Scan(s, lines, ts).error.Some? <==> exists i | 0 <= i < |lines| :: Failing(lines[i])
    decreases |lines|
  {
    if lines != [] {
      var o := Step(s, lines[0], ts(lines[0]));
      StepFails(s, lines[0], ts(lines[0]));
      ScanFailsIff(o.state, lines[1..], ts);
      assert forall i | 1 <= i < |lines| :: lines[i] == lines[1..][i - 1];
      if exists i | 0 <= i < |lines| :: Failing(lines[i]) {
        var i :| 0 <= i < |lines| && Failing(lines[i]);
        if i > 0 {
          assert Failing(lines[1..][i - 1]);
        }
      }
    }
  }

  /** Scanning never moves `first` up or `last` down. */
  lemma {:induction false} ScanWidens(s: State, lines: seq<string>, ts: string -> int)
    ensures Widens(s, Scan(s, lines, ts).state)
    decreases |lines|
  {
    if lines != [] {
      var o := Step(s, lines[0], ts(lines[0]));
      StepBounds(s, lines[0], ts(lines[0]));
      if o.error.None? {
        ScanWidens(o.state, lines[1..], ts);
      }
    }
  }

  /** Scanning keeps every stored timestamp between `first` and `last`. */
  lemma {:induction false} ScanKeepsBounded(s: State, lines: seq<string>, ts: string -> int)
    requires Bounded(s)
    ensures Bounded(Scan(s, lines, ts).state)
    decreases |lines|
  {
    if lines != [] {
      var o := Step(s, lines[0], ts(lines[0]));
      StepKeepsBounded(s, lines[0], ts(lines[0]));
      if o.error.None? {
        ScanKeepsBounded(o.state, lines[1..], ts);
      }
    }
  }

  /** After a scan of any file from a fresh parser, every stored timestamp lies in `[first, last]`. */
  lemma ScanBounded(lines: seq<string>, ts: string -> int)
    ensures Bounded(Scan(Initial, lines, ts).state)
  {
    assert Bounded(Initial);
    ScanKeepsBounded(Initial, lines, ts);
  }

  /** What one line that does not fail adds to each list: its own timestamp where it matches, nothing elsewhere. */
  lemma StepLists(s: State, line: string, t: int)
    requires Step(s, line, t).error == None
    ensures var m := Step(s, line, t).state;
      && m.rebStarts == s.rebStarts + (if Classify(line) == RebalanceStart then [t] else [])
      && m.rebEnds == s.rebEnds + (if Classify(line) == RebalanceEnd then [t] else [])
      && (forall b :: Recorded(m.compactions, b)
            == Recorded(s.compactions, b) + (if Classify(line) == Compaction(true) && VbucketId(line) == Ok(b) then [t] else []))
      && (forall b :: b in m.compactions <==> b in s.compactions || (Classify(line) == Compaction(true) && VbucketId(line) == Ok(b)))
  {
    var m := Step(s, line, t).state;
    if Classify(line) == Compaction(true) {
      var b0 := VbucketId(line).value;
      assert m.compactions == s.compactions[b0 := Recorded(s.compactions, b0) + [t]];
    } else {
      assert m.compactions == s.compactions;
    }
  }

  /** A scan that does not fail appends to the start and end lists exactly the timestamps of the matching lines, in file order. */
  lemma {:induction false} ScanRebalanceLists(s: State, lines: seq<string>, ts: string -> int)
    requires Scan(s, lines, ts).error == None
    ensures var r := Scan(s, lines, ts).state;
      && r.rebStarts == s.rebStarts + StartsOf(lines, ts)
      && r.rebEnds == s.rebEnds + EndsOf(lines, ts)
    decreases |lines|
  {
    if lines != [] {
      var l := lines[0];
      var m := Step(s, l, ts(l)).state;
      StepLists(s, l, ts(l));
      ScanRebalanceLists(m, lines[1..], ts);
      var r := Scan(s, lines, ts).state;
      assert r == Scan(m, lines[1..], ts).state;
      var st := if Classify(l) == RebalanceStart then [ts(l)] else [];
      var en := if Classify(l) == RebalanceEnd then [ts(l)] else [];
      assert StartsOf(lines, ts) == st + StartsOf(lines[1..], ts);
      assert EndsOf(lines, ts) == en + EndsOf(lines[1..], ts);
      AppendAssoc(s.rebStarts, st, StartsOf(lines[1..], ts));
      AppendAssoc(s.rebEnds, en, EndsOf(lines[1..], ts));
    }
  }

  /**
   * A scan that does not fail appends to vbucket `b`'s list exactly the
   * timestamps of its "Compacting" lines, in file order; `b` gets a key only
   * once one of its lines is recorded.
   */
  lemma {:induction false} ScanCompactionList(s: State, lines: seq<string>, ts: string -> int, b: int)
    requires Scan(s, lines, ts).error == None
    ensures var r := Scan(s, lines, ts).state;
      && Recorded(r.compactions, b) == Recorded(s.compactions, b) + CompactionsOf(lines, ts, b)
      && (b in r.compactions <==> b in s.compactions || CompactionsOf(lines, ts, b) != [])
    decreases |lines|
  {
    if lines != [] {
      var l := lines[0];
      var m := Step(s, l, ts(l)).state;
      StepLists(s, l, ts(l));
      ScanCompactionList(m, lines[1..], ts, b);
      var r := Scan(s, lines, ts).state;
      assert r == Scan(m, lines[1..], ts).state;
      var own := if Classify(l) == Compaction(true) && VbucketId(l) == Ok(b) then [ts(l)] else [];
      var rest := CompactionsOf(lines[1..], ts, b);
      assert CompactionsOf(lines, ts, b) == own + rest;
      assert Recorded(m.compactions, b) == Recorded(s.compactions, b) + own;
      assert Recorded(r.compactions, b) == Recorded(m.compactions, b) + rest;
      AppendAssoc(Recorded(s.compactions, b), own, rest);
    }
  }

  /**
   * After a scan that does not fail, `first` and `last` are the least and the
   * greatest of the initial bounds and the timestamps of the recognised lines.
   */
  lemma {:induction false} ScanBoundsExact(s: State, lines: seq<string>, ts: string -> int)
    requires Scan(s, lines, ts).error == None
    ensures var r := Scan(s, lines, ts).state;
      && Widens(s, r)
      && (forall i | 0 <= i < |lines| && Recognised(Classify(lines[i])) :: Covers(r, ts(lines[i])))
      && (r.first == s.first || exists i | 0 <= i < |lines| :: Recognised(Classify(lines[i])) && r.first == Finite(ts(lines[i])))
      && (r.last == s.last || exists i | 0 <= i < |lines| :: Recognised(Classify(lines[i])) && r.last == ts(lines[i]))
    decreases |lines|
  {
    ScanWidens(s, lines, ts);
    if lines != [] {
      var l := lines[0];
      var o := Step(s, l, ts(l));
      var m := o.state;
      StepBounds(s, l, ts(l));
      ScanBoundsExact(m, lines[1..], ts);
      ScanWidens(m, lines[1..], ts);
      var r := Scan(s, lines, ts).state;
      assert r == Scan(m, lines[1..], ts).state;
      assert forall i | 1 <= i < |lines| :: lines[i] == lines[1..][i - 1];
      if Recognised(Classify(l)) {
        WidenedCovers(m, r, ts(l));
        assert m.first == s.first || m.first == Finite(ts(l));
        assert m.last == s.last || m.last == ts(l);
      }
      if r.first != s.first && r.first != m.first {
        var i :| 0 <= i < |lines[1..]| && Recognised(Classify(lines[1..][i])) && r.first == Finite(ts(lines[1..][i]));
        assert lines[i + 1] == lines[1..][i];
      }
      if r.last != s.last && r.last != m.last {
        var i :| 0 <= i < |lines[1..]| && Recognised(Classify(lines[1..][i])) && r.last == ts(lines[1..][i]);
        assert lines[i + 1] == lines[1..][i];
      }
    }
  }

  // ---------------------------------------------------------------------------
  // Small files

  /** One start and one end a minute later: one timestamp each, and the bounds are exactly those two. */
  lemma ScenarioRebalance(start: string, end: string, ts: string -> int)
    requires !Contains(start, Master) && Contains(start, RebalanceStarted)
    requires !Contains(end, Master) && !Contains(end, RebalanceStarted) && Contains(end, RebalanceCompleted)
    requires ts(start) >= 0 && ts(end) == ts(start) + 60000
    ensures Scan(Initial, [start, end], ts)
         == Outcome(State(map[], [ts(start)], [ts(end)], Finite(ts(start)), ts(end)), None)
  {
    assert Classify(start) == RebalanceStart && Classify(end) == RebalanceEnd;
    var afterStart := State(map[], [ts(start)], [], Finite(ts(start)), ts(start));
    assert Step(Initial, start, ts(start)) == Outcome(afterStart, None);
    assert [start, end][1..] == [end];
    var afterEnd := State(map[], [ts(start)], [ts(end)], Finite(ts(start)), ts(end));
    assert Step(afterStart, end, ts(end)) == Outcome(afterEnd, None);
    assert Scan(afterStart, [end], ts) == Scan(afterEnd, [], ts);
  }

  /** The timestamps of all the lines, in file order. */
  function TimesOf(lines: seq<string>, ts: string -> int): (r: seq<int>)
    ensures |r| == |lines| && forall i | 0 <= i < |lines| :: r[i] == ts(lines[i])
  {
    if lines == [] then [] else [ts(lines[0])] + TimesOf(lines[1..], ts)
  }

  /** Every line is a "Compacting" line for vbucket `b`. */
  ghost predicate AllCompactingFor(lines: seq<string>, b: int) {
    forall i | 0 <= i < |lines| :: Classify(lines[i]) == Compaction(true) && VbucketId(lines[i]) == Ok(b)
  }

  /** The lines after the first of such a file are such a file too. */
  lemma AllCompactingForTail(lines: seq<string>, b: int)
    requires lines != [] && AllCompactingFor(lines, b)
    ensures AllCompactingFor(lines[1..], b)
    ensures Classify(lines[0]) == Compaction(true) && VbucketId(lines[0]) == Ok(b)
  {
    forall i | 0 <= i < |lines| - 1 ensures lines[1..][i] == lines[i + 1] {}
  }

  /** A file of "Compacting" lines has no rebalance line. */
  lemma {:induction false} NoRebalancesIn(lines: seq<string>, ts: string -> int, b: int)
    requires AllCompactingFor(lines, b)
    ensures StartsOf(lines, ts) == [] && EndsOf(lines, ts) == []
    decreases |lines|
  {
    if lines != [] {
      AllCompactingForTail(lines, b);
      NoRebalancesIn(lines[1..], ts, b);
    }
  }

  /** In a file of "Compacting" lines for `b`, `b` gets every timestamp and every other vbucket none. */
  lemma {:induction false} OnlyCompactionsFor(lines: seq<string>, ts: string -> int, b: int, k: int)
    requires AllCompactingFor(lines, b)
    ensures CompactionsOf(lines, ts, k) == if k == b then TimesOf(lines, ts) else []
    decreases |lines|
  {
    if lines != [] {
      AllCompactingForTail(lines, b);
      OnlyCompactionsFor(lines[1..], ts, b, k);
    }
  }

  /** No line of a file of "Compacting" lines for `b` fails. */
  lemma NoneFailingIn(lines: seq<string>, b: int)
    requires AllCompactingFor(lines, b)
    ensures forall i | 0 <= i < |lines| :: !Failing(lines[i])
  {
  }

  /**
   * A file of "Compacting" lines all for one vbucket (such as lines ending in
   * `<"/data/bucket/5">`, by VbucketIdExample): the scan succeeds, that
   * vbucket's list holds every line's timestamp in file order, and nothing
   * else is recorded.
   */
  lemma ScenarioCompactions(lines: seq<string>, ts: string -> int, b: int)
    requires lines != [] && AllCompactingFor(lines, b)
    ensures var o := Scan(Initial, lines, ts);
      && o.error == None
      && o.state.compactions == map[b := TimesOf(lines, ts)]
      && o.state.rebStarts == [] && o.state.rebEnds == []
  {
    NoRebalancesIn(lines, ts, b);
    NoneFailingIn(lines, b);
    ScanFailsIff(Initial, lines, ts);
    ScanRebalanceLists(Initial, lines, ts);
    var want := map[b := TimesOf(lines, ts)];
    forall k ensures Recorded(Scan(Initial, lines, ts).state.compactions, k) == Recorded(want, k)
      && (k in Scan(Initial, lines, ts).state.compactions <==> k in want)
    {
      OneVbucketRecorded(lines, ts, b, k);
    }
    SameRecords(Scan(Initial, lines, ts).state.compactions, want);
  }

  /** In such a file, vbucket `k` reads as every timestamp when it is `b`, and as nothing otherwise. */
  lemma OneVbucketRecorded(lines: seq<string>, ts: string -> int, b: int, k: int)
    requires lines != [] && AllCompactingFor(lines, b) && Scan(Initial, lines, ts).error == None
    ensures var m := Scan(Initial, lines, ts).state.compactions;
      && Recorded(m, k) == (if k == b then TimesOf(lines, ts) else [])
      && (k in m <==> k == b)
  {
    ScanCompactionList(Initial, lines, ts, k);
    OnlyCompactionsFor(lines, ts, b, k);
  }

  /** Two compaction indexes with the same keys that read the same everywhere are equal. */
  lemma SameRecords(m: map<int, seq<int>>, n: map<int, seq<int>>)
    requires forall k :: Recorded(m, k) == Recorded(n, k) && (k in m <==> k in n)
    ensures m == n
  {
    forall k ensures k in m.Keys <==> k in n.Keys {
      assert Recorded(m, k) == Recorded(n, k) && (k in m <==> k in n);
    }
    forall k | k in m ensures m[k] == n[k] {
      assert Recorded(m, k) == Recorded(n, k);
    }
  }

  /** A compactor line that says "from" leaves a fresh parser as it was. */
  lemma ScenarioExcluded(line: string, ts: string -> int)
    requires !Contains(line, Master) && !Contains(line, RebalanceStarted) && !Contains(line, RebalanceCompleted)
    requires Contains(line, MaybeCompact) && Contains(line, From)
    ensures Scan(Initial, [line], ts) == Outcome(Initial, None)
  {
  }
}
