/**
 * The log scanner of cmap.py: a `Parser` object whose `parse` walks the
 * lines of a log file and updates its fields in place.
 *
 * The file is given as its sequence of lines; the timestamp of a line comes
 * from a memoised `get_datetime`, whose parsing of the date is not modelled:
 * it is the function the memo wraps.
 */
module Cmap {
  import opened Results
  import opened PyStr
  import opened Scanner
  import opened Memoize

  class Parser {
    /** The `defaultdict(list)` from vbucket id to compaction timestamps. */
    var compactions: map<int, seq<int>>
    var rebStarts: seq<int>
    var rebEnds: seq<int>
    var first: Extended
    var last: int

    /** The fields as one value. */
    function Snapshot(): State
      reads this
    {
      State(compactions, rebStarts, rebEnds, first, last)
    }

    /** `Parser()`: nothing recorded, `first` infinite, `last` zero. */
    constructor ()
      ensures Snapshot() == Initial
      ensures Bounded(Snapshot())
    {
      compactions := map[];
      rebStarts := [];
      rebEnds := [];
      first := Infinity;
      last := 0;
    }

    /**
     * `parse`: every line in order. The fields end as Scan says, and `error`
     * is the exception that stopped it, if any (then the remaining lines are
     * not looked at). Every stored timestamp stays within `[first, last]`,
     * `first` never rises, `last` never falls, and the memo stays consistent
     * with `get_datetime`.
     */
    method Parse(lines: seq<string>, getDatetime: Memo<string, int>) returns (error: Option<ScanError>)
      requires getDatetime.Valid()
      modifies this, getDatetime
      ensures getDatetime.Valid()
      ensures Outcome(Snapshot(), error) == Scan(old(Snapshot()), lines, getDatetime.f)
      ensures old(Bounded(Snapshot())) ==> Bounded(Snapshot())
      ensures Widens(old(Snapshot()), Snapshot())
    {
      ghost var start := Snapshot();
      var i := 0;
      assert lines[i..] == lines;
      while i < |lines|
        invariant 0 <= i <= |lines|
        invariant getDatetime.Valid()
        invariant Scan(start, lines, getDatetime.f) == Scan(Snapshot(), lines[i..], getDatetime.f)
        invariant Bounded(start) ==> Bounded(Snapshot())
        invariant Widens(start, Snapshot())
      {
        ghost var before := Snapshot();
        assert lines[i..][0] == lines[i] && lines[i..][1..] == lines[i + 1..];
        error := ParseLine(lines[i], getDatetime);
        ghost var t := getDatetime.f(lines[i]);
        StepBounds(before, lines[i], t);
        if Bounded(before) {
          StepKeepsBounded(before, lines[i], t);
        }
        if error.Some? {
          return;
        }
        i := i + 1;
      }
      error := None;
    }

    /**
     * One iteration of the loop of `parse`: the fields change as Step says
     * for this line and its timestamp, and `error` is the exception `int()`
     * raises on a "Compacting" line whose id does not parse.
     */
    method ParseLine(line: string, getDatetime: Memo<string, int>) returns (error: Option<ScanError>)
      requires getDatetime.Valid()
      modifies this, getDatetime
      ensures getDatetime.Valid()
      ensures Outcome(Snapshot(), error) == Step(old(Snapshot()), line, getDatetime.f(line))
    {
      error := None;
      if Contains(line, Master) {
        // skipped
      } else if Contains(line, RebalanceStarted) {
        var t1 := getDatetime.Get(line);
        rebStarts := rebStarts + [t1];
        var t2 := getDatetime.Get(line);
        first := Min(first, t2);
        var t3 := getDatetime.Get(line);
        last := Max(last, t3);
      } else if Contains(line, RebalanceCompleted) {
        var t1 := getDatetime.Get(line);
        rebEnds := rebEnds + [t1];
        var t2 := getDatetime.Get(line);
        first := Min(first, t2);
        var t3 := getDatetime.Get(line);
        last := Max(last, t3);
      } else if IsCompactionRelated(line) {
        var t1 := getDatetime.Get(line);
        first := Min(first, t1);
        var t2 := getDatetime.Get(line);
        last := Max(last, t2);
        if Contains(line, Compacting) {
          var b := VbucketId(line);
          if b.Err? {
            error := Some(b.error);
          } else {
            var t3 := getDatetime.Get(line);
            compactions := compactions[b.value := Recorded(compactions, b.value) + [t3]];
          }
        }
      }
    }
  }

  /** main's use of the scanner: a fresh parser over a whole file ends with every stored timestamp in `[first, last]`. */
  method ScanFile(lines: seq<string>, getDatetime: Memo<string, int>) returns (p: Parser, error: Option<ScanError>)
    requires getDatetime.Valid()
    modifies getDatetime
    ensures getDatetime.Valid()
    ensures Outcome(p.Snapshot(), error) == Scan(Initial, lines, getDatetime.f)
    ensures Bounded(p.Snapshot())
  {
    p := new Parser();
    error := p.Parse(lines, getDatetime);
  }
}
