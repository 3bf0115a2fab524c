/**
  pathsim_analysis.py: what an adversary sees of the simulated streams. The analysis against one
  set of relays, and the matrix for an adversary with the top i guards and the top j exits.
*/
module TopRelays {
  import opened Basics

  // A line of the simulator's log, after the header.
  datatype Line = Comment | Stream(id: nat, time: real, guard: string, exit: string)

  // What is recorded of a sample: how many streams had only the guard, only the exit, both or
  // neither bad, and when each kind of compromise happened first.
  datatype Stats = Stats(guardOnly: nat, exitOnly: nat, both: nat, good: nat,
                         guardOnlyTime: Option<real>, exitOnlyTime: Option<real>, bothTime: Option<real>) {
    function Streams(): nat { guardOnly + exitOnly + both + good }
    function GuardBad(): nat { guardOnly + both }
    function ExitBad(): nat { exitOnly + both }
  }

  const NoStats := Stats(0, 0, 0, 0, None, None, None)

  function Earlier(t: Option<real>, time: real): Option<real>
  {
    if t == None then Some(time) else if time < t.value then Some(time) else t
  }

  function Later(t: Option<real>, time: real): Option<real>
  {
    if t == None then Some(time) else if time > t.value then Some(time) else t
  }

  ghost function Counted(s: Stats, time: real, guardBad: bool, exitBad: bool): Stats
  {
    if guardBad && exitBad then s.(both := s.both + 1, bothTime := Earlier(s.bothTime, time))
    else if guardBad then s.(guardOnly := s.guardOnly + 1, guardOnlyTime := Earlier(s.guardOnlyTime, time))
    else if exitBad then s.(exitOnly := s.exitOnly + 1, exitOnlyTime := Earlier(s.exitOnlyTime, time))
    else s.(good := s.good + 1)
  }

  // ---------- the record of one sample against one set of relays ----------

  ghost function SampleStats(log: seq<Line>, id: nat, bad: set<string>): Stats
  {
    if log == [] then NoStats
    else
      var s, last := SampleStats(log[..|log| - 1], id, bad), log[|log| - 1];
      if last.Stream? && last.id == id then Counted(s, last.time, last.guard in bad, last.exit in bad) else s
  }

  // Samples are numbered from 0; every number up to the highest seen has a record.
  ghost function Samples(log: seq<Line>): nat
  {
    if log == [] then 0
    else
      var n, last := Samples(log[..|log| - 1]), log[|log| - 1];
      if last.Stream? && last.id >= n then last.id + 1 else n
  }

  lemma LogStep(log: seq<Line>, n: nat, id: nat, bad: set<string>)
    requires n < |log|
    ensures var s := SampleStats(log[..n], id, bad);
            SampleStats(log[..n + 1], id, bad) ==
              if log[n].Stream? && log[n].id == id then Counted(s, log[n].time, log[n].guard in bad, log[n].exit in bad) else s
    ensures Samples(log[..n + 1]) ==
              if log[n].Stream? && log[n].id >= Samples(log[..n]) then log[n].id + 1 else Samples(log[..n])
  {
    assert log[..n + 1][..n] == log[..n];
  }

  // A sample without a record yet has no stream.
  lemma {:induction false} UnseenSample(log: seq<Line>, id: nat, bad: set<string>)
    requires id >= Samples(log)
    ensures SampleStats(log, id, bad) == NoStats
  {
    if log != [] {
      UnseenSample(log[..|log| - 1], id, bad);
    }
  }

  // ---------- what the record means ----------

  ghost function Count(log: seq<Line>, p: Line -> bool): (n: nat)
    ensures n <= |log|
  {
    if log == [] then 0
    else Count(log[..|log| - 1], p) + if p(log[|log| - 1]) then 1 else 0
  }

  // The earliest time among the lines with a property.
  ghost function First(log: seq<Line>, p: Line -> bool): Option<real>
  {
    if log == [] then None
    else
      var t, last := First(log[..|log| - 1], p), log[|log| - 1];
      if last.Stream? && p(last) then Earlier(t, last.time) else t
  }

  // It is none exactly if there is no such line, and else one of their times and none is less.
  lemma {:induction false} FirstIs(log: seq<Line>, p: Line -> bool)
    ensures First(log, p) == None <==> forall n :: 0 <= n < |log| && log[n].Stream? ==> !p(log[n])
    ensures First(log, p).Some? ==>
              (exists n :: 0 <= n < |log| && log[n].Stream? && p(log[n]) && log[n].time == First(log, p).value) &&
              forall n :: 0 <= n < |log| && log[n].Stream? && p(log[n]) ==> First(log, p).value <= log[n].time
  {
    if log != [] {
      var front := log[..|log| - 1];
      FirstIs(front, p);
      assert forall n :: 0 <= n < |front| ==> front[n] == log[n];
      var last := log[|log| - 1];
      if !(last.Stream? && p(last)) && First(front, p).Some? {
        var n :| 0 <= n < |front| && front[n].Stream? && p(front[n]) && front[n].time == First(front, p).value;
        assert log[n] == front[n];
      }
    }
  }

  predicate Seen(l: Line, id: nat) { l.Stream? && l.id == id }

  ghost function GuardOnly(id: nat, bad: set<string>): Line -> bool { l => Seen(l, id) && l.guard in bad && l.exit !in bad }
  ghost function ExitOnly(id: nat, bad: set<string>): Line -> bool { l => Seen(l, id) && l.guard !in bad && l.exit in bad }
  ghost function Both(id: nat, bad: set<string>): Line -> bool { l => Seen(l, id) && l.guard in bad && l.exit in bad }
  ghost function Neither(id: nat, bad: set<string>): Line -> bool { l => Seen(l, id) && l.guard !in bad && l.exit !in bad }
  ghost function OfSample(id: nat): Line -> bool { l => Seen(l, id) }
  ghost function WithGuard(id: nat, bad: set<string>): Line -> bool { l => Seen(l, id) && l.guard in bad }
  ghost function WithExit(id: nat, bad: set<string>): Line -> bool { l => Seen(l, id) && l.exit in bad }

  // Every field of the record, said of the log itself.
  lemma {:induction false} StatsMean(log: seq<Line>, id: nat, bad: set<string>)
    ensures var s := SampleStats(log, id, bad);
            && s.guardOnly == Count(log, GuardOnly(id, bad)) && s.guardOnlyTime == First(log, GuardOnly(id, bad))
            && s.exitOnly == Count(log, ExitOnly(id, bad)) && s.exitOnlyTime == First(log, ExitOnly(id, bad))
            && s.both == Count(log, Both(id, bad)) && s.bothTime == First(log, Both(id, bad))
            && s.good == Count(log, Neither(id, bad))
  {
    if log != [] {
      StatsMean(log[..|log| - 1], id, bad);
    }
  }

  lemma {:induction false} CountMono(log: seq<Line>, p: Line -> bool, q: Line -> bool)
    requires forall l :: p(l) ==> q(l)
    ensures Count(log, p) <= Count(log, q)
  {
    if log != [] {
      CountMono(log[..|log| - 1], p, q);
    }
  }

  // Lines that have one of two properties, of which they never have both.
  lemma {:induction false} CountSplit(log: seq<Line>, p: Line -> bool, q: Line -> bool, r: Line -> bool)
    requires forall l :: r(l) == (p(l) || q(l)) && !(p(l) && q(l))
    ensures Count(log, r) == Count(log, p) + Count(log, q)
  {
    if log != [] {
      CountSplit(log[..|log| - 1], p, q, r);
    }
  }

  // The four counts together are the sample's lines, and two each those with a bad guard or exit.
  lemma StatsAddUp(log: seq<Line>, id: nat, bad: set<string>)
    ensures var s := SampleStats(log, id, bad);
            && s.Streams() == Count(log, OfSample(id))
            && s.GuardBad() == Count(log, WithGuard(id, bad))
            && s.ExitBad() == Count(log, WithExit(id, bad))
  {
    hide SampleStats, Count, First;
    StatsMean(log, id, bad);
    BadGuardsSplit(log, id, bad);
    BadExitsSplit(log, id, bad);
    AllSplit(log, id, bad);
  }

  lemma BadGuardsSplit(log: seq<Line>, id: nat, bad: set<string>)
    ensures Count(log, WithGuard(id, bad)) == Count(log, GuardOnly(id, bad)) + Count(log, Both(id, bad))
  {
    CountSplit(log, GuardOnly(id, bad), Both(id, bad), WithGuard(id, bad));
  }

  lemma BadExitsSplit(log: seq<Line>, id: nat, bad: set<string>)
    ensures Count(log, WithExit(id, bad)) == Count(log, ExitOnly(id, bad)) + Count(log, Both(id, bad))
  {
    CountSplit(log, ExitOnly(id, bad), Both(id, bad), WithExit(id, bad));
  }

  lemma AllSplit(log: seq<Line>, id: nat, bad: set<string>)
    ensures Count(log, OfSample(id)) == Count(log, WithGuard(id, bad)) + Count(log, ExitOnly(id, bad)) + Count(log, Neither(id, bad))
  {
    var goodGuard := (l: Line) => Seen(l, id) && l.guard !in bad;
    CountSplit(log, ExitOnly(id, bad), Neither(id, bad), goodGuard);
    CountSplit(log, WithGuard(id, bad), goodGuard, OfSample(id));
  }

  // More relays never compromise less.
  lemma MoreRelays(log: seq<Line>, id: nat, few: set<string>, many: set<string>)
    requires few <= many
    ensures var s, t := SampleStats(log, id, few), SampleStats(log, id, many);
            && s.GuardBad() <= t.GuardBad() && s.ExitBad() <= t.ExitBad() && s.both <= t.both
            && t.good <= s.good && s.Streams() == t.Streams()
  {
    StatsAddUp(log, id, few);
    StatsAddUp(log, id, many);
    StatsMean(log, id, few);
    StatsMean(log, id, many);
    CountMono(log, WithGuard(id, few), WithGuard(id, many));
    CountMono(log, WithExit(id, few), WithExit(id, many));
    CountMono(log, Both(id, few), Both(id, many));
    CountMono(log, Neither(id, many), Neither(id, few));
  }

  // ---------- the matrix ----------

  // An adversary with the top i guards and the top j exits.
  ghost function Top(topGuards: seq<string>, topExits: seq<string>, i: nat, j: nat): set<string>
    requires i <= |topGuards| && j <= |topExits|
  {
    set r | r in topGuards[..i] + topExits[..j]
  }

  lemma MatrixGrows(log: seq<Line>, id: nat, topGuards: seq<string>, topExits: seq<string>, i: nat, j: nat, i': nat, j': nat)
    requires i <= i' <= |topGuards| && j <= j' <= |topExits|
    ensures var s := SampleStats(log, id, Top(topGuards, topExits, i, j));
            var t := SampleStats(log, id, Top(topGuards, topExits, i', j'));
            && s.GuardBad() <= t.GuardBad() && s.ExitBad() <= t.ExitBad() && s.both <= t.both
            && t.good <= s.good && s.Streams() == t.Streams()
  {
    assert topGuards[..i] == topGuards[..i'][..i] && topExits[..j] == topExits[..j'][..j];
    MoreRelays(log, id, Top(topGuards, topExits, i, j), Top(topGuards, topExits, i', j'));
  }

  // One record of the analysis, updated in place. Where it stands is remembered for the proof:
  // no two places share a record.
  class Record {
    var guardOnly: nat
    var exitOnly: nat
    var both: nat
    var good: nat
    var guardOnlyTime: Option<real>
    var exitOnlyTime: Option<real>
    var bothTime: Option<real>
    ghost const sample: nat
    ghost const row: nat
    ghost const column: nat

    function Value(): Stats
      reads this
    {
      Stats(guardOnly, exitOnly, both, good, guardOnlyTime, exitOnlyTime, bothTime)
    }

    constructor (ghost sample: nat, ghost row: nat, ghost column: nat)
      ensures Value() == NoStats && this.sample == sample && this.row == row && this.column == column
    {
      guardOnly, exitOnly, both, good := 0, 0, 0, 0;
      guardOnlyTime, exitOnlyTime, bothTime := None, None, None;
      this.sample, this.row, this.column := sample, row, column;
    }

    method Add(time: real, guardBad: bool, exitBad: bool)
      modifies this
      ensures Value() == Counted(old(Value()), time, guardBad, exitBad)
    {
      if guardBad && exitBad {
        both := both + 1;
        bothTime := Earlier(bothTime, time);
      } else if guardBad {
        guardOnly := guardOnly + 1;
        guardOnlyTime := Earlier(guardOnlyTime, time);
      } else if exitBad {
        exitOnly := exitOnly + 1;
        exitOnlyTime := Earlier(exitOnlyTime, time);
      } else {
        good := good + 1;
      }
    }
  }

  // ---------- the analysis against a set ----------

  ghost predicate ListOk(list: seq<Record>)
  {
    forall k :: 0 <= k < |list| ==> list[k].sample == k
  }

  ghost predicate ListIs(list: seq<Record>, log: seq<Line>, bad: set<string>)
    reads list
  {
    |list| == Samples(log) && forall k :: 0 <= k < |list| ==> list[k].Value() == SampleStats(log, k, bad)
  }

  ghost predicate Span(log: seq<Line>, start: Option<real>, end: Option<real>)
  {
    if forall n :: 0 <= n < |log| ==> log[n].Comment? then start == None && end == None
    else
      && start.Some? && end.Some?
      && (exists n :: 0 <= n < |log| && log[n].Stream? && log[n].time == start.value)
      && (exists n :: 0 <= n < |log| && log[n].Stream? && log[n].time == end.value)
      && forall n :: 0 <= n < |log| && log[n].Stream? ==> start.value <= log[n].time <= end.value
  }

  lemma SpanStep(log: seq<Line>, n: nat, start: Option<real>, end: Option<real>)
    requires n < |log| && Span(log[..n], start, end)
    ensures if log[n].Comment? then Span(log[..n + 1], start, end)
            else Span(log[..n + 1], Earlier(start, log[n].time), Later(end, log[n].time))
  {
    var more := log[..n + 1];
    assert forall k :: 0 <= k < n ==> more[k] == log[..n][k];
    assert more[n] == log[n];
    if exists k :: 0 <= k < n && !log[..n][k].Comment? {
      var a :| 0 <= a < n && log[..n][a].Stream? && log[..n][a].time == start.value;
      var b :| 0 <= b < n && log[..n][b].Stream? && log[..n][b].time == end.value;
      assert more[a].time == start.value && more[b].time == end.value;
    }
  }

  // Comments are skipped.
  method SetAnalysis(log: seq<Line>, compromised: seq<string>) returns (list: seq<Record>, start: Option<real>, end: Option<real>)
    ensures (forall record :: record in list ==> fresh(record)) && ListOk(list)
    ensures ListIs(list, log, set r | r in compromised)
    ensures Span(log, start, end)
  {
    hide Span;
    ghost var bad := set r | r in compromised;
    list, start, end := [], None, None;
    SpanOfNothing();
    assert log[..0] == [];
    for n := 0 to |log|
      invariant forall record :: record in list ==> fresh(record)
      invariant ListOk(list) && ListIs(list, log[..n], bad)
      invariant Span(log[..n], start, end)
    {
      SpanStep(log, n, start, end);
      if log[n].Comment? {
        forall k | 0 <= k < |list| ensures list[k].Value() == SampleStats(log[..n + 1], k, bad) {
          LogStep(log, n, k, bad);
        }
        LogStep(log, n, 0, bad);
        continue;
      }
      list := GrowList(list, log[n].id, log[..n], bad);
      start, end := Earlier(start, log[n].time), Later(end, log[n].time);
      assert list[log[n].id] in list;
      list[log[n].id].Add(log[n].time, log[n].guard in compromised, log[n].exit in compromised);
      forall k | 0 <= k < |list| ensures list[k].Value() == SampleStats(log[..n + 1], k, bad) {
        LogStep(log, n, k, bad);
      }
      LogStep(log, n, 0, bad);
    }
    assert log[..|log|] == log;
  }

  lemma SpanOfNothing()
    ensures Span([], None, None)
  {}

  method GrowList(list: seq<Record>, id: nat, ghost log: seq<Line>, ghost bad: set<string>) returns (r: seq<Record>)
    requires ListOk(list) && ListIs(list, log, bad)
    ensures list <= r && (forall record :: record in r ==> record in list || fresh(record)) && ListOk(r)
    ensures |r| == if id >= |list| then id + 1 else |list|
    ensures forall k :: 0 <= k < |r| ==> r[k].Value() == SampleStats(log, k, bad)
  {
    r := list;
    while |r| < id + 1
      invariant list <= r && (forall record :: record in r ==> record in list || fresh(record)) && ListOk(r)
      invariant |r| == |list| || |r| <= id + 1
      invariant forall k :: 0 <= k < |r| ==> r[k].Value() == SampleStats(log, k, bad)
    {
      UnseenSample(log, |r|, bad);
      var record := new Record(|r|, 0, 0);
      r := r + [record];
    }
  }

  // ---------- the analysis for the top relays ----------

  // The matrix of one sample: rows for 0 to g guards, columns for 0 to e exits.
  ghost predicate MatrixOk(rows: seq<seq<Record>>, sample: nat, g: nat, e: nat)
  {
    |rows| == g + 1 && forall i :: 0 <= i <= g ==> RowOk(rows[i], sample, i, e)
  }

  ghost predicate RowOk(row: seq<Record>, sample: nat, i: nat, e: nat)
  {
    |row| == e + 1 && forall j :: 0 <= j <= e ==> row[j].sample == sample && row[j].row == i && row[j].column == j
  }

  ghost function Cells(rows: seq<seq<Record>>): (cells: set<Record>)
    ensures forall i, j :: 0 <= i < |rows| && 0 <= j < |rows[i]| ==> rows[i][j] in cells
  {
    set i, j | 0 <= i < |rows| && 0 <= j < |rows[i]| :: rows[i][j]
  }

  ghost predicate MatrixIs(rows: seq<seq<Record>>, sample: nat, log: seq<Line>, topGuards: seq<string>, topExits: seq<string>)
    reads Cells(rows)
  {
    MatrixOk(rows, sample, |topGuards|, |topExits|) &&
    forall i, j :: 0 <= i <= |topGuards| && 0 <= j <= |topExits| ==>
      rows[i][j].Value() == SampleStats(log, sample, Top(topGuards, topExits, i, j))
  }

  // The first place of an address in a list, counted from 1.
  method PlaceOf(ip: string, tops: seq<string>) returns (place: Option<nat>)
    ensures forall i :: 0 <= i <= |tops| ==> (Reached(place, i) <==> ip in tops[..i])
  {
    for i := 0 to |tops|
      invariant ip !in tops[..i]
    {
      if ip == tops[i] {
        ghost var k := i;
        forall m | 0 <= m <= |tops| ensures i + 1 <= m <==> ip in tops[..m] {
          if i + 1 <= m {
            assert tops[..m][i] == ip;
          } else {
            assert tops[..i][..m] == tops[..m];
          }
        }
        return Some(i + 1);
      }
    }
    forall m | 0 <= m <= |tops| ensures ip !in tops[..m] {
      assert tops[..|tops|][..m] == tops[..m];
    }
    return None;
  }

  predicate Reached(place: Option<nat>, i: nat) { place.Some? && place.value <= i }

  // Where the two addresses of a line stand in the two lists.
  datatype Places = Places(guardInGuards: Option<nat>, guardInExits: Option<nat>,
                           exitInGuards: Option<nat>, exitInExits: Option<nat>) {
    ghost function After(s: Stats, time: real, i: nat, j: nat): Stats
    {
      Counted(s, time, Reached(guardInGuards, i) || Reached(guardInExits, j), Reached(exitInGuards, i) || Reached(exitInExits, j))
    }
  }

  method CountRow(row: seq<Record>, time: real, places: Places, ghost sample: nat, i: nat, ghost e: nat)
    requires RowOk(row, sample, i, e)
    modifies row
    ensures forall j :: 0 <= j <= e ==> row[j].Value() == places.After(old(row[j].Value()), time, i, j)
  {
    hide Counted;
    for j := 0 to |row|
      invariant forall j' :: j <= j' <= e ==> row[j'].Value() == old(row[j'].Value())
      invariant forall j' :: 0 <= j' < j ==> row[j'].Value() == places.After(old(row[j'].Value()), time, i, j')
    {
      var guardBad := (places.guardInGuards != None && places.guardInGuards.value <= i) ||
                      (places.guardInExits != None && places.guardInExits.value <= j);
      var exitBad := (places.exitInGuards != None && places.exitInGuards.value <= i) ||
                     (places.exitInExits != None && places.exitInExits.value <= j);
      row[j].Add(time, guardBad, exitBad);
    }
  }

  // One line adds to every cell of its sample's matrix.
  method CountLine(rows: seq<seq<Record>>, time: real, places: Places, ghost sample: nat, ghost g: nat, ghost e: nat)
    requires MatrixOk(rows, sample, g, e)
    modifies Cells(rows)
    ensures forall i, j :: 0 <= i <= g && 0 <= j <= e ==> rows[i][j].Value() == places.After(old(rows[i][j].Value()), time, i, j)
  {
    hide Counted, Reached;
    for i := 0 to |rows|
      invariant forall i', j :: i <= i' <= g && 0 <= j <= e ==> rows[i'][j].Value() == old(rows[i'][j].Value())
      invariant forall i', j :: 0 <= i' < i && 0 <= j <= e ==>
                  rows[i'][j].Value() == places.After(old(rows[i'][j].Value()), time, i', j)
    {
      CountRow(rows[i], time, places, sample, i, e);
    }
  }

  // The four tests of a cell ask whether the addresses belong to its adversary.
  lemma PlacesAre(places: Places, guard: string, exit: string, topGuards: seq<string>, topExits: seq<string>,
                  s: Stats, time: real, i: nat, j: nat)
    requires i <= |topGuards| && j <= |topExits| && PlacesOk(places, guard, exit, topGuards, topExits)
    ensures places.After(s, time, i, j) ==
              Counted(s, time, guard in Top(topGuards, topExits, i, j), exit in Top(topGuards, topExits, i, j))
  {}

  ghost predicate PlacesOk(places: Places, guard: string, exit: string, topGuards: seq<string>, topExits: seq<string>)
  {
    && (forall i :: 0 <= i <= |topGuards| ==> (Reached(places.guardInGuards, i) <==> guard in topGuards[..i]))
    && (forall i :: 0 <= i <= |topGuards| ==> (Reached(places.exitInGuards, i) <==> exit in topGuards[..i]))
    && (forall j :: 0 <= j <= |topExits| ==> (Reached(places.guardInExits, j) <==> guard in topExits[..j]))
    && (forall j :: 0 <= j <= |topExits| ==> (Reached(places.exitInExits, j) <==> exit in topExits[..j]))
  }

  method AddLine(rows: seq<seq<Record>>, log: seq<Line>, n: nat, topGuards: seq<string>, topExits: seq<string>)
    requires n < |log| && log[n].Stream? && MatrixIs(rows, log[n].id, log[..n], topGuards, topExits)
    modifies Cells(rows)
    ensures MatrixIs(rows, log[n].id, log[..n + 1], topGuards, topExits)
  {
    var guard, exit := log[n].guard, log[n].exit;
    var guardInGuards := PlaceOf(guard, topGuards);
    var exitInGuards := PlaceOf(exit, topGuards);
    var guardInExits := PlaceOf(guard, topExits);
    var exitInExits := PlaceOf(exit, topExits);
    var places := Places(guardInGuards, guardInExits, exitInGuards, exitInExits);
    assert PlacesOk(places, guard, exit, topGuards, topExits);
    hide PlacesOk, Counted, Top, SampleStats, Reached;
    CountLine(rows, log[n].time, places, log[n].id, |topGuards|, |topExits|);
    forall i, j | 0 <= i <= |topGuards| && 0 <= j <= |topExits|
      ensures rows[i][j].Value() == SampleStats(log[..n + 1], log[n].id, Top(topGuards, topExits, i, j))
    {
      LogStep(log, n, log[n].id, Top(topGuards, topExits, i, j));
      PlacesAre(places, guard, exit, topGuards, topExits, old(rows[i][j].Value()), log[n].time, i, j);
    }
  }

  ghost function AllCells(matrices: seq<seq<seq<Record>>>): set<Record>
  {
    set k, i, j | 0 <= k < |matrices| && 0 <= i < |matrices[k]| && 0 <= j < |matrices[k][i]| :: matrices[k][i][j]
  }

  ghost predicate AllMatricesAre(matrices: seq<seq<seq<Record>>>, log: seq<Line>, topGuards: seq<string>, topExits: seq<string>)
    reads AllCells(matrices)
  {
    forall k :: 0 <= k < |matrices| ==> MatrixIs(matrices[k], k, log, topGuards, topExits)
  }

  // A line of another sample changes nothing.
  lemma OtherSample(rows: seq<seq<Record>>, sample: nat, log: seq<Line>, n: nat, topGuards: seq<string>, topExits: seq<string>)
    requires n < |log| && MatrixIs(rows, sample, log[..n], topGuards, topExits)
    requires log[n].Stream? ==> log[n].id != sample
    ensures MatrixIs(rows, sample, log[..n + 1], topGuards, topExits)
  {
    hide Top, SampleStats;
    forall i, j | 0 <= i <= |topGuards| && 0 <= j <= |topExits|
      ensures rows[i][j].Value() == SampleStats(log[..n + 1], sample, Top(topGuards, topExits, i, j))
    {
      LogStep(log, n, sample, Top(topGuards, topExits, i, j));
    }
  }

  lemma CellsApart(rows: seq<seq<Record>>, others: seq<seq<Record>>, sample: nat, other: nat, g: nat, e: nat)
    requires MatrixOk(rows, sample, g, e) && MatrixOk(others, other, g, e) && sample != other
    ensures Cells(rows) !! Cells(others)
  {}

  method NewMatrix(sample: nat, topGuards: seq<string>, topExits: seq<string>, ghost log: seq<Line>) returns (rows: seq<seq<Record>>)
    requires sample >= Samples(log)
    ensures fresh(Cells(rows)) && MatrixIs(rows, sample, log, topGuards, topExits)
  {
    hide Top, SampleStats;
    rows := [];
    for i := 0 to |topGuards| + 1
      invariant |rows| == i && forall record :: record in Cells(rows) ==> fresh(record)
      invariant forall i' :: 0 <= i' < i ==> RowOk(rows[i'], sample, i', |topExits|)
      invariant forall i', j :: 0 <= i' < i && 0 <= j <= |topExits| ==> rows[i'][j].Value() == NoStats
    {
      var row := NewRow(sample, i, |topExits|);
      CellsMore(rows, row);
      rows := rows + [row];
    }
    forall i, j | 0 <= i <= |topGuards| && 0 <= j <= |topExits|
      ensures SampleStats(log, sample, Top(topGuards, topExits, i, j)) == NoStats
    {
      UnseenSample(log, sample, Top(topGuards, topExits, i, j));
    }
  }

  lemma CellsMore(rows: seq<seq<Record>>, row: seq<Record>)
    ensures forall record :: record in Cells(rows + [row]) ==> record in Cells(rows) || record in row
  {
    forall record | record in Cells(rows + [row]) ensures record in Cells(rows) || record in row {
      var i, j :| 0 <= i < |rows| + 1 && 0 <= j < |(rows + [row])[i]| && (rows + [row])[i][j] == record;
      if i < |rows| {
        assert rows[i][j] == record;
      }
    }
  }

  method NewRow(ghost sample: nat, ghost i: nat, e: nat) returns (row: seq<Record>)
    ensures RowOk(row, sample, i, e) && forall record :: record in row ==> fresh(record) && record.Value() == NoStats
  {
    row := [];
    for j := 0 to e + 1
      invariant |row| == j && forall record :: record in row ==> fresh(record) && record.Value() == NoStats
      invariant forall j' :: 0 <= j' < j ==> row[j'].sample == sample && row[j'].row == i && row[j'].column == j'
    {
      var record := new Record(sample, i, j);
      row := row + [record];
    }
  }

  // A comment line makes the parse of its sample number fail: the result is None exactly then.
  // Otherwise every cell is the record of the analysis against that cell's adversary.
  method TopAnalysis(log: seq<Line>, topGuards: seq<string>, topExits: seq<string>)
    returns (matrices: Option<seq<seq<seq<Record>>>>, start: Option<real>, end: Option<real>)
    ensures matrices == None <==> exists n :: 0 <= n < |log| && log[n].Comment?
    ensures matrices.Some? ==>
              && |matrices.value| == Samples(log) && AllMatricesAre(matrices.value, log, topGuards, topExits)
              && Span(log, start, end)
  {
    hide Span, MatrixIs;
    var all: seq<seq<seq<Record>>> := [];
    start, end := None, None;
    SpanOfNothing();
    assert log[..0] == [];
    for n := 0 to |log|
      invariant fresh(AllCells(all)) && |all| == Samples(log[..n])
      invariant AllMatricesAre(all, log[..n], topGuards, topExits)
      invariant Span(log[..n], start, end)
      invariant forall m :: 0 <= m < n ==> !log[m].Comment?
    {
      if log[n].Comment? {
        return None, start, end;
      }
      SpanStep(log, n, start, end);
      all := GrowMatrices(all, log[n].id, topGuards, topExits, log[..n]);
      start, end := Earlier(start, log[n].time), Later(end, log[n].time);
      AddToSample(all, log, n, topGuards, topExits);
      LogStep(log, n, 0, {});
    }
    assert log[..|log|] == log;
    return Some(all), start, end;
  }

  method AddToSample(all: seq<seq<seq<Record>>>, log: seq<Line>, n: nat, topGuards: seq<string>, topExits: seq<string>)
    requires n < |log| && log[n].Stream? && log[n].id < |all| && AllMatricesAre(all, log[..n], topGuards, topExits)
    modifies AllCells(all)
    ensures AllMatricesAre(all, log[..n + 1], topGuards, topExits)
  {
    var id := log[n].id;
    assert Cells(all[id]) <= AllCells(all);
    forall k | 0 <= k < |all| && k != id ensures Cells(all[k]) !! Cells(all[id]) {
      CellsApart(all[k], all[id], k, id, |topGuards|, |topExits|);
    }
    hide MatrixIs, Cells, AllCells;
    AddLine(all[id], log, n, topGuards, topExits);
    forall k | 0 <= k < |all| ensures MatrixIs(all[k], k, log[..n + 1], topGuards, topExits) {
      if k != id {
        assert MatrixIs(all[k], k, log[..n], topGuards, topExits);
        OtherSample(all[k], k, log, n, topGuards, topExits);
      }
    }
  }

  method GrowMatrices(all: seq<seq<seq<Record>>>, id: nat, topGuards: seq<string>, topExits: seq<string>, ghost log: seq<Line>)
    returns (r: seq<seq<seq<Record>>>)
    requires |all| == Samples(log) && AllMatricesAre(all, log, topGuards, topExits)
    ensures forall record :: record in AllCells(r) ==> record in AllCells(all) || fresh(record)
    ensures |r| == if id >= |all| then id + 1 else |all|
    ensures AllMatricesAre(r, log, topGuards, topExits)
  {
    hide MatrixIs;
    r := all;
    while |r| < id + 1
      invariant forall record :: record in AllCells(r) ==> record in AllCells(all) || fresh(record)
      invariant |r| >= |all| && (|r| == |all| || |r| <= id + 1)
      invariant AllMatricesAre(r, log, topGuards, topExits)
    {
      ghost var was := r;
      label Before:
      var rows := NewMatrix(|r|, topGuards, topExits, log);
      forall k | 0 <= k < |r| + 1 ensures MatrixIs((r + [rows])[k], k, log, topGuards, topExits) {
        if k < |r| {
          assert (r + [rows])[k] == was[k];
          assert forall record :: record in Cells(was[k]) ==> unchanged@Before(record);
          assert MatrixIs(was[k], k, log, topGuards, topExits);
        }
      }
      r := r + [rows];
    }
  }

  // The fast form and the simple one record the same of every sample.
  lemma MatrixAgreesWithSet(log: seq<Line>, topGuards: seq<string>, topExits: seq<string>, matrices: seq<seq<seq<Record>>>,
                            i: nat, j: nat, list: seq<Record>)
    requires i <= |topGuards| && j <= |topExits|
    requires |matrices| == Samples(log) && AllMatricesAre(matrices, log, topGuards, topExits)
    requires ListIs(list, log, set r | r in topGuards[..i] + topExits[..j])
    ensures |matrices| == |list|
    ensures forall k :: 0 <= k < |list| ==>
              && |matrices[k]| == |topGuards| + 1 && |matrices[k][i]| == |topExits| + 1
              && matrices[k][i][j].Value() == list[k].Value()
  {
    forall k | 0 <= k < |list|
      ensures MatrixIs(matrices[k], k, log, topGuards, topExits) && RowOk(matrices[k][i], k, i, |topExits|)
      ensures matrices[k][i][j].Value() == list[k].Value()
    {
      assert MatrixIs(matrices[k], k, log, topGuards, topExits);
      assert Top(topGuards, topExits, i, j) == set r | r in topGuards[..i] + topExits[..j];
    }
  }

  // ---------- compromise rates over all samples ----------

  ghost function Sum(stats: seq<Stats>, f: Stats -> nat): nat
  {
    if stats == [] then 0 else Sum(stats[..|stats| - 1], f) + f(stats[|stats| - 1])
  }

  // The fractions of streams with a bad guard, a bad exit and both. None is the division by zero
  // without any stream.
  method CompromiseRates(stats: seq<Stats>) returns (rates: Option<(real, real, real)>)
    ensures var n := Sum(stats, (s: Stats) => s.Streams());
            if n == 0 then rates == None
            else rates == Some((Sum(stats, (s: Stats) => s.GuardBad()) as real / n as real,
                                Sum(stats, (s: Stats) => s.ExitBad()) as real / n as real,
                                Sum(stats, (s: Stats) => s.both) as real / n as real))
  {
    var streams, guardBad, exitBad, bothBad := 0, 0, 0, 0;
    ghost var f, g, e, b := (s: Stats) => s.Streams(), (s: Stats) => s.GuardBad(), (s: Stats) => s.ExitBad(), (s: Stats) => s.both;
    for k := 0 to |stats|
      invariant streams == Sum(stats[..k], f) && guardBad == Sum(stats[..k], g)
      invariant exitBad == Sum(stats[..k], e) && bothBad == Sum(stats[..k], b)
    {
      assert stats[..k + 1][..k] == stats[..k];
      streams := streams + stats[k].guardOnly + stats[k].exitOnly + stats[k].both + stats[k].good;
      guardBad := guardBad + stats[k].guardOnly + stats[k].both;
      exitBad := exitBad + stats[k].exitOnly + stats[k].both;
      bothBad := bothBad + stats[k].both;
    }
    assert stats[..|stats|] == stats;
    if streams == 0 {
      return None;
    }
    return Some((guardBad as real / streams as real, exitBad as real / streams as real, bothBad as real / streams as real));
  }

  ghost function AllStats(log: seq<Line>, bad: set<string>, n: nat): (r: seq<Stats>)
    ensures |r| == n
  {
    seq(n, k requires 0 <= k < n => SampleStats(log, k, bad))
  }

  ghost function InSample(id: nat, q: Line -> bool): Line -> bool { (l: Line) => Seen(l, id) && q(l) }
  ghost function UpTo(n: nat, q: Line -> bool): Line -> bool { (l: Line) => l.Stream? && l.id < n && q(l) }

  ghost function AnyStream(): Line -> bool { (l: Line) => l.Stream? }
  ghost function AnyGuardBad(bad: set<string>): Line -> bool { (l: Line) => l.Stream? && l.guard in bad }
  ghost function AnyExitBad(bad: set<string>): Line -> bool { (l: Line) => l.Stream? && l.exit in bad }
  ghost function AnyBothBad(bad: set<string>): Line -> bool { (l: Line) => l.Stream? && l.guard in bad && l.exit in bad }

  // Over all samples the counts are those of the log's lines: nothing is lost or counted twice.
  lemma RatesCountLines(log: seq<Line>, bad: set<string>)
    ensures var stats := AllStats(log, bad, Samples(log));
            && Sum(stats, (s: Stats) => s.Streams()) == Count(log, AnyStream())
            && Sum(stats, (s: Stats) => s.GuardBad()) == Count(log, AnyGuardBad(bad))
            && Sum(stats, (s: Stats) => s.ExitBad()) == Count(log, AnyExitBad(bad))
            && Sum(stats, (s: Stats) => s.both) == Count(log, AnyBothBad(bad))
  {
    forall k: nat
      ensures SampleStats(log, k, bad).Streams() == Count(log, InSample(k, AnyStream()))
      ensures SampleStats(log, k, bad).GuardBad() == Count(log, InSample(k, AnyGuardBad(bad)))
      ensures SampleStats(log, k, bad).ExitBad() == Count(log, InSample(k, AnyExitBad(bad)))
      ensures SampleStats(log, k, bad).both == Count(log, InSample(k, AnyBothBad(bad)))
    {
      StatsAddUp(log, k, bad);
      StatsMean(log, k, bad);
      CountSame(log, OfSample(k), InSample(k, AnyStream()));
      CountSame(log, WithGuard(k, bad), InSample(k, AnyGuardBad(bad)));
      CountSame(log, WithExit(k, bad), InSample(k, AnyExitBad(bad)));
      CountSame(log, Both(k, bad), InSample(k, AnyBothBad(bad)));
    }
    SumIsCount(log, bad, (s: Stats) => s.Streams(), AnyStream());
    SumIsCount(log, bad, (s: Stats) => s.GuardBad(), AnyGuardBad(bad));
    SumIsCount(log, bad, (s: Stats) => s.ExitBad(), AnyExitBad(bad));
    SumIsCount(log, bad, (s: Stats) => s.both, AnyBothBad(bad));
  }

  lemma SumIsCount(log: seq<Line>, bad: set<string>, f: Stats -> nat, q: Line -> bool)
    requires forall k: nat :: f(SampleStats(log, k, bad)) == Count(log, InSample(k, q))
    requires forall l :: q(l) ==> l.Stream?
    ensures Sum(AllStats(log, bad, Samples(log)), f) == Count(log, q)
  {
    SumUpTo(log, bad, Samples(log), f, q);
    IdsBelow(log);
    CountSame(log, UpTo(Samples(log), q), q);
  }

  lemma {:induction false} SumUpTo(log: seq<Line>, bad: set<string>, n: nat, f: Stats -> nat, q: Line -> bool)
    requires forall k: nat :: f(SampleStats(log, k, bad)) == Count(log, InSample(k, q))
    ensures Sum(AllStats(log, bad, n), f) == Count(log, UpTo(n, q))
  {
    if n == 0 {
      CountNone(log, UpTo(n, q));
    } else {
      var stats := AllStats(log, bad, n);
      assert stats[..n - 1] == AllStats(log, bad, n - 1);
      SumUpTo(log, bad, n - 1, f, q);
      UpToStep(log, n - 1, q);
    }
  }

  lemma UpToStep(log: seq<Line>, n: nat, q: Line -> bool)
    ensures Count(log, UpTo(n + 1, q)) == Count(log, UpTo(n, q)) + Count(log, InSample(n, q))
  {
    var more := UpTo(n + 1, q);
    forall l: Line ensures more(l) == (UpTo(n, q)(l) || InSample(n, q)(l)) && !(UpTo(n, q)(l) && InSample(n, q)(l)) {
      assert UpTo(n, q)(l) == (l.Stream? && l.id < n && q(l));
      assert InSample(n, q)(l) == (Seen(l, n) && q(l));
      assert more(l) == (l.Stream? && l.id < n + 1 && q(l));
    }
    CountSplit(log, UpTo(n, q), InSample(n, q), more);
  }

  lemma {:induction false} CountSame(log: seq<Line>, p: Line -> bool, q: Line -> bool)
    requires forall l :: l in log ==> p(l) == q(l)
    ensures Count(log, p) == Count(log, q)
  {
    if log != [] {
      CountSame(log[..|log| - 1], p, q);
    }
  }

  lemma {:induction false} CountNone(log: seq<Line>, p: Line -> bool)
    requires forall l :: l in log ==> !p(l)
    ensures Count(log, p) == 0
  {
    if log != [] {
      CountNone(log[..|log| - 1], p);
    }
  }

  lemma {:induction false} IdsBelow(log: seq<Line>)
    ensures forall l :: l in log && l.Stream? ==> l.id < Samples(log)
  {
    if log != [] {
      IdsBelow(log[..|log| - 1]);
      assert log == log[..|log| - 1] + [log[|log| - 1]];
    }
  }
}
